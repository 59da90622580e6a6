/** The song-id scan of `__fetch_page`: Python's `re.search` of
    `(?i)"song ?id.?":([0-9]+)` over a page, written out as a left-to-right
    search with the regex engine's order of trying the optional parts. */
module SongId {
  import opened Wrappers
  import opened PyStr

  /** A character of the page matches a lower-case letter of the pattern
      under re.IGNORECASE on a str pattern: the letter, its upper case, and
      the non-ASCII case variants Python also folds onto 's' (LONG S) and
      'i' (DOTTED CAPITAL I, DOTLESS SMALL I). */
  predicate Folds(c: char, letter: char)
  {
    || c == letter
    || c as int == letter as int - 32
    || (letter == 's' && c == '\U{017F}')
    || (letter == 'i' && (c == '\U{0130}' || c == '\U{0131}'))
  }

  /** Where the key `"song ?id.?":` ends when it matches at `p`, taking the
      optional space and the optional any-character (`.`, which does not
      match a newline) as `space` and `any` say. */
  function KeyEnd(s: string, p: nat, space: bool, any: bool): (k: Option<nat>)
    ensures k.Some? ==> p + 9 <= k.value <= |s| && s[k.value - 2] == '"' && s[k.value - 1] == ':'
    ensures k.Some? ==> s[p] == '"' && Folds(s[p + 1], 's')
  {
    var a := p + 5 + (if space then 1 else 0);
    var b := a + 2 + (if any then 1 else 0);
    if b + 2 <= |s|
       && s[p] == '"' && Folds(s[p + 1], 's') && Folds(s[p + 2], 'o')
       && Folds(s[p + 3], 'n') && Folds(s[p + 4], 'g')
       && (space ==> s[p + 5] == ' ')
       && Folds(s[a], 'i') && Folds(s[a + 1], 'd')
       && (any ==> s[a + 2] != '\n')
       && s[b] == '"' && s[b + 1] == ':'
    then Some(b + 2)
    else None
  }

  /** The captured group `([0-9]+)` after a key ending at `k`: the maximal
      run of ASCII digits, which must not be empty. */
  function DigitsAfter(s: string, k: Option<nat>): (r: Option<string>)
    requires k.Some? ==> k.value <= |s|
    ensures r.Some? ==> k.Some? && r.value != [] && AllDigits(r.value)
    ensures r.Some? ==> var e := k.value + |r.value|;
      e <= |s| && s[k.value..e] == r.value && (e == |s| || !IsDigit(s[e]))
  {
    match k
    case None => None
    case Some(start) =>
      var n := Span(s[start..], IsDigit);
      if n == 0 then None
      else
        assert s[start..start + n] == s[start..][..n];
        Some(s[start..start + n])
  }

  /** The match of the whole pattern starting at `p`, if there is one. The
      engine tries the space before no space and the any-character before
      none, backtracking when the rest fails. */
  function MatchAt(s: string, p: nat): (r: Option<string>)
    ensures r.Some? ==> r.value != [] && AllDigits(r.value)
    ensures r.Some? ==> p + 9 < |s| && s[p] == '"'
  {
    var m1 := DigitsAfter(s, KeyEnd(s, p, true, true));
    if m1.Some? then m1
    else
      var m2 := DigitsAfter(s, KeyEnd(s, p, true, false));
      if m2.Some? then m2
      else
        var m3 := DigitsAfter(s, KeyEnd(s, p, false, true));
        if m3.Some? then m3
        else DigitsAfter(s, KeyEnd(s, p, false, false))
  }

  /** Leftmost match at or after `from` and before `end`, `matchAt` telling
      whether a match starts at a position. */
  function SearchFrom(matchAt: nat -> Option<string>, end: nat, from: nat): (r: Option<string>)
    requires from <= end
    decreases end - from
    ensures r.None? <==> forall q :: from <= q < end ==> matchAt(q).None?
    ensures r.Some? ==> exists q :: from <= q < end && matchAt(q) == r
                          && forall q' :: from <= q' < q ==> matchAt(q').None?
  {
    if from == end then None
    else
      var m := matchAt(from);
      if m.Some? then m
      else SearchFrom(matchAt, end, from + 1)
  }

  /** The pattern tried at each position of a page. */
  function Matcher(s: string): nat -> Option<string>
  {
    (p: nat) => MatchAt(s, p)
  }

  /** `re.search(...)` then `group(1)`: the id captured by the leftmost match
      in the page, or None, where `__fetch_page` raises. */
  function FindSongId(html: string): (r: Option<string>)
    ensures r.None? <==> forall q :: 0 <= q < |html| ==> MatchAt(html, q).None?
    ensures r.Some? ==> r.value != [] && AllDigits(r.value)
    ensures r.Some? ==> exists q :: 0 <= q < |html| && MatchAt(html, q) == r
                          && forall q' :: 0 <= q' < q ==> MatchAt(html, q').None?
  {
    var r := SearchFrom(Matcher(html), |html|, 0);
    assert forall q :: Matcher(html)(q) == MatchAt(html, q);
    r
  }

  lemma {:induction false} DigitRunOf(id: string, post: string)
    requires AllDigits(id)
    requires post == [] || !IsDigit(post[0])
    ensures Span(id + post, IsDigit) == |id|
  {
    if id != [] {
      assert (id + post)[1..] == id[1..] + post;
      DigitRunOf(id[1..], post);
    }
  }

  lemma KeyedMatch(pre: string, id: string, post: string)
    requires id != [] && AllDigits(id)
    requires post == [] || !IsDigit(post[0])
    ensures MatchAt(pre + "\"songId\":" + id + post, |pre|) == Some(id)
  {
    var key := "\"songId\":";
    var s := pre + key + id + post;
    var q := |pre|;
    forall i | 0 <= i < 9 ensures s[q + i] == key[i] { }
    assert s[q + 5] == 'I' && s[q + 6] == 'd' && s[q + 7] == '"' && s[q + 8] == ':';
    assert KeyEnd(s, q, true, true).None?;
    assert KeyEnd(s, q, true, false).None?;
    assert KeyEnd(s, q, false, true).None?;
    assert KeyEnd(s, q, false, false) == Some(q + 9);
    assert s[q + 9..] == id + post;
    DigitRunOf(id, post);
    assert s[q + 9..q + 9 + |id|] == id;
  }

  /** A page whose first quote opens the key `"songId":` yields exactly the
      digits that follow it, however the page goes on. */
  lemma SongIdOfKeyedPage(pre: string, id: string, post: string)
    requires '"' !in pre
    requires id != [] && AllDigits(id)
    requires post == [] || !IsDigit(post[0])
    ensures FindSongId(pre + "\"songId\":" + id + post) == Some(id)
  {
    var s := pre + "\"songId\":" + id + post;
    var q := |pre|;
    forall q' | 0 <= q' < q
      ensures MatchAt(s, q').None?
    {
      assert s[q'] == pre[q'];
    }
    KeyedMatch(pre, id, post);
    var r := FindSongId(s);
    assert r.Some?;
    var first :| 0 <= first < |s| && MatchAt(s, first) == r
                 && forall q' :: 0 <= q' < first ==> MatchAt(s, q').None?;
    assert first == q;
  }
}
