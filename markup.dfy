/** What gTagger does with page markup itself, once the HTML parser is set
    aside: the `<br>` rewrite before the lyrics are looked up, and the
    track-number lookup in an album page's chart rows. */
module Markup {
  import opened Wrappers
  import opened PyStr

  /** A match of `<br/?>` starts at `i`. */
  predicate BreakAt(s: string, i: int)
  {
    && 0 <= i
    && ((i + 4 <= |s| && s[i..i + 4] == "<br>") || (i + 5 <= |s| && s[i..i + 5] == "<br/>"))
  }

  /** `re.sub(r'<br/?>', '\n', html)`: every `<br>` and `<br/>`, matched left
      to right without overlap, becomes a newline; nothing else changes. */
  function ReplaceBreaks(s: string): (r: string)
    ensures |r| <= |s|
  {
    if s == [] then []
    else if |s| >= 5 && s[..5] == "<br/>" then "\n" + ReplaceBreaks(s[5..])
    else if |s| >= 4 && s[..4] == "<br>" then "\n" + ReplaceBreaks(s[4..])
    else [s[0]] + ReplaceBreaks(s[1..])
  }

  /** Where the input does not start with a break, the rewrite copies its
      first character. */
  lemma CopiesFirst(t: string)
    requires t != [] && !BreakAt(t, 0)
    ensures ReplaceBreaks(t) == [t[0]] + ReplaceBreaks(t[1..])
  {
    assert !(|t| >= 5 && t[..5] == "<br/>") && !(|t| >= 4 && t[..4] == "<br>");
  }

  /** Up to the first newline it writes, the rewrite copies its input. */
  lemma {:induction false} BreaksCopiedPrefix(t: string, k: nat)
    requires k <= |ReplaceBreaks(t)|
    requires forall j :: 0 <= j < k ==> ReplaceBreaks(t)[j] != '\n'
    ensures k <= |t| && ReplaceBreaks(t)[..k] == t[..k]
  {
    if k > 0 {
      var r := ReplaceBreaks(t);
      assert r[0] != '\n';
      CopiesFirst(t);
      var r' := ReplaceBreaks(t[1..]);
      forall j | 0 <= j < k - 1 ensures r'[j] != '\n' {
        assert r'[j] == r[j + 1];
      }
      BreaksCopiedPrefix(t[1..], k - 1);
      assert r[..k] == [t[0]] + r'[..k - 1];
      assert t[..k] == [t[0]] + t[1..][..k - 1];
    }
  }

  lemma BreakShift(c: string, r: string, i: int)
    requires i > 0 && BreakAt(c + r, i) && |c| == 1
    ensures BreakAt(r, i - 1)
  {
    var s := c + r;
    if i + 4 <= |s| && s[i..i + 4] == "<br>" { assert s[i..i + 4] == r[i - 1..i + 3]; }
    if i + 5 <= |s| && s[i..i + 5] == "<br/>" { assert s[i..i + 5] == r[i - 1..i + 4]; }
  }

  /** A single character put in front of break-free text can only start a
      break itself. */
  lemma NoBreakAfterHead(head: string, r: string)
    requires |head| == 1 && forall i :: !BreakAt(r, i)
    ensures forall i :: 0 < i ==> !BreakAt(head + r, i)
  {
    forall i | 0 < i
      ensures !BreakAt(head + r, i)
    {
      if BreakAt(head + r, i) { BreakShift(head, r, i); }
    }
  }

  /** A copied first character does not start a newline-free pattern in the
      output when it did not start it in the input. */
  lemma CopiedFirstNotPattern(s: string, pat: string)
    requires s != [] && |pat| > 1 && '\n' !in pat
    requires !(|s| >= |pat| && s[..|pat|] == pat)
    ensures var r := [s[0]] + ReplaceBreaks(s[1..]); !(|r| >= |pat| && r[..|pat|] == pat)
  {
    var u := s[1..];
    var ru := ReplaceBreaks(u);
    var r := [s[0]] + ru;
    var m := |pat| - 1;
    if |r| >= |pat| && r[..|pat|] == pat {
      assert r[1..] == ru;
      PrefixAfterFirst(r, |pat|);
      forall j | 0 <= j < m ensures ru[j] != '\n' {
        assert ru[j] == pat[j + 1];
      }
      BreaksCopiedPrefix(u, m);
      PrefixAfterFirst(s, |pat|);
      assert false;
    }
  }

  lemma PrefixAfterFirst(s: string, n: int)
    ensures 0 < n <= |s| ==> s[..n] == [s[0]] + s[1..][..n - 1]
  {
    if 0 < n <= |s| {
      assert s[..n] == [s[0]] + s[1..n];
    }
  }

  /** A copied first character does not start a break in the output when it
      did not start one in the input. */
  lemma CopiedFirstNoBreak(s: string)
    requires s != [] && !BreakAt(s, 0)
    ensures !BreakAt([s[0]] + ReplaceBreaks(s[1..]), 0)
  {
    CopiedFirstNotPattern(s, "<br>");
    CopiedFirstNotPattern(s, "<br/>");
  }

  /** After the rewrite no `<br>` or `<br/>` is left: a newline cannot be part
      of one, so the rewrite creates none. */
  lemma {:induction false} NoBreaksRemain(s: string)
    ensures forall i :: !BreakAt(ReplaceBreaks(s), i)
  {
    if s != [] {
      var r := ReplaceBreaks(s);
      if BreakAt(s, 0) {
        var n := if |s| >= 5 && s[..5] == "<br/>" then 5 else 4;
        NoBreaksRemain(s[n..]);
        assert r == "\n" + ReplaceBreaks(s[n..]);
        NoBreakAfterHead("\n", ReplaceBreaks(s[n..]));
        assert r[0] == '\n';
      } else {
        CopiesFirst(s);
        NoBreaksRemain(s[1..]);
        NoBreakAfterHead([s[0]], ReplaceBreaks(s[1..]));
        CopiedFirstNoBreak(s);
      }
      assert forall i :: i <= 0 ==> i == 0 || !BreakAt(r, i);
    }
  }

  /** Markup without `<br>` or `<br/>` comes through unchanged. */
  lemma {:induction false} ReplaceBreaksIdentity(s: string)
    requires forall i :: !BreakAt(s, i)
    ensures ReplaceBreaks(s) == s
  {
    if s != [] {
      assert !BreakAt(s, 0);
      forall i | 0 <= i ensures !BreakAt(s[1..], i) {
        assert s == [s[0]] + s[1..];
        if BreakAt(s[1..], i) {
          assert s[i + 1..] == s[1..][i..];
          assert BreakAt(s, i + 1);
        }
      }
      ReplaceBreaksIdentity(s[1..]);
    }
  }

  /** Rewriting twice is rewriting once. */
  lemma ReplaceBreaksIdempotent(s: string)
    ensures ReplaceBreaks(ReplaceBreaks(s)) == ReplaceBreaks(s)
  {
    NoBreaksRemain(s);
    ReplaceBreaksIdentity(ReplaceBreaks(s));
  }

  /** Text that starts with `<` cannot end a break begun before it, since
      `<` occurs only at the start of `<br>` and `<br/>`: the rewrite of a
      concatenation is the concatenation of the rewrites. */
  lemma {:induction false} ReplaceBreaksSplit(a: string, b: string)
    requires b == [] || b[0] == '<'
    ensures ReplaceBreaks(a + b) == ReplaceBreaks(a) + ReplaceBreaks(b)
  {
    if a == [] {
      assert a + b == b && ReplaceBreaks(a) == [];
    } else {
      var h, n := FirstStepBeforeCut(a, b);
      ReplaceBreaksSplit(a[n..], b);
      Regroup(h, ReplaceBreaks(a[n..]), ReplaceBreaks(b));
    }
  }

  /** The rewrite takes the same first step on `a` and on `a + b`: it writes
      `h` for the first `n` characters of `a`. */
  lemma FirstStepBeforeCut(a: string, b: string) returns (h: string, n: nat)
    requires a != [] && (b == [] || b[0] == '<')
    ensures 0 < n <= |a|
    ensures ReplaceBreaks(a) == h + ReplaceBreaks(a[n..])
    ensures ReplaceBreaks(a + b) == h + ReplaceBreaks(a[n..] + b)
  {
    var s := a + b;
    if |a| >= 5 && a[..5] == "<br/>" {
      assert s[..5] == a[..5] && s[5..] == a[5..] + b;
      h, n := "\n", 5;
    } else if |a| >= 4 && a[..4] == "<br>" {
      assert s[..4] == a[..4] && s[3] == '>';
      assert s[4..] == a[4..] + b;
      h, n := "\n", 4;
    } else {
      assert s[1..] == a[1..] + b;
      NoBreakAcrossCut(a, b);
      h, n := [a[0]], 1;
    }
  }

  /** The step of `ReplaceBreaksSplit` where `a` does not start with a break:
      neither does `a + b`. */
  lemma NoBreakAcrossCut(a: string, b: string)
    requires a != [] && (b == [] || b[0] == '<')
    requires !(|a| >= 5 && a[..5] == "<br/>") && !(|a| >= 4 && a[..4] == "<br>")
    ensures !(|a + b| >= 5 && (a + b)[..5] == "<br/>") && !(|a + b| >= 4 && (a + b)[..4] == "<br>")
  {
    var s := a + b;
    if b == [] { assert s == a; }
    if b != [] && |a| < 5 { assert s[|a|] == '<'; }
    if |a| >= 5 { assert s[..5] == a[..5]; }
    if |a| >= 4 { assert s[..4] == a[..4]; }
  }

  /** Every `<br>` and every `<br/>` becomes exactly one newline, and the
      markup on either side is rewritten on its own. */
  lemma ReplaceBreaksAt(a: string, br: string, b: string)
    requires br == "<br>" || br == "<br/>"
    ensures ReplaceBreaks(a + br + b) == ReplaceBreaks(a) + "\n" + ReplaceBreaks(b)
  {
    Regroup(a, br, b);
    ReplaceBreaksSplit(a, br + b);
    LeadingBreak(br, b);
    Regroup(ReplaceBreaks(a), "\n", ReplaceBreaks(b));
  }

  /** A leading break is rewritten to one newline. */
  lemma LeadingBreak(br: string, b: string)
    requires br == "<br>" || br == "<br/>"
    ensures ReplaceBreaks(br + b) == "\n" + ReplaceBreaks(b)
  {
    var t := br + b;
    assert t[..|br|] == br && t[|br|..] == b && t[3] == br[3];
  }

  /** One `div.chart_row` of an album page, as the parser gives it: its
      markup (`str(row)`) and its text (`row.text`). */
  datatype ChartRow = ChartRow(markup: string, text: string)

  /** Why `__get_track_number` raises. */
  datatype TrackError =
    | NoRowForSong   // IndexError: no row mentions the song's URL
    | BlankRow       // IndexError: the row's text has no word
    | NotAnInteger   // ValueError: its first word is not an integer

  /** Index of the first row whose markup contains `url`. */
  function FirstRowWith(rows: seq<ChartRow>, url: string): (r: Option<nat>)
    ensures r.Some? ==> r.value < |rows| && Contains(rows[r.value].markup, url)
    ensures r.Some? ==> forall j :: 0 <= j < r.value ==> !Contains(rows[j].markup, url)
    ensures r.None? ==> forall j :: 0 <= j < |rows| ==> !Contains(rows[j].markup, url)
  {
    if rows == [] then None
    else if Contains(rows[0].markup, url) then Some(0)
    else
      match FirstRowWith(rows[1..], url)
      case None => None
      case Some(i) => Some(i + 1)
  }

  /** `int(row.text.split()[0])` for the first row mentioning the song. */
  function TrackFromRows(rows: seq<ChartRow>, songUrl: string): (r: Result<int, TrackError>)
    ensures r == Failure(NoRowForSong) <==> forall j :: 0 <= j < |rows| ==> !Contains(rows[j].markup, songUrl)
    ensures r.Success? ==> exists i :: TrackRow(rows, songUrl, i) && ParseInt(FirstToken(rows[i].text).value) == Some(r.value)
    ensures var f := FirstRowWith(rows, songUrl);
      r == Failure(BlankRow) <==> f.Some? && AllSpace(rows[f.value].text)
    ensures var f := FirstRowWith(rows, songUrl);
      r == Failure(NotAnInteger) <==>
        f.Some? && FirstToken(rows[f.value].text).Some? && ParseInt(FirstToken(rows[f.value].text).value).None?
    ensures var f := FirstRowWith(rows, songUrl);
      f.Some? && FirstToken(rows[f.value].text).Some? && ParseInt(FirstToken(rows[f.value].text).value).Some? ==>
        r == Success(ParseInt(FirstToken(rows[f.value].text).value).value)
  {
    match FirstRowWith(rows, songUrl)
    case None => Failure(NoRowForSong)
    case Some(i) =>
      match FirstToken(rows[i].text)
      case None => Failure(BlankRow)
      case Some(word) =>
        match ParseInt(word)
        case None => Failure(NotAnInteger)
        case Some(n) =>
          assert TrackRow(rows, songUrl, i);
          Success(n)
  }

  /** Row `i` is the first that mentions the song, and its text has a word. */
  predicate TrackRow(rows: seq<ChartRow>, songUrl: string, i: int)
  {
    && 0 <= i < |rows|
    && Contains(rows[i].markup, songUrl)
    && (forall j :: 0 <= j < i ==> !Contains(rows[j].markup, songUrl))
    && FirstToken(rows[i].text).Some?
  }

  /** A row that leads with the track number the way Genius prints it
      (its decimal form and then a space) gives that number, provided no
      earlier row mentions the song. */
  lemma TrackOfNumberedRow(rows: seq<ChartRow>, songUrl: string, i: nat, n: nat, rest: string)
    requires i < |rows| && Contains(rows[i].markup, songUrl)
    requires forall j :: 0 <= j < i ==> !Contains(rows[j].markup, songUrl)
    requires rows[i].text == Str(n) + " " + rest
    ensures TrackFromRows(rows, songUrl) == Success(n)
  {
    var t := rows[i].text;
    var d := Str(n);
    assert FirstRowWith(rows, songUrl) == Some(i);
    assert d == Decimal(n);
    assert forall k :: 0 <= k < |d| ==> t[k] == d[k] && !IsSpace(t[k]);
    assert Span(t, IsSpace) == 0;
    assert t[0..] == t;
    assert Span(t, NotSpace) == |d| by {
      assert t[|d|] == ' ';
    }
    assert t[..|d|] == d;
    assert FirstToken(t) == Some(d);
    ParseIntOfStr(n);
  }
}
