/** The new file name of `__rename_file`: "<artist> - <title><ext>" made
    legal by the sanitizer, whitespace runs collapsed, in the old directory. */
module Naming {
  import opened PyStr
  import opened PosixPath

  /** No whitespace other than ' ', and never two whitespace characters in
      a row. */
  predicate Collapsed(s: string)
  {
    && (forall i :: 0 <= i < |s| && IsSpace(s[i]) ==> s[i] == ' ')
    && (forall i :: 0 <= i < |s| - 1 ==> !(IsSpace(s[i]) && IsSpace(s[i + 1])))
  }

  /** `re.sub(r'\s+', ' ', s)`. */
  function CollapseWhitespace(s: string): (r: string)
    ensures Collapsed(r)
    ensures r == [] <==> s == []
    ensures r != [] ==> (IsSpace(r[0]) <==> IsSpace(s[0]))
    ensures forall c :: c in r && c != ' ' ==> c in s
  {
    if s == [] then []
    else if IsSpace(s[0]) then
      var rest := s[Span(s, IsSpace)..];
      var r := " " + CollapseWhitespace(rest);
      assert forall i :: 0 < i < |r| ==> r[i] == CollapseWhitespace(rest)[i - 1];
      r
    else
      var r := [s[0]] + CollapseWhitespace(s[1..]);
      assert forall i :: 0 < i < |r| ==> r[i] == CollapseWhitespace(s[1..])[i - 1];
      r
  }

  /** The characters that are not whitespace, in order. */
  function Words(s: string): string
  {
    if s == [] then [] else (if IsSpace(s[0]) then [] else [s[0]]) + Words(s[1..])
  }

  lemma {:induction false} WordsOfSpaces(s: string, n: nat)
    requires n <= |s| && forall i :: 0 <= i < n ==> IsSpace(s[i])
    ensures Words(s) == Words(s[n..])
  {
    if n > 0 {
      WordsOfSpaces(s[1..], n - 1);
      assert s[1..][n - 1..] == s[n..];
    }
  }

  /** Collapsing keeps every non-whitespace character, in order: only the
      whitespace changes. */
  lemma {:induction false} CollapseKeepsWords(s: string)
    ensures Words(CollapseWhitespace(s)) == Words(s)
  {
    if s != [] {
      if IsSpace(s[0]) {
        var n := Span(s, IsSpace);
        CollapseKeepsWords(s[n..]);
        WordsOfSpaces(s, n);
        var r := CollapseWhitespace(s);
        assert r[1..] == CollapseWhitespace(s[n..]);
      } else {
        CollapseKeepsWords(s[1..]);
        var r := CollapseWhitespace(s);
        assert r[1..] == CollapseWhitespace(s[1..]);
      }
    }
  }

  /** A string already collapsed comes through unchanged. */
  lemma {:induction false} CollapseFixesCollapsed(s: string)
    requires Collapsed(s)
    ensures CollapseWhitespace(s) == s
  {
    if s != [] {
      assert Collapsed(s[1..]) by {
        forall i | 0 <= i < |s[1..]| - 1 ensures !(IsSpace(s[1..][i]) && IsSpace(s[1..][i + 1])) {
          assert s[1..][i] == s[i + 1] && s[1..][i + 1] == s[i + 2];
        }
      }
      CollapseFixesCollapsed(s[1..]);
      if IsSpace(s[0]) {
        assert s[0] == ' ';
        assert |s| > 1 ==> !IsSpace(s[1]);
        assert Span(s, IsSpace) == 1;
      }
    }
  }

  /** Collapsing twice is collapsing once. */
  lemma CollapseIdempotent(s: string)
    ensures CollapseWhitespace(CollapseWhitespace(s)) == CollapseWhitespace(s)
  {
    CollapseFixesCollapsed(CollapseWhitespace(s));
  }

  /** Text that ends in something other than whitespace (or is empty) is
      collapsed on its own, whatever follows it. */
  lemma {:induction false} CollapseSplit(a: string, t: string)
    requires a == [] || !IsSpace(a[|a| - 1])
    ensures CollapseWhitespace(a + t) == CollapseWhitespace(a) + CollapseWhitespace(t)
  {
    if a == [] {
      assert a + t == t && CollapseWhitespace(a) == [];
    } else {
      var h, n := FirstCollapseStep(a, t);
      CollapseSplit(a[n..], t);
      Regroup(h, CollapseWhitespace(a[n..]), CollapseWhitespace(t));
    }
  }

  /** Collapsing takes the same first step on `a` and on `a + t`, since a
      whitespace run inside `a` ends before `a` does. */
  lemma FirstCollapseStep(a: string, t: string) returns (h: string, n: nat)
    requires a != [] && !IsSpace(a[|a| - 1])
    ensures 0 < n <= |a|
    ensures a[n..] == [] || !IsSpace(a[n..][|a[n..]| - 1])
    ensures CollapseWhitespace(a) == h + CollapseWhitespace(a[n..])
    ensures CollapseWhitespace(a + t) == h + CollapseWhitespace(a[n..] + t)
  {
    var s := a + t;
    if IsSpace(a[0]) {
      n := Span(a, IsSpace);
      SpanOfPrefix(a, t, n);
      assert s[n..] == a[n..] + t;
      h := " ";
    } else {
      assert s[1..] == a[1..] + t;
      h, n := [a[0]], 1;
    }
  }

  /** A whitespace run that stops inside `a` stops at the same place in
      `a + t`. */
  lemma SpanOfPrefix(a: string, t: string, n: int)
    requires n == Span(a, IsSpace) && n < |a|
    ensures Span(a + t, IsSpace) == n
  {
    var s := a + t;
    assert s[n] == a[n];
    assert forall i :: 0 <= i < n ==> s[i] == a[i];
  }

  /** Every whitespace run becomes exactly one space, and the text on
      either side of it is collapsed on its own. */
  lemma CollapseRun(a: string, w: string, b: string)
    requires w != [] && AllSpace(w)
    requires a == [] || !IsSpace(a[|a| - 1])
    requires b == [] || !IsSpace(b[0])
    ensures CollapseWhitespace(a + w + b) == CollapseWhitespace(a) + " " + CollapseWhitespace(b)
  {
    var t := w + b;
    Regroup(a, w, b);
    CollapseSplit(a, t);
    CollapseLeadingRun(w, b);
    Regroup(CollapseWhitespace(a), " ", CollapseWhitespace(b));
  }

  /** A leading whitespace run becomes one space. */
  lemma CollapseLeadingRun(w: string, b: string)
    requires w != [] && AllSpace(w)
    requires b == [] || !IsSpace(b[0])
    ensures CollapseWhitespace(w + b) == " " + CollapseWhitespace(b)
  {
    var t := w + b;
    assert Span(t, IsSpace) == |w| by {
      assert forall i :: 0 <= i < |w| ==> t[i] == w[i];
      if b != [] { assert t[|w|] == b[0]; }
    }
    assert t[|w|..] == b;
  }

  /** The new base name: the sanitizer (a foreign call, passed in) applied to
      "<artist> - <title><ext>", then whitespace collapsed. The extension is
      the old name's, as splitext gives it. */
  function NewName(sanitize: string -> string, title: string, artist: string, oldPath: string): (r: string)
    ensures var raw := sanitize(artist + " - " + title + SplitExt(Basename(oldPath)).1);
      && Collapsed(r) && Words(r) == Words(raw)
      && (r == [] <==> raw == [])
      && ('/' !in raw ==> '/' !in r)
  {
    var ext := SplitExt(Basename(oldPath)).1;
    var raw := sanitize(artist + " - " + title + ext);
    CollapseKeepsWords(raw);
    CollapseWhitespace(raw)
  }

  /** `os.path.join(basepath, newname)` with the old path's directory. */
  function RenamedPath(sanitize: string -> string, title: string, artist: string, oldPath: string): (r: string)
    ensures var name := NewName(sanitize, title, artist, oldPath);
      name == [] || name[0] != '/' ==> JoinedUnder(Split(oldPath).0, name, r)
  {
    var head := Split(oldPath).0;
    var name := NewName(sanitize, title, artist, oldPath);
    Join(head, name)
  }

  /** The renamed file stays in the old file's directory and is called by
      the new name, which is collapsed, provided the sanitizer leaves some
      name and no slash. */
  lemma RenameKeepsDirectory(sanitize: string -> string, title: string, artist: string, oldPath: string)
    requires var raw := sanitize(artist + " - " + title + SplitExt(Basename(oldPath)).1); raw != [] && '/' !in raw
    ensures Split(RenamedPath(sanitize, title, artist, oldPath)) == (Split(oldPath).0, NewName(sanitize, title, artist, oldPath))
    ensures Collapsed(NewName(sanitize, title, artist, oldPath))
  {
    var name := NewName(sanitize, title, artist, oldPath);
    assert '/' !in name;
    SplitJoin(oldPath, name);
  }
}
