/** The POSIX flavour of Python's os.path used by gTagger: split, join,
    basename and splitext, with the standard library's edge cases. */
module PosixPath {

  /** `s.rfind(c)`: the index of the last `c` in `s`, -1 if there is none. */
  function RFind(s: string, c: char): (i: int)
    ensures -1 <= i < |s|
    ensures i >= 0 ==> s[i] == c
    ensures forall j :: i < j < |s| ==> s[j] != c
  {
    if s == [] then -1
    else if s[|s| - 1] == c then |s| - 1
    else RFind(s[..|s| - 1], c)
  }

  predicate AllSlashes(s: string)
  {
    forall i :: 0 <= i < |s| ==> s[i] == '/'
  }

  /** `s.rstrip('/')`. */
  function RStripSlashes(s: string): (r: string)
    ensures |r| <= |s| && r == s[..|r|]
    ensures r == [] || r[|r| - 1] != '/'
    ensures AllSlashes(s[|r|..])
  {
    if s != [] && s[|s| - 1] == '/' then
      var r := RStripSlashes(s[..|s| - 1]);
      assert s[|r|..] == s[..|s| - 1][|r|..] + ['/'];
      r
    else s
  }

  /** A head as `Split` leaves it: empty, only slashes (the root), or not
      ending in a slash. */
  predicate NormalHead(h: string)
  {
    h == [] || AllSlashes(h) || h[|h| - 1] != '/'
  }

  /** `os.path.split(p)`: everything after the last slash is the tail; the
      head loses its trailing slashes unless it is only slashes (stripping
      those would leave nothing, and then the head is kept as it is). */
  function Split(p: string): (r: (string, string))
    ensures '/' !in r.1
    ensures |r.1| <= |p| && p[|p| - |r.1|..] == r.1
    ensures NormalHead(r.0)
    ensures r.0 <= p && |r.0| + |r.1| <= |p|
    ensures forall k :: |r.0| <= k < |p| - |r.1| ==> p[k] == '/'
    ensures |r.1| < |p| ==> p[|p| - |r.1| - 1] == '/'
    ensures r.0 == [] <==> '/' !in p
  {
    var i := RFind(p, '/') + 1;
    var head := p[..i];
    var tail := p[i..];
    assert forall k :: 0 <= k < |tail| ==> tail[k] == p[i + k];
    var stripped := RStripSlashes(head);
    assert forall k :: |stripped| <= k < i ==> p[k] == head[|stripped|..][k - |stripped|];
    assert '/' in p ==> i > 0;
    (if stripped == [] then head else stripped, tail)
  }

  function Basename(p: string): string
  {
    Split(p).1
  }

  /** `os.path.join(a, b)`: an absolute `b` replaces `a`; otherwise a slash
      is put between them unless `a` is empty or already ends in one. */
  function Join(a: string, b: string): (r: string)
    ensures b != [] && b[0] == '/' ==> r == b
    ensures b == [] || b[0] != '/' ==> JoinedUnder(a, b, r)
  {
    if b != [] && b[0] == '/' then b
    else if a == [] || a[|a| - 1] == '/' then a + b
    else a + "/" + b
  }

  /** `r` is `a` followed by `b`, with a slash between them when `a` does
      not already end in one. */
  predicate JoinedUnder(a: string, b: string, r: string)
  {
    && |a| + |b| <= |r| <= |a| + |b| + 1
    && a <= r && r[|r| - |b|..] == b
    && (|r| > |a| + |b| ==> r[|a|] == '/')
    && (|r| == |a| + |b| + 1 <==> a != [] && a[|a| - 1] != '/')
    && (a != [] ==> r[|r| - |b| - 1] == '/')
  }

  /** `s.lstrip('.')`. */
  function LStripDots(s: string): (r: string)
    ensures |r| <= |s| && r == s[|s| - |r|..]
    ensures r == [] || r[0] != '.'
    ensures forall i :: 0 <= i < |s| - |r| ==> s[i] == '.'
  {
    if s != [] && s[0] == '.' then LStripDots(s[1..]) else s
  }

  /** Some character other than a dot comes before some dot in `name`. */
  predicate DotAfterStem(name: string)
  {
    exists i, j :: 0 <= i < j < |name| && name[i] != '.' && name[j] == '.'
  }

  /** The condition under which splitext finds an extension, in Python's
      own terms: the name still holds a dot once its leading dots are
      stripped. */
  lemma {:induction false} StrippedHasDot(name: string)
    ensures '.' in LStripDots(name) <==> DotAfterStem(name)
  {
    if name != [] {
      if name[0] == '.' {
        assert LStripDots(name) == LStripDots(name[1..]);
        StrippedHasDot(name[1..]);
        LeadingDotIgnored(name);
      } else {
        assert LStripDots(name) == name;
        if '.' in name {
          var j :| 0 <= j < |name| && name[j] == '.';
          assert name[0] != '.' && 0 < j;
        }
      }
    }
  }

  /** A leading dot neither starts a stem nor ends one. */
  lemma LeadingDotIgnored(name: string)
    requires name != [] && name[0] == '.'
    ensures DotAfterStem(name) <==> DotAfterStem(name[1..])
  {
    var rest := name[1..];
    if DotAfterStem(name) {
      var i, j :| 0 <= i < j < |name| && name[i] != '.' && name[j] == '.';
      assert rest[i - 1] != '.' && rest[j - 1] == '.';
    }
    if DotAfterStem(rest) {
      var i, j :| 0 <= i < j < |rest| && rest[i] != '.' && rest[j] == '.';
      assert name[i + 1] != '.' && name[j + 1] == '.';
    }
  }

  /** Where the extension of a last path component starts, if it has one:
      at its last dot, provided something other than a dot comes before it. */
  function ExtStart(name: string): (d: int)
    ensures -1 <= d < |name|
    ensures d >= 0 <==> DotAfterStem(name)
    ensures d >= 0 ==> name[d] == '.' && forall j :: d < j < |name| ==> name[j] != '.'
  {
    var dot := RFind(name, '.');
    if dot > 0 && exists k :: 0 <= k < dot && name[k] != '.' then dot
    else
      NoStemDot(name, dot);
      -1
  }

  lemma NoStemDot(name: string, dot: int)
    requires dot == RFind(name, '.')
    requires !(dot > 0 && exists k :: 0 <= k < dot && name[k] != '.')
    ensures !DotAfterStem(name)
  {
    forall i, j | 0 <= i < j < |name| && name[i] != '.'
      ensures name[j] != '.'
    {
      assert name[j] == '.' ==> i < j <= dot;
    }
  }

  /** A non-empty extension as splitext returns it: a dot, then neither
      dots nor slashes. */
  predicate IsExtension(e: string)
  {
    e != [] && e[0] == '.' && '.' !in e[1..] && '/' !in e
  }

  /** The last path component, as a slice of the path. */
  lemma BasenameIsLastComponent(p: string)
    ensures Basename(p) == p[RFind(p, '/') + 1..]
    ensures '/' !in Basename(p)
  {
  }

  /** What splitext cuts off is a dot followed by neither dots nor slashes. */
  lemma ExtensionShape(p: string, cut: int)
    requires var name := Basename(p); var d := ExtStart(name); d >= 0 && cut == |p| - |name| + d
    ensures 0 <= cut < |p|
    ensures IsExtension(p[cut..])
  {
    var name := Basename(p);
    var d := ExtStart(name);
    BasenameIsLastComponent(p);
    var start := RFind(p, '/') + 1;
    assert cut == start + d;
    assert p[cut..] == name[d..];
    LastDotExtension(name, d);
  }

  /** From the last dot of a name without slashes to its end is an
      extension. */
  lemma LastDotExtension(name: string, d: int)
    requires 0 <= d < |name| && name[d] == '.' && '/' !in name
    requires forall j :: d < j < |name| ==> name[j] != '.'
    ensures IsExtension(name[d..])
  {
    var e := name[d..];
    forall j | 0 <= j < |e|
      ensures e[j] != '/' && (j > 0 ==> e[j] != '.')
    {
      assert e[j] == name[d + j];
    }
    assert forall j :: 0 <= j < |e[1..]| ==> e[1..][j] == e[j + 1];
  }

  /** `os.path.splitext(p)`: the extension runs from the last dot of the last
      path component, but only when that component has something other than
      dots before the dot; leading dots (as in ".bashrc") start no extension. */
  function SplitExt(p: string): (r: (string, string))
    ensures r.0 + r.1 == p
    ensures r.1 == [] || IsExtension(r.1)
    ensures r.1 != [] <==> DotAfterStem(Basename(p))
  {
    var name := Basename(p);
    var d := ExtStart(name);
    if d < 0 then (p, [])
    else
      var cut := |p| - |name| + d;
      ExtensionShape(p, cut);
      (p[..cut], p[cut..])
  }

  /** Joining a split head with a plain name and splitting again gives the
      same head and that name back: a rename built this way stays in the
      file's directory. */
  lemma SplitJoin(p: string, name: string)
    requires name != [] && '/' !in name
    ensures Split(Join(Split(p).0, name)) == (Split(p).0, name)
  {
    var h := Split(p).0;
    var j := Join(h, name);
    if h == [] || h[|h| - 1] == '/' {
      assert h == [] || AllSlashes(h);
      assert j == h + name;
      LastSlash(h, name);
      assert j[..|h|] == h && j[|h|..] == name;
    } else {
      assert j == (h + "/") + name;
      LastSlash(h + "/", name);
      assert j[..|h| + 1] == h + "/" && j[|h| + 1..] == name;
      assert (h + "/")[|h| - 1] == h[|h| - 1] != '/';
      assert RStripSlashes(h + "/") == RStripSlashes(h);
    }
  }

  lemma LastSlash(h: string, name: string)
    requires '/' !in name
    requires h == [] || h[|h| - 1] == '/'
    ensures RFind(h + name, '/') == |h| - 1
  {
    var s := h + name;
    if h != [] {
      assert s[|h| - 1] == '/';
    }
    forall k | |h| <= k < |s|
      ensures s[k] != '/'
    {
      assert s[k] == name[k - |h|];
    }
  }
}
