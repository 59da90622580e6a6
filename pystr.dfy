/** The pieces of Python's str and int behaviour that gTagger relies on:
    whitespace as `str.isspace()` and the regex class `\s` see it, substring
    search (`x in s`), `str.split()[0]`, and `int(...)` of one token. */
module PyStr {
  import opened Wrappers

  /** Python's `str.isspace()` for one character, which is also what `\s`
      matches in a str pattern and what `str.split()` splits on. */
  predicate IsSpace(c: char)
  {
    || ('\t' <= c <= '\r')
    || ('\U{1C}' <= c <= ' ')
    || c == '\U{85}' || c == '\U{A0}' || c == '\U{1680}'
    || ('\U{2000}' <= c <= '\U{200A}')
    || c == '\U{2028}' || c == '\U{2029}' || c == '\U{202F}' || c == '\U{205F}' || c == '\U{3000}'
  }

  predicate NotSpace(c: char) { !IsSpace(c) }

  /** The ASCII digits, the class `[0-9]`. */
  predicate IsDigit(c: char) { '0' <= c <= '9' }

  predicate AllDigits(s: string) { forall i :: 0 <= i < |s| ==> IsDigit(s[i]) }

  /** Length of the longest prefix of `s` whose characters all satisfy `p`. */
  function Span(s: string, p: char -> bool): (n: nat)
    ensures n <= |s|
    ensures forall i :: 0 <= i < n ==> p(s[i])
    ensures n < |s| ==> !p(s[n])
  {
    if s == [] || !p(s[0]) then 0 else 1 + Span(s[1..], p)
  }

  predicate OccursAt(s: string, sub: string, i: int)
  {
    0 <= i && i + |sub| <= |s| && s[i..i + |sub|] == sub
  }

  /** Python's `sub in s`. */
  predicate Contains(s: string, sub: string)
  {
    exists i :: 0 <= i <= |s| - |sub| && OccursAt(s, sub, i)
  }

  /** `tok` is a whole whitespace-delimited word of `s` starting at `lead`,
      with only whitespace before it. */
  predicate TokenAt(s: string, tok: string, lead: int)
  {
    && 0 <= lead && lead + |tok| <= |s|
    && (forall i :: 0 <= i < lead ==> IsSpace(s[i]))
    && s[lead..lead + |tok|] == tok
    && (lead + |tok| == |s| || IsSpace(s[lead + |tok|]))
  }

  /** `s.split()[0]`: the first maximal run of non-whitespace, None where
      Python would raise IndexError (a blank string). */
  function FirstToken(s: string): (r: Option<string>)
    ensures r.None? <==> forall i :: 0 <= i < |s| ==> IsSpace(s[i])
    ensures r.Some? ==>
      && r.value != []
      && (forall i :: 0 <= i < |r.value| ==> !IsSpace(r.value[i]))
      && exists lead :: TokenAt(s, r.value, lead)
  {
    var lead := Span(s, IsSpace);
    if lead == |s| then None
    else
      var len := Span(s[lead..], NotSpace);
      assert len > 0;
      assert s[lead..lead + len] == s[lead..][..len];
      assert TokenAt(s, s[lead..lead + len], lead);
      Some(s[lead..lead + len])
  }

  function DigitValue(c: char): nat
    requires IsDigit(c)
  {
    c as int - '0' as int
  }

  function DigitChar(d: nat): (c: char)
    requires d < 10
    ensures IsDigit(c) && DigitValue(c) == d
  {
    ('0' as int + d) as char
  }

  /** The value of a string of decimal digits, most significant first. */
  function DecimalValue(s: string): nat
    requires AllDigits(s)
  {
    if s == [] then 0 else 10 * DecimalValue(s[..|s| - 1]) + DigitValue(s[|s| - 1])
  }

  /** Python's `str(n)` for a non-negative int. */
  function Decimal(n: nat): (s: string)
    ensures s != [] && AllDigits(s)
  {
    if n < 10 then [DigitChar(n)] else Decimal(n / 10) + [DigitChar(n % 10)]
  }

  /** Python's `str(n)` for an int. */
  function Str(n: int): string
  {
    if n < 0 then "-" + Decimal(-n) else Decimal(n)
  }

  /** The digit part accepted by `int()`: ASCII digits, with single
      underscores allowed between two digits. */
  predicate DigitPart(s: string)
  {
    && s != [] && IsDigit(s[0]) && IsDigit(s[|s| - 1])
    && (forall i :: 0 <= i < |s| ==> IsDigit(s[i]) || s[i] == '_')
    && (forall i :: 0 <= i < |s| - 1 ==> s[i] == '_' ==> s[i + 1] != '_')
  }

  /** The digits of `s` with the underscores dropped. */
  function DropUnderscores(s: string): (r: string)
    requires forall i :: 0 <= i < |s| ==> IsDigit(s[i]) || s[i] == '_'
    ensures AllDigits(r) && |r| <= |s|
    ensures AllDigits(s) ==> r == s
  {
    if s == [] then []
    else if s[0] == '_' then DropUnderscores(s[1..])
    else [s[0]] + DropUnderscores(s[1..])
  }

  /** The token starts with a sign, which `int()` accepts once. */
  predicate Signed(t: string) { t != [] && (t[0] == '+' || t[0] == '-') }

  /** The token with its one leading sign, if any, removed. */
  function Unsigned(t: string): (u: string)
    ensures |u| <= |t| && t[|t| - |u|..] == u
    ensures Signed(t) ==> |u| == |t| - 1
  {
    if Signed(t) then t[1..] else t
  }

  /** Python's `int(t)` for a token without whitespace: an optional sign and
      a digit part; None where Python raises ValueError. */
  function ParseInt(t: string): (r: Option<int>)
    ensures r.Some? <==> DigitPart(Unsigned(t))
    ensures r.Some? ==>
      var n: int := DecimalValue(DropUnderscores(Unsigned(t)));
      r.value == if t[0] == '-' then -n else n
    ensures AllDigits(t) && t != [] ==> r == Some(DecimalValue(t))
  {
    var body := Unsigned(t);
    if !DigitPart(body) then None
    else
      var n: int := DecimalValue(DropUnderscores(body));
      Some(if t[0] == '-' then -n else n)
  }

  /** `int()` raises ValueError on a token holding any character that is
      neither a digit nor an underscore, other than one leading sign. */
  lemma ParseIntRejects(t: string, i: nat)
    requires i < |t| && !IsDigit(t[i]) && t[i] != '_'
    requires i > 0 || !Signed(t)
    ensures ParseInt(t) == None
  {
    var u := Unsigned(t);
    var k := i - (|t| - |u|);
    assert 0 <= k < |u| && u[k] == t[i];
  }

  lemma {:induction false} DecimalValueOfDecimal(n: nat)
    ensures DecimalValue(Decimal(n)) == n
  {
    if n >= 10 {
      var s := Decimal(n);
      DecimalValueOfDecimal(n / 10);
      assert s[..|s| - 1] == Decimal(n / 10);
    }
  }

  /** `int(str(n)) == n`: parsing the text a track number is written as gives
      the number back. */
  lemma ParseIntOfStr(n: int)
    ensures ParseInt(Str(n)) == Some(n)
  {
    var m: nat := if n < 0 then -n else n;
    var d := Decimal(m);
    DecimalValueOfDecimal(m);
    assert DigitPart(d);
    assert DropUnderscores(d) == d;
    var t := Str(n);
    if n < 0 {
      assert t == "-" + d;
      assert Signed(t) && t[1..] == d;
    } else {
      assert t == d;
      assert !Signed(t) && t[0] != '-';
    }
    assert Unsigned(t) == d;
  }

  /** Concatenation regrouped, for proofs that peel off a first step. */
  lemma Regroup(h: string, x: string, y: string)
    ensures h + (x + y) == (h + x) + y
  {
  }

  predicate AllSpace(s: string) { forall i :: 0 <= i < |s| ==> IsSpace(s[i]) }

  /** `s.rstrip()`. */
  function RStrip(s: string): (r: string)
    ensures |r| <= |s| && r == s[..|r|]
    ensures r == [] || !IsSpace(r[|r| - 1])
    ensures AllSpace(s[|r|..])
  {
    if s != [] && IsSpace(s[|s| - 1]) then
      var t := s[..|s| - 1];
      var r := RStrip(t);
      assert s[|r|..] == t[|r|..] + [s[|s| - 1]];
      r
    else s
  }

  /** `r` is `s` with the whitespace runs `s[..a]` and `s[a + |r|..]` cut off. */
  predicate StrippedAt(s: string, r: string, a: int)
  {
    0 <= a && a + |r| <= |s| && s[a..a + |r|] == r && AllSpace(s[..a]) && AllSpace(s[a + |r|..])
  }

  /** `s.strip()`: whitespace removed from both ends and nothing else. */
  function Strip(s: string): (r: string)
    ensures r == [] <==> AllSpace(s)
    ensures r == [] || (!IsSpace(r[0]) && !IsSpace(r[|r| - 1]))
    ensures exists a :: StrippedAt(s, r, a)
  {
    var a := Span(s, IsSpace);
    var r := RStrip(s[a..]);
    assert s[a..a + |r|] == s[a..][..|r|];
    assert s[a + |r|..] == s[a..][|r|..];
    assert StrippedAt(s, r, a);
    r
  }
}
