/** Text operations the collectors rely on: whitespace stripping, ASCII
    case mapping, substring tests and the decimal notation that
    Python's `float` accepts for plain numbers. */
module PyText {

  import opened Wrappers

  /** The characters `str.isspace` accepts, which are those `str.strip`
      removes and `\s` matches: the ASCII controls tab to carriage return
      and the four separators `\x1c`..`\x1f`, the space, and the Unicode
      white space characters. */
  predicate IsSpace(c: char) {
    ('\U{0009}' <= c <= '\U{000D}') || ('\U{001C}' <= c <= '\U{0020}')
    || c == '\U{0085}' || c == '\U{00A0}' || c == '\U{1680}'
    || ('\U{2000}' <= c <= '\U{200A}') || c == '\U{2028}' || c == '\U{2029}'
    || c == '\U{202F}' || c == '\U{205F}' || c == '\U{3000}'
  }

  /** Every character is whitespace. Stated by recursion rather than by a
      quantifier so that it does not fire on unrelated sequence indexing. */
  predicate AllSpace(s: string) {
    s == [] || (IsSpace(s[0]) && AllSpace(s[1..]))
  }

  lemma {:induction false} AllSpacePointwise(s: string)
    ensures AllSpace(s) <==> forall i :: 0 <= i < |s| ==> IsSpace(s[i])
  {
    if s != [] {
      AllSpacePointwise(s[1..]);
      assert forall i :: 1 <= i < |s| ==> s[i] == s[1..][i - 1];
    }
  }

  function StripLeft(s: string): (r: string)
    ensures |r| <= |s| && r == s[|s| - |r|..]
    ensures r == [] || !IsSpace(r[0])
  {
    if s != [] && IsSpace(s[0]) then StripLeft(s[1..]) else s
  }

  function StripRight(s: string): (r: string)
    ensures |r| <= |s| && r == s[..|r|]
    ensures r == [] || !IsSpace(r[|r| - 1])
  {
    if s != [] && IsSpace(s[|s| - 1]) then StripRight(s[..|s| - 1]) else s
  }

  /** `str.strip()`: a string strips to nothing
      exactly when it is all whitespace. */
  function Strip(s: string): (r: string)
    ensures r == [] <==> AllSpace(s)
  {
    StripBothBlank(s);
    StripRight(StripLeft(s))
  }

  /** Only whitespace is removed on the left. */
  lemma {:induction false} StripLeftRemovesSpace(s: string)
    ensures forall j :: 0 <= j < |s| - |StripLeft(s)| ==> IsSpace(s[j])
  {
    if s != [] && IsSpace(s[0]) {
      StripLeftRemovesSpace(s[1..]);
    }
  }

  /** Only whitespace is removed on the right. */
  lemma {:induction false} StripRightRemovesSpace(s: string)
    ensures forall j :: |StripRight(s)| <= j < |s| ==> IsSpace(s[j])
  {
    if s != [] && IsSpace(s[|s| - 1]) {
      StripRightRemovesSpace(s[..|s| - 1]);
    }
  }

  lemma StripBothBlank(s: string)
    ensures StripRight(StripLeft(s)) == [] <==> AllSpace(s)
  {
    var l := StripLeft(s);
    AllSpacePointwise(s);
    StripLeftRemovesSpace(s);
    StripRightRemovesSpace(l);
    if l != [] {
      assert l[0] == s[|s| - |l|];
    }
  }

  function LowerChar(c: char): char {
    if 'A' <= c <= 'Z' then (c as int + 32) as char else c
  }

  function UpperChar(c: char): char {
    if 'a' <= c <= 'z' then (c as int - 32) as char else c
  }

  /** `str.lower()` for ASCII letters. */
  function Lower(s: string): (r: string)
    ensures |r| == |s| && forall i :: 0 <= i < |s| ==> r[i] == LowerChar(s[i])
  {
    seq(|s|, i requires 0 <= i < |s| => LowerChar(s[i]))
  }

  /** `str.upper()` for ASCII letters. */
  function Upper(s: string): (r: string)
    ensures |r| == |s| && forall i :: 0 <= i < |s| ==> r[i] == UpperChar(s[i])
  {
    seq(|s|, i requires 0 <= i < |s| => UpperChar(s[i]))
  }

  predicate StartsWith(s: string, prefix: string) {
    prefix <= s
  }

  /** Python's `sub in s` on strings. */
  predicate Contains(s: string, sub: string) {
    sub <= s || (s != [] && Contains(s[1..], sub))
  }

  lemma {:induction false} ContainsAt(s: string, sub: string, i: nat)
    requires i + |sub| <= |s| && s[i..i + |sub|] == sub
    ensures Contains(s, sub)
  {
    if i > 0 {
      assert s[1..][i - 1..i - 1 + |sub|] == sub;
      ContainsAt(s[1..], sub, i - 1);
    }
  }

  predicate IsDigit(c: char) {
    '0' <= c <= '9'
  }

  predicate AllDigits(s: string) {
    forall i :: 0 <= i < |s| ==> IsDigit(s[i])
  }

  function DigitValue(c: char): nat
    requires IsDigit(c)
  {
    c as int - '0' as int
  }

  /** The number a run of decimal digits denotes. */
  function DigitsValue(s: string): nat
    requires AllDigits(s)
  {
    if s == [] then 0 else DigitsValue(s[..|s| - 1]) * 10 + DigitValue(s[|s| - 1])
  }

  function Pow10(n: nat): (r: nat)
    ensures r >= 1
  {
    if n == 0 then 1 else 10 * Pow10(n - 1)
  }

  /** The position of the first `c` in `s`, if any. */
  function IndexOf(s: string, c: char): (r: Option<nat>)
    ensures r.Some? ==> r.value < |s| && s[r.value] == c && c !in s[..r.value]
    ensures r.None? ==> c !in s
  {
    if s == [] then None
    else if s[0] == c then Some(0)
    else match IndexOf(s[1..], c)
      case None => None
      case Some(k) => assert s[..k + 1] == [s[0]] + s[1..][..k]; Some(k + 1)
  }

  /** The value of an unsigned decimal numeral: digits with at most one
      point and at least one digit (`12`, `12.5`, `.5`, `12.`). */
  function ParseDecimal(s: string): (r: Option<real>)
    ensures r.Some? ==> r.value >= 0.0
  {
    match IndexOf(s, '.')
    case None =>
      if s != [] && AllDigits(s) then Some(DigitsValue(s) as real) else None
    case Some(k) =>
      var whole, frac := s[..k], s[k + 1..];
      if AllDigits(whole) && AllDigits(frac) && |whole| + |frac| > 0
      then Some(DigitsValue(whole) as real + DigitsValue(frac) as real / Pow10(|frac|) as real)
      else None
  }

  /** Python's `float(text)` on a stripped, optionally signed decimal numeral.
      Exponents, `inf`, `nan` and digit separators are not part of this model. */
  function ParseFloatText(text: string): Option<real> {
    var t := Strip(text);
    if t != [] && (t[0] == '-' || t[0] == '+') then
      match ParseDecimal(t[1..])
      case None => None
      case Some(v) => Some(if t[0] == '-' then -v else v)
    else ParseDecimal(t)
  }

  /** The decimal rendering of a natural number (no leading zeros). */
  function NatToDigits(n: nat): (r: string)
    ensures r != [] && AllDigits(r)
  {
    if n < 10 then [('0' as int + n) as char]
    else NatToDigits(n / 10) + [('0' as int + n % 10) as char]
  }

  lemma {:induction false} NatToDigitsValue(n: nat)
    ensures DigitsValue(NatToDigits(n)) == n
  {
    if n >= 10 {
      var s := NatToDigits(n);
      assert s[..|s| - 1] == NatToDigits(n / 10);
      NatToDigitsValue(n / 10);
    }
  }

  /** Rendering a natural number and parsing it back gives the number. */
  lemma ParseDecimalOfNat(n: nat)
    ensures ParseDecimal(NatToDigits(n)) == Some(n as real)
  {
    NatToDigitsValue(n);
  }
}
