/**
 * The pieces of PHP's string library that both interpreters lean on:
 * `is_numeric` and `(float)` on integer text, `(string)` of an integer,
 * `explode`, `implode`/`join`, `trim`, and the blank collapsing done by a
 * `[[:blank:]]+` replacement.
 */
module PhpText {

  predicate IsDigit(c: char) { '0' <= c <= '9' }

  /** The characters PHP's `is_numeric` accepts around a number. */
  predicate IsNumericSpace(c: char) {
    c == ' ' || c == '\t' || c == '\n' || c == '\r' || c == '\U{000B}' || c == '\U{000C}'
  }

  predicate AllDigits(s: string) { forall i :: 0 <= i < |s| ==> IsDigit(s[i]) }

  /** Length of the longest prefix of `s` made of digits. */
  function DigitRun(s: string): (n: nat)
    ensures n <= |s| && AllDigits(s[..n])
    ensures n < |s| ==> !IsDigit(s[n])
  {
    if s == [] || !IsDigit(s[0]) then 0
    else
      var k := DigitRun(s[1..]);
      assert s[..k + 1] == [s[0]] + s[1..][..k];
      k + 1
  }

  function LeadingSpaces(s: string): (n: nat)
    ensures n <= |s|
  {
    if s != [] && IsNumericSpace(s[0]) then 1 + LeadingSpaces(s[1..]) else 0
  }

  function TrailingSpaces(s: string): (n: nat)
    ensures n <= |s|
  {
    if s != [] && IsNumericSpace(s[|s| - 1]) then 1 + TrailingSpaces(s[..|s| - 1]) else 0
  }

  /** The text of a number once surrounding white space is removed. */
  function NumericCore(s: string): string {
    var a := LeadingSpaces(s);
    var t := s[a..];
    t[..|t| - TrailingSpaces(t)]
  }

  function Unsigned(t: string): string {
    if t != [] && (t[0] == '+' || t[0] == '-') then t[1..] else t
  }

  /** An exponent part: empty, or `e`/`E`, an optional sign and at least one digit. */
  predicate ExponentOk(e: string) {
    e == [] ||
    (|e| >= 2 && (e[0] == 'e' || e[0] == 'E') &&
     var r := if e[1] == '+' || e[1] == '-' then e[2..] else e[1..];
     r != [] && DigitRun(r) == |r|)
  }

  /** An unsigned decimal: `ddd`, `ddd.`, `ddd.ddd` or `.ddd`, then an optional exponent. */
  predicate IsDecimal(u: string) {
    var intLen := DigitRun(u);
    var after := u[intLen..];
    var fracLen := if after != [] && after[0] == '.' then 1 + DigitRun(after[1..]) else 0;
    (intLen > 0 || fracLen > 1) && ExponentOk(u[intLen + fracLen..])
  }

  /** PHP 8 `is_numeric` on a string (white space allowed on both sides, no hex). */
  predicate IsNumeric(s: string) {
    IsDecimal(Unsigned(NumericCore(s)))
  }

  /** A numeric string whose number is written with digits only, so `(float)` gives an integer. */
  predicate IsIntegerText(s: string) {
    var u := Unsigned(NumericCore(s));
    u != [] && AllDigits(u)
  }

  function DigitValue(c: char): nat
    requires IsDigit(c)
  {
    (c as int - '0' as int) as nat
  }

  /** The value of a string of decimal digits. */
  function DigitsValue(s: string): nat
    requires AllDigits(s)
  {
    if s == [] then 0 else 10 * DigitsValue(s[..|s| - 1]) + DigitValue(s[|s| - 1])
  }

  /** The integer `(float)` reads from integer text. */
  function IntegerValue(s: string): int
    requires IsIntegerText(s)
  {
    var c := NumericCore(s);
    var u := Unsigned(c);
    if c[0] == '-' then -(DigitsValue(u) as int) else DigitsValue(u) as int
  }

  function DigitChar(d: nat): (c: char)
    requires d < 10
    ensures IsDigit(c) && DigitValue(c) == d
  {
    ('0' as int + d) as char
  }

  /** Decimal text of a natural number, without leading zeros. */
  function NatToString(n: nat): (s: string)
    ensures s != [] && AllDigits(s)
  {
    if n < 10 then [DigitChar(n)] else NatToString(n / 10) + [DigitChar(n % 10)]
  }

  /** PHP's `(string)` of an integer. */
  function IntToString(n: int): string {
    if n < 0 then "-" + NatToString(-n) else NatToString(n)
  }

  /** Below this magnitude an integer-valued float has at most fourteen digits. */
  const PlainLimit: int := 100_000_000_000_000

  /**
   * Whether PHP's `(string)` of a float holding the integer n gives its plain
   * decimal digits. With the default `precision` of 14 significant digits, an
   * integer of fifteen or more digits is printed in exponent form instead
   * (`1.0E+14`).
   */
  predicate PrintsPlain(n: int) {
    -PlainLimit < n < PlainLimit
  }

  lemma {:induction false} NatToStringValue(n: nat)
    ensures DigitsValue(NatToString(n)) == n
    ensures NatToString(n)[0] != '-' && NatToString(n)[0] != '+'
    ensures n > 0 ==> NatToString(n)[0] != '0'
  {
    if n >= 10 {
      NatToStringValue(n / 10);
      var s := NatToString(n);
      assert s[..|s| - 1] == NatToString(n / 10);
    }
  }

  lemma AllDigitsNoSpace(s: string)
    requires AllDigits(s)
    ensures LeadingSpaces(s) == 0 && TrailingSpaces(s) == 0
  {
    if s != [] { assert IsDigit(s[0]) && IsDigit(s[|s| - 1]); }
  }

  /** Digits alone, with or without a minus sign in front, are their own numeric core. */
  lemma SignedDigitsCore(d: string, neg: bool)
    requires d != [] && AllDigits(d)
    ensures var s := if neg then "-" + d else d;
      NumericCore(s) == s && Unsigned(s) == d
  {
    AllDigitsNoSpace(d);
    if neg {
      var s := "-" + d;
      assert LeadingSpaces(s) == 0;
      assert s[|s| - 1] == d[|d| - 1];
      assert TrailingSpaces(s) == 0;
      assert s[0..] == s && s[..|s|] == s;
    } else {
      assert d[0..] == d && d[..|d|] == d;
    }
  }

  /** Digits alone are a decimal number. */
  lemma DigitsAreDecimal(d: string)
    requires d != [] && AllDigits(d)
    ensures IsDecimal(d)
  {
    assert DigitRun(d) == |d|;
    assert d[|d|..] == [];
  }

  /**
   * Integer text printed by PHP reads back as the same integer: `is_numeric`
   * accepts it and `(float)` gives the number back.
   */
  lemma IntToStringReadsBack(n: int)
    ensures IsNumeric(IntToString(n)) && IsIntegerText(IntToString(n))
    ensures IntegerValue(IntToString(n)) == n
  {
    var m: nat := if n < 0 then -n else n;
    var d := NatToString(m);
    NatToStringValue(m);
    SignedDigitsCore(d, n < 0);
    DigitsAreDecimal(d);
  }

  // ---------------------------------------------------------------- explode / join

  /** PHP `explode(sep, s)` for a one-character separator. */
  function Explode(sep: char, s: string): (parts: seq<string>)
    ensures |parts| >= 1
    ensures forall i :: 0 <= i < |parts| ==> sep !in parts[i]
  {
    if s == [] then [""]
    else
      var rest := Explode(sep, s[1..]);
      if s[0] == sep then [""] + rest else [[s[0]] + rest[0]] + rest[1..]
  }

  /** PHP `implode(sep, parts)`. */
  function Join(sep: string, parts: seq<string>): string {
    if parts == [] then ""
    else if |parts| == 1 then parts[0]
    else parts[0] + sep + Join(sep, parts[1..])
  }

  /** Splitting and joining again on the same separator gives back the text. */
  lemma {:induction false} JoinExplode(sep: char, s: string)
    ensures Join([sep], Explode(sep, s)) == s
  {
    if s != [] {
      JoinExplode(sep, s[1..]);
      var rest := Explode(sep, s[1..]);
      if s[0] != sep {
        if |rest| > 1 {
          assert Join([sep], [[s[0]] + rest[0]] + rest[1..]) == [s[0]] + rest[0] + [sep] + Join([sep], rest[1..]);
        }
      }
    }
  }

  // ---------------------------------------------------------------- trim

  /** The characters PHP's `trim` strips by default. */
  predicate IsTrimmed(c: char) {
    c == ' ' || c == '\t' || c == '\n' || c == '\r' || c == '\0' || c == '\U{000B}'
  }

  /** r is what is left of s after dropping some characters from its front. */
  predicate IsTail(r: string, s: string) {
    |r| <= |s| && r == s[|s| - |r|..]
  }

  /** r is what is left of s after dropping some characters from its end. */
  predicate IsHead(r: string, s: string) {
    |r| <= |s| && r == s[..|r|]
  }

  function TrimLeft(s: string): (r: string)
    ensures IsTail(r, s)
    ensures r != [] ==> !IsTrimmed(r[0])
  {
    if s != [] && IsTrimmed(s[0]) then TrimLeft(s[1..]) else s
  }

  function TrimRight(s: string): (r: string)
    ensures IsHead(r, s)
    ensures r != [] ==> !IsTrimmed(r[|r| - 1])
  {
    if s != [] && IsTrimmed(s[|s| - 1]) then TrimRight(s[..|s| - 1]) else s
  }

  /** PHP `trim`. */
  function Trim(s: string): (r: string)
    ensures r != [] ==> !IsTrimmed(r[0]) && !IsTrimmed(r[|r| - 1])
  {
    var l := TrimLeft(s);
    var r := TrimRight(l);
    assert r != [] ==> r[0] == l[0];
    r
  }

  // ---------------------------------------------------------------- blank collapsing

  /** `[[:blank:]]`: a space or a tab. */
  predicate IsBlank(c: char) { c == ' ' || c == '\t' }

  /** Length of the longest prefix of `s` made of blanks. */
  function BlankRun(s: string): (n: nat)
    ensures n <= |s| && (n < |s| ==> !IsBlank(s[n]))
    ensures forall i :: 0 <= i < n ==> IsBlank(s[i])
  {
    if s != [] && IsBlank(s[0]) then 1 + BlankRun(s[1..]) else 0
  }

  /** No two spaces in a row. */
  ghost predicate SingleSpaced(s: string) {
    forall i, j :: 0 <= i < j < |s| && j == i + 1 ==> !(s[i] == ' ' && s[j] == ' ')
  }

  /** `preg_replace('/[[:blank:]]+/', ' ', s)`: every run of blanks becomes one space. */
  function CollapseBlanks(s: string): (r: string)
    ensures |r| == 0 <==> |s| == 0
    ensures s != [] ==> r[0] == (if IsBlank(s[0]) then ' ' else s[0])
    ensures forall i :: 0 <= i < |r| ==> r[i] != '\t'
    ensures SingleSpaced(r)
    decreases |s|
  {
    if s == [] then ""
    else if IsBlank(s[0]) then
      var k := BlankRun(s);
      [' '] + CollapseBlanks(s[k..])
    else [s[0]] + CollapseBlanks(s[1..])
  }
}
