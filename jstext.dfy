/**
 * The string operations of JavaScript that the listing code relies on:
 * the `\s` class and `trim`, ASCII case folding, `split(/\s+/)`,
 * `parseInt`, `String(n)` for naturals and `slice(-n)`.
 * Strings are sequences of code points.
 */
module JsText {
  import opened Wrappers

  /** JavaScript's WhiteSpace and LineTerminator code points: what `\s` matches and `trim` removes. */
  predicate IsSpace(c: char) {
    c == '\t' || c == '\n' || c == '\U{000B}' || c == '\U{000C}' || c == '\r' || c == ' '
    || c == '\U{00A0}' || c == '\U{1680}' || ('\U{2000}' <= c <= '\U{200A}')
    || c == '\U{2028}' || c == '\U{2029}' || c == '\U{202F}' || c == '\U{205F}'
    || c == '\U{3000}' || c == '\U{FEFF}'
  }

  /** LineTerminator: the code points that `.` in a regular expression does not match. */
  predicate IsLineTerminator(c: char) {
    c == '\n' || c == '\r' || c == '\U{2028}' || c == '\U{2029}'
  }

  predicate AllSpace(s: string) {
    forall i :: 0 <= i < |s| ==> IsSpace(s[i])
  }

  predicate NoSpace(s: string) {
    forall i :: 0 <= i < |s| ==> !IsSpace(s[i])
  }

  // ---------------------------------------------------------------- case

  function LowerChar(c: char): char {
    if 'A' <= c <= 'Z' then (c as int + 32) as char else c
  }

  /** `toLowerCase`, folding ASCII letters only. */
  function Lower(s: string): (r: string)
    ensures |r| == |s|
    ensures forall i :: 0 <= i < |s| ==> r[i] == LowerChar(s[i])
  {
    seq(|s|, i requires 0 <= i < |s| => LowerChar(s[i]))
  }

  /** `s` starts with `lit` when letters are compared without case (`lit` is lower case). */
  predicate PrefixCI(s: string, lit: string) {
    |lit| <= |s| && Lower(s[..|lit|]) == lit
  }

  /**
   * The canonical form under which a regular expression with the `i` flag
   * and without the `u` flag compares characters: a lower-case letter stands
   * for its upper case. Written out for the ASCII and Latin-1 letters; 'µ'
   * and 'ÿ', whose upper case lies outside Latin-1, and every other code
   * point stand for themselves here.
   */
  function RegExpCanon(c: char): char {
    if 'a' <= c <= 'z' || ('\U{00E0}' <= c <= '\U{00FE}' && c != '\U{00F7}') then
      (c as int - 32) as char
    else c
  }

  /** `t` starts with `lit` when both are compared in `RegExpCanon` form. */
  predicate PrefixFolded(t: string, lit: string) {
    |lit| <= |t| && forall i :: 0 <= i < |lit| ==> RegExpCanon(t[i]) == RegExpCanon(lit[i])
  }

  /** 'â' and 'Â' are the only characters in the canonical class of 'â'. */
  lemma CircumflexClass(c: char)
    ensures RegExpCanon(c) == RegExpCanon('\U{00E2}') <==> c == '\U{00E2}' || c == '\U{00C2}'
  {
  }

  /** A character without case matches only itself. */
  lemma CaselessClass(c: char, d: char)
    requires d == '\U{201A}' || d == '\U{00B9}' || d == '\U{20B9}'
    ensures RegExpCanon(c) == RegExpCanon(d) <==> c == d
  {
  }

  /** `s` ends with `lit` when letters are compared without case. */
  predicate SuffixCI(s: string, lit: string) {
    |lit| <= |s| && Lower(s[|s| - |lit|..]) == lit
  }

  /** `s.includes(lit)`. */
  predicate Contains(s: string, lit: string) {
    exists i :: 0 <= i <= |s| && lit <= s[i..]
  }

  // ---------------------------------------------------------------- white space

  /** The first index at or after `i` that is not white space. */
  function SkipSpace(s: string, i: nat): (k: nat)
    requires i <= |s|
    ensures i <= k <= |s|
    ensures forall m :: i <= m < k ==> IsSpace(s[m])
    ensures k == |s| || !IsSpace(s[k])
    decreases |s| - i
  {
    if i == |s| || !IsSpace(s[i]) then i else SkipSpace(s, i + 1)
  }

  /** The first index at or after `i` that is white space, or `|s|`. */
  function NextSpace(s: string, i: nat): (k: nat)
    requires i <= |s|
    ensures i <= k <= |s|
    ensures forall m :: i <= m < k ==> !IsSpace(s[m])
    ensures k == |s| || IsSpace(s[k])
    decreases |s| - i
  {
    if i == |s| || IsSpace(s[i]) then i else NextSpace(s, i + 1)
  }

  /** The end of `s[lo..hi]` once its trailing white space is dropped. */
  function TrimmedEnd(s: string, lo: nat, hi: nat): (e: nat)
    requires lo <= hi <= |s|
    ensures lo <= e <= hi
    ensures forall m :: e <= m < hi ==> IsSpace(s[m])
    ensures e == lo || !IsSpace(s[e - 1])
    decreases hi
  {
    if hi == lo || !IsSpace(s[hi - 1]) then hi else TrimmedEnd(s, lo, hi - 1)
  }

  /** `String.prototype.trim`. */
  function Trim(s: string): (r: string)
    ensures r == [] <==> AllSpace(s)
    ensures r != [] ==> !IsSpace(r[0]) && !IsSpace(r[|r| - 1])
    ensures |r| <= |s|
  {
    var lo := SkipSpace(s, 0);
    var hi := TrimmedEnd(s, lo, |s|);
    assert lo < |s| ==> lo < hi;
    s[lo..hi]
  }

  /** A string that starts and ends with a non-space character is its own trim. */
  lemma TrimUnchanged(s: string)
    requires s == [] || (!IsSpace(s[0]) && !IsSpace(s[|s| - 1]))
    ensures Trim(s) == s
  {
  }

  lemma {:induction false} TrimIdempotent(s: string)
    ensures Trim(Trim(s)) == Trim(s)
  {
    TrimUnchanged(Trim(s));
  }

  /**
   * `s.split(/\s+/)`: the pieces between maximal runs of white space,
   * with an empty first piece when `s` starts with white space and an
   * empty last piece when it ends with it.
   */
  function SplitWs(s: string): (r: seq<string>)
    ensures |r| >= 1
    ensures forall k :: 0 <= k < |r| ==> NoSpace(r[k])
    ensures NoSpace(s) ==> r == [s]
    decreases |s|
  {
    var k := NextSpace(s, 0);
    if k == |s| then [s] else [s[..k]] + SplitWs(s[SkipSpace(s, k)..])
  }

  // ---------------------------------------------------------------- digits

  predicate IsDigit(c: char) { '0' <= c <= '9' }

  predicate IsHexDigit(c: char) {
    IsDigit(c) || 'a' <= c <= 'f' || 'A' <= c <= 'F'
  }

  predicate IsRadixDigit(c: char, hex: bool) {
    if hex then IsHexDigit(c) else IsDigit(c)
  }

  predicate AllDigits(s: string) {
    forall i :: 0 <= i < |s| ==> IsDigit(s[i])
  }

  predicate AllRadixDigits(s: string, hex: bool) {
    forall i :: 0 <= i < |s| ==> IsRadixDigit(s[i], hex)
  }

  function DigitValue(c: char, hex: bool): (d: nat)
    requires IsRadixDigit(c, hex)
    ensures d < Radix(hex)
  {
    if IsDigit(c) then c as int - '0' as int
    else if 'a' <= c <= 'f' then c as int - 'a' as int + 10
    else c as int - 'A' as int + 10
  }

  function Radix(hex: bool): nat { if hex then 16 else 10 }

  /** The number a string of digits denotes, most significant digit first. */
  function DigitsValue(s: string, hex: bool): nat
    requires AllRadixDigits(s, hex)
  {
    if s == [] then 0
    else DigitsValue(s[..|s| - 1], hex) * Radix(hex) + DigitValue(s[|s| - 1], hex)
  }

  /** The value of a decimal digit string. */
  function DecimalValue(s: string): nat
    requires AllDigits(s)
  {
    assert AllRadixDigits(s, false);
    DigitsValue(s, false)
  }

  /** One more digit on the right multiplies by ten and adds the digit. */
  lemma DecimalSnoc(s: string, c: char, t: string)
    requires AllDigits(s) && IsDigit(c) && t == s + [c]
    ensures AllDigits(t)
    ensures DecimalValue(t) == DecimalValue(s) * 10 + (c as int - '0' as int)
  {
    assert t[..|s|] == s;
  }

  function DigitChar(d: nat): (c: char)
    requires d < 10
    ensures IsDigit(c) && c as int - '0' as int == d
  {
    (d + '0' as int) as char
  }

  /** `String(n)` for a natural number: its decimal digits without leading zeros. */
  function NatToString(n: nat): (r: string)
    ensures r != [] && AllDigits(r)
    ensures DecimalValue(r) == n
    ensures r[0] == '0' ==> n == 0
    decreases n
  {
    if n < 10 then
      DecimalSnoc([], DigitChar(n), [DigitChar(n)]);
      [DigitChar(n)]
    else
      var r := NatToString(n / 10) + [DigitChar(n % 10)];
      DecimalSnoc(NatToString(n / 10), DigitChar(n % 10), r);
      r
  }

  /** `String(n)` for an integer: a minus sign before the digits of a negative number. */
  function IntToString(n: int): (r: string)
    ensures r != []
    ensures n >= 0 ==> r == NatToString(n)
    ensures n < 0 ==> r == "-" + NatToString(-n)
  {
    if n >= 0 then NatToString(n) else "-" + NatToString(-n)
  }

  /** The end of the run of radix digits that starts at `i`. */
  function DigitRunEnd(s: string, i: nat, hex: bool): (e: nat)
    requires i <= |s|
    ensures i <= e <= |s|
    ensures forall m :: i <= m < e ==> IsRadixDigit(s[m], hex)
    ensures e == |s| || !IsRadixDigit(s[e], hex)
    decreases |s| - i
  {
    if i == |s| || !IsRadixDigit(s[i], hex) then i else DigitRunEnd(s, i + 1, hex)
  }

  /**
   * `parseInt(s)` with no radix: leading white space is skipped, one sign
   * is read, `0x`/`0X` selects base 16, and the longest run of digits that
   * follows is the value. `None` is `NaN`, returned when that run is empty.
   */
  function ParseInt(s: string): (r: Option<int>)
  {
    var k := SkipSpace(s, 0);
    var negative := k < |s| && s[k] == '-';
    var k1 := if k < |s| && (s[k] == '-' || s[k] == '+') then k + 1 else k;
    var hex := k1 + 2 <= |s| && s[k1] == '0' && (s[k1 + 1] == 'x' || s[k1 + 1] == 'X');
    var k2 := if hex then k1 + 2 else k1;
    var e := DigitRunEnd(s, k2, hex);
    if e == k2 then None
    else
      var v: int := DigitsValue(s[k2..e], hex);
      Some(if negative then -v else v)
  }

  /** `parseInt` reads back what `String(n)` wrote. */
  lemma ParseIntNatToString(n: nat)
    ensures ParseInt(NatToString(n)) == Some(n)
  {
    var s := NatToString(n);
    assert !IsSpace(s[0]) && s[0] != '-' && s[0] != '+';
    assert SkipSpace(s, 0) == 0;
    assert s[0] == '0' ==> |s| == 1 by {
      if s[0] == '0' && |s| > 1 { NatToStringShort(n); }
    }
    DigitRunAll(s, 0);
    assert s[0..|s|] == s;
  }

  lemma NatToStringShort(n: nat)
    requires n < 10
    ensures |NatToString(n)| == 1
  {
  }

  /** In a string of decimal digits the decimal digit run covers everything. */
  lemma {:induction false} DigitRunAll(s: string, i: nat)
    requires i <= |s| && AllDigits(s)
    ensures DigitRunEnd(s, i, false) == |s|
    decreases |s| - i
  {
    if i < |s| { DigitRunAll(s, i + 1); }
  }

  /** `parseInt` of a non-empty decimal digit string is its value. */
  lemma ParseIntDigits(s: string)
    requires s != [] && AllDigits(s)
    ensures ParseInt(s) == Some(DecimalValue(s))
  {
    assert SkipSpace(s, 0) == 0;
    if |s| >= 2 && s[0] == '0' { assert !(s[1] == 'x' || s[1] == 'X'); }
    DigitRunAll(s, 0);
    assert s[0..|s|] == s;
  }

  /**
   * `parseInt` of a number's digits followed by nothing or by a character
   * that is neither a digit nor an `x` reads the number and stops there.
   */
  lemma ParseIntLeadingDigits(d: string, rest: string)
    requires d != [] && AllDigits(d) && (d[0] == '0' ==> |d| == 1)
    requires rest == [] || (!IsDigit(rest[0]) && rest[0] != 'x' && rest[0] != 'X')
    ensures ParseInt(d + rest) == Some(DecimalValue(d))
  {
    var s := d + rest;
    assert SkipSpace(s, 0) == 0;
    assert !(s[0] == '-' || s[0] == '+');
    assert |s| >= 2 && s[0] == '0' ==> s[1] == rest[0];
    var e := DigitRunEnd(s, 0, false);
    assert forall m :: 0 <= m < |d| ==> s[m] == d[m];
    assert |s| > |d| ==> s[|d|] == rest[0];
    assert e == |d|;
    assert s[0..|d|] == d;
  }

  /** `parseInt` is `NaN` when no digit follows the white space and sign. */
  lemma ParseIntNoDigit(s: string)
    requires
      var k := SkipSpace(s, 0);
      var k1 := if k < |s| && (s[k] == '-' || s[k] == '+') then k + 1 else k;
      k1 == |s| || !IsDigit(s[k1])
    ensures ParseInt(s).None?
  {
  }

  /** `s.slice(-n)`: the last `n` characters, or all of `s` when it is shorter. */
  function SliceLast(s: string, n: nat): (r: string)
    ensures |r| == if |s| < n then |s| else n
    ensures r == s[|s| - |r|..]
  {
    if |s| < n then s else s[|s| - n..]
  }
}
