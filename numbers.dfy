/**
 * Conversions between strings and numbers that the pages perform:
 * `String(n)` (what `Storage.setItem` stores for a count), `parseInt(s, 10)`
 * (how the header reads the count back) and the `Number(v) > 0` test behind
 * the product price checks.
 */
module JsNumbers {
  import opened JsText

  /** A number after JavaScript's integer parse: an integer, or NaN. */
  datatype JsInt = Int(value: int) | NaN

  function DigitValue(c: char): nat
    requires IsDigit(c)
  {
    c as int - '0' as int
  }

  function DigitChar(d: nat): (c: char)
    requires d < 10
    ensures IsDigit(c) && DigitValue(c) == d
  {
    (d + '0' as int) as char
  }

  /** The value of a run of decimal digits, read left to right. */
  function DigitsValue(s: string): nat
    requires AllDigits(s)
  {
    if s == [] then 0 else DigitsValue(s[..|s| - 1]) * 10 + DigitValue(s[|s| - 1])
  }

  /** `String(n)` for a non-negative integer. */
  function ToDecimal(n: nat): (r: string)
    ensures r != [] && AllDigits(r)
    ensures |r| > 1 ==> r[0] != '0'
  {
    if n < 10 then [DigitChar(n)] else ToDecimal(n / 10) + [DigitChar(n % 10)]
  }

  /** Reading the digits of `String(n)` back gives `n`. */
  lemma {:induction false} DecimalValue(n: nat)
    ensures DigitsValue(ToDecimal(n)) == n
  {
    if n >= 10 {
      DecimalValue(n / 10);
      var r := ToDecimal(n);
      assert r[..|r| - 1] == ToDecimal(n / 10);
    }
  }

  /** The longest prefix of `s` made of decimal digits. */
  function DigitPrefix(s: string): (r: string)
    ensures |r| <= |s| && r == s[..|r|] && AllDigits(r)
    ensures |r| < |s| ==> !IsDigit(s[|r|])
  {
    if s != [] && IsDigit(s[0]) then [s[0]] + DigitPrefix(s[1..]) else []
  }

  /** `parseInt(s, 10)`: leading white space, an optional sign, then the longest run of digits. */
  function ParseInt(s: string): (r: JsInt)
  {
    var t := TrimStart(s);
    var negative := t != [] && t[0] == '-';
    var u := if t != [] && (t[0] == '-' || t[0] == '+') then t[1..] else t;
    var d := DigitPrefix(u);
    if d == [] then NaN else Int(if negative then 0 - DigitsValue(d) as int else DigitsValue(d))
  }

  /** `parseInt(s, 10)` is NaN exactly when no digit follows the leading white space and sign. */
  lemma ParseIntNaN(s: string)
    ensures ParseInt(s) == NaN <==>
      var t := TrimStart(s);
      var u := if t != [] && (t[0] == '-' || t[0] == '+') then t[1..] else t;
      u == [] || !IsDigit(u[0])
  {
  }

  /** What `setItem` stores for a count is read back unchanged by `parseInt(_, 10)`. */
  lemma ParseIntOfDecimal(n: nat)
    ensures ParseInt(ToDecimal(n)) == Int(n)
  {
    var r := ToDecimal(n);
    assert TrimStart(r) == r;
    DigitPrefixOfDigits(r);
    DecimalValue(n);
  }

  lemma {:induction false} DigitPrefixOfDigits(s: string)
    requires AllDigits(s)
    ensures DigitPrefix(s) == s
  {
    if s != [] {
      DigitPrefixOfDigits(s[1..]);
    }
  }

  /** Unsigned decimal literal without exponent: digits with at most one '.', and at least one digit. */
  predicate IsUnsignedDecimal(u: string) {
    var k := IndexOf(u, '.');
    if k == -1 then u != [] && AllDigits(u)
    else |u| >= 2 && AllDigits(u[..k]) && AllDigits(u[k + 1..])
  }

  /** An optionally signed decimal literal, as `Number` accepts it once trimmed. */
  predicate IsDecimalLiteral(t: string) {
    if t != [] && (t[0] == '+' || t[0] == '-') then IsUnsignedDecimal(t[1..]) else IsUnsignedDecimal(t)
  }

  predicate HasNonZeroDigit(t: string) {
    exists i :: 0 <= i < |t| && '1' <= t[i] <= '9'
  }

  /**
   * `!isNaN(v) && Number(v) > 0` for a string `v`: the trimmed text is a decimal literal,
   * not negative, with some non-zero digit.
   */
  predicate IsPositiveNumber(v: string) {
    var t := Trim(v);
    t != [] && IsDecimalLiteral(t) && t[0] != '-' && HasNonZeroDigit(t)
  }

  lemma {:induction false} NonZeroDigitOfDecimal(n: nat)
    ensures HasNonZeroDigit(ToDecimal(n)) <==> n > 0
  {
    var r := ToDecimal(n);
    if n >= 10 {
      NonZeroDigitOfDecimal(n / 10);
      var p := ToDecimal(n / 10);
      assert r == p + [DigitChar(n % 10)];
      assert HasNonZeroDigit(p) ==> HasNonZeroDigit(r) by {
        if HasNonZeroDigit(p) {
          var i :| 0 <= i < |p| && '1' <= p[i] <= '9';
          assert r[i] == p[i];
        }
      }
    } else if n > 0 {
      assert '1' <= r[0] <= '9';
    }
  }

  /** The decimal text of a count is a valid price exactly when the count is positive. */
  lemma PositiveNumberOfDecimal(n: nat)
    ensures IsPositiveNumber(ToDecimal(n)) <==> n > 0
  {
    var r := ToDecimal(n);
    TrimOfUnpadded(r);
    assert IndexOf(r, '.') == -1;
    NonZeroDigitOfDecimal(n);
  }

  /** A negative literal is never a valid price, whatever its digits. */
  lemma NegativeIsNotPositive(v: string)
    requires Trim(v) != [] && Trim(v)[0] == '-'
    ensures !IsPositiveNumber(v)
  {
  }
}
