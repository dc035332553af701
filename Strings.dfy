/**
 * The string operations the specifications rely on: ordinal substring search
 * (`string.Contains`) and the two integer conversions that `Convert.ChangeType`
 * performs between a 32-bit `int` and a `string` (decimal rendering and
 * decimal parsing, invariant culture, no surrounding white space).
 */
module Strings {
  import opened Wrappers

  const Int32Min: int := -0x8000_0000
  const Int32Max: int := 0x7FFF_FFFF

  /** The values of C#'s `int`. */
  type Int32 = x: int | Int32Min <= x <= Int32Max

  /** `needle` occurs in `hay` starting at position `i`. */
  predicate OccursAt(needle: string, hay: string, i: nat)
  {
    i + |needle| <= |hay| && hay[i..i + |needle|] == needle
  }

  /** Ordinal `hay.Contains(needle)`: some position of `hay` starts a copy of `needle`. */
  predicate IsSubstring(needle: string, hay: string)
  {
    exists i: nat :: i <= |hay| && OccursAt(needle, hay, i)
  }

  /** The empty string occurs in every string (`"abc".Contains("")` is true). */
  lemma EmptyIsSubstring(hay: string)
    ensures IsSubstring("", hay)
  {
    assert OccursAt("", hay, 0);
  }

  /** A string occurs in itself, and in any string that contains it as a slice. */
  lemma SliceIsSubstring(hay: string, i: nat, j: nat)
    requires i <= j <= |hay|
    ensures IsSubstring(hay[i..j], hay)
  {
    assert OccursAt(hay[i..j], hay, i);
  }

  /** A needle longer than the haystack never occurs in it. */
  lemma LongerIsNotSubstring(needle: string, hay: string)
    requires |needle| > |hay|
    ensures !IsSubstring(needle, hay)
  {
  }

  predicate IsDigit(c: char)
  {
    '0' <= c <= '9'
  }

  function DigitChar(d: nat): (c: char)
    requires d < 10
    ensures IsDigit(c)
  {
    ('0' as int + d) as char
  }

  function DigitValue(c: char): (d: nat)
    requires IsDigit(c)
    ensures d < 10
  {
    c as int - '0' as int
  }

  predicate AllDigits(s: string)
  {
    forall k :: 0 <= k < |s| ==> IsDigit(s[k])
  }

  /** The number written by a string of decimal digits, most significant first. */
  function DigitsValue(s: string): nat
    requires AllDigits(s)
  {
    if s == [] then 0
    else DigitsValue(s[..|s| - 1]) * 10 + DigitValue(s[|s| - 1])
  }

  /** Decimal digits of a natural number, without leading zeros. */
  function NatToString(n: nat): (s: string)
    ensures |s| >= 1 && AllDigits(s)
  {
    if n < 10 then [DigitChar(n)]
    else NatToString(n / 10) + [DigitChar(n % 10)]
  }

  /** `Int32.ToString()` in the invariant culture: a minus sign for negatives, then the digits. */
  function IntToString(i: Int32): string
  {
    if i < 0 then "-" + NatToString(-(i as int)) else NatToString(i)
  }

  /**
   * `Int32.Parse` as `Convert.ChangeType(string, typeof(int))` uses it: an
   * optional `+` or `-` sign, then one or more decimal digits; the number must
   * fit in an `int` (otherwise the conversion throws an overflow exception).
   */
  function ParseInt(s: string): Option<Int32>
  {
    var negative := |s| > 0 && s[0] == '-';
    var digits := if |s| > 0 && (s[0] == '-' || s[0] == '+') then s[1..] else s;
    if digits == [] || !AllDigits(digits) then None
    else
      var magnitude: int := DigitsValue(digits);
      var n := if negative then -magnitude else magnitude;
      if Int32Min <= n <= Int32Max then Some(n) else None
  }

  lemma {:induction false} DigitsOfNat(n: nat)
    ensures DigitsValue(NatToString(n)) == n
  {
    var s := NatToString(n);
    if n >= 10 {
      DigitsOfNat(n / 10);
      assert s[..|s| - 1] == NatToString(n / 10);
    }
  }

  /** Rendering an `int` and parsing it back gives the same `int`. */
  lemma ParseIntToString(i: Int32)
    ensures ParseInt(IntToString(i)) == Some(i)
  {
    var magnitude: nat := if i < 0 then -(i as int) else i;
    DigitsOfNat(magnitude);
    var s := IntToString(i);
    if i < 0 {
      assert s[1..] == NatToString(magnitude);
    } else {
      assert DigitChar(0) != '-' && DigitChar(0) != '+';
      assert s[0] != '-' && s[0] != '+';
    }
  }

  /** A string with a character that is neither a digit nor a leading sign does not parse. */
  lemma ParseRejectsNonDigit(s: string, k: nat)
    requires 0 < k < |s| && !IsDigit(s[k])
    ensures ParseInt(s) == None
  {
  }
}
