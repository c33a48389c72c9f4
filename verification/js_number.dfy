/**
 * The JavaScript number operations the planning layer relies on, over unbounded integers and
 * reals: `Math.round`, the decimal text of a number inside a template literal, and `parseInt`.
 */
module JsNumber {
  import opened Wrappers
  import opened JsText

  /** `Math.round(x)`: the nearest integer, halves rounded up. */
  function Round(x: real): (r: int)
    ensures x - 0.5 < r as real <= x + 0.5
  {
    (x + 0.5).Floor
  }

  /** Rounding is exact on integers. */
  lemma RoundOfInt(n: int)
    ensures Round(n as real) == n
  {
  }

  /** `x || 0` on a nullable number: null and 0 both give 0. */
  function OrZero(x: Option<real>): (r: real)
    ensures x.Some? ==> r == x.value
    ensures x.None? ==> r == 0.0
  {
    if x.Some? then x.value else 0.0
  }

  /** `x || null` on a nullable number: 0 becomes null as well. */
  function OrNull(x: Option<real>): (r: Option<real>)
    ensures r.Some? <==> x.Some? && x.value != 0.0
    ensures r.Some? ==> r == x
  {
    if x.Some? && x.value != 0.0 then x else None
  }

  // ---------------------------------------------------------------- decimal digits

  predicate IsDigit(c: char) {
    '0' <= c <= '9'
  }

  predicate IsDigits(s: string) {
    forall i :: 0 <= i < |s| ==> IsDigit(s[i])
  }

  function DigitChar(d: nat): (c: char)
    requires d < 10
    ensures IsDigit(c)
  {
    ('0' as int + d) as char
  }

  function DigitValue(c: char): (d: nat)
    requires IsDigit(c)
    ensures d < 10
  {
    c as int - '0' as int
  }

  /** The decimal text of a natural number, without leading zeros: `${n}`. */
  function Dec(n: nat): (s: string)
    ensures |s| >= 1 && IsDigits(s)
  {
    if n < 10 then [DigitChar(n)] else Dec(n / 10) + [DigitChar(n % 10)]
  }

  /** The number a string of decimal digits denotes. */
  function DecValue(s: string): nat
    requires IsDigits(s)
  {
    if s == [] then 0 else DecValue(s[..|s| - 1]) * 10 + DigitValue(s[|s| - 1])
  }

  /** A digit string denotes at least what any of its prefixes denotes. */
  lemma {:induction false} DecValuePrefix(s: string, k: nat)
    requires IsDigits(s) && k <= |s|
    ensures DecValue(s[..k]) <= DecValue(s)
    decreases |s|
  {
    if k < |s| {
      var init := s[..|s| - 1];
      assert init[..k] == s[..k];
      DecValuePrefix(init, k);
      assert DecValue(s) == DecValue(init) * 10 + DigitValue(s[|s| - 1]);
    } else {
      assert s[..k] == s;
    }
  }

  /** Reading back the decimal text of `n` gives `n`. */
  lemma {:induction false} DecRoundTrip(n: nat)
    ensures DecValue(Dec(n)) == n
  {
    if n >= 10 {
      DecRoundTrip(n / 10);
      var s := Dec(n);
      assert s[..|s| - 1] == Dec(n / 10);
    }
  }

  /** Different numbers have different decimal texts. */
  lemma DecInjective(a: nat, b: nat)
    requires Dec(a) == Dec(b)
    ensures a == b
  {
    DecRoundTrip(a);
    DecRoundTrip(b);
  }

  /** A two-digit number prefixed by "20" reads as that year of the 2000s. */
  lemma {:induction false} CenturyPrefix(k: nat)
    requires 10 <= k <= 99
    ensures "20" + Dec(k) == Dec(2000 + k)
  {
    var t := k / 10;
    assert 1 <= t <= 9;
    assert Dec(k) == [DigitChar(t)] + [DigitChar(k % 10)];
    assert (2000 + k) / 10 == 200 + t && (2000 + k) % 10 == k % 10;
    assert (200 + t) / 10 == 20 && (200 + t) % 10 == t;
    assert Dec(20) == "20" by {
      assert Dec(20) == Dec(2) + [DigitChar(0)];
    }
    assert Dec(200 + t) == "20" + [DigitChar(t)];
  }

  /** `${n}` for an integer: a minus sign before the digits of a negative number. */
  function IntStr(i: int): string {
    if i < 0 then "-" + Dec(-i) else Dec(i)
  }

  /** `${x}` for a number that is an integer (`Some`) or NaN (`None`). */
  function NumStr(x: Option<int>): string {
    match x
    case Some(i) => IntStr(i)
    case None => "NaN"
  }

  /** `x + d` on a number that may be NaN. */
  function Plus(x: Option<int>, d: int): Option<int> {
    match x
    case Some(i) => Some(i + d)
    case None => None
  }

  /** Two shifts of a year are one shift by their sum, NaN staying NaN. */
  lemma PlusPlus(year: Option<int>, a: int, b: int)
    ensures Plus(Plus(year, a), b) == Plus(year, a + b)
  {
  }

  // ---------------------------------------------------------------- parseInt

  predicate IsHexDigit(c: char) {
    IsDigit(c) || 'a' <= c <= 'f' || 'A' <= c <= 'F'
  }

  function HexDigitValue(c: char): (d: nat)
    requires IsHexDigit(c)
    ensures d < 16
  {
    if IsDigit(c) then DigitValue(c)
    else if 'a' <= c <= 'f' then c as int - 'a' as int + 10
    else c as int - 'A' as int + 10
  }

  /** The longest prefix of decimal digits. */
  function DigitPrefix(s: string): (p: string)
    ensures |p| <= |s| && p == s[..|p|] && IsDigits(p)
    ensures |p| < |s| ==> !IsDigit(s[|p|])
  {
    if s != [] && IsDigit(s[0]) then [s[0]] + DigitPrefix(s[1..]) else ""
  }

  function HexPrefix(s: string): (p: string)
    ensures |p| <= |s| && p == s[..|p|]
    ensures forall i :: 0 <= i < |p| ==> IsHexDigit(p[i])
    ensures |p| < |s| ==> !IsHexDigit(s[|p|])
  {
    if s != [] && IsHexDigit(s[0]) then [s[0]] + HexPrefix(s[1..]) else ""
  }

  function HexValue(s: string): nat
    requires forall i :: 0 <= i < |s| ==> IsHexDigit(s[i])
  {
    if s == [] then 0 else HexValue(s[..|s| - 1]) * 16 + HexDigitValue(s[|s| - 1])
  }

  /** After the sign: a "0x" / "0X" prefix switches to hexadecimal, otherwise decimal. */
  function ParseUnsigned(s: string): Option<nat> {
    if |s| >= 2 && s[0] == '0' && (s[1] == 'x' || s[1] == 'X') then
      var h := HexPrefix(s[2..]);
      if h == "" then None else Some(HexValue(h))
    else
      var d := DigitPrefix(s);
      if d == "" then None else Some(DecValue(d))
  }

  /**
   * `parseInt(s)` without a radix: skip leading white space, read an optional sign, then the
   * longest run of digits; NaN (`None`) when there is no digit.
   */
  function ParseInt(s: string): (r: Option<int>)
    ensures s != [] && IsDigits(s) ==> r == Some(DecValue(s))
    ensures TrimStart(s) == [] ==> r == None
  {
    var t := TrimStart(s);
    assert s != [] && IsDigits(s) ==> t == s && DigitPrefix(s) == s by {
      if s != [] && IsDigits(s) {
        assert !IsJsSpace(s[0]);
        DigitPrefixOfDigits(s);
      }
    }
    if t != [] && t[0] == '-' then
      match ParseUnsigned(t[1..])
      case Some(n) => Some(0 - n as int)
      case None => None
    else if t != [] && t[0] == '+' then
      match ParseUnsigned(t[1..])
      case Some(n) => Some(n)
      case None => None
    else
      match ParseUnsigned(t)
      case Some(n) => Some(n)
      case None => None
  }

  /** `parseInt` reads back the decimal text of any natural number. */
  lemma ParseIntDec(n: nat)
    ensures ParseInt(Dec(n)) == Some(n)
  {
    var s := Dec(n);
    assert TrimStart(s) == s by {
      assert !IsJsSpace(s[0]);
    }
    assert DigitPrefix(s) == s by {
      DigitPrefixOfDigits(s);
    }
    DecRoundTrip(n);
  }

  lemma {:induction false} DigitPrefixOfDigits(s: string)
    requires IsDigits(s)
    ensures DigitPrefix(s) == s
  {
    if s != [] {
      DigitPrefixOfDigits(s[1..]);
    }
  }
}
