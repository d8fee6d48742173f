/**
 * Java's fixed-width integers and the decimal text the app writes and reads
 * back: `String.valueOf(long)` for timestamps and recovery codes, and
 * `Long.parseLong` for a device's last-seen time.
 */
module Numbers {
  import opened Nullable

  const MinInt: int := -0x8000_0000
  const MaxInt: int := 0x7FFF_FFFF
  const MinLong: int := -0x8000_0000_0000_0000
  const MaxLong: int := 0x7FFF_FFFF_FFFF_FFFF

  /** A value of Java's `long`. */
  type Long = x: int | MinLong <= x <= MaxLong

  /**
   * The values that successive calls of `System.currentTimeMillis()` return
   * within one operation: call `k` (from 0) returns `clock(k)`.
   */
  type Clock = nat -> Long

  /** Two's-complement wrap-around of an exact result into Java's `int`. */
  function WrapInt(x: int): (r: int)
    ensures MinInt <= r <= MaxInt
    ensures (x - r) % 0x1_0000_0000 == 0
    ensures MinInt <= x <= MaxInt ==> r == x
  {
    var m := x % 0x1_0000_0000;
    if m > MaxInt then m - 0x1_0000_0000 else m
  }

  /** Two's-complement wrap-around of an exact result into Java's `long`. */
  function WrapLong(x: int): (r: Long)
    ensures (x - r) % 0x1_0000_0000_0000_0000 == 0
    ensures MinLong <= x <= MaxLong ==> r == x
  {
    var m := x % 0x1_0000_0000_0000_0000;
    if m > MaxLong then m - 0x1_0000_0000_0000_0000 else m
  }

  /**
   * Java's `(int)` cast of a floating-point value: rounds toward zero and
   * saturates at the bounds of `int` (NaN is not modelled).
   */
  function TruncateToInt(x: real): (r: int)
    ensures MinInt <= r <= MaxInt
    ensures MinInt as real <= x <= MaxInt as real ==> -1.0 < x - r as real < 1.0
    ensures x >= 0.0 ==> 0 <= r && r as real <= x
    ensures x < 0.0 ==> r <= 0 && x <= r as real
  {
    var t := if x >= 0.0 then x.Floor else -((-x).Floor);
    if t < MinInt then MinInt else if t > MaxInt then MaxInt else t
  }

  /**
   * `Math.round(float)`: the nearest `int`, halves rounded up, saturating at
   * the bounds of `int` (NaN is not modelled).
   */
  function RoundToInt(x: real): (r: int)
    ensures MinInt <= r <= MaxInt
    ensures MinInt as real <= x <= MaxInt as real ==> -0.5 <= x - r as real < 0.5
    ensures x >= MaxInt as real ==> r == MaxInt
    ensures x < MinInt as real - 0.5 ==> r == MinInt
  {
    var t := (x + 0.5).Floor;
    if t < MinInt then MinInt else if t > MaxInt then MaxInt else t
  }

  predicate IsDigit(c: char) {
    '0' <= c <= '9'
  }

  predicate AllDigits(s: string) {
    forall i :: 0 <= i < |s| ==> IsDigit(s[i])
  }

  function DigitChar(d: int): (c: char)
    requires 0 <= d < 10
    ensures IsDigit(c)
  {
    (('0' as int) + d) as char
  }

  function DigitValue(c: char): (d: int)
    requires IsDigit(c)
    ensures 0 <= d < 10
  {
    c as int - '0' as int
  }

  /** The decimal digits of `n`, most significant first, with no leading zero. */
  function Digits(n: nat): (s: string)
    ensures 1 <= |s|
    ensures AllDigits(s)
    ensures s[0] == '0' <==> n == 0
    decreases n
  {
    if n < 10 then [DigitChar(n)] else Digits(n / 10) + [DigitChar(n % 10)]
  }

  /** The number a string of decimal digits denotes (leading zeros allowed). */
  function DigitsValue(s: string): nat
    requires AllDigits(s)
    decreases |s|
  {
    if |s| == 0 then 0 else DigitsValue(s[..|s| - 1]) * 10 + DigitValue(s[|s| - 1])
  }

  /** `String.valueOf(long)`: an optional minus sign followed by the digits. */
  function DecimalString(n: int): (s: string)
    ensures 1 <= |s|
    ensures n >= 0 ==> AllDigits(s)
    ensures n < 0 ==> s[0] == '-' && AllDigits(s[1..])
  {
    if n < 0 then "-" + Digits(-n) else Digits(n)
  }

  /**
   * `Long.parseLong`: one optional sign character ('-' or '+'), then at least
   * one decimal digit; `None` stands for the NumberFormatException thrown for
   * any other text and for values outside the range of `long`.
   */
  function ParseLong(s: string): (r: Option<Long>)
    ensures |s| == 0 ==> r.None?
    ensures r.Some? ==> AllDigits(s[1..]) && (IsDigit(s[0]) || s[0] == '-' || s[0] == '+')
    ensures r.Some? && s[0] == '-' ==> r.value <= 0
    ensures r.Some? && s[0] != '-' ==> r.value >= 0
  {
    if |s| == 0 then None
    else
      var body := if s[0] == '-' || s[0] == '+' then s[1..] else s;
      if |body| == 0 || !AllDigits(body) then None
      else
        var magnitude: int := DigitsValue(body);
        var v := if s[0] == '-' then -magnitude else magnitude;
        if MinLong <= v <= MaxLong then Some(v) else None
  }

  /** Reading the digits of `n` back gives `n`. */
  lemma {:induction false} DigitsValueOfDigits(n: nat)
    ensures DigitsValue(Digits(n)) == n
    decreases n
  {
    if n >= 10 {
      DigitsValueOfDigits(n / 10);
      var s := Digits(n);
      assert s[..|s| - 1] == Digits(n / 10);
    }
  }

  /** `Long.parseLong(String.valueOf(n)) == n` for every `long` n. */
  lemma ParseLongOfDecimalString(n: Long)
    ensures ParseLong(DecimalString(n)) == Some(n)
  {
    var s := DecimalString(n);
    var m: int := n;
    if m < 0 {
      DigitsValueOfDigits(-m);
      assert s[1..] == Digits(-m);
    } else {
      DigitsValueOfDigits(m);
      assert IsDigit(s[0]);
    }
  }

  /** Numbers from 1000 to 9999 are written with exactly four digits. */
  lemma FourDigits(n: int)
    requires 1000 <= n <= 9999
    ensures |Digits(n)| == 4
  {
    assert Digits(n) == Digits(n / 10) + [DigitChar(n % 10)];
    assert Digits(n / 10) == Digits(n / 100) + [DigitChar(n / 10 % 10)];
    assert Digits(n / 100) == Digits(n / 1000) + [DigitChar(n / 100 % 10)];
    assert |Digits(n / 1000)| == 1;
  }
}
