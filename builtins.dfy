/** The few Python built-ins the autoscaler's arithmetic and log lines rely on,
    stated on exact integers and reals instead of IEEE doubles.
    - `Trunc`        is `int(x)` applied to a float (truncation toward zero);
    - `RoundHalfEven` is `round(x)` (ties go to the even neighbour);
    - `CeilDiv`      is `int(math.ceil(p / t))` for a positive integer divisor;
    - `IntToString`  is `str(i)` on an int, with `ParseInt` as its inverse. */
module Builtins {

  datatype Option<+T> = None | Some(value: T)

  /** `int(x)` on a float: the integer part, rounding toward zero. */
  function Trunc(x: real): (r: int)
    ensures 0.0 <= x ==> 0 <= r && r as real <= x < r as real + 1.0
    ensures x < 0.0 ==> r <= 0 && r as real - 1.0 < x <= r as real
  {
    if x >= 0.0 then x.Floor else -((-x).Floor)
  }

  /** `round(x)`: the nearest integer, and the even one of the two on a tie. */
  function RoundHalfEven(x: real): (r: int)
    ensures x - 0.5 <= r as real <= x + 0.5
    ensures (r as real - x == 0.5 || x - r as real == 0.5) ==> r % 2 == 0
  {
    var f := x.Floor;
    var d := x - f as real;
    if d < 0.5 then f
    else if d > 0.5 then f + 1
    else if f % 2 == 0 then f
    else f + 1
  }

  /** The two properties in the contract of `RoundHalfEven` single out one
      integer, so they are a complete description of `round`. */
  lemma RoundHalfEvenUnique(x: real, k: int)
    requires x - 0.5 <= k as real <= x + 0.5
    requires (k as real - x == 0.5 || x - k as real == 0.5) ==> k % 2 == 0
    ensures k == RoundHalfEven(x)
  {
  }

  /** `round` never moves a value across an integer bound on either side. */
  lemma RoundHalfEvenWithin(x: real, lo: int, hi: int)
    requires lo as real <= x <= hi as real
    ensures lo <= RoundHalfEven(x) <= hi
  {
  }

  /** `int(math.ceil(p / t))` for a positive integer `t`, computed exactly. */
  function CeilDiv(p: int, t: int): (n: int)
    requires t > 0
    ensures n * t >= p
    ensures (n - 1) * t < p
  {
    var q := (-p) / t;
    var m := (-p) % t;
    assert -p == q * t + m && 0 <= m < t;
    assert (-q) * t == p + m;
    assert (-q - 1) * t == p + m - t;
    -q
  }

  /** The two inequalities of `CeilDiv` determine its value: it is the least
      multiplier whose multiple of `t` reaches `p`. */
  lemma CeilDivUnique(p: int, t: int, k: int)
    requires t > 0
    requires k * t >= p && (k - 1) * t < p
    ensures k == CeilDiv(p, t)
  {
  }

  /** A larger dividend never needs fewer divisors. */
  lemma CeilDivMonotone(p1: int, p2: int, t: int)
    requires t > 0 && p1 <= p2
    ensures CeilDiv(p1, t) <= CeilDiv(p2, t)
  {
  }

  predicate IsDigit(c: char) {
    '0' <= c <= '9'
  }

  predicate AllDigits(s: string) {
    forall i | 0 <= i < |s| :: IsDigit(s[i])
  }

  function DigitChar(d: int): (c: char)
    requires 0 <= d < 10
    ensures IsDigit(c)
  {
    "0123456789"[d]
  }

  function DigitValue(c: char): (d: int)
    requires IsDigit(c)
    ensures 0 <= d < 10
  {
    c as int - '0' as int
  }

  /** Decimal digits of `n`, most significant first, without leading zeros. */
  function NatToString(n: nat): (s: string)
    ensures |s| > 0 && AllDigits(s)
    ensures |s| > 1 ==> s[0] != '0'
  {
    if n < 10 then [DigitChar(n)]
    else NatToString(n / 10) + [DigitChar(n % 10)]
  }

  /** The number a string of decimal digits denotes. */
  function DigitsValue(s: string): nat
    requires AllDigits(s)
  {
    if s == [] then 0
    else 10 * DigitsValue(s[..|s| - 1]) + DigitValue(s[|s| - 1])
  }

  lemma {:induction false} DigitsValueOfNatToString(n: nat)
    ensures DigitsValue(NatToString(n)) == n
  {
    var s := NatToString(n);
    if n < 10 {
      assert s[..|s| - 1] == [];
    } else {
      assert s[..|s| - 1] == NatToString(n / 10);
      DigitsValueOfNatToString(n / 10);
    }
  }

  /** `str(i)` on a Python int. */
  function IntToString(i: int): (s: string)
    ensures |s| > 0
  {
    if i < 0 then "-" + NatToString(-i) else NatToString(i)
  }

  /** `int(s)` on a decimal string, with `None` where Python would raise. */
  function ParseInt(s: string): Option<int> {
    if |s| > 1 && s[0] == '-' && AllDigits(s[1..]) then Some(0 - DigitsValue(s[1..]) as int)
    else if |s| > 0 && AllDigits(s) then Some(DigitsValue(s))
    else None
  }

  /** Every integer written by `str` reads back as itself, so the numbers
      embedded in log lines are recoverable. */
  lemma IntToStringRoundTrip(i: int)
    ensures ParseInt(IntToString(i)) == Some(i)
  {
    if i < 0 {
      NegativeRoundTrip(-i);
    } else {
      var d := NatToString(i);
      assert IsDigit(d[0]);
      DigitsValueOfNatToString(i);
    }
  }

  lemma NegativeRoundTrip(n: nat)
    requires n > 0
    ensures ParseInt("-" + NatToString(n)) == Some(-(n as int))
  {
    var d := NatToString(n);
    var s := "-" + d;
    assert s[0] == '-' && s[1..] == d && |s| > 1;
    DigitsValueOfNatToString(n);
  }

  /** `str` is injective on integers. */
  lemma IntToStringInjective(i: int, j: int)
    requires IntToString(i) == IntToString(j)
    ensures i == j
  {
    IntToStringRoundTrip(i);
    IntToStringRoundTrip(j);
  }
}
