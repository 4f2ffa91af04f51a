/** C# `decimal` arithmetic modelled over exact reals, and the integer operators of C# and Java. */
module Decimals {

  function Max(a: real, b: real): (r: real)
    ensures r >= a && r >= b && (r == a || r == b)
  {
    if a >= b then a else b
  }

  function Min(a: real, b: real): (r: real)
    ensures r <= a && r <= b && (r == a || r == b)
  {
    if a <= b then a else b
  }

  function Abs(x: real): real {
    if x < 0.0 then -x else x
  }

  /** The integer nearest to `x`, ties going to the even neighbour (MidpointRounding.ToEven). */
  function RoundHalfEven(x: real): (r: int)
    ensures Abs(x - r as real) <= 0.5
    ensures Abs(x - r as real) == 0.5 ==> r % 2 == 0
  {
    var f := x.Floor;
    var d := x - f as real;
    if d < 0.5 then f
    else if d > 0.5 then f + 1
    else if f % 2 == 0 then f
    else f + 1
  }

  /** An integer is its own rounding. */
  lemma RoundHalfEvenOfInt(n: int)
    ensures RoundHalfEven(n as real) == n
  {
  }

  /** Rounding is monotone. */
  lemma {:induction false} RoundHalfEvenMonotone(x: real, y: real)
    requires x <= y
    ensures RoundHalfEven(x) <= RoundHalfEven(y)
  {
  }

  /** Whether `x` has at most two decimal places. */
  predicate HasTwoPlaces(x: real) {
    (x * 100.0).Floor as real == x * 100.0
  }

  /** `Math.Round(x, 2)` on decimal: banker's rounding to two decimal places. */
  function Round2(x: real): (r: real)
    ensures HasTwoPlaces(r)
    ensures Abs(x - r) <= 0.005
  {
    var n := RoundHalfEven(x * 100.0);
    assert (n as real / 100.0) * 100.0 == n as real;
    n as real / 100.0
  }

  /** Rounding to cents changes nothing that already is in cents. */
  lemma Round2Exact(x: real)
    requires HasTwoPlaces(x)
    ensures Round2(x) == x
  {
    var n := (x * 100.0).Floor;
    RoundHalfEvenOfInt(n);
  }

  lemma Round2Idempotent(x: real)
    ensures Round2(Round2(x)) == Round2(x)
  {
    Round2Exact(Round2(x));
  }

  lemma Round2Monotone(x: real, y: real)
    requires x <= y
    ensures Round2(x) <= Round2(y)
  {
    RoundHalfEvenMonotone(x * 100.0, y * 100.0);
  }

  lemma Round2NonNegative(x: real)
    requires x >= 0.0
    ensures Round2(x) >= 0.0
  {
    Round2Monotone(0.0, x);
    Round2Exact(0.0);
  }

  /** `Math.Floor` on decimal. */
  function Floor(x: real): (r: real)
    ensures r <= x < r + 1.0
    ensures r.Floor as real == r
  {
    x.Floor as real
  }

  /** `/` on C# `int` and Java `long`: the quotient truncated toward zero. */
  function TruncDiv(a: int, b: int): (q: int)
    requires b != 0
    ensures Abs(a as real - (q * b) as real) < Abs(b as real)
    ensures a >= 0 && b > 0 ==> q == a / b && q >= 0
  {
    if (a >= 0) == (b > 0) then
      (if a >= 0 then a / b else (-a) / (-b))
    else -(Iabs(a) / Iabs(b))
  }

  /** `%` on C# `int`: the remainder takes the sign of the dividend. */
  function TruncMod(a: int, b: int): (r: int)
    requires b != 0
    ensures a == TruncDiv(a, b) * b + r
  {
    a - TruncDiv(a, b) * b
  }

  function Iabs(a: int): nat {
    if a < 0 then -a else a
  }

  /** A cast of a real to an integer type (`(int)`, `(long)`): truncation toward zero. */
  function Truncate(x: real): (n: int)
    ensures Abs(x - n as real) < 1.0
    ensures Abs(n as real) <= Abs(x)
  {
    if x >= 0.0 then x.Floor else -((-x).Floor)
  }
}
