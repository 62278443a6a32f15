/** The two pieces of Python number handling the calculator relies on, stated
    over exact reals: `int(x)` on a float (truncation toward zero) and the
    built-in `round`, which rounds to the nearest value and breaks ties toward
    the even neighbour. */
module PyNumeric {

  /** `int(x)` for a float `x`: drops the fractional part, toward zero. */
  function Trunc(x: real): (n: int)
    ensures 0.0 <= x ==> n as real <= x < n as real + 1.0
    ensures x <= 0.0 ==> n as real - 1.0 < x <= n as real
  {
    if x >= 0.0 then x.Floor else -((-x).Floor)
  }

  /** `round(x)`: the integer nearest to `x`; of two equally near, the even one. */
  function RoundHalfEven(x: real): (n: int)
    ensures x - 0.5 <= n as real <= x + 0.5
    ensures (n as real == x - 0.5 || n as real == x + 0.5) ==> n % 2 == 0
  {
    var f := x.Floor;
    var d := x - f as real;
    if d < 0.5 then f
    else if d > 0.5 then f + 1
    else if f % 2 == 0 then f
    else f + 1
  }

  /** A value with at most two decimal places. */
  predicate IsCents(r: real) {
    (r * 100.0).Floor as real == r * 100.0
  }

  /** `round(x, 2)`: the nearest multiple of 0.01, ties to even. */
  function Round2(x: real): (r: real)
    ensures x - 0.005 <= r <= x + 0.005
    ensures IsCents(r)
    ensures 0.0 <= x ==> 0.0 <= r
  {
    var n := RoundHalfEven(x * 100.0);
    var r := n as real / 100.0;
    assert r * 100.0 == n as real;
    assert (n as real).Floor == n;
    assert x * 100.0 - 0.5 <= r * 100.0 <= x * 100.0 + 0.5;
    r
  }

  lemma RoundHalfEvenOfInteger(k: int)
    ensures RoundHalfEven(k as real) == k
  {
  }

  lemma RoundHalfEvenMonotone(x: real, y: real)
    requires x <= y
    ensures RoundHalfEven(x) <= RoundHalfEven(y)
  {
  }

  /** Rounding never reverses the order of two values. */
  lemma Round2Monotone(x: real, y: real)
    requires x <= y
    ensures Round2(x) <= Round2(y)
  {
    RoundHalfEvenMonotone(x * 100.0, y * 100.0);
  }

  /** A value that already has two decimal places is left as it is. */
  lemma Round2OfCents(r: real)
    requires IsCents(r)
    ensures Round2(r) == r
  {
    RoundHalfEvenOfInteger((r * 100.0).Floor);
  }

  /** Whole numbers have two decimal places. */
  lemma IntegerIsCents(k: int)
    ensures IsCents(k as real)
  {
    assert k as real * 100.0 == (k * 100) as real;
    assert ((k * 100) as real).Floor == k * 100;
  }
}
