/** Python's `round(x, 2)`, stated over exact reals: round to the nearest multiple of
    0.01, a tie going to the even multiple. Binary floating point is not modelled. */
module Rounding {

  function Abs(x: real): (a: real)
    ensures a >= 0.0 && (a == x || a == -x)
  {
    if x < 0.0 then -x else x
  }

  /** The nearest integer to `y`; of two equally near, the even one (banker's rounding,
      the rule of Python's `round`). */
  function RoundHalfEven(y: real): (r: int)
    ensures Abs(r as real - y) <= 0.5
    ensures Abs(r as real - y) == 0.5 ==> r % 2 == 0
  {
    var n := y.Floor;
    var frac := y - n as real;
    if frac < 0.5 then n
    else if frac > 0.5 then n + 1
    else if n % 2 == 0 then n
    else n + 1
  }

  /** No integer is nearer to `y` than the one it rounds to. */
  lemma RoundHalfEvenIsNearest(y: real, k: int)
    ensures Abs(RoundHalfEven(y) as real - y) <= Abs(k as real - y)
  {
    var r := RoundHalfEven(y);
    if k < r {
      assert k as real <= r as real - 1.0;
    } else if k > r {
      assert k as real >= r as real + 1.0;
    }
  }

  /** Rounding to an integer never reverses the order of two values. */
  lemma RoundHalfEvenMonotone(y1: real, y2: real)
    requires y1 <= y2
    ensures RoundHalfEven(y1) <= RoundHalfEven(y2)
  {
  }

  /** An integer rounds to itself. */
  lemma RoundHalfEvenOfInt(k: int)
    ensures RoundHalfEven(k as real) == k
  {
  }

  /** `round(x, 2)`: a whole number of cents, at most half a cent away from `x`. */
  function Round2(x: real): (r: real)
    ensures (r * 100.0).Floor as real == r * 100.0
    ensures Abs(r - x) <= 0.005
  {
    var n := RoundHalfEven(x * 100.0);
    assert n as real / 100.0 - x == (n as real - x * 100.0) / 100.0;
    n as real / 100.0
  }

  /** No whole number of cents is nearer to `x` than `round(x, 2)`. */
  lemma Round2Nearest(x: real, k: int)
    ensures Abs(Round2(x) - x) <= Abs(k as real / 100.0 - x)
  {
    var n := RoundHalfEven(x * 100.0);
    RoundHalfEvenIsNearest(x * 100.0, k);
    assert Round2(x) - x == (n as real - x * 100.0) / 100.0;
    assert k as real / 100.0 - x == (k as real - x * 100.0) / 100.0;
  }

  lemma Round2Monotone(x1: real, x2: real)
    requires x1 <= x2
    ensures Round2(x1) <= Round2(x2)
  {
    RoundHalfEvenMonotone(x1 * 100.0, x2 * 100.0);
  }

  /** A whole number of cents is left as it is. */
  lemma Round2OfCents(k: int)
    ensures Round2(k as real / 100.0) == k as real / 100.0
  {
  }

  /** Rounding keeps a value inside any interval whose ends are whole cents. */
  lemma Round2WithinCents(x: real, lo: int, hi: int)
    requires lo as real / 100.0 <= x <= hi as real / 100.0
    ensures lo as real / 100.0 <= Round2(x) <= hi as real / 100.0
  {
    Round2Monotone(lo as real / 100.0, x);
    Round2Monotone(x, hi as real / 100.0);
    Round2OfCents(lo);
    Round2OfCents(hi);
  }
}
