/** The numeric helpers of Unity's `Mathf` (and C#'s `%` on floats) that the car
    controller calls, over `real`.  Each follows the documented float semantics
    except for floating-point rounding error, which is not modelled. */
module Mathf {

  /** `a` and `b` in either order enclose `x`. */
  predicate Between(a: real, b: real, x: real) {
    (a <= x <= b) || (b <= x <= a)
  }

  /** Mathf.Abs */
  function Abs(f: real): (r: real)
    ensures r >= 0.0
    ensures r == f || r == -f
  {
    if f < 0.0 then -f else f
  }

  /** Mathf.Sign: 1 for zero and positive values, -1 for negative ones. */
  function Sign(f: real): (r: real)
    ensures r == 1.0 || r == -1.0
    ensures r == 1.0 <==> f >= 0.0
    ensures r * f == Abs(f)
  {
    if f >= 0.0 then 1.0 else -1.0
  }

  /** Mathf.Clamp01: `value` limited to [0, 1]. */
  function Clamp01(value: real): (r: real)
    ensures 0.0 <= r <= 1.0
    ensures 0.0 <= value <= 1.0 ==> r == value
    ensures value <= 0.0 ==> r == 0.0
    ensures value >= 1.0 ==> r == 1.0
  {
    if value < 0.0 then 0.0 else if value > 1.0 then 1.0 else value
  }

  /** Mathf.Clamp: the lower bound is tested first, so with `min > max` the
      result is `min` for values below it and `max` otherwise. */
  function Clamp(value: real, min: real, max: real): (r: real)
    ensures min <= max ==> min <= r <= max
    ensures min <= value <= max ==> r == value
    ensures value < min ==> r == min
    ensures min <= max && value > max ==> r == max
  {
    if value < min then min else if value > max then max else value
  }

  /** Mathf.Lerp: interpolation from `a` to `b` whose parameter is clamped to
      [0, 1], so it never overshoots either end. */
  function Lerp(a: real, b: real, t: real): (r: real)
    ensures Between(a, b, r)
    ensures t <= 0.0 ==> r == a
    ensures t >= 1.0 ==> r == b
  {
    ScaledBetween(b - a, Clamp01(t));
    a + (b - a) * Clamp01(t)
  }

  /** A fraction in [0, 1] of `d` lies between 0 and `d`. */
  lemma ScaledBetween(d: real, c: real)
    requires 0.0 <= c <= 1.0
    ensures Between(0.0, d, d * c)
  {
    if d >= 0.0 {
      MulLeftMono(d, 0.0, c);
      MulLeftMono(d, c, 1.0);
    } else {
      MulLeftMono(-d, 0.0, c);
      MulLeftMono(-d, c, 1.0);
    }
  }

  /** Mathf.InverseLerp: where `value` lies between `a` and `b`, clamped to
      [0, 1]; 0 when the two ends coincide. */
  function InverseLerp(a: real, b: real, value: real): (r: real)
    ensures 0.0 <= r <= 1.0
    ensures a == b ==> r == 0.0
  {
    if a != b then Clamp01((value - a) / (b - a)) else 0.0
  }

  /** Mathf.Pow(f, 2), the only power the controller takes. */
  function Square(f: real): (r: real)
    ensures r >= 0.0
  {
    f * f
  }

  /** Mathf.RoundToInt: C#'s Math.Round, which sends halves to the even
      neighbour. */
  function RoundToInt(f: real): (r: int)
    ensures Abs(r as real - f) <= 0.5
    ensures Abs(r as real - f) == 0.5 ==> r % 2 == 0
  {
    var below := f.Floor;
    var frac := f - below as real;
    if frac < 0.5 then below
    else if frac > 0.5 then below + 1
    else if below % 2 == 0 then below
    else below + 1
  }

  /** The C# conversion of a real quotient toward zero. */
  function Truncate(y: real): (k: int)
    ensures y >= 0.0 ==> k as real <= y < k as real + 1.0
    ensures y <= 0.0 ==> k as real - 1.0 < y <= k as real
  {
    if y >= 0.0 then y.Floor else -((-y).Floor)
  }

  /** C#'s `x % 360` on floats (IEEE fmod): the result keeps the sign of the
      dividend and stays below a full turn in magnitude. */
  function FloatRem360(x: real): (r: real)
    ensures -360.0 < r < 360.0
    ensures x >= 0.0 ==> r >= 0.0
    ensures x <= 0.0 ==> r <= 0.0
    ensures -360.0 < x < 360.0 ==> r == x
    ensures WholeTurns(x - r)
  {
    var k := Truncate(x / 360.0);
    WholeTurnsOf(k);
    x - 360.0 * k as real
  }

  /** `d` is a whole number of turns of 360. */
  predicate WholeTurns(d: real) {
    (d / 360.0).Floor as real == d / 360.0
  }

  /** The range, the sign and the whole-turn difference pin the remainder
      down: any value with all three is the one C# computes. */
  lemma FloatRem360Unique(x: real, r: real)
    requires -360.0 < r < 360.0
    requires x >= 0.0 ==> r >= 0.0
    requires x <= 0.0 ==> r <= 0.0
    requires WholeTurns(x - r)
    ensures r == FloatRem360(x)
  {
    var r0 := FloatRem360(x);
    var m, m0 := ((x - r) / 360.0).Floor, ((x - r0) / 360.0).Floor;
    assert x - r == 360.0 * m as real;
    assert x - r0 == 360.0 * m0 as real;
    var diff := r0 - r;
    assert diff == 360.0 * (m - m0) as real;
    assert -360.0 < diff < 360.0;
  }

  lemma WholeTurnsOf(k: int)
    ensures WholeTurns(360.0 * k as real)
  {
    assert (360.0 * k as real) / 360.0 == k as real;
  }

  lemma MulRightMono(x: real, y: real, m: real)
    requires x <= y && m >= 0.0
    ensures x * m <= y * m
  {}

  lemma MulRightStrict(x: real, y: real, m: real)
    requires x < y && m > 0.0
    ensures x * m < y * m
  {}

  /** Lerp moves monotonically along its parameter: from `a` toward `b`. */
  lemma LerpMonotone(a: real, b: real, t1: real, t2: real)
    requires a <= b && t1 <= t2
    ensures Lerp(a, b, t1) <= Lerp(a, b, t2)
  {
    var c1, c2 := Clamp01(t1), Clamp01(t2);
    var d := b - a;
    assert c1 <= c2;
    calc {
      Lerp(a, b, t1);
    ==
      a + d * c1;
    <= { MulLeftMono(d, c1, c2); }
      a + d * c2;
    ==
      Lerp(a, b, t2);
    }
  }

  /** ... and from `a` down toward `b` when `b` is the smaller end. */
  lemma LerpAntitone(a: real, b: real, t1: real, t2: real)
    requires b <= a && t1 <= t2
    ensures Lerp(a, b, t2) <= Lerp(a, b, t1)
  {
    var c1, c2 := Clamp01(t1), Clamp01(t2);
    var d := a - b;
    calc {
      Lerp(a, b, t2);
    ==
      a + (b - a) * c2;
    ==
      a - d * c2;
    <= { MulLeftMono(d, c1, c2); }
      a - d * c1;
    ==
      a + (b - a) * c1;
    ==
      Lerp(a, b, t1);
    }
  }

  /** InverseLerp grows with its value on a proper interval. */
  lemma InverseLerpMonotone(a: real, b: real, v1: real, v2: real)
    requires a < b && v1 <= v2
    ensures InverseLerp(a, b, v1) <= InverseLerp(a, b, v2)
  {
    DivMono(v1 - a, v2 - a, b - a);
  }

  lemma DivMono(x: real, y: real, d: real)
    requires x <= y && d > 0.0
    ensures x / d <= y / d
  {}

  /** A fraction in [0, 1] of a non-negative amount is at most that amount. */
  lemma FractionOf(a: real, p: real)
    requires 0.0 <= p <= 1.0 && a >= 0.0
    ensures 0.0 <= p * a <= a
  {
    MulRightMono(p, 1.0, a);
    MulRightMono(0.0, p, a);
  }

  lemma MulLeftMono(d: real, x: real, y: real)
    requires d >= 0.0 && x <= y
    ensures d * x <= d * y
  {}

  /** InverseLerp undoes Lerp on the interval it describes. */
  lemma LerpInverseLerp(a: real, b: real, value: real)
    requires a < b && a <= value <= b
    ensures Lerp(a, b, InverseLerp(a, b, value)) == value
  {
    var d := b - a;
    var t := (value - a) / d;
    assert t * d == value - a;
    if t < 0.0 { MulRightStrict(t, 0.0, d); }
    if t > 1.0 { MulRightStrict(1.0, t, d); }
    assert 0.0 <= t <= 1.0;
    assert InverseLerp(a, b, value) == t;
    assert Lerp(a, b, t) == a + d * t;
  }

  /** Squaring preserves order on non-negative numbers. */
  lemma SquareMonotone(x: real, y: real)
    requires 0.0 <= x <= y
    ensures Square(x) <= Square(y)
  {
    calc {
      Square(x);
    ==
      x * x;
    <= { MulLeftMono(x, x, y); }
      x * y;
    <= { MulRightMono(x, y, y); }
      y * y;
    ==
      Square(y);
    }
  }
}
