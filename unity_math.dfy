/** The handful of engine math helpers (UnityEngine.Mathf and the C# float remainder operator)
    the game logic relies on, over mathematical reals. Floating-point rounding is not modelled. */
module UnityMath {

  /** The conventional optional value, used for nullable references and absent components. */
  datatype Option<+T> = None | Some(value: T)

  /** Mathf.Max(a, b): the larger of the two. */
  function Max(a: real, b: real): (r: real)
    ensures r >= a && r >= b
    ensures r == a || r == b
  {
    if a > b then a else b
  }

  /** Mathf.Min(a, b): the smaller of the two. */
  function Min(a: real, b: real): (r: real)
    ensures r <= a && r <= b
    ensures r == a || r == b
  {
    if a < b then a else b
  }

  /** Mathf.Min on ints. */
  function MinInt(a: int, b: int): (r: int)
    ensures r <= a && r <= b
    ensures r == a || r == b
  {
    if a < b then a else b
  }

  /** Mathf.Max on ints. */
  function MaxInt(a: int, b: int): (r: int)
    ensures r >= a && r >= b
    ensures r == a || r == b
  {
    if a > b then a else b
  }

  /** Mathf.Abs. */
  function Abs(x: real): (r: real)
    ensures r >= 0.0
    ensures r == x || r == -x
  {
    if x < 0.0 then -x else x
  }

  /** Mathf.Sign: 1 for zero and positive values, -1 for negative ones. */
  function Sign(x: real): (r: real)
    ensures r == 1.0 || r == -1.0
    ensures r * x == Abs(x)
  {
    if x >= 0.0 then 1.0 else -1.0
  }

  /** Mathf.Clamp(value, min, max) on floats: `min` wins when the value is below it. */
  function Clamp(value: real, lo: real, hi: real): (r: real)
    ensures lo <= hi ==> lo <= r <= hi
    ensures lo <= value <= hi ==> r == value
    ensures value < lo ==> r == lo
    ensures lo <= value && hi < value ==> r == hi
  {
    if value < lo then lo else if value > hi then hi else value
  }

  /** Mathf.Clamp(value, min, max) on ints. */
  function ClampInt(value: int, lo: int, hi: int): (r: int)
    ensures lo <= hi ==> lo <= r <= hi
    ensures lo <= value <= hi ==> r == value
    ensures value < lo ==> r == lo
    ensures lo <= value && hi < value ==> r == hi
  {
    if value < lo then lo else if value > hi then hi else value
  }

  /** Mathf.Lerp(a, b, t): linear interpolation with `t` clamped into [0, 1]. */
  function Lerp(a: real, b: real, t: real): (r: real)
    ensures Min(a, b) <= r <= Max(a, b)
    ensures t <= 0.0 ==> r == a
    ensures t >= 1.0 ==> r == b
    ensures 0.0 <= t <= 1.0 ==> r == a + (b - a) * t
  {
    var u := Clamp(t, 0.0, 1.0);
    LerpBetween(a, b, u);
    a + (b - a) * u
  }

  /** Mathf.MoveTowards(current, target, maxDelta): a step of at most `maxDelta` that never overshoots. */
  function MoveTowards(current: real, target: real, maxDelta: real): (r: real)
    ensures Abs(target - current) <= maxDelta ==> r == target
    ensures maxDelta >= 0.0 ==> Abs(r - current) <= maxDelta
    ensures maxDelta >= 0.0 ==> Min(current, target) <= r <= Max(current, target)
    ensures Abs(target - current) > maxDelta ==> r == current + Sign(target - current) * maxDelta
    ensures maxDelta > 0.0 ==> r == target || Abs(target - r) == Abs(target - current) - maxDelta
  {
    if Abs(target - current) <= maxDelta then target
    else current + Sign(target - current) * maxDelta
  }

  /** What a per-second `rate` amounts to over a frame of `dt` seconds (`rate * Time.deltaTime`). */
  function PerFrame(rate: real, dt: real): (r: real)
    ensures rate >= 0.0 && dt >= 0.0 ==> r >= 0.0
    ensures dt == 0.0 ==> r == 0.0
  {
    MulNonnegWhen(rate, dt);
    rate * dt
  }

  /** Mathf.CeilToInt: the least integer not below `x`. */
  function CeilToInt(x: real): (r: int)
    ensures x <= r as real < x + 1.0
  {
    -((-x).Floor)
  }

  /** Truncation toward zero of a real, as the float-to-int cast and the float `%` use it. */
  function Trunc(y: real): (q: int)
    ensures y >= 0.0 ==> 0.0 <= y - q as real < 1.0
    ensures y < 0.0 ==> -1.0 < y - q as real <= 0.0
  {
    if y >= 0.0 then y.Floor else -((-y).Floor)
  }

  /** The C# remainder `x % m` on floats: the sign follows the dividend. */
  function FMod(x: real, m: real): (r: real)
    requires m > 0.0
    ensures x >= 0.0 ==> 0.0 <= r < m
    ensures x < 0.0 ==> -m < r <= 0.0
  {
    var q := Trunc(x / m);
    FModBounds(x, m, q);
    x - m * q as real
  }

  lemma FModBounds(x: real, m: real, q: int)
    requires m > 0.0 && q == Trunc(x / m)
    ensures x >= 0.0 ==> 0.0 <= x - m * q as real < m
    ensures x < 0.0 ==> -m < x - m * q as real <= 0.0
  {
    DivMul(x, m);
    if x >= 0.0 {
      DivNonneg(x, m);
      RemainderBelow(x, m, x / m, q as real);
    } else {
      DivNeg(x, m);
      RemainderBelow(-x, m, -(x / m), -(q as real));
    }
  }

  /** When `x == m * y` and `qr` is within one below `y`, `x - m * qr` lies in [0, m). */
  lemma RemainderBelow(x: real, m: real, y: real, qr: real)
    requires m > 0.0 && m * y == x && 0.0 <= y - qr < 1.0
    ensures 0.0 <= x - m * qr < m
  {
    var d := y - qr;
    assert m * d == m * y - m * qr;
    ScaleFraction(m, d);
    assert m * d < m;
    assert x - m * qr == m * d;
  }

  lemma DivMul(x: real, m: real)
    requires m > 0.0
    ensures m * (x / m) == x
  {
  }

  lemma DivNonneg(x: real, m: real)
    requires m > 0.0 && x >= 0.0
    ensures x / m >= 0.0
  {
  }

  lemma DivNeg(x: real, m: real)
    requires m > 0.0 && x < 0.0
    ensures x / m < 0.0
  {
  }

  lemma ScaleFraction(m: real, d: real)
    requires m > 0.0 && 0.0 <= d < 1.0
    ensures 0.0 <= m * d < m
  {
    MulNonneg(m, d);
    assert m - m * d == m * (1.0 - d);
  }

  lemma MulNonneg(p: real, u: real)
    requires p >= 0.0 && u >= 0.0
    ensures p * u >= 0.0
  {
  }

  lemma SquareNonneg(m: real)
    ensures m * m >= 0.0
  {
    if m < 0.0 { MulNonneg(-m, -m); } else { MulNonneg(m, m); }
  }

  lemma MulNonnegWhen(p: real, u: real)
    ensures p >= 0.0 && u >= 0.0 ==> p * u >= 0.0
  {
    if p >= 0.0 && u >= 0.0 { MulNonneg(p, u); }
  }

  /** With a positive factor, a product is positive exactly when the other factor is. */
  lemma MulPositiveWhen(p: real, u: real)
    ensures u > 0.0 ==> (p * u > 0.0 <==> p > 0.0)
  {
    if u > 0.0 {
      if p > 0.0 { assert p * u > 0.0 * u; }
      else { assert p * u <= 0.0 * u; }
    }
  }

  /** The square of a real, which is never negative. */
  function Sq(r: real): (s: real)
    ensures s >= 0.0
  {
    r * r
  }

  /** The angle normalisation `(a % 360 + 360) % 360` used by every hook variant. */
  function Normalize360(a: real): (r: real)
    ensures 0.0 <= r < 360.0
  {
    FMod(FMod(a, 360.0) + 360.0, 360.0)
  }

  /** Mathf.RoundToInt: nearest integer, halves going to the even neighbour. */
  function RoundToInt(x: real): (r: int)
    ensures -0.5 <= r as real - x <= 0.5
    ensures (r as real - x == 0.5 || r as real - x == -0.5) ==> r % 2 == 0
  {
    var f := x.Floor;
    var frac := x - f as real;
    if frac < 0.5 then f
    else if frac > 0.5 then f + 1
    else if f % 2 == 0 then f
    else f + 1
  }

  lemma LerpBetween(a: real, b: real, u: real)
    requires 0.0 <= u <= 1.0
    ensures Min(a, b) <= a + (b - a) * u <= Max(a, b)
  {
    if a <= b {
      assert (b - a) - (b - a) * u == (b - a) * (1.0 - u);
    } else {
      assert (a - b) - (a - b) * u == (a - b) * (1.0 - u);
    }
  }

  /** The normalised angle is the Euclidean (floored) remainder of the raw angle by a full turn:
      it differs from the raw angle by a whole number of turns. */
  lemma Normalize360IsFlooredMod(a: real)
    ensures Normalize360(a) == a - 360.0 * (a / 360.0).Floor as real
  {
    var q1 := Trunc(a / 360.0);
    var b := a - 360.0 * q1 as real + 360.0;
    var q2 := Trunc(b / 360.0);
    var n := q1 - 1 + q2;
    var r := Normalize360(a);
    assert r == a - 360.0 * n as real;
    WholeTurnsIsFloor(a, n, r);
  }

  lemma WholeTurnsIsFloor(a: real, n: int, r: real)
    requires r == a - 360.0 * n as real && 0.0 <= r < 360.0
    ensures n == (a / 360.0).Floor
  {
    var y := a / 360.0;
    assert a == 360.0 * y;
    assert y - n as real == r / 360.0;
    assert 0.0 <= y - n as real < 1.0;
  }
}
