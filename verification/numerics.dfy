/** Shared numeric helpers: the JavaScript `Math` operations the animation code uses,
    stated over `real`, and the transcendental functions it calls, given as
    function-valued parameters whose types state the range facts the model relies on. */
module Numerics {

  datatype Option<T> = None | Some(value: T)

  /** `Math.PI` as the double the browser uses. */
  const PI: real := 3.141592653589793

  function Min(a: real, b: real): real { if a <= b then a else b }
  function Max(a: real, b: real): real { if a >= b then a else b }

  /** `Math.max(lo, Math.min(hi, x))`. */
  function Clamp(x: real, lo: real, hi: real): (r: real)
    requires lo <= hi
    ensures lo <= r <= hi
    ensures lo <= x <= hi ==> r == x
    ensures x <= lo ==> r == lo
    ensures hi <= x ==> r == hi
  {
    Max(lo, Min(hi, x))
  }

  /** `Math.floor` on a real. */
  function Floor(x: real): int { x.Floor }

  /** `Math.ceil` on a real. */
  function Ceil(x: real): (r: int)
    ensures x <= r as real < x + 1.0
  {
    -((-x).Floor)
  }

  /** Truncation toward zero, the rounding JavaScript's `%` uses. */
  function Trunc(x: real): int { if x >= 0.0 then x.Floor else -((-x).Floor) }

  /** JavaScript's `x % m` for a positive modulus: the remainder keeps the sign of `x`. */
  function JsRem(x: real, m: real): real
    requires m > 0.0
  {
    x - m * Trunc(x / m) as real
  }

  /** On a non-negative dividend, `%` lands in `[0, m)` and differs from `x` by whole multiples of `m`. */
  lemma JsRemRange(x: real, m: real)
    requires m > 0.0 && x >= 0.0
    ensures 0.0 <= JsRem(x, m) < m
    ensures JsRem(x, m) == x - m * Floor(x / m) as real
    ensures x < m ==> JsRem(x, m) == x
  {
    var q := x / m;
    var fr := q.Floor as real;
    assert fr <= q < fr + 1.0;
    assert m * q == x;
    MulMonotone(m, fr, q);
    MulStrict(m, q, fr + 1.0);
    assert m * (fr + 1.0) == m * fr + m;
    assert m * fr <= x < m * fr + m;
    if x < m && q >= 1.0 {
      MulMonotone(m, 1.0, q);
    }
  }

  lemma MulMonotone(m: real, a: real, b: real)
    requires m >= 0.0 && a <= b
    ensures m * a <= m * b
  {}

  lemma MulStrict(m: real, a: real, b: real)
    requires m > 0.0 && a < b
    ensures m * a < m * b
  {}

  /** A non-negative value scaled by a fraction in `[0, 1]` stays between zero and itself. */
  lemma FractionBounds(m: real, k: real)
    requires m >= 0.0 && 0.0 <= k <= 1.0
    ensures 0.0 <= m * k <= m
  {
    assert m == m * k + m * (1.0 - k);
    MulMonotone(m, 0.0, k);
    MulMonotone(m, 0.0, 1.0 - k);
  }

  /** `x % 1` for the hashing and flow code; on non-negative input it is the fractional part. */
  function JsMod1(x: real): (r: real)
    ensures x >= 0.0 ==> 0.0 <= r < 1.0
    ensures 0.0 <= x < 1.0 ==> r == x
  {
    if x >= 0.0 then JsRemRange(x, 1.0); JsRem(x, 1.0) else JsRem(x, 1.0)
  }

  /** The fractional part `x - Math.floor(x)`. */
  function Fract(x: real): (r: real)
    ensures 0.0 <= r < 1.0
    ensures (r + Floor(x) as real) == x
  {
    x - x.Floor as real
  }

  /** A stand-in for `Math.sin` or `Math.cos`: any function bounded by one in magnitude. */
  ghost predicate IsWave(f: real -> real) {
    forall x :: -1.0 <= f(x) <= 1.0
  }
  type Wave = f: real -> real | IsWave(f) witness (x: real) => 0.0

  /** A stand-in for `Math.sqrt`: zero at zero, non-negative, non-decreasing, and
      below one on `[0, 1)`. */
  ghost predicate IsRoot(f: real -> real) {
    && f(0.0) == 0.0
    && (forall x :: 0.0 <= x ==> 0.0 <= f(x))
    && (forall x :: 0.0 <= x < 1.0 ==> f(x) < 1.0)
    && (forall x, y :: 0.0 <= x <= y ==> f(x) <= f(y))
  }
  type Root = f: real -> real | IsRoot(f) witness (x: real) => if x < 0.0 then 0.0 else x

  /** A stand-in for `x => Math.pow(x, e)` with `0 < e < 1`, on the unit interval:
      zero at zero, one at one and strictly increasing in between. */
  ghost predicate IsEasing(f: real -> real) {
    && f(0.0) == 0.0
    && f(1.0) == 1.0
    && (forall x, y :: 0.0 <= x < y <= 1.0 ==> f(x) < f(y))
  }
  type Easing = f: real -> real | IsEasing(f) witness (x: real) => x

  /** The transcendental functions the animation code calls. */
  datatype MathFns = MathFns(sin: Wave, cos: Wave, sqrt: Root)

  lemma EasingRange(f: Easing, x: real)
    requires 0.0 <= x <= 1.0
    ensures 0.0 <= f(x) <= 1.0
    ensures x < 1.0 ==> f(x) < 1.0
    ensures 0.0 < x ==> 0.0 < f(x)
  {
    if 0.0 < x { assert f(0.0) < f(x); }
    if x < 1.0 { assert f(x) < f(1.0); }
  }
}
