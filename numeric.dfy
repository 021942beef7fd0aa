/**
 * Numbers shared by the simulation, the shaders and the menu: JavaScript's
 * and GLSL's remainder operators over the reals, vectors, the transcendental
 * functions as an uninterpreted record, and `Math.random()` as a stream of
 * supplied samples.
 */
module Numeric {

  /** `Math.PI`, written as the decimal JavaScript prints for it. */
  const Pi: real := 3.141592653589793
  /** `TWO_PI` of cubes-simulation.js. */
  const TwoPi: real := Pi * 2.0

  datatype Vec2 = Vec2(x: real, y: real)
  datatype Vec3 = Vec3(x: real, y: real, z: real)
  datatype Vec4 = Vec4(x: real, y: real, z: real, w: real)

  function Add2(a: Vec2, b: Vec2): Vec2 { Vec2(a.x + b.x, a.y + b.y) }
  function Sub2(a: Vec2, b: Vec2): Vec2 { Vec2(a.x - b.x, a.y - b.y) }
  function Scale2(a: Vec2, s: real): Vec2 { Vec2(a.x * s, a.y * s) }

  function Add3(a: Vec3, b: Vec3): Vec3 { Vec3(a.x + b.x, a.y + b.y, a.z + b.z) }
  function Sub3(a: Vec3, b: Vec3): Vec3 { Vec3(a.x - b.x, a.y - b.y, a.z - b.z) }
  function Dot3(a: Vec3, b: Vec3): real { a.x * b.x + a.y * b.y + a.z * b.z }
  function Scale3(a: Vec3, s: real): Vec3 { Vec3(a.x * s, a.y * s, a.z * s) }

  /** Three.js `Vector3.cross`. */
  function Cross(a: Vec3, b: Vec3): Vec3 {
    Vec3(a.y * b.z - a.z * b.y, a.z * b.x - a.x * b.z, a.x * b.y - a.y * b.x)
  }

  function Add4(a: Vec4, b: Vec4): Vec4 { Vec4(a.x + b.x, a.y + b.y, a.z + b.z, a.w + b.w) }
  function Scale4(a: Vec4, s: real): Vec4 { Vec4(a.x * s, a.y * s, a.z * s, a.w * s) }
  const Zero4: Vec4 := Vec4(0.0, 0.0, 0.0, 0.0)

  function Min(a: real, b: real): real { if a <= b then a else b }
  function Max(a: real, b: real): real { if a >= b then a else b }

  /** GLSL `clamp(x, lo, hi)`, defined as `min(max(x, lo), hi)`. */
  function Clamp(x: real, lo: real, hi: real): (r: real)
    requires lo <= hi
    ensures lo <= r <= hi
    ensures lo <= x <= hi ==> r == x
  {
    Min(Max(x, lo), hi)
  }

  /** Rounding toward zero, as JavaScript's remainder uses it. */
  function Trunc(x: real): (t: int)
    ensures 0.0 <= x ==> 0.0 <= x - t as real < 1.0
    ensures x < 0.0 ==> -1.0 < x - t as real <= 0.0
  {
    if x >= 0.0 then x.Floor else -((-x).Floor)
  }

  /**
   * JavaScript's `a % m` on numbers: the remainder of the division rounded
   * toward zero, so it takes the sign of `a` and its magnitude stays below `m`.
   */
  function JsRem(a: real, m: real): (r: real)
    requires m > 0.0
    ensures -m < r < m
    ensures 0.0 <= a ==> 0.0 <= r
    ensures a <= 0.0 ==> r <= 0.0
    ensures -m < a < m ==> r == a
    ensures Congruent(r, a, m)
  {
    var t := Trunc(a / m);
    RemainderIsScaledFraction(a, m, t);
    DivisionSign(a, m);
    if -m < a < m then
      DivisionBelowOne(a, m);
      NoWholeMultiple(a, m);
      a
    else
      a - Multiple(m, t)
  }

  /** `k` whole multiples of `m`. */
  function Multiple(m: real, k: int): real {
    m * (k as real)
  }

  /** `r` differs from `a` by a whole multiple of `m`: it is a remainder of `a` modulo `m`. */
  ghost predicate Congruent(r: real, a: real, m: real) {
    exists k: int :: r == a - Multiple(m, k)
  }

  /** `a` itself is `a` less zero multiples of `m`. */
  lemma NoWholeMultiple(a: real, m: real)
    ensures Congruent(a, a, m)
  {
    assert a == a - Multiple(m, 0);
  }

  /** `a - m * t` is `m` times the fractional part `q - t` of `q = a / m`. */
  lemma RemainderIsScaledFraction(a: real, m: real, t: int)
    requires m > 0.0
    requires -1.0 < a / m - t as real < 1.0
    ensures -m < a - m * (t as real) < m
    ensures 0.0 <= a / m - t as real ==> 0.0 <= a - m * (t as real)
    ensures a / m - t as real <= 0.0 ==> a - m * (t as real) <= 0.0
  {
    DivisionInverse(a, m);
    ScaledRemainder(a, m, a / m, t as real);
  }

  lemma DivisionInverse(a: real, m: real)
    requires m > 0.0
    ensures a == m * (a / m)
  {
  }

  lemma ScaledRemainder(a: real, m: real, q: real, t: real)
    requires m > 0.0 && a == m * q
    requires -1.0 < q - t < 1.0
    ensures -m < a - m * t < m
    ensures 0.0 <= q - t ==> 0.0 <= a - m * t
    ensures q - t <= 0.0 ==> a - m * t <= 0.0
  {
    Distribute(m, q, t);
    ScaledFraction(m, q - t, a - m * t);
  }

  lemma Distribute(m: real, q: real, t: real)
    ensures m * (q - t) == m * q - m * t
  {
  }

  lemma ScaledFraction(m: real, f: real, r: real)
    requires m > 0.0 && -1.0 < f < 1.0 && r == m * f
    ensures -m < r < m
    ensures 0.0 <= f ==> 0.0 <= r
    ensures f <= 0.0 ==> r <= 0.0
  {
    if f < 0.0 {
      assert m * (-f) < m;
    }
  }

  lemma DivisionSign(a: real, m: real)
    requires m > 0.0
    ensures 0.0 <= a ==> 0.0 <= a / m
    ensures a <= 0.0 ==> a / m <= 0.0
  {
    assert a == m * (a / m);
  }

  lemma DivisionBelowOne(a: real, m: real)
    requires m > 0.0 && -m < a < m
    ensures -1.0 < a / m < 1.0
  {
    var q := a / m;
    assert a == m * q;
    ScaledAtLeastOne(m, q);
    ScaledAtLeastOne(m, -q);
  }

  lemma ScaledAtLeastOne(m: real, q: real)
    requires m > 0.0
    ensures q >= 1.0 ==> m * q >= m
  {
    if q >= 1.0 {
      assert m * (q - 1.0) >= 0.0;
    }
  }

  /**
   * GLSL `mod(x, y)`, defined as `x - y * floor(x / y)`: for a positive `y`
   * the result always lies in [0, y).
   */
  function GlslMod(x: real, y: real): (r: real)
    requires y > 0.0
    ensures 0.0 <= r < y
    ensures 0.0 <= x < y ==> r == x
    ensures Congruent(r, x, y)
  {
    var q := x / y;
    RemainderIsScaledFraction(x, y, q.Floor);
    if 0.0 <= x < y then
      DivisionSign(x, y);
      DivisionBelowOne(x, y);
      NoWholeMultiple(x, y);
      x
    else
      x - Multiple(y, q.Floor)
  }

  /**
   * The transcendental functions the source calls (`Math.sin`, `Math.cos`,
   * `Math.sqrt`, GLSL `sin`/`cos`): left uninterpreted, and constrained only by
   * `Lawful` where a property needs it.
   */
  datatype Transcendentals = Transcendentals(sin: real -> real, cos: real -> real, sqrt: real -> real)

  /** sin 0 = 0 and cos 0 = 1. */
  ghost predicate SinCosAtZero(m: Transcendentals) {
    m.sin(0.0) == 0.0 && m.cos(0.0) == 1.0
  }

  /** sin^2 + cos^2 = 1. */
  ghost predicate Pythagorean(m: Transcendentals) {
    forall a :: m.sin(a) * m.sin(a) + m.cos(a) * m.cos(a) == 1.0
  }

  /** The square root of a non-negative number is non-negative and squares back to it. */
  ghost predicate SquareRoot(m: Transcendentals) {
    forall t :: 0.0 <= t ==> 0.0 <= m.sqrt(t) && m.sqrt(t) * m.sqrt(t) == t
  }

  /** The only facts about sine, cosine and square root that the proofs use. */
  ghost predicate Lawful(m: Transcendentals) {
    SinCosAtZero(m) && Pythagorean(m) && SquareRoot(m)
  }

  /** The square root of a square of a non-negative number is that number. */
  lemma SqrtOfSquare(m: Transcendentals, a: real)
    requires SquareRoot(m)
    requires 0.0 <= a
    ensures m.sqrt(a * a) == a
  {
    var r := m.sqrt(a * a);
    assert 0.0 <= r && r * r == a * a;
    if r < a {
      SquareMonotone(r, a);
    } else if a < r {
      SquareMonotone(a, r);
    }
  }

  /** Squaring is strictly increasing on the non-negative numbers. */
  lemma SquareMonotone(a: real, b: real)
    requires 0.0 <= a < b
    ensures a * a < b * b
  {
    assert b * b - a * a == (b - a) * (b + a);
    ProductPositive(b - a, b + a);
  }

  lemma SquareNonNegative(a: real)
    ensures 0.0 <= a * a
  {
    if a < 0.0 {
      ProductNonNegative(-a, -a);
    } else {
      ProductNonNegative(a, a);
    }
  }

  lemma ProductPositive(a: real, b: real)
    requires 0.0 < a && 0.0 < b
    ensures 0.0 < a * b
  {
  }

  lemma ProductNonNegative(a: real, b: real)
    requires 0.0 <= a && 0.0 <= b
    ensures 0.0 <= a * b
  {
  }

  /**
   * `Math.random()`: a stream of samples supplied from outside, consumed one
   * per call in the order the source makes its calls.
   */
  class RandomStream {
    const samples: seq<real>
    var pos: nat

    ghost predicate Valid()
      reads this
    {
      pos <= |samples|
    }

    constructor (samples: seq<real>)
      ensures Valid() && this.samples == samples && pos == 0
    {
      this.samples := samples;
      pos := 0;
    }

    /** One call of `Math.random()`. */
    method Next() returns (u: real)
      requires Valid() && pos < |samples|
      modifies this`pos
      ensures Valid() && pos == old(pos) + 1
      ensures u == samples[old(pos)]
    {
      u := samples[pos];
      pos := pos + 1;
    }
  }

  /** Every sample lies in [0, 1), as `Math.random()` promises. */
  ghost predicate UnitSamples(s: seq<real>) {
    forall i :: 0 <= i < |s| ==> 0.0 <= s[i] < 1.0
  }
}
