/**
 * The shader arithmetic of `THREE.Effects` (effects.js): the quaternion
 * helpers shared by the vertex shaders, the cube and background vertex
 * transforms and their lighting, the god-rays fragment loop, the additive
 * combine, the two 9-tap blurs and the default uniform values.
 *
 * Shaders compute over `real` here; `sin`, `cos`, `sqrt` come from a
 * `Transcendentals` record and `texture2D(t, uv)` is a function from texture
 * coordinates to colours. The view and projection matrices are left out.
 */
module Effects {
  import opened Numeric

  /** A sampler: `texture2D(t, uv)` for one bound texture `t`. */
  type Texture = Vec2 -> Vec4

  // ---------------------------------------------------------------------------
  // Quaternion helpers (`mixinCommon`)
  // ---------------------------------------------------------------------------

  /** The quaternion (0, 0, 0, 1), which stands for no rotation. */
  const IdentityQuaternion: Vec4 := Vec4(0.0, 0.0, 0.0, 1.0)

  /** `rotateVectorByQuaternion(v, q)`: the product q * v * conj(q), written out. */
  function RotateVectorByQuaternion(v: Vec3, q: Vec4): Vec3 {
    var ix := q.w * v.x + q.y * v.z - q.z * v.y;
    var iy := q.w * v.y + q.z * v.x - q.x * v.z;
    var iz := q.w * v.z + q.x * v.y - q.y * v.x;
    var iw := -q.x * v.x - q.y * v.y - q.z * v.z;
    Vec3(ix * q.w + iw * -q.x + iy * -q.z - iz * -q.y,
         iy * q.w + iw * -q.y + iz * -q.x - ix * -q.z,
         iz * q.w + iw * -q.z + ix * -q.y - iy * -q.x)
  }

  /** `axisAngleToQuaternion(axis, angle)`: (axis * sin(angle / 2), cos(angle / 2)). */
  function AxisAngleToQuaternion(m: Transcendentals, axis: Vec3, angle: real): Vec4 {
    var halfAngle := angle / 2.0;
    var s := m.sin(halfAngle);
    Vec4(axis.x * s, axis.y * s, axis.z * s, m.cos(halfAngle))
  }

  /** Rotating by the identity quaternion leaves every vector where it is. */
  lemma IdentityRotation(v: Vec3)
    ensures RotateVectorByQuaternion(v, IdentityQuaternion) == v
  {
  }

  /** A zero angle about any axis is the identity quaternion. */
  lemma ZeroAngleQuaternion(m: Transcendentals, axis: Vec3)
    requires SinCosAtZero(m)
    ensures AxisAngleToQuaternion(m, axis, 0.0) == IdentityQuaternion
  {
    assert 0.0 / 2.0 == 0.0;
  }

  // ---------------------------------------------------------------------------
  // Vertex transforms (`mixinCubePosition`, the background vertex shader)
  // ---------------------------------------------------------------------------

  const RotationSpeed: real := 3.0
  const YOffset: real := 60.0
  const YDistance: real := 120.0
  const CubeTransitionSecondsY: real := 60.0
  const XZDistance: real := 20.0
  const XZAgeFactor: real := 0.2
  const OffsetAmount: real := 9.5
  const BackgroundTransitionSecondsY: real := 30.0
  const BackgroundZOffset: real := -150.0
  const BackgroundZDistance: real := 30.0
  const BackgroundXOffset: real := 160.0

  /** What a vertex shader hands on: the moved position and the rotated normal. */
  datatype Vertex = Vertex(position: Vec3, normal: Vec3)

  /** The spin of a cube at age `fAge`: about its colour axis, at speed random1.x * 3. */
  function CubeRotation(m: Transcendentals, fAge: real, color: Vec3, random1: Vec4): Vec4 {
    AxisAngleToQuaternion(m, color, fAge * random1.x * RotationSpeed)
  }

  /** `fAge * (random1.y + 0.5) * 0.5 + random1.z * period`: a per-cube age. */
  function RandomizedAgeY(fAge: real, random1: Vec4, period: real): real {
    fAge * (random1.y + 0.5) * 0.5 + random1.z * period
  }

  /**
   * The vertical sweep: `y - 60 + mod(age, period) / period * 120`, which
   * stays within [y - 60, y + 60) whatever the age.
   */
  function SweepY(y: real, randomizedAge: real, period: real): (r: real)
    requires period > 0.0
    ensures y - YOffset <= r < y - YOffset + YDistance
  {
    var phase := GlslMod(randomizedAge, period);
    DivisionSign(phase, period);
    DivisionBelowOne(phase, period);
    y - YOffset + phase / period * YDistance
  }

  /** The cube vertex shader: spin, sweep up, drift sideways, offset. */
  function CubeVertex(m: Transcendentals, fAge: real, position: Vec3, normal: Vec3,
                      color: Vec3, random1: Vec4, random2: Vec4): Vertex
  {
    var rotation := CubeRotation(m, fAge, color, random1);
    var p := RotateVectorByQuaternion(position, rotation);
    var n := RotateVectorByQuaternion(normal, rotation);
    var age := RandomizedAgeY(fAge, random1, CubeTransitionSecondsY);
    var positionY := SweepY(p.y, age, CubeTransitionSecondsY);
    var phase := GlslMod(age, CubeTransitionSecondsY) * XZAgeFactor;
    var positionX := p.x + m.cos(phase) * random2.x * XZDistance;
    var positionZ := p.z + m.sin(phase) * random2.y * XZDistance;
    Vertex(Vec3(positionX + random2.z * OffsetAmount,
                positionY + random1.w * OffsetAmount,
                positionZ + random2.w * OffsetAmount), n)
  }

  /** The background vertex shader: spin, sweep up with period 30, fixed depth band. */
  function BackgroundVertex(m: Transcendentals, fAge: real, position: Vec3, normal: Vec3,
                            color: Vec3, random1: Vec4, random2: Vec4): Vertex
  {
    var rotation := CubeRotation(m, fAge, color, random1);
    var p := RotateVectorByQuaternion(position, rotation);
    var n := RotateVectorByQuaternion(normal, rotation);
    var age := RandomizedAgeY(fAge, random1, BackgroundTransitionSecondsY);
    Vertex(Vec3(p.x + random2.z * BackgroundXOffset,
                SweepY(p.y, age, BackgroundTransitionSecondsY),
                BackgroundZOffset + random1.w * BackgroundZDistance), n)
  }

  /** At age 0 a cube is not spun: its normal is the one it was built with. */
  lemma CubeUnrotatedAtAgeZero(m: Transcendentals, position: Vec3, normal: Vec3,
                               color: Vec3, random1: Vec4, random2: Vec4)
    requires SinCosAtZero(m)
    ensures CubeRotation(m, 0.0, color, random1) == IdentityQuaternion
    ensures CubeVertex(m, 0.0, position, normal, color, random1, random2).normal == normal
    ensures BackgroundVertex(m, 0.0, position, normal, color, random1, random2).normal == normal
  {
    assert 0.0 * random1.x * RotationSpeed == 0.0;
    ZeroAngleQuaternion(m, color);
    IdentityRotation(normal);
  }

  /**
   * A cube vertex's height lies within 60 + 9.5 of its spun height when the
   * height offset random1.w lies in [-1, 1).
   */
  lemma CubeHeightRange(m: Transcendentals, fAge: real, position: Vec3, normal: Vec3,
                        color: Vec3, random1: Vec4, random2: Vec4)
    requires -1.0 <= random1.w < 1.0
    ensures var y := RotateVectorByQuaternion(position, CubeRotation(m, fAge, color, random1)).y;
      var v := CubeVertex(m, fAge, position, normal, color, random1, random2);
      y - YOffset - OffsetAmount <= v.position.y < y + YOffset + OffsetAmount
  {
  }

  /**
   * A background vertex sweeps over the same 120 units as a cube, and its
   * depth lies in [-180, -120) when random1.w lies in [-1, 1).
   */
  lemma BackgroundRanges(m: Transcendentals, fAge: real, position: Vec3, normal: Vec3,
                         color: Vec3, random1: Vec4, random2: Vec4)
    requires -1.0 <= random1.w < 1.0
    ensures var y := RotateVectorByQuaternion(position, CubeRotation(m, fAge, color, random1)).y;
      var v := BackgroundVertex(m, fAge, position, normal, color, random1, random2);
      && y - YOffset <= v.position.y < y + YOffset
      && -180.0 <= v.position.z < -120.0
  {
  }

  // ---------------------------------------------------------------------------
  // Lighting (`mixinCubeLighting`, the background's directional light)
  // ---------------------------------------------------------------------------

  const AmbientLightColor: Vec3 := Vec3(0.0, 0.0, 0.0)
  const DirLightColor: Vec3 := Scale3(Vec3(0.35, 1.0, 1.0), 0.25)
  const DirLightInvDir: Vec3 := Vec3(0.0, 1.0, 0.0)
  const PointLightMaxDistance: real := 65.0

  predicate NonNegative3(v: Vec3) {
    0.0 <= v.x && 0.0 <= v.y && 0.0 <= v.z
  }

  predicate NonNegative4(v: Vec4) {
    0.0 <= v.x && 0.0 <= v.y && 0.0 <= v.z && 0.0 <= v.w
  }

  /** The directional light from straight above, as seen by a surface with this normal. */
  function DirectionalLight(normal: Vec3): (c: Vec3)
    ensures NonNegative3(c)
    ensures normal.y <= 0.0 ==> c == Vec3(0.0, 0.0, 0.0)
  {
    Scale3(DirLightColor, Max(Dot3(normal, DirLightInvDir), 0.0))
  }

  /** `1 - min(distance / 65, 1)`: full strength at the light, none beyond 65 units. */
  function PointLightFactor(distance: real): (f: real)
    ensures 0.0 <= distance ==> 0.0 <= f <= 1.0
    ensures distance >= PointLightMaxDistance ==> f == 0.0
  {
    1.0 - Min(distance / PointLightMaxDistance, 1.0)
  }

  /**
   * The point light's contribution. The direction to the light is undefined
   * in GLSL when the vertex sits on the light; it is the zero vector here.
   */
  function PointLight(m: Transcendentals, normal: Vec3, position: Vec3,
                      lightPosition: Vec3, lightColor: Vec3): Vec3
  {
    var inv := Sub3(lightPosition, position);
    var distance := m.sqrt(Dot3(inv, inv));
    var invDir := if distance == 0.0 then Vec3(0.0, 0.0, 0.0)
                  else Vec3(inv.x / distance, inv.y / distance, inv.z / distance);
    Scale3(lightColor, Max(Dot3(normal, invDir), 0.0) * PointLightFactor(distance))
  }

  /** The Gouraud colour a cube vertex passes to its fragment shader. */
  function CubeDiffuse(m: Transcendentals, normal: Vec3, position: Vec3,
                       lightPosition: Vec3, lightColor: Vec3): Vec3
  {
    Add3(Add3(AmbientLightColor, DirectionalLight(normal)),
         PointLight(m, normal, position, lightPosition, lightColor))
  }

  /** A point light of non-negative colour never darkens a vertex. */
  lemma PointLightNonNegative(m: Transcendentals, normal: Vec3, position: Vec3,
                              lightPosition: Vec3, lightColor: Vec3)
    requires SquareRoot(m) && NonNegative3(lightColor)
    ensures NonNegative3(PointLight(m, normal, position, lightPosition, lightColor))
  {
    var inv := Sub3(lightPosition, position);
    SquareNonNegative(inv.x);
    SquareNonNegative(inv.y);
    SquareNonNegative(inv.z);
    var distance := m.sqrt(Dot3(inv, inv));
    assert 0.0 <= distance;
    var invDir := if distance == 0.0 then Vec3(0.0, 0.0, 0.0)
                  else Vec3(inv.x / distance, inv.y / distance, inv.z / distance);
    var s := Max(Dot3(normal, invDir), 0.0) * PointLightFactor(distance);
    ProductNonNegative(Max(Dot3(normal, invDir), 0.0), PointLightFactor(distance));
    ProductNonNegative(lightColor.x, s);
    ProductNonNegative(lightColor.y, s);
    ProductNonNegative(lightColor.z, s);
  }

  /** The summed cube lighting is non-negative for a non-negative point-light colour. */
  lemma CubeDiffuseNonNegative(m: Transcendentals, normal: Vec3, position: Vec3,
                               lightPosition: Vec3, lightColor: Vec3)
    requires SquareRoot(m) && NonNegative3(lightColor)
    ensures NonNegative3(CubeDiffuse(m, normal, position, lightPosition, lightColor))
  {
    PointLightNonNegative(m, normal, position, lightPosition, lightColor);
  }

  /** `gl_FragColor = vec4(vDiffuse, 1.0)`. */
  function DiffuseFragment(diffuse: Vec3): Vec4 {
    Vec4(diffuse.x, diffuse.y, diffuse.z, 1.0)
  }

  /** The cubesBlack fragment shader paints every fragment opaque black. */
  const BlackFragment: Vec4 := Vec4(0.0, 0.0, 0.0, 1.0)

  // ---------------------------------------------------------------------------
  // God rays
  // ---------------------------------------------------------------------------

  const NumSamples: nat := 20

  datatype GodRaysUniforms = GodRaysUniforms(
    exposure: real, decay: real, density: real, weight: real, clampMax: real, lightPosition: Vec2)

  /** The step between two samples: 1/20 of the way to the light, times the density. */
  function GodRaysDelta(vUv: Vec2, lightPosition: Vec2, density: real): Vec2 {
    Scale2(Sub2(vUv, lightPosition), 1.0 / (NumSamples as real) * density)
  }

  /** Where the loop samples after `n` steps of `coord -= delta`. */
  function SampleCoord(vUv: Vec2, delta: Vec2, n: nat): Vec2 {
    if n == 0 then vUv else Sub2(SampleCoord(vUv, delta, n - 1), delta)
  }

  /** x^n, built up by repeated multiplication as `illuminationDecay *= fDecay` does. */
  function Power(x: real, n: nat): real {
    if n == 0 then 1.0 else Power(x, n - 1) * x
  }

  /** The weight of sample i (counting from 0): `decay^i * weight`. */
  function SampleWeight(decay: real, weight: real, i: nat): real {
    Power(decay, i) * weight
  }

  /**
   * The first `n` samples, sample i (counting from 0) taken at
   * `SampleCoord(vUv, delta, i + 1)` and weighted by `SampleWeight(decay, weight, i)`.
   */
  function RaySum(tex: Texture, vUv: Vec2, delta: Vec2, decay: real, weight: real, n: nat): Vec4 {
    if n == 0 then Zero4
    else Add4(RaySum(tex, vUv, delta, decay, weight, n - 1),
              Scale4(tex(SampleCoord(vUv, delta, n)), SampleWeight(decay, weight, n - 1)))
  }

  /** GLSL `clamp` on each component of a colour. */
  function Clamp4(v: Vec4, lo: real, hi: real): (r: Vec4)
    requires lo <= hi
    ensures lo <= r.x <= hi && lo <= r.y <= hi && lo <= r.z <= hi && lo <= r.w <= hi
    ensures lo <= v.x <= hi && lo <= v.y <= hi && lo <= v.z <= hi && lo <= v.w <= hi ==> r == v
  {
    Vec4(Clamp(v.x, lo, hi), Clamp(v.y, lo, hi), Clamp(v.z, lo, hi), Clamp(v.w, lo, hi))
  }

  /** The god-rays colour of one fragment: exposure times the ray sum, clamped. */
  function GodRays(tex: Texture, vUv: Vec2, u: GodRaysUniforms): (c: Vec4)
    requires 0.0 <= u.clampMax
    ensures 0.0 <= c.x <= u.clampMax && 0.0 <= c.y <= u.clampMax
    ensures 0.0 <= c.z <= u.clampMax && 0.0 <= c.w <= u.clampMax
  {
    var delta := GodRaysDelta(vUv, u.lightPosition, u.density);
    Clamp4(Scale4(RaySum(tex, vUv, delta, u.decay, u.weight, NumSamples), u.exposure), 0.0, u.clampMax)
  }

  /** The god-rays fragment shader, loop and all. */
  method GodRaysFragment(tex: Texture, vUv: Vec2, u: GodRaysUniforms) returns (fragColor: Vec4)
    requires 0.0 <= u.clampMax
    ensures fragColor == GodRays(tex, vUv, u)
    ensures 0.0 <= fragColor.x <= u.clampMax && 0.0 <= fragColor.y <= u.clampMax
    ensures 0.0 <= fragColor.z <= u.clampMax && 0.0 <= fragColor.w <= u.clampMax
  {
    var delta := Sub2(vUv, u.lightPosition);
    delta := Scale2(delta, 1.0 / (NumSamples as real) * u.density);
    assert delta == GodRaysDelta(vUv, u.lightPosition, u.density);
    var illuminationDecay := 1.0;
    fragColor := Zero4;
    var coord := vUv;
    for i := 0 to NumSamples
      invariant coord == SampleCoord(vUv, delta, i)
      invariant illuminationDecay == Power(u.decay, i)
      invariant fragColor == RaySum(tex, vUv, delta, u.decay, u.weight, i)
    {
      coord := Sub2(coord, delta);
      var texel := tex(coord);
      assert illuminationDecay * u.weight == SampleWeight(u.decay, u.weight, i);
      texel := Scale4(texel, illuminationDecay * u.weight);
      fragColor := Add4(fragColor, texel);
      illuminationDecay := illuminationDecay * u.decay;
    }
    fragColor := Scale4(fragColor, u.exposure);
    assert fragColor == Scale4(RaySum(tex, vUv, GodRaysDelta(vUv, u.lightPosition, u.density), u.decay, u.weight, NumSamples), u.exposure);
    fragColor := Clamp4(fragColor, 0.0, u.clampMax);
  }

  /** After n steps the sample sits n deltas from the fragment. */
  lemma {:induction false} SampleCoordClosedForm(vUv: Vec2, delta: Vec2, n: nat)
    ensures SampleCoord(vUv, delta, n) == Vec2(vUv.x - (n as real) * delta.x, vUv.y - (n as real) * delta.y)
  {
    if n > 0 {
      SampleCoordClosedForm(vUv, delta, n - 1);
      StepMultiple(delta.x, n);
      StepMultiple(delta.y, n);
    }
  }

  lemma StepMultiple(d: real, n: nat)
    requires n > 0
    ensures (n as real) * d == ((n - 1) as real) * d + d
  {
  }

  lemma TwentiethOfDensity(a: real, density: real)
    ensures 20.0 * (a * (1.0 / 20.0 * density)) == a * density
  {
  }

  /**
   * The last of the 20 samples lies `density` of the way from the fragment
   * to the light: vUv - (vUv - light) * density.
   */
  lemma FinalSampleCoord(vUv: Vec2, lightPosition: Vec2, density: real)
    ensures SampleCoord(vUv, GodRaysDelta(vUv, lightPosition, density), NumSamples)
         == Sub2(vUv, Scale2(Sub2(vUv, lightPosition), density))
  {
    var delta := GodRaysDelta(vUv, lightPosition, density);
    SampleCoordClosedForm(vUv, delta, NumSamples);
    TwentiethOfDensity(vUv.x - lightPosition.x, density);
    TwentiethOfDensity(vUv.y - lightPosition.y, density);
  }

  /** With a non-negative decay every sample weight decay^i is non-negative. */
  lemma {:induction false} PowerNonNegative(x: real, n: nat)
    requires 0.0 <= x
    ensures 0.0 <= Power(x, n)
  {
    if n > 0 {
      PowerNonNegative(x, n - 1);
      ProductNonNegative(Power(x, n - 1), x);
    }
  }

  /**
   * A texture with no negative components, a non-negative decay and a
   * non-negative weight give a non-negative ray sum.
   */
  lemma {:induction false} RaySumNonNegative(tex: Texture, vUv: Vec2, delta: Vec2, decay: real, weight: real, n: nat)
    requires forall c :: NonNegative4(tex(c))
    requires 0.0 <= decay && 0.0 <= weight
    ensures NonNegative4(RaySum(tex, vUv, delta, decay, weight, n))
  {
    if n > 0 {
      RaySumNonNegative(tex, vUv, delta, decay, weight, n - 1);
      PowerNonNegative(decay, n - 1);
      var s := SampleWeight(decay, weight, n - 1);
      ProductNonNegative(Power(decay, n - 1), weight);
      var t := tex(SampleCoord(vUv, delta, n));
      assert NonNegative4(t);
      ProductNonNegative(t.x, s);
      ProductNonNegative(t.y, s);
      ProductNonNegative(t.z, s);
      ProductNonNegative(t.w, s);
    }
  }

  /** The sum of the first n sample weights. */
  function TotalWeight(decay: real, weight: real, n: nat): real {
    if n == 0 then 0.0 else TotalWeight(decay, weight, n - 1) + SampleWeight(decay, weight, n - 1)
  }

  /**
   * The geometric series in closed form:
   * (1 - decay) * (weight + weight * decay + ... + weight * decay^(n-1)) = weight * (1 - decay^n).
   */
  lemma {:induction false} TotalWeightClosedForm(decay: real, weight: real, n: nat)
    ensures (1.0 - decay) * TotalWeight(decay, weight, n) == weight * (1.0 - Power(decay, n))
  {
    if n > 0 {
      TotalWeightClosedForm(decay, weight, n - 1);
      var t, p := TotalWeight(decay, weight, n - 1), Power(decay, n - 1);
      assert TotalWeight(decay, weight, n) == t + p * weight;
      assert Power(decay, n) == p * decay;
      assert (1.0 - decay) * (t + p * weight) == (1.0 - decay) * t + p * weight - p * decay * weight;
    }
  }

  /**
   * Over a uniformly coloured texture the loop adds up that colour once per
   * sample, scaled by the sample's weight.
   */
  lemma {:induction false} RaySumOfUniformTexture(tex: Texture, color: Vec4, vUv: Vec2, delta: Vec2,
                                                  decay: real, weight: real, n: nat)
    requires forall c :: tex(c) == color
    ensures RaySum(tex, vUv, delta, decay, weight, n) == Scale4(color, TotalWeight(decay, weight, n))
  {
    if n > 0 {
      RaySumOfUniformTexture(tex, color, vUv, delta, decay, weight, n - 1);
      assert tex(SampleCoord(vUv, delta, n)) == color;
      SumOfScaled(color, TotalWeight(decay, weight, n - 1), SampleWeight(decay, weight, n - 1));
    }
  }

  lemma SumOfScaled(c: Vec4, a: real, b: real)
    ensures Add4(Scale4(c, a), Scale4(c, b)) == Scale4(c, a + b)
  {
  }

  // ---------------------------------------------------------------------------
  // Additive combine
  // ---------------------------------------------------------------------------

  /** `texel + add * fCoefficient`, both sampled at the same coordinate. */
  function Additive(tDiffuse: Texture, tAdd: Texture, vUv: Vec2, coefficient: real): Vec4 {
    Add4(tDiffuse(vUv), Scale4(tAdd(vUv), coefficient))
  }

  /**
   * A zero coefficient passes the diffuse image through; the default
   * coefficient 1 adds the two images; a black added image changes nothing.
   */
  lemma AdditiveCases(tDiffuse: Texture, tAdd: Texture, vUv: Vec2, coefficient: real)
    ensures Additive(tDiffuse, tAdd, vUv, 0.0) == tDiffuse(vUv)
    ensures Additive(tDiffuse, tAdd, vUv, DefaultCoefficient) == Add4(tDiffuse(vUv), tAdd(vUv))
    ensures tAdd(vUv) == Zero4 ==> Additive(tDiffuse, tAdd, vUv, coefficient) == tDiffuse(vUv)
  {
  }

  // ---------------------------------------------------------------------------
  // Blurs
  // ---------------------------------------------------------------------------

  /** The nine tap weights, from four steps back to four steps forward. */
  const BlurWeights: seq<real> := [0.051, 0.0918, 0.12245, 0.1531, 0.1633, 0.1531, 0.12245, 0.0918, 0.051]
  const BlurTaps: nat := 9

  /** Tap k (0..8) sits k - 4 steps from the fragment. */
  function TapCoord(vUv: Vec2, step: Vec2, k: nat): Vec2 {
    Vec2(vUv.x + ((k as int - 4) as real) * step.x, vUv.y + ((k as int - 4) as real) * step.y)
  }

  /** The weighted sum of the first n taps, in the order the shaders add them. */
  function Convolve(tex: Texture, vUv: Vec2, step: Vec2, n: nat): Vec4
    requires n <= BlurTaps
  {
    if n == 0 then Zero4
    else Add4(Convolve(tex, vUv, step, n - 1), Scale4(tex(TapCoord(vUv, step, n - 1)), BlurWeights[n - 1]))
  }

  /** The sum of the first n weights. */
  function WeightSum(n: nat): real
    requires n <= BlurTaps
  {
    if n == 0 then 0.0 else WeightSum(n - 1) + BlurWeights[n - 1]
  }

  /** The kernel is symmetric about its centre tap and its weights sum to exactly 1. */
  lemma {:induction false} KernelShape()
    ensures |BlurWeights| == BlurTaps
    ensures forall k :: 0 <= k < BlurTaps ==> BlurWeights[k] == BlurWeights[BlurTaps - 1 - k]
    ensures WeightSum(BlurTaps) == 1.0
  {
    assert WeightSum(BlurTaps) == 0.051 + 0.0918 + 0.12245 + 0.1531 + 0.1633 + 0.1531 + 0.12245 + 0.0918 + 0.051;
  }

  /** `horizontalBlur`: nine taps along x, `fH` apart. */
  method HorizontalBlur(tex: Texture, vUv: Vec2, fH: real) returns (sum: Vec4)
    ensures sum == Convolve(tex, vUv, Vec2(fH, 0.0), BlurTaps)
  {
    sum := Zero4;
    sum := Add4(sum, Scale4(tex(Vec2(vUv.x - 4.0 * fH, vUv.y)), 0.051));
    sum := Add4(sum, Scale4(tex(Vec2(vUv.x - 3.0 * fH, vUv.y)), 0.0918));
    sum := Add4(sum, Scale4(tex(Vec2(vUv.x - 2.0 * fH, vUv.y)), 0.12245));
    sum := Add4(sum, Scale4(tex(Vec2(vUv.x - 1.0 * fH, vUv.y)), 0.1531));
    sum := Add4(sum, Scale4(tex(Vec2(vUv.x, vUv.y)), 0.1633));
    sum := Add4(sum, Scale4(tex(Vec2(vUv.x + 1.0 * fH, vUv.y)), 0.1531));
    sum := Add4(sum, Scale4(tex(Vec2(vUv.x + 2.0 * fH, vUv.y)), 0.12245));
    sum := Add4(sum, Scale4(tex(Vec2(vUv.x + 3.0 * fH, vUv.y)), 0.0918));
    sum := Add4(sum, Scale4(tex(Vec2(vUv.x + 4.0 * fH, vUv.y)), 0.051));
    HorizontalTaps(vUv, fH);
    TapsUnfold(tex, vUv, Vec2(fH, 0.0));
  }

  /** `verticalBlur`: nine taps along y, `fV` apart. */
  method VerticalBlur(tex: Texture, vUv: Vec2, fV: real) returns (sum: Vec4)
    ensures sum == Convolve(tex, vUv, Vec2(0.0, fV), BlurTaps)
  {
    sum := Zero4;
    sum := Add4(sum, Scale4(tex(Vec2(vUv.x, vUv.y - 4.0 * fV)), 0.051));
    sum := Add4(sum, Scale4(tex(Vec2(vUv.x, vUv.y - 3.0 * fV)), 0.0918));
    sum := Add4(sum, Scale4(tex(Vec2(vUv.x, vUv.y - 2.0 * fV)), 0.12245));
    sum := Add4(sum, Scale4(tex(Vec2(vUv.x, vUv.y - 1.0 * fV)), 0.1531));
    sum := Add4(sum, Scale4(tex(Vec2(vUv.x, vUv.y)), 0.1633));
    sum := Add4(sum, Scale4(tex(Vec2(vUv.x, vUv.y + 1.0 * fV)), 0.1531));
    sum := Add4(sum, Scale4(tex(Vec2(vUv.x, vUv.y + 2.0 * fV)), 0.12245));
    sum := Add4(sum, Scale4(tex(Vec2(vUv.x, vUv.y + 3.0 * fV)), 0.0918));
    sum := Add4(sum, Scale4(tex(Vec2(vUv.x, vUv.y + 4.0 * fV)), 0.051));
    VerticalTaps(vUv, fV);
    TapsUnfold(tex, vUv, Vec2(0.0, fV));
  }

  /** `Convolve` over all nine taps, unrolled. */
  lemma TapsUnfold(tex: Texture, vUv: Vec2, step: Vec2)
    ensures Convolve(tex, vUv, step, BlurTaps) ==
      var s0 := Zero4;
      var s1 := Add4(s0, Scale4(tex(TapCoord(vUv, step, 0)), 0.051));
      var s2 := Add4(s1, Scale4(tex(TapCoord(vUv, step, 1)), 0.0918));
      var s3 := Add4(s2, Scale4(tex(TapCoord(vUv, step, 2)), 0.12245));
      var s4 := Add4(s3, Scale4(tex(TapCoord(vUv, step, 3)), 0.1531));
      var s5 := Add4(s4, Scale4(tex(TapCoord(vUv, step, 4)), 0.1633));
      var s6 := Add4(s5, Scale4(tex(TapCoord(vUv, step, 5)), 0.1531));
      var s7 := Add4(s6, Scale4(tex(TapCoord(vUv, step, 6)), 0.12245));
      var s8 := Add4(s7, Scale4(tex(TapCoord(vUv, step, 7)), 0.0918));
      Add4(s8, Scale4(tex(TapCoord(vUv, step, 8)), 0.051))
  {
    assert Convolve(tex, vUv, step, 1) == Add4(Convolve(tex, vUv, step, 0), Scale4(tex(TapCoord(vUv, step, 0)), 0.051));
    assert Convolve(tex, vUv, step, 2) == Add4(Convolve(tex, vUv, step, 1), Scale4(tex(TapCoord(vUv, step, 1)), 0.0918));
    assert Convolve(tex, vUv, step, 3) == Add4(Convolve(tex, vUv, step, 2), Scale4(tex(TapCoord(vUv, step, 2)), 0.12245));
    assert Convolve(tex, vUv, step, 4) == Add4(Convolve(tex, vUv, step, 3), Scale4(tex(TapCoord(vUv, step, 3)), 0.1531));
    assert Convolve(tex, vUv, step, 5) == Add4(Convolve(tex, vUv, step, 4), Scale4(tex(TapCoord(vUv, step, 4)), 0.1633));
    assert Convolve(tex, vUv, step, 6) == Add4(Convolve(tex, vUv, step, 5), Scale4(tex(TapCoord(vUv, step, 5)), 0.1531));
    assert Convolve(tex, vUv, step, 7) == Add4(Convolve(tex, vUv, step, 6), Scale4(tex(TapCoord(vUv, step, 6)), 0.12245));
    assert Convolve(tex, vUv, step, 8) == Add4(Convolve(tex, vUv, step, 7), Scale4(tex(TapCoord(vUv, step, 7)), 0.0918));
    assert Convolve(tex, vUv, step, 9) == Add4(Convolve(tex, vUv, step, 8), Scale4(tex(TapCoord(vUv, step, 8)), 0.051));
  }

  /** The horizontal taps move only along x, by -4..4 times `fH`. */
  lemma HorizontalTaps(vUv: Vec2, fH: real)
    ensures TapCoord(vUv, Vec2(fH, 0.0), 0) == Vec2(vUv.x - 4.0 * fH, vUv.y)
    ensures TapCoord(vUv, Vec2(fH, 0.0), 1) == Vec2(vUv.x - 3.0 * fH, vUv.y)
    ensures TapCoord(vUv, Vec2(fH, 0.0), 2) == Vec2(vUv.x - 2.0 * fH, vUv.y)
    ensures TapCoord(vUv, Vec2(fH, 0.0), 3) == Vec2(vUv.x - 1.0 * fH, vUv.y)
    ensures TapCoord(vUv, Vec2(fH, 0.0), 4) == Vec2(vUv.x, vUv.y)
    ensures TapCoord(vUv, Vec2(fH, 0.0), 5) == Vec2(vUv.x + 1.0 * fH, vUv.y)
    ensures TapCoord(vUv, Vec2(fH, 0.0), 6) == Vec2(vUv.x + 2.0 * fH, vUv.y)
    ensures TapCoord(vUv, Vec2(fH, 0.0), 7) == Vec2(vUv.x + 3.0 * fH, vUv.y)
    ensures TapCoord(vUv, Vec2(fH, 0.0), 8) == Vec2(vUv.x + 4.0 * fH, vUv.y)
  {
  }

  /** The vertical taps move only along y, by -4..4 times `fV`. */
  lemma VerticalTaps(vUv: Vec2, fV: real)
    ensures TapCoord(vUv, Vec2(0.0, fV), 0) == Vec2(vUv.x, vUv.y - 4.0 * fV)
    ensures TapCoord(vUv, Vec2(0.0, fV), 1) == Vec2(vUv.x, vUv.y - 3.0 * fV)
    ensures TapCoord(vUv, Vec2(0.0, fV), 2) == Vec2(vUv.x, vUv.y - 2.0 * fV)
    ensures TapCoord(vUv, Vec2(0.0, fV), 3) == Vec2(vUv.x, vUv.y - 1.0 * fV)
    ensures TapCoord(vUv, Vec2(0.0, fV), 4) == Vec2(vUv.x, vUv.y)
    ensures TapCoord(vUv, Vec2(0.0, fV), 5) == Vec2(vUv.x, vUv.y + 1.0 * fV)
    ensures TapCoord(vUv, Vec2(0.0, fV), 6) == Vec2(vUv.x, vUv.y + 2.0 * fV)
    ensures TapCoord(vUv, Vec2(0.0, fV), 7) == Vec2(vUv.x, vUv.y + 3.0 * fV)
    ensures TapCoord(vUv, Vec2(0.0, fV), 8) == Vec2(vUv.x, vUv.y + 4.0 * fV)
  {
  }

  /** Blurring a uniformly coloured image leaves that colour unchanged. */
  lemma {:induction false} BlurOfUniformImage(tex: Texture, color: Vec4, vUv: Vec2, step: Vec2)
    requires forall c :: tex(c) == color
    ensures Convolve(tex, vUv, step, BlurTaps) == color
  {
    ConvolveUniform(tex, color, vUv, step, BlurTaps);
    KernelShape();
    assert Scale4(color, 1.0) == color;
  }

  lemma {:induction false} ConvolveUniform(tex: Texture, color: Vec4, vUv: Vec2, step: Vec2, n: nat)
    requires n <= BlurTaps
    requires forall c :: tex(c) == color
    ensures Convolve(tex, vUv, step, n) == Scale4(color, WeightSum(n))
  {
    if n > 0 {
      ConvolveUniform(tex, color, vUv, step, n - 1);
      assert tex(TapCoord(vUv, step, n - 1)) == color;
      SumOfScaled(color, WeightSum(n - 1), BlurWeights[n - 1]);
    }
  }

  // ---------------------------------------------------------------------------
  // Default uniform values
  // ---------------------------------------------------------------------------

  /** fAge for cubesDiffuse, cubesBlack and background. */
  const DefaultAge: real := 60.0
  const DefaultPointLightColor: Vec3 := Vec3(0.349, 1.0, 1.0)
  const DefaultPointLightPosition: Vec3 := Vec3(0.0, 0.0, 0.0)
  const DefaultGodRays: GodRaysUniforms := GodRaysUniforms(0.6, 0.9, 0.8, 0.75, 1.0, Vec2(0.5, 0.5))
  const DefaultCoefficient: real := 1.0
  /** fH of horizontalBlur and fV of verticalBlur. */
  const DefaultBlurStep: real := 1.0 / 512.0

  /** Under the default uniforms the last sample sits 0.8 of the way to the light at (0.5, 0.5). */
  lemma DefaultFinalSampleCoord(vUv: Vec2)
    ensures SampleCoord(vUv, GodRaysDelta(vUv, DefaultGodRays.lightPosition, DefaultGodRays.density), NumSamples)
         == Vec2(0.2 * vUv.x + 0.4, 0.2 * vUv.y + 0.4)
  {
    FinalSampleCoord(vUv, DefaultGodRays.lightPosition, DefaultGodRays.density);
  }

  /** The default point light has a non-negative colour, so default cube lighting is non-negative. */
  lemma DefaultLightingNonNegative(m: Transcendentals, normal: Vec3, position: Vec3)
    requires SquareRoot(m)
    ensures NonNegative3(CubeDiffuse(m, normal, position, DefaultPointLightPosition, DefaultPointLightColor))
  {
    CubeDiffuseNonNegative(m, normal, position, DefaultPointLightPosition, DefaultPointLightColor);
  }
}
