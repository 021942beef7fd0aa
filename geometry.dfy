/**
 * The cube-field vertex buffer of cubes-simulation.js (`createCubesGeometry`):
 * an unindexed buffer of `numCubes` cubes, 12 triangles each, with five flat
 * attribute arrays (position, normal, colour = rotation axis, random1,
 * random2). Every cube draws its own random values once and copies them into
 * all 36 of its vertices.
 */
module CubesGeometry {
  import opened Numeric

  /** `numCubes` of the source. */
  const NumCubes: nat := 10000
  const NumTrianglesPerCube: nat := 12
  /** Half the side length of a cube. */
  const HalfSize: real := 0.45
  /**
   * Calls of `Math.random()` per cube: 2 for the rotation axis, 3 + 4 for
   * random1, 1 + 1 + 4 + 4 for random2.
   */
  const SamplesPerCube: nat := 19

  // The eight cube corners v1..v8 of the source.
  const V1: Vec3 := Vec3(-HalfSize, -HalfSize, -HalfSize)
  const V2: Vec3 := Vec3(HalfSize, -HalfSize, -HalfSize)
  const V3: Vec3 := Vec3(HalfSize, HalfSize, -HalfSize)
  const V4: Vec3 := Vec3(-HalfSize, HalfSize, -HalfSize)
  const V5: Vec3 := Vec3(-HalfSize, -HalfSize, HalfSize)
  const V6: Vec3 := Vec3(HalfSize, -HalfSize, HalfSize)
  const V7: Vec3 := Vec3(HalfSize, HalfSize, HalfSize)
  const V8: Vec3 := Vec3(-HalfSize, HalfSize, HalfSize)

  /** The corner arguments `(vc, vb, va)` of one `addTriangle` call. */
  datatype Face = Face(vc: Vec3, vb: Vec3, va: Vec3)

  /** The twelve `addTriangle` calls of one cube, in call order. */
  const CubeFaces: seq<Face> := [
    Face(V1, V2, V4), Face(V2, V3, V4),
    Face(V8, V6, V5), Face(V8, V7, V6),
    Face(V5, V2, V1), Face(V5, V6, V2),
    Face(V6, V3, V2), Face(V6, V7, V3),
    Face(V7, V4, V3), Face(V7, V8, V4),
    Face(V1, V4, V5), Face(V4, V8, V5)
  ]

  /** The per-cube random values: rotation axis (stored as colour), random1 and random2. */
  datatype CubeInstance = CubeInstance(axis: Vec3, random1: Vec4, random2: Vec4)

  /**
   * `setRandomUnitVector`: azimuth uniform in [0, 2*pi), z uniform in [-1, 1),
   * x and y on the circle of radius sqrt(1 - z^2).
   */
  function RandomUnitVector(m: Transcendentals, uAzimuth: real, uZ: real): Vec3 {
    var azimuth := uAzimuth * 2.0 * Pi;
    var planarZ := uZ * 2.0 - 1.0;
    var sqrtInvPlanarZSq := m.sqrt(1.0 - planarZ * planarZ);
    Vec3(m.cos(azimuth) * sqrtInvPlanarZSq, m.sin(azimuth) * sqrtInvPlanarZSq, planarZ)
  }

  /** `Math.random() > 0.5 ? 1 : -1`. */
  function Coin(u: real): real {
    if u > 0.5 then 1.0 else -1.0
  }

  /** The running sum of `normallyDistributedRandom` after it has used the samples `u`. */
  function NormalSum(delta: real, u: seq<real>): real
    decreases |u|
  {
    if |u| == 0 then 0.0
    else NormalSum(delta, u[..|u| - 1]) + (u[|u| - 1] * delta - delta * 0.5)
  }

  /** The value `normallyDistributedRandom(from, to)` returns when its four calls of `Math.random()` give `u`. */
  function NormallyDistributed(from: real, to: real, u: seq<real>): real
    requires |u| == 4
  {
    NormalSum(to - from, u) * 0.25
  }

  /**
   * The random values of the cube whose samples start at `s[base]`, in the
   * order the source draws them: the axis, then random1 (x, y, z, then the
   * approximately normal w), then random2 (two coin flips and two
   * approximately normal values).
   */
  function InstanceAt(m: Transcendentals, s: seq<real>, base: nat): CubeInstance
    requires base + SamplesPerCube <= |s|
  {
    CubeInstance(
      RandomUnitVector(m, s[base], s[base + 1]),
      Vec4(s[base + 2], s[base + 3], s[base + 4], NormallyDistributed(-1.0, 1.0, s[base + 5..base + 9])),
      Vec4(Coin(s[base + 9]), Coin(s[base + 10]),
           NormallyDistributed(-1.0, 1.0, s[base + 11..base + 15]),
           NormallyDistributed(-1.0, 1.0, s[base + 15..base + 19])))
  }

  /** The random values of n consecutive cubes whose samples start at `s[base]`. */
  function CubeInstances(m: Transcendentals, s: seq<real>, base: nat, n: nat): (r: seq<CubeInstance>)
    requires base + 19 * n <= |s|
    ensures |r| == n
  {
    if n == 0 then [] else CubeInstances(m, s, base, n - 1) + [InstanceAt(m, s, base + 19 * (n - 1))]
  }

  /** One more cube's instance follows the instances drawn so far. */
  lemma CubeInstancesNext(m: Transcendentals, s: seq<real>, base: nat, n: nat, p: nat)
    requires p == base + 19 * n && p + 19 <= |s|
    ensures CubeInstances(m, s, base, n + 1) == CubeInstances(m, s, base, n) + [InstanceAt(m, s, p)]
  {
  }

  /** The attribute values of one triangle: 9 position, normal and colour floats, 12 random1 and random2 floats. */
  datatype TriangleData = TriangleData(
    positions: seq<real>, normals: seq<real>, colors: seq<real>,
    random1: seq<real>, random2: seq<real>)

  function Flat3(v: Vec3): seq<real> { [v.x, v.y, v.z] }
  function Flat4(v: Vec4): seq<real> { [v.x, v.y, v.z, v.w] }
  function Thrice(s: seq<real>): seq<real> { s + s + s }

  /** Three.js `Vector3.normalize`: divide by the length, or by 1 when the length is 0. */
  function Normalize(m: Transcendentals, v: Vec3): Vec3 {
    var len := m.sqrt(Dot3(v, v));
    if len == 0.0 then v else Scale3(v, 1.0 / len)
  }

  /** The flat face normal `addTriangle` computes: `normalize((vc - vb) x (va - vb))`. */
  function FaceNormal(m: Transcendentals, f: Face): Vec3 {
    Normalize(m, Cross(Sub3(f.vc, f.vb), Sub3(f.va, f.vb)))
  }

  /**
   * What `addTriangle(k, vc, vb, va, rv1, rv2, rv3)` stores for triangle k
   * once it has computed the face normal n: the corners in reverse argument
   * order (va, vb, vc), then n and the three random vectors, each repeated
   * for the three vertices.
   */
  function Triangle(f: Face, n: Vec3, rv1: Vec3, rv2: Vec4, rv3: Vec4): TriangleData {
    TriangleData(
      Flat3(f.va) + Flat3(f.vb) + Flat3(f.vc),
      Thrice(Flat3(n)),
      Thrice(Flat3(rv1)),
      Thrice(Flat4(rv2)),
      Thrice(Flat4(rv3)))
  }

  /** Face t of a cube with random values `inst`, as the t-th `addTriangle` call of the cube stores it. */
  function CubeTriangle(m: Transcendentals, inst: CubeInstance, t: nat): TriangleData
    requires t < NumTrianglesPerCube
  {
    Triangle(CubeFaces[t], FaceNormal(m, CubeFaces[t]), inst.axis, inst.random1, inst.random2)
  }

  /** The contents of the five attribute arrays, in the order position, normal, colour, random1, random2. */
  datatype Attributes = Attributes(
    positions: seq<real>, normals: seq<real>, colors: seq<real>,
    random1: seq<real>, random2: seq<real>)

  /** There are slots for at least n triangles: 9 floats each in the 3-component arrays, 12 in the others. */
  predicate Room(b: Attributes, n: nat) {
    && 9 * n <= |b.positions| && 9 * n <= |b.normals| && 9 * n <= |b.colors|
    && 12 * n <= |b.random1| && 12 * n <= |b.random2|
  }

  /** Both contents have arrays of the same lengths. */
  predicate SameShape(a: Attributes, b: Attributes) {
    && |a.positions| == |b.positions| && |a.normals| == |b.normals| && |a.colors| == |b.colors|
    && |a.random1| == |b.random1| && |a.random2| == |b.random2|
  }

  /** The zero-filled arrays of n triangles. */
  function Zeros(n: nat): (b: Attributes)
    ensures Room(b, n) && !Room(b, n + 1)
  {
    Attributes(seq(9 * n, _ => 0.0), seq(9 * n, _ => 0.0), seq(9 * n, _ => 0.0),
               seq(12 * n, _ => 0.0), seq(12 * n, _ => 0.0))
  }

  /** The attribute slots of triangle k: `[9k, 9k+9)` and `[12k, 12k+12)`. */
  function Slots(b: Attributes, k: nat): TriangleData
    requires Room(b, k + 1)
  {
    TriangleData(
      b.positions[9 * k..9 * k + 9], b.normals[9 * k..9 * k + 9], b.colors[9 * k..9 * k + 9],
      b.random1[12 * k..12 * k + 12], b.random2[12 * k..12 * k + 12])
  }

  /** `s` with the values `v` stored from index j on, one at a time in increasing index order. */
  function Put(s: seq<real>, j: nat, v: seq<real>): (r: seq<real>)
    requires j + |v| <= |s|
    ensures |r| == |s|
    decreases |v|
  {
    if |v| == 0 then s else Put(s, j, v[..|v| - 1])[j + |v| - 1 := v[|v| - 1]]
  }

  /** `Put` fills exactly the slots `[j, j + |v|)`, with v, and leaves every other slot alone. */
  lemma {:induction false} PutSlots(s: seq<real>, j: nat, v: seq<real>)
    requires j + |v| <= |s|
    ensures Put(s, j, v)[j..j + |v|] == v
    ensures forall i :: 0 <= i < |s| && !(j <= i < j + |v|) ==> Put(s, j, v)[i] == s[i]
    decreases |v|
  {
    if |v| > 0 {
      var n := |v| - 1;
      PutSlots(s, j, v[..n]);
      assert v[..n] + [v[n]] == v;
      assert Put(s, j, v)[j..j + n] == Put(s, j, v[..n])[j..j + n];
    }
  }

  /** Storing one more element of v extends `Put` by one update. */
  lemma PutNext(s: seq<real>, j: nat, v: seq<real>, n: nat)
    requires n < |v| && j + |v| <= |s|
    ensures Put(s, j, v[..n + 1]) == Put(s, j, v[..n])[j + n := v[n]]
  {
    assert v[..n + 1][..n] == v[..n];
  }

  /**
   * The stores of `addTriangle(k, vc, vb, va, rv1, rv2, rv3)` with face
   * normal n: the corners va, vb, vc, then n and each random vector three
   * times, into triangle k's slots.
   */
  function StoreTriangle(b: Attributes, k: nat, f: Face, n: Vec3, rv1: Vec3, rv2: Vec4, rv3: Vec4): (r: Attributes)
    requires Room(b, k + 1)
    ensures SameShape(r, b)
  {
    Attributes(
      Put(b.positions, 9 * k, Flat3(f.va) + Flat3(f.vb) + Flat3(f.vc)),
      Put(b.normals, 9 * k, Thrice(Flat3(n))),
      Put(b.colors, 9 * k, Thrice(Flat3(rv1))),
      Put(b.random1, 12 * k, Thrice(Flat4(rv2))),
      Put(b.random2, 12 * k, Thrice(Flat4(rv3))))
  }

  /** Triangle k then holds exactly what `addTriangle` stores for it. */
  lemma StoreTriangleHere(b: Attributes, k: nat, f: Face, n: Vec3, rv1: Vec3, rv2: Vec4, rv3: Vec4)
    requires Room(b, k + 1)
    ensures Slots(StoreTriangle(b, k, f, n, rv1, rv2, rv3), k) == Triangle(f, n, rv1, rv2, rv3)
  {
    PutSlots(b.positions, 9 * k, Flat3(f.va) + Flat3(f.vb) + Flat3(f.vc));
    PutSlots(b.normals, 9 * k, Thrice(Flat3(n)));
    PutSlots(b.colors, 9 * k, Thrice(Flat3(rv1)));
    PutSlots(b.random1, 12 * k, Thrice(Flat4(rv2)));
    PutSlots(b.random2, 12 * k, Thrice(Flat4(rv3)));
  }

  /** Every other triangle j keeps its slots. */
  lemma StoreTriangleElsewhere(b: Attributes, k: nat, f: Face, n: Vec3, rv1: Vec3, rv2: Vec4, rv3: Vec4, j: nat)
    requires Room(b, k + 1) && Room(b, j + 1) && j != k
    ensures Slots(StoreTriangle(b, k, f, n, rv1, rv2, rv3), j) == Slots(b, j)
  {
    PutNineElsewhere(b.positions, k, Flat3(f.va) + Flat3(f.vb) + Flat3(f.vc), j);
    PutNineElsewhere(b.normals, k, Thrice(Flat3(n)), j);
    PutNineElsewhere(b.colors, k, Thrice(Flat3(rv1)), j);
    PutTwelveElsewhere(b.random1, k, Thrice(Flat4(rv2)), j);
    PutTwelveElsewhere(b.random2, k, Thrice(Flat4(rv3)), j);
  }

  /** Storing the nine floats of triangle k leaves the nine of triangle j alone. */
  lemma PutNineElsewhere(s: seq<real>, k: nat, v: seq<real>, j: nat)
    requires |v| == 9 && 9 * k + 9 <= |s| && 9 * j + 9 <= |s| && j != k
    ensures Put(s, 9 * k, v)[9 * j..9 * j + 9] == s[9 * j..9 * j + 9]
  {
    SlotsApart(j, k);
    PutElsewhere(s, 9 * k, v, 9 * j, 9);
  }

  /** Storing the twelve floats of triangle k leaves the twelve of triangle j alone. */
  lemma PutTwelveElsewhere(s: seq<real>, k: nat, v: seq<real>, j: nat)
    requires |v| == 12 && 12 * k + 12 <= |s| && 12 * j + 12 <= |s| && j != k
    ensures Put(s, 12 * k, v)[12 * j..12 * j + 12] == s[12 * j..12 * j + 12]
  {
    SlotsApart(j, k);
    PutElsewhere(s, 12 * k, v, 12 * j, 12);
  }

  /** A slice `[lo, lo + w)` that misses the range `Put` writes keeps its contents. */
  lemma PutElsewhere(s: seq<real>, j: nat, v: seq<real>, lo: nat, w: nat)
    requires j + |v| <= |s| && lo + w <= |s|
    requires lo + w <= j || j + |v| <= lo
    ensures Put(s, j, v)[lo..lo + w] == s[lo..lo + w]
  {
    PutSlots(s, j, v);
    var r := Put(s, j, v);
    forall i | lo <= i < lo + w
      ensures r[i] == s[i]
    {
    }
    assert r[lo..lo + w] == s[lo..lo + w];
  }

  /** The slot ranges of two different triangles do not overlap. */
  lemma SlotsApart(i: nat, k: nat)
    requires i != k
    ensures 9 * i + 9 <= 9 * k || 9 * k + 9 <= 9 * i
    ensures 12 * i + 12 <= 12 * k || 12 * k + 12 <= 12 * i
  {
  }

  /** The contents of the first n triangles, one `TriangleData` per triangle. */
  function TrianglesOf(b: Attributes, n: nat): (ts: seq<TriangleData>)
    requires Room(b, n)
    ensures |ts| == n
  {
    seq(n, k requires 0 <= k < n => Slots(b, k))
  }

  /**
   * `addTriangle` writes triangle k's slots as `Triangle` describes them
   * (corners in the order va, vb, vc, then the normal and the random
   * vectors) and leaves every other triangle's slots as they were.
   */
  lemma {:induction false} StoreTriangleSlots(b: Attributes, count: nat, k: nat, f: Face, n: Vec3, rv1: Vec3, rv2: Vec4, rv3: Vec4)
    requires Room(b, count) && k < count
    ensures TrianglesOf(StoreTriangle(b, k, f, n, rv1, rv2, rv3), count) == TrianglesOf(b, count)[k := Triangle(f, n, rv1, rv2, rv3)]
  {
    var after := StoreTriangle(b, k, f, n, rv1, rv2, rv3);
    forall j | 0 <= j < count
      ensures TrianglesOf(after, count)[j] == TrianglesOf(b, count)[k := Triangle(f, n, rv1, rv2, rv3)][j]
    {
      if j == k {
        StoreTriangleHere(b, k, f, n, rv1, rv2, rv3);
      } else {
        StoreTriangleElsewhere(b, k, f, n, rv1, rv2, rv3, j);
      }
    }
  }

  /** The first t of the twelve `addTriangle` calls of a cube whose first triangle is i, on the triangles `ts`. */
  function PlaceCube(ts: seq<TriangleData>, i: nat, inst: CubeInstance, m: Transcendentals, t: nat): (r: seq<TriangleData>)
    requires t <= NumTrianglesPerCube && i + NumTrianglesPerCube <= |ts|
    ensures |r| == |ts|
    decreases t
  {
    if t == 0 then ts
    else PlaceCube(ts, i, inst, m, t - 1)[i + t - 1 := CubeTriangle(m, inst, t - 1)]
  }

  /** Triangle k after the first t calls for the cube at i. */
  lemma {:induction false} PlaceCubeSlot(ts: seq<TriangleData>, i: nat, inst: CubeInstance, m: Transcendentals, t: nat, k: nat)
    requires t <= NumTrianglesPerCube && i + NumTrianglesPerCube <= |ts| && k < |ts|
    ensures i <= k < i + t ==> PlaceCube(ts, i, inst, m, t)[k] == CubeTriangle(m, inst, k - i)
    ensures !(i <= k < i + t) ==> PlaceCube(ts, i, inst, m, t)[k] == ts[k]
  {
    if t > 0 && k != i + t - 1 {
      PlaceCubeSlot(ts, i, inst, m, t - 1, k);
    }
  }

  /** The buffer after the loop of `createCubesGeometry` has stored every cube of `insts`, in order. */
  function PlaceCubes(ts: seq<TriangleData>, m: Transcendentals, insts: seq<CubeInstance>): (r: seq<TriangleData>)
    requires 12 * |insts| <= |ts|
    ensures |r| == |ts|
    decreases |insts|
  {
    if |insts| == 0 then ts
    else
      var n := |insts| - 1;
      PlaceCube(PlaceCubes(ts, m, insts[..n]), 12 * n, insts[n], m, NumTrianglesPerCube)
  }

  /** Storing one more cube places it after the cubes stored so far. */
  lemma PlaceCubesNext(ts: seq<TriangleData>, m: Transcendentals, insts: seq<CubeInstance>, inst: CubeInstance)
    requires 12 * |insts| + 12 <= |ts|
    ensures PlaceCubes(ts, m, insts + [inst]) == PlaceCube(PlaceCubes(ts, m, insts), 12 * |insts|, inst, m, NumTrianglesPerCube)
  {
    assert (insts + [inst])[..|insts|] == insts;
  }

  /** Triangle k after every cube of `insts` is stored. */
  lemma {:induction false} PlaceCubesSlot(ts: seq<TriangleData>, m: Transcendentals, insts: seq<CubeInstance>, k: nat)
    requires 12 * |insts| <= |ts| && k < |ts|
    ensures k < 12 * |insts| ==> PlaceCubes(ts, m, insts)[k] == CubeTriangle(m, insts[k / 12], k % 12)
    ensures 12 * |insts| <= k ==> PlaceCubes(ts, m, insts)[k] == ts[k]
    decreases |insts|
  {
    if |insts| > 0 {
      var n := |insts| - 1;
      var before := PlaceCubes(ts, m, insts[..n]);
      PlaceCubeSlot(before, 12 * n, insts[n], m, NumTrianglesPerCube, k);
      if k < 12 * n {
        PlaceCubesSlot(ts, m, insts[..n], k);
        EarlierCube(k, n);
        assert insts[..n][k / 12] == insts[k / 12];
      } else if k < 12 * |insts| {
        CubeIndex(n, k - 12 * n);
        assert k / 12 == n && k % 12 == k - 12 * n;
      } else {
        PlaceCubesSlot(ts, m, insts[..n], k);
      }
    }
  }

  /**
   * Once every cube is stored, triangle k holds face `k % 12` of cube `k / 12`:
   * every triangle index below `12 * |insts|` was written, by its own cube,
   * and the triangles beyond are untouched.
   */
  lemma PlaceCubesSlots(ts: seq<TriangleData>, m: Transcendentals, insts: seq<CubeInstance>)
    requires 12 * |insts| <= |ts|
    ensures forall k :: 0 <= k < 12 * |insts| ==>
      PlaceCubes(ts, m, insts)[k] == CubeTriangle(m, insts[k / 12], k % 12)
    ensures forall k :: 12 * |insts| <= k < |ts| ==> PlaceCubes(ts, m, insts)[k] == ts[k]
  {
    forall k | 0 <= k < |ts| {
      PlaceCubesSlot(ts, m, insts, k);
    }
  }

  /** A triangle before cube c's first belongs to an earlier cube. */
  lemma EarlierCube(k: nat, c: nat)
    requires k < 12 * c
    ensures k / 12 < c
  {
  }

  /** Triangle `12 * c + t` is face t of cube c. */
  lemma CubeIndex(c: nat, t: nat)
    requires t < 12
    ensures (12 * c + t) / 12 == c
    ensures (12 * c + t) % 12 == t
  {
  }

  /** `geometry.drawRange`: everything (three.js starts with count Infinity) or a range. */
  datatype DrawRange = Everything | Range(start: int, count: int)

  /** The `BufferGeometry` built from the five `Float32Array`s. */
  class BufferGeometry {
    const numTriangles: nat
    const positions: array<real>
    const normals: array<real>
    const colors: array<real>
    const randoms1: array<real>
    const randoms2: array<real>
    var drawRange: DrawRange

    ghost predicate Valid()
      reads this
    {
      && positions.Length == 9 * numTriangles
      && normals.Length == 9 * numTriangles
      && colors.Length == 9 * numTriangles
      && randoms1.Length == 12 * numTriangles
      && randoms2.Length == 12 * numTriangles
      && positions != normals && positions != colors && positions != randoms1 && positions != randoms2
      && normals != colors && normals != randoms1 && normals != randoms2
      && colors != randoms1 && colors != randoms2
      && randoms1 != randoms2
    }

    /** The current contents of the five arrays. */
    ghost function Contents(): Attributes
      reads this, positions, normals, colors, randoms1, randoms2
    {
      Attributes(positions[..], normals[..], colors[..], randoms1[..], randoms2[..])
    }

    /** The contents of the buffer, triangle by triangle. */
    ghost function Triangles(): (ts: seq<TriangleData>)
      reads this, positions, normals, colors, randoms1, randoms2
      requires Valid()
      ensures |ts| == numTriangles
    {
      TrianglesOf(Contents(), numTriangles)
    }

    /** `attributes.position.count`: three vertices per triangle. */
    function PositionCount(): (n: nat)
      reads this
      requires Valid()
      ensures n == 3 * numTriangles
    {
      positions.Length / 3
    }

    /** The five zero-filled `Float32Array`s of `numTriangles` triangles. */
    constructor (numTriangles: nat)
      ensures Valid() && this.numTriangles == numTriangles && drawRange == Everything
      ensures Contents() == Zeros(numTriangles)
      ensures fresh(positions) && fresh(normals) && fresh(colors) && fresh(randoms1) && fresh(randoms2)
    {
      this.numTriangles := numTriangles;
      positions := new real[9 * numTriangles](_ => 0.0);
      normals := new real[9 * numTriangles](_ => 0.0);
      colors := new real[9 * numTriangles](_ => 0.0);
      randoms1 := new real[12 * numTriangles](_ => 0.0);
      randoms2 := new real[12 * numTriangles](_ => 0.0);
      drawRange := Everything;
    }

    /**
     * `addTriangle(k, vc, vb, va, rv1, rv2, rv3)`, which computes the face
     * normal itself; `StoreTriangleSlots` says what it writes.
     */
    method AddTriangle(k: nat, vc: Vec3, vb: Vec3, va: Vec3, rv1: Vec3, rv2: Vec4, rv3: Vec4, m: Transcendentals)
      requires Valid() && k < numTriangles
      modifies positions, normals, colors, randoms1, randoms2
      ensures Contents() == StoreTriangle(old(Contents()), k, Face(vc, vb, va), FaceNormal(m, Face(vc, vb, va)), rv1, rv2, rv3)
      ensures Triangles() == old(Triangles())[k := Triangle(Face(vc, vb, va), FaceNormal(m, Face(vc, vb, va)), rv1, rv2, rv3)]
    {
      var j := k * 9;
      var l := k * 12;
      // Positions: the corners in the order va, vb, vc.
      SetVertices3(positions, j, va, vb, vc);
      // Flat face normals.
      var na := Normalize(m, Cross(Sub3(vc, vb), Sub3(va, vb)));
      SetVertices3(normals, j, na, na, na);
      // The rotation axis, stored as colour, and the two random vectors.
      SetVertices3(colors, j, rv1, rv1, rv1);
      SetVertices4(randoms1, l, rv2, rv2, rv2);
      SetVertices4(randoms2, l, rv3, rv3, rv3);
      StoreTriangleSlots(old(Contents()), numTriangles, k, Face(vc, vb, va), na, rv1, rv2, rv3);
    }

    /**
     * The twelve `addTriangle` calls for the cube whose first triangle is i,
     * made in order with the corner arguments listed in `CubeFaces`.
     */
    method AddCube(i: nat, rv1: Vec3, rv2: Vec4, rv3: Vec4, m: Transcendentals)
      requires Valid() && i + NumTrianglesPerCube <= numTriangles
      modifies positions, normals, colors, randoms1, randoms2
      ensures Triangles() == PlaceCube(old(Triangles()), i, CubeInstance(rv1, rv2, rv3), m, NumTrianglesPerCube)
    {
      for t := 0 to NumTrianglesPerCube
        invariant Triangles() == PlaceCube(old(Triangles()), i, CubeInstance(rv1, rv2, rv3), m, t)
      {
        var f := CubeFaces[t];
        assert Face(f.vc, f.vb, f.va) == f;
        AddTriangle(i + t, f.vc, f.vb, f.va, rv1, rv2, rv3, m);
      }
    }
  }

  /** Stores three 3-component vertices into `a[j..j+9]`, as `addTriangle` does for each such attribute. */
  method SetVertices3(a: array<real>, j: nat, p: Vec3, q: Vec3, r: Vec3)
    requires j + 9 <= a.Length
    modifies a
    ensures a[..] == Put(old(a[..]), j, Flat3(p) + Flat3(q) + Flat3(r))
  {
    ghost var s, v := a[..], Flat3(p) + Flat3(q) + Flat3(r);
    PutNext(s, j, v, 0);
    a[j + 0] := p.x;
    PutNext(s, j, v, 1);
    a[j + 1] := p.y;
    PutNext(s, j, v, 2);
    a[j + 2] := p.z;
    PutNext(s, j, v, 3);
    a[j + 3] := q.x;
    PutNext(s, j, v, 4);
    a[j + 4] := q.y;
    PutNext(s, j, v, 5);
    a[j + 5] := q.z;
    PutNext(s, j, v, 6);
    a[j + 6] := r.x;
    PutNext(s, j, v, 7);
    a[j + 7] := r.y;
    PutNext(s, j, v, 8);
    a[j + 8] := r.z;
    assert v[..9] == v;
  }

  /** Stores three 4-component vertices into `a[l..l+12]`. */
  method SetVertices4(a: array<real>, l: nat, p: Vec4, q: Vec4, r: Vec4)
    requires l + 12 <= a.Length
    modifies a
    ensures a[..] == Put(old(a[..]), l, Flat4(p) + Flat4(q) + Flat4(r))
  {
    ghost var s, v := a[..], Flat4(p) + Flat4(q) + Flat4(r);
    PutNext(s, l, v, 0);
    a[l + 0] := p.x;
    PutNext(s, l, v, 1);
    a[l + 1] := p.y;
    PutNext(s, l, v, 2);
    a[l + 2] := p.z;
    PutNext(s, l, v, 3);
    a[l + 3] := p.w;
    PutNext(s, l, v, 4);
    a[l + 4] := q.x;
    PutNext(s, l, v, 5);
    a[l + 5] := q.y;
    PutNext(s, l, v, 6);
    a[l + 6] := q.z;
    PutNext(s, l, v, 7);
    a[l + 7] := q.w;
    PutNext(s, l, v, 8);
    a[l + 8] := r.x;
    PutNext(s, l, v, 9);
    a[l + 9] := r.y;
    PutNext(s, l, v, 10);
    a[l + 10] := r.z;
    PutNext(s, l, v, 11);
    a[l + 11] := r.w;
    assert v[..12] == v;
  }

  /**
   * `normallyDistributedRandom(from, to)`: the average of four uniform
   * samples, each shifted to be centred on 0 and scaled to the width `to - from`.
   */
  method NormallyDistributedRandom(from: real, to: real, rng: RandomStream) returns (r: real)
    requires rng.Valid() && rng.pos + 4 <= |rng.samples|
    modifies rng`pos
    ensures rng.Valid() && rng.pos == old(rng.pos) + 4
    ensures r == NormallyDistributed(from, to, rng.samples[old(rng.pos)..rng.pos])
  {
    var delta := to - from;
    var random := 0.0;
    var i := 0;
    while i < 4
      invariant 0 <= i <= 4
      invariant rng.Valid() && rng.pos == old(rng.pos) + i
      invariant random == NormalSum(delta, rng.samples[old(rng.pos)..rng.pos])
    {
      var u := rng.Next();
      assert rng.samples[old(rng.pos)..rng.pos][..i] == rng.samples[old(rng.pos)..rng.pos - 1];
      random := random + (u * delta - delta * 0.5);
      i := i + 1;
    }
    r := random * 0.25;
  }

  /**
   * The random draws of one cube in the body of `createCubesGeometry`'s loop:
   * the rotation axis, random1 and random2, from the next 19 samples.
   */
  method DrawCubeRandoms(rng: RandomStream, m: Transcendentals) returns (rv1: Vec3, rv2: Vec4, rv3: Vec4)
    requires rng.Valid() && rng.pos + SamplesPerCube <= |rng.samples|
    modifies rng`pos
    ensures rng.Valid() && rng.pos == old(rng.pos) + SamplesPerCube
    ensures CubeInstance(rv1, rv2, rv3) == InstanceAt(m, rng.samples, old(rng.pos))
  {
    ghost var s, base := rng.samples, rng.pos;
    var u1 := rng.Next();
    var u2 := rng.Next();
    rv1 := RandomUnitVector(m, u1, u2);
    var x := rng.Next();
    var y := rng.Next();
    var z := rng.Next();
    var w := NormallyDistributedRandom(-1.0, 1.0, rng);
    assert w == NormallyDistributed(-1.0, 1.0, s[base + 5..base + 9]);
    rv2 := Vec4(x, y, z, w);
    var coinX := rng.Next();
    var coinY := rng.Next();
    var offsetX := NormallyDistributedRandom(-1.0, 1.0, rng);
    assert offsetX == NormallyDistributed(-1.0, 1.0, s[base + 11..base + 15]);
    var offsetZ := NormallyDistributedRandom(-1.0, 1.0, rng);
    assert offsetZ == NormallyDistributed(-1.0, 1.0, s[base + 15..base + 19]);
    rv3 := Vec4(Coin(coinX), Coin(coinY), offsetX, offsetZ);
    assert rv1 == RandomUnitVector(m, s[base], s[base + 1]);
    assert rv2 == Vec4(s[base + 2], s[base + 3], s[base + 4], NormallyDistributed(-1.0, 1.0, s[base + 5..base + 9]));
    assert rv3 == Vec4(Coin(s[base + 9]), Coin(s[base + 10]),
                       NormallyDistributed(-1.0, 1.0, s[base + 11..base + 15]),
                       NormallyDistributed(-1.0, 1.0, s[base + 15..base + 19]));
  }

  /**
   * `createCubesGeometry`, for `numCubes` cubes (the source fixes 10000).
   * The ghost `instances` are the random values each cube draws from its own
   * 19 consecutive samples; the buffer holds every cube stored in turn, so
   * triangle k is face `k % 12` of cube `k / 12`.
   */
  method CreateCubesGeometry(numCubes: nat, rng: RandomStream, m: Transcendentals)
    returns (g: BufferGeometry, ghost instances: seq<CubeInstance>)
    requires rng.Valid() && rng.pos + 19 * numCubes <= |rng.samples|
    modifies rng`pos
    ensures fresh(g) && fresh(g.positions) && fresh(g.normals) && fresh(g.colors)
    ensures fresh(g.randoms1) && fresh(g.randoms2)
    ensures g.Valid() && g.numTriangles == 12 * numCubes && g.drawRange == Everything
    ensures rng.Valid() && rng.pos == old(rng.pos) + 19 * numCubes
    ensures instances == CubeInstances(m, rng.samples, old(rng.pos), numCubes)
    ensures g.Triangles() == PlaceCubes(TrianglesOf(Zeros(g.numTriangles), g.numTriangles), m, instances)
  {
    g := new BufferGeometry(12 * numCubes);
    instances := FillCubes(g, rng, m, numCubes);
  }

  method FillCubes(g: BufferGeometry, rng: RandomStream, m: Transcendentals, numCubes: nat)
    returns (ghost instances: seq<CubeInstance>)
    requires g.Valid() && g.numTriangles == 12 * numCubes
    requires rng.Valid() && rng.pos + 19 * numCubes <= |rng.samples|
    modifies g.positions, g.normals, g.colors, g.randoms1, g.randoms2, rng`pos
    ensures rng.Valid() && rng.pos == old(rng.pos) + 19 * numCubes
    ensures instances == CubeInstances(m, rng.samples, old(rng.pos), numCubes)
    ensures g.Triangles() == PlaceCubes(old(g.Triangles()), m, instances)
  {
    ghost var start := rng.pos;
    ghost var empty := g.Triangles();
    instances := [];
    var i := 0;
    while i < g.numTriangles
      invariant 0 <= |instances| <= numCubes && i == 12 * |instances|
      invariant rng.Valid() && rng.pos == start + 19 * |instances|
      invariant instances == CubeInstances(m, rng.samples, start, |instances|)
      invariant g.Triangles() == PlaceCubes(empty, m, instances)
    {
      CubeFits(|instances|, numCubes);
      ghost var p := rng.pos;
      CubeInstancesNext(m, rng.samples, start, |instances|, p);
      ghost var inst := AddRandomCube(g, rng, m, i);
      PlaceCubesNext(empty, m, instances, inst);
      instances := instances + [inst];
      i := i + 12;
    }
    CubeCount(|instances|, numCubes);
  }

  /**
   * One turn of the loop of `createCubesGeometry`: draw the cube's random
   * values, then add its twelve triangles after the cubes already built.
   */
  method AddRandomCube(g: BufferGeometry, rng: RandomStream, m: Transcendentals, i: nat)
    returns (ghost inst: CubeInstance)
    requires g.Valid() && rng.Valid() && i + 12 <= g.numTriangles && rng.pos + 19 <= |rng.samples|
    modifies g.positions, g.normals, g.colors, g.randoms1, g.randoms2, rng`pos
    ensures rng.Valid() && rng.pos == old(rng.pos) + 19
    ensures inst == InstanceAt(m, rng.samples, old(rng.pos))
    ensures g.Triangles() == PlaceCube(old(g.Triangles()), i, inst, m, NumTrianglesPerCube)
  {
    var rv1, rv2, rv3 := DrawCubeRandoms(rng, m);
    g.AddCube(i, rv1, rv2, rv3, m);
    inst := CubeInstance(rv1, rv2, rv3);
  }

  /** Once 12 * c triangles of 12 * n are built, all n cubes are. */
  lemma CubeCount(c: nat, n: nat)
    requires 12 * c == 12 * n
    ensures c == n
  {
  }

  /** While fewer than n cubes are built, one more cube's triangles and samples still fit. */
  lemma CubeFits(c: nat, n: nat)
    requires 12 * c < 12 * n
    ensures c < n
    ensures 12 * c + 12 <= 12 * n && 19 * c + 19 <= 19 * n
  {
  }

  /**
   * `setRandomUnitVector` yields a unit vector: x^2 + y^2 = (cos^2 + sin^2) *
   * (1 - z^2) and z = 2u - 1 lies in [-1, 1) for a sample u in [0, 1).
   */
  lemma RandomUnitVectorIsUnit(m: Transcendentals, uAzimuth: real, uZ: real)
    requires Lawful(m) && 0.0 <= uZ < 1.0
    ensures Dot3(RandomUnitVector(m, uAzimuth, uZ), RandomUnitVector(m, uAzimuth, uZ)) == 1.0
  {
    var azimuth := uAzimuth * 2.0 * Pi;
    var z := uZ * 2.0 - 1.0;
    var q := 1.0 - z * z;
    assert -1.0 <= z < 1.0;
    assert 0.0 <= q by {
      assert q == (1.0 - z) * (1.0 + z);
      ProductNonNegative(1.0 - z, 1.0 + z);
    }
    var r := m.sqrt(q);
    assert r * r == q;
    var c, sn := m.cos(azimuth), m.sin(azimuth);
    assert sn * sn + c * c == 1.0;
    calc {
      (c * r) * (c * r) + (sn * r) * (sn * r) + z * z;
      (c * c + sn * sn) * (r * r) + z * z;
      1.0;
    }
  }

  /** The running sum after one more sample. */
  lemma NormalSumNext(delta: real, u: seq<real>, k: nat)
    requires k < |u|
    ensures NormalSum(delta, u[..k + 1]) == NormalSum(delta, u[..k]) + (u[k] * delta - delta * 0.5)
  {
    assert u[..k + 1][..k] == u[..k];
  }

  /**
   * `normallyDistributedRandom(-1, 1)`, the only call the source makes, lies
   * in [-1, 1) whenever its four samples lie in [0, 1): it is the mean of four
   * steps `2u - 1` that each lie in that range.
   */
  lemma NormallyDistributedBounds(u: seq<real>)
    requires |u| == 4 && UnitSamples(u)
    ensures -1.0 <= NormallyDistributed(-1.0, 1.0, u) < 1.0
  {
    assert u[..4] == u && u[..0] == [];
    NormalSumNext(2.0, u, 0);
    NormalSumNext(2.0, u, 1);
    NormalSumNext(2.0, u, 2);
    NormalSumNext(2.0, u, 3);
    assert 0.0 <= u[0] < 1.0 && 0.0 <= u[1] < 1.0 && 0.0 <= u[2] < 1.0 && 0.0 <= u[3] < 1.0;
  }

  /**
   * The ranges of a cube's random values when every sample lies in [0, 1):
   * the axis is a unit vector, random1.xyz lie in [0, 1), random2.xy are
   * exactly 1 or -1, and the three approximately normal values lie in [-1, 1).
   */
  lemma InstanceRanges(m: Transcendentals, s: seq<real>, base: nat)
    requires Lawful(m) && base + SamplesPerCube <= |s| && UnitSamples(s)
    ensures var inst := InstanceAt(m, s, base);
      && Dot3(inst.axis, inst.axis) == 1.0
      && 0.0 <= inst.random1.x < 1.0 && 0.0 <= inst.random1.y < 1.0 && 0.0 <= inst.random1.z < 1.0
      && -1.0 <= inst.random1.w < 1.0
      && (inst.random2.x == 1.0 || inst.random2.x == -1.0)
      && (inst.random2.y == 1.0 || inst.random2.y == -1.0)
      && -1.0 <= inst.random2.z < 1.0 && -1.0 <= inst.random2.w < 1.0
  {
    assert 0.0 <= s[base + 1] < 1.0;
    RandomUnitVectorIsUnit(m, s[base], s[base + 1]);
    assert 0.0 <= s[base + 2] < 1.0 && 0.0 <= s[base + 3] < 1.0 && 0.0 <= s[base + 4] < 1.0;
    UnitWindow(s, base + 5);
    NormallyDistributedBounds(s[base + 5..base + 9]);
    UnitWindow(s, base + 11);
    NormallyDistributedBounds(s[base + 11..base + 15]);
    UnitWindow(s, base + 15);
    NormallyDistributedBounds(s[base + 15..base + 19]);
  }

  /** Four consecutive samples of a stream of samples in [0, 1) lie in [0, 1). */
  lemma UnitWindow(s: seq<real>, lo: nat)
    requires lo + 4 <= |s| && UnitSamples(s)
    ensures UnitSamples(s[lo..lo + 4])
  {
    var w := s[lo..lo + 4];
    forall i | 0 <= i < 4 ensures 0.0 <= w[i] < 1.0 {
      assert w[i] == s[lo + i];
    }
  }

  /**
   * The three vertices of every triangle of a cube carry that cube's axis as
   * colour and its random1 and random2, so all 36 vertices of the cube agree.
   */
  lemma CubeVerticesShareRandoms(m: Transcendentals, inst: CubeInstance, t: nat, v: nat)
    requires t < NumTrianglesPerCube && v < 3
    ensures CubeTriangle(m, inst, t).colors[3 * v..3 * v + 3] == Flat3(inst.axis)
    ensures CubeTriangle(m, inst, t).random1[4 * v..4 * v + 4] == Flat4(inst.random1)
    ensures CubeTriangle(m, inst, t).random2[4 * v..4 * v + 4] == Flat4(inst.random2)
  {
    var d := CubeTriangle(m, inst, t);
    assert d.colors == Flat3(inst.axis) + Flat3(inst.axis) + Flat3(inst.axis);
    assert d.random1 == Flat4(inst.random1) + Flat4(inst.random1) + Flat4(inst.random1);
    assert d.random2 == Flat4(inst.random2) + Flat4(inst.random2) + Flat4(inst.random2);
  }
}
