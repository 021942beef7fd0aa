/**
 * The menu carousel of the page: the elements are padded to at least five,
 * each carries a position index (0 left, 1 centre, 2 right, 3 right-out,
 * the last one left-out), rotations shift the indices by one, and every
 * rotation starts a camera-rotation process that turns the cube simulation
 * a quarter of a half turn over 0.4 seconds, eased by a cubic Bezier curve.
 */
module Menu {
  import opened Numeric
  import Simulation

  const CameraRotationAmount: real := Pi * 0.25
  const CameraRotationSeconds: real := 0.4
  const MinimumNumberOfElements: nat := 5
  const LeftArrowKey: int := 37
  const RightArrowKey: int := 39

  // ---------------------------------------------------------------------------
  // UnitBezier and lerp
  // ---------------------------------------------------------------------------

  /**
   * The polynomial coefficients of a cubic Bezier curve from (0,0) to (1,1):
   * x(t) = ((xa t + xb) t + xc) t and y(t) = ((ya t + yb) t + yc) t.
   */
  datatype UnitBezier = UnitBezier(xc: real, xb: real, xa: real, yc: real, yb: real, ya: real)

  /** `new UnitBezier(p1x, p1y, p2x, p2y)`: the two inner control points give the coefficients. */
  function MakeUnitBezier(p1x: real, p1y: real, p2x: real, p2y: real): (b: UnitBezier)
    ensures b.xa + b.xb + b.xc == 1.0 && b.ya + b.yb + b.yc == 1.0
  {
    var xc := 3.0 * p1x;
    var xb := 3.0 * (p2x - p1x) - xc;
    var xa := 1.0 - xc - xb;
    var yc := 3.0 * p1y;
    var yb := 3.0 * (p2y - p1y) - yc;
    var ya := 1.0 - yc - yb;
    UnitBezier(xc, xb, xa, yc, yb, ya)
  }

  /** `sampleCurveY(t)` by Horner's rule. */
  function SampleCurveY(b: UnitBezier, t: real): real {
    ((b.ya * t + b.yb) * t + b.yc) * t
  }

  /** The easing curve of every camera-rotation process. */
  const MenuBezier: UnitBezier := MakeUnitBezier(0.250, 0.100, 0.250, 1.000)

  function Lerp(v0: real, v1: real, t: real): (r: real)
    ensures t == 0.0 ==> r == v0
    ensures t == 1.0 ==> r == v1
  {
    v0 + t * (v1 - v0)
  }

  /** Every unit Bezier curve starts at 0 and ends at 1. */
  lemma CurveEndpoints(p1x: real, p1y: real, p2x: real, p2y: real)
    ensures SampleCurveY(MakeUnitBezier(p1x, p1y, p2x, p2y), 0.0) == 0.0
    ensures SampleCurveY(MakeUnitBezier(p1x, p1y, p2x, p2y), 1.0) == 1.0
  {
    var b := MakeUnitBezier(p1x, p1y, p2x, p2y);
    assert SampleCurveY(b, 1.0) == b.ya + b.yb + b.yc;
  }

  /** The menu curve written out: y(t) = -1.7 t^3 + 2.4 t^2 + 0.3 t. */
  lemma MenuCurveCoefficients()
    ensures MenuBezier.ya == -1.7 && MenuBezier.yb == 2.4 && MenuBezier.yc == 0.3
  {
  }

  /** On [0, 1] the menu curve stays within [0, 1]: 1 - y(t) = (1 - t)^2 (1 + 1.7 t). */
  lemma MenuCurveInUnitRange(t: real)
    requires 0.0 <= t <= 1.0
    ensures 0.0 <= SampleCurveY(MenuBezier, t) <= 1.0
  {
    MenuCurveCoefficients();
    var y := SampleCurveY(MenuBezier, t);
    assert y == t * (0.3 + 2.4 * t - 1.7 * t * t);
    assert 0.3 + 2.4 * t - 1.7 * t * t >= 0.3 by {
      assert t * t <= t by { ProductNonNegative(t, 1.0 - t); }
    }
    ProductNonNegative(t, 0.3 + 2.4 * t - 1.7 * t * t);
    assert 1.0 - y == (1.0 - t) * (1.0 - t) * (1.0 + 1.7 * t);
    ProductNonNegative(1.0 - t, 1.0 - t);
    ProductNonNegative((1.0 - t) * (1.0 - t), 1.0 + 1.7 * t);
  }

  /** On [0, 1] the menu curve never goes back: y(t) - y(s) = (t - s) (0.3 + 2.4 (s + t) - 1.7 (s^2 + s t + t^2)). */
  lemma MenuCurveMonotone(s: real, t: real)
    requires 0.0 <= s <= t <= 1.0
    ensures SampleCurveY(MenuBezier, s) <= SampleCurveY(MenuBezier, t)
  {
    MenuCurveCoefficients();
    var ss, st, tt := s * s, s * t, t * t;
    var slope := 0.3 + 2.4 * (s + t) - 1.7 * (ss + st + tt);
    assert SampleCurveY(MenuBezier, t) - SampleCurveY(MenuBezier, s) == (t - s) * slope;
    assert ss <= s by { ProductNonNegative(s, 1.0 - s); }
    assert tt <= t by { ProductNonNegative(t, 1.0 - t); }
    assert st <= s by { ProductNonNegative(s, 1.0 - t); }
    assert st <= t by { ProductNonNegative(t, 1.0 - s); }
    assert slope >= 0.0;
    ProductNonNegative(t - s, slope);
  }

  // ---------------------------------------------------------------------------
  // CameraRotationProcess
  // ---------------------------------------------------------------------------

  /** The fields of a camera-rotation process that its updates change. */
  datatype RotationState = RotationState(elapsedSeconds: real, progress: real, finished: bool)

  const Start: RotationState := RotationState(0.0, 0.0, false)

  /** One `update(deltaSeconds)` of a process that turns by `amount` over `seconds`. */
  function Advance(s: RotationState, amount: real, seconds: real, deltaSeconds: real): RotationState
    requires seconds != 0.0
  {
    var elapsed := s.elapsedSeconds + deltaSeconds;
    RotationState(elapsed, Lerp(0.0, amount, SampleCurveY(MenuBezier, elapsed / seconds)),
                  s.finished || elapsed >= seconds)
  }

  /** The state after a run of updates. */
  function RunUpdates(s: RotationState, amount: real, seconds: real, deltas: seq<real>): RotationState
    requires seconds != 0.0
    decreases |deltas|
  {
    if |deltas| == 0 then s
    else RunUpdates(Advance(s, amount, seconds, deltas[0]), amount, seconds, deltas[1..])
  }

  /** What a run of updates adds to the camera angle, increment by increment. */
  function Turned(s: RotationState, amount: real, seconds: real, deltas: seq<real>): real
    requires seconds != 0.0
    decreases |deltas|
  {
    if |deltas| == 0 then 0.0
    else
      var next := Advance(s, amount, seconds, deltas[0]);
      (next.progress - s.progress) + Turned(next, amount, seconds, deltas[1..])
  }

  function Sum(deltas: seq<real>): real {
    if |deltas| == 0 then 0.0 else deltas[0] + Sum(deltas[1..])
  }

  /** The increments telescope: the camera has turned by exactly the progress the process reports. */
  lemma {:induction false} TurnedTelescopes(s: RotationState, amount: real, seconds: real, deltas: seq<real>)
    requires seconds != 0.0
    ensures Turned(s, amount, seconds, deltas) == RunUpdates(s, amount, seconds, deltas).progress - s.progress
    decreases |deltas|
  {
    if |deltas| > 0 {
      TurnedTelescopes(Advance(s, amount, seconds, deltas[0]), amount, seconds, deltas[1..]);
    }
  }

  /** The elapsed time is the sum of the frame times. */
  lemma {:induction false} ElapsedAccumulates(s: RotationState, amount: real, seconds: real, deltas: seq<real>)
    requires seconds != 0.0
    ensures RunUpdates(s, amount, seconds, deltas).elapsedSeconds == s.elapsedSeconds + Sum(deltas)
    decreases |deltas|
  {
    if |deltas| > 0 {
      ElapsedAccumulates(Advance(s, amount, seconds, deltas[0]), amount, seconds, deltas[1..]);
    }
  }

  /**
   * A process is finished exactly when it started finished or the elapsed
   * time reached `seconds` after one of the updates.
   */
  lemma {:induction false} FinishedOnceElapsed(s: RotationState, amount: real, seconds: real, deltas: seq<real>)
    requires seconds != 0.0
    ensures RunUpdates(s, amount, seconds, deltas).finished <==>
      s.finished || exists k :: 0 < k <= |deltas| && s.elapsedSeconds + Sum(deltas[..k]) >= seconds
    decreases |deltas|
  {
    if |deltas| > 0 {
      var next := Advance(s, amount, seconds, deltas[0]);
      FinishedOnceElapsed(next, amount, seconds, deltas[1..]);
      assert Sum(deltas[..1]) == deltas[0] by {
        assert deltas[..1][1..] == [];
      }
      forall k | 0 < k < |deltas|
        ensures Sum(deltas[..k + 1]) == deltas[0] + Sum(deltas[1..][..k])
      {
        assert deltas[..k + 1][1..] == deltas[1..][..k];
      }
      if next.finished || exists k :: 0 < k <= |deltas| - 1 && next.elapsedSeconds + Sum(deltas[1..][..k]) >= seconds {
        if !next.finished {
          var k :| 0 < k <= |deltas| - 1 && next.elapsedSeconds + Sum(deltas[1..][..k]) >= seconds;
          assert s.elapsedSeconds + Sum(deltas[..k + 1]) >= seconds;
        } else if !s.finished {
          assert s.elapsedSeconds + Sum(deltas[..1]) >= seconds;
        }
      } else {
        forall k | 0 < k <= |deltas|
          ensures s.elapsedSeconds + Sum(deltas[..k]) < seconds
        {
          if k > 1 {
            assert s.elapsedSeconds + Sum(deltas[..k]) == next.elapsedSeconds + Sum(deltas[1..][..k - 1]);
          }
        }
      }
    }
  }

  /**
   * When the last update lands exactly on `seconds`, the camera has turned by
   * exactly `amount` in all.
   */
  lemma FullTurnOnTime(amount: real, seconds: real, deltas: seq<real>)
    requires seconds != 0.0 && Sum(deltas) == seconds && |deltas| > 0
    ensures Turned(Start, amount, seconds, deltas) == amount
  {
    TurnedTelescopes(Start, amount, seconds, deltas);
    ElapsedAccumulates(Start, amount, seconds, deltas);
    RunUpdatesSnoc(Start, amount, seconds, deltas);
    var before := RunUpdates(Start, amount, seconds, deltas[..|deltas| - 1]);
    ProgressAtEnd(before, amount, seconds, deltas[|deltas| - 1]);
  }

  /** An update that lands exactly on `seconds` reports the whole amount. */
  lemma ProgressAtEnd(s: RotationState, amount: real, seconds: real, deltaSeconds: real)
    requires seconds != 0.0 && s.elapsedSeconds + deltaSeconds == seconds
    ensures Advance(s, amount, seconds, deltaSeconds).progress == amount
  {
    assert (s.elapsedSeconds + deltaSeconds) / seconds == 1.0;
    CurveEndpoints(0.250, 0.100, 0.250, 1.000);
  }

  /** Running a sequence is running all but its last update, then the last one. */
  lemma {:induction false} RunUpdatesSnoc(s: RotationState, amount: real, seconds: real, deltas: seq<real>)
    requires seconds != 0.0 && |deltas| > 0
    ensures RunUpdates(s, amount, seconds, deltas)
         == Advance(RunUpdates(s, amount, seconds, deltas[..|deltas| - 1]), amount, seconds, deltas[|deltas| - 1])
    decreases |deltas|
  {
    if |deltas| > 1 {
      RunUpdatesSnoc(Advance(s, amount, seconds, deltas[0]), amount, seconds, deltas[1..]);
      assert deltas[1..][..|deltas[1..]| - 1] == deltas[..|deltas| - 1][1..];
    }
  }

  /**
   * The last update is not clamped to the end of the curve: a single update
   * of 0.5 seconds on a 0.4-second process samples the curve at 1.25, and the
   * camera turns by 0.8046875 of the amount instead of all of it.
   */
  lemma OverlongFrameTurnsShort(amount: real)
    ensures Turned(Start, amount, CameraRotationSeconds, [0.5]) == 0.8046875 * amount
  {
    MenuCurveCoefficients();
    assert [0.5][1..] == [];
    assert SampleCurveY(MenuBezier, 0.5 / 0.4) == 0.8046875;
  }

  /**
   * A left rotation can turn the camera backwards: if its only update comes
   * 0.7 s after it started, the unclamped curve is read at 1.75, where it is
   * -1.2359375, so the camera turns by that much of a quarter of a half turn
   * in the negative direction.
   */
  lemma LeftRotationCanTurnBackwards()
    ensures Turned(Start, CameraRotationAmount, CameraRotationSeconds, [0.7]) == -1.2359375 * CameraRotationAmount
    ensures Turned(Start, CameraRotationAmount, CameraRotationSeconds, [0.7]) < 0.0
  {
    MenuCurveCoefficients();
    assert [0.7][1..] == [];
    assert SampleCurveY(MenuBezier, 0.7 / 0.4) == -1.2359375;
  }

  /** `new CameraRotationProcess(amount, seconds)` and its `update`. */
  class CameraRotationProcess {
    const amount: real
    const seconds: real
    var finished: bool
    var elapsedSeconds: real
    var rotAmountProgress: real

    function State(): RotationState
      reads this
    {
      RotationState(elapsedSeconds, rotAmountProgress, finished)
    }

    constructor (amount: real, seconds: real)
      ensures this.amount == amount && this.seconds == seconds && State() == Start
    {
      this.amount := amount;
      this.seconds := seconds;
      finished := false;
      elapsedSeconds := 0.0;
      rotAmountProgress := 0.0;
    }

    /** One frame: advance along the curve and turn the camera by the new progress minus the old. */
    method Update(deltaSeconds: real, simulation: Simulation.CubesSimulation)
      requires seconds != 0.0
      modifies this`elapsedSeconds, this`finished, this`rotAmountProgress, simulation`cameraRotation
      ensures State() == Advance(old(State()), amount, seconds, deltaSeconds)
      ensures simulation.cameraRotation == old(simulation.cameraRotation) + rotAmountProgress - old(rotAmountProgress)
    {
      elapsedSeconds := elapsedSeconds + deltaSeconds;
      if elapsedSeconds >= seconds {
        finished := true;
      }
      var age := elapsedSeconds / seconds;
      var progress := SampleCurveY(MenuBezier, age);
      var newRotAmountProgress := Lerp(0.0, amount, progress);
      simulation.cameraRotation := simulation.cameraRotation + (newRotAmountProgress - rotAmountProgress);
      rotAmountProgress := newRotAmountProgress;
    }
  }

  // ---------------------------------------------------------------------------
  // The process list
  // ---------------------------------------------------------------------------

  /** No process appears twice and each was made with the menu's duration. */
  predicate ProcessesValid(ps: seq<CameraRotationProcess>) {
    && (forall i, j :: 0 <= i < j < |ps| ==> ps[i] != ps[j])
    && (forall i :: 0 <= i < |ps| ==> ps[i].seconds == CameraRotationSeconds)
  }

  /** A new process on the list keeps it free of repeats. */
  lemma PushValid(ps: seq<CameraRotationProcess>, p: CameraRotationProcess)
    requires ProcessesValid(ps) && p !in ps && p.seconds == CameraRotationSeconds
    ensures ProcessesValid(ps + [p])
  {
    var qs := ps + [p];
    forall i, j | 0 <= i < j < |qs|
      ensures qs[i] != qs[j]
    {
      if j == |ps| {
        assert qs[i] == ps[i];
      }
    }
  }

  /** The processes not finished, in their order. */
  ghost function Unfinished(ps: seq<CameraRotationProcess>): seq<CameraRotationProcess>
    reads ps
  {
    if |ps| == 0 then []
    else (if ps[0].finished then [] else [ps[0]]) + Unfinished(ps[1..])
  }

  /** The progress all the processes report, added up. */
  ghost function ProgressSum(ps: seq<CameraRotationProcess>): real
    reads ps
  {
    if |ps| == 0 then 0.0 else ps[0].rotAmountProgress + ProgressSum(ps[1..])
  }

  /** A process on a list without repeats does not appear again later in it. */
  lemma NotLater(ps: seq<CameraRotationProcess>, i: nat)
    requires ProcessesValid(ps) && i < |ps|
    ensures ps[i] !in ps[i + 1..]
  {
  }

  /** A process stays on the list exactly when it is not finished. */
  lemma {:induction false} UnfinishedMembers(ps: seq<CameraRotationProcess>)
    ensures forall p :: p in Unfinished(ps) <==> p in ps && !p.finished
    decreases |ps|
  {
    if |ps| > 0 {
      UnfinishedMembers(ps[1..]);
      assert forall p :: p in ps <==> p == ps[0] || p in ps[1..];
    }
  }

  /** Removing the finished processes keeps the list free of repeats. */
  lemma {:induction false} UnfinishedValid(ps: seq<CameraRotationProcess>)
    requires ProcessesValid(ps)
    ensures ProcessesValid(Unfinished(ps))
    decreases |ps|
  {
    if |ps| > 0 {
      assert ProcessesValid(ps[1..]);
      UnfinishedValid(ps[1..]);
      UnfinishedMembers(ps[1..]);
      assert ps[0] !in ps[1..] by {
        forall k | 0 <= k < |ps[1..]|
          ensures ps[1..][k] != ps[0]
        {
          assert ps[1..][k] == ps[k + 1];
        }
      }
      var rest := Unfinished(ps[1..]);
      var head: seq<CameraRotationProcess> := if ps[0].finished then [] else [ps[0]];
      forall i | 0 <= i < |head + rest|
        ensures (head + rest)[i].seconds == CameraRotationSeconds
      {
        if i >= |head| {
          assert (head + rest)[i] == rest[i - |head|];
        }
      }
      forall i, j | 0 <= i < j < |head + rest|
        ensures (head + rest)[i] != (head + rest)[j]
      {
        if i >= |head| {
          assert (head + rest)[i] == rest[i - |head|];
          assert (head + rest)[j] == rest[j - |head|];
        } else {
          assert (head + rest)[j] == rest[j - 1];
          assert rest[j - 1] in rest;
        }
      }
    }
  }

  // ---------------------------------------------------------------------------
  // Padding, indices and placements
  // ---------------------------------------------------------------------------

  /** The menu elements after the duplication loop: the whole list is cloned until there are five. */
  function Padded(elements: seq<nat>): seq<nat>
    requires |elements| > 0
    decreases if |elements| >= MinimumNumberOfElements then 0 else MinimumNumberOfElements - |elements|
  {
    if |elements| >= MinimumNumberOfElements then elements else Padded(elements + elements)
  }

  /**
   * Padding leaves five or more elements alone; otherwise it ends with
   * between five and nine. The originals come first, and the list repeats
   * with the original length as its period, so every clone follows its
   * original in the same order.
   */
  lemma {:induction false} PaddedShape(elements: seq<nat>)
    requires |elements| > 0
    ensures var r := Padded(elements);
      && |r| >= MinimumNumberOfElements
      && (|elements| >= MinimumNumberOfElements ==> r == elements)
      && (|elements| < MinimumNumberOfElements ==> |r| < 2 * MinimumNumberOfElements)
      && r[..|elements|] == elements
      && (forall j :: |elements| <= j < |r| ==> r[j] == r[j - |elements|])
    decreases if |elements| >= MinimumNumberOfElements then 0 else MinimumNumberOfElements - |elements|
  {
    if |elements| < MinimumNumberOfElements {
      var doubled := elements + elements;
      PaddedShape(doubled);
      var r := Padded(elements);
      assert r == Padded(doubled);
      assert r[..|elements|] == elements by {
        assert r[..|elements|] == r[..|doubled|][..|elements|];
      }
      forall j | |elements| <= j < |r|
        ensures r[j] == r[j - |elements|]
      {
        HalfPeriod(r, |elements|, j);
      }
    }
  }

  /** A list with period 2n whose first 2n entries have period n has period n throughout. */
  lemma {:induction false} HalfPeriod(r: seq<nat>, n: nat, j: nat)
    requires 0 < n && 2 * n <= |r| && n <= j < |r|
    requires forall k :: n <= k < 2 * n ==> r[k] == r[k - n]
    requires forall k :: 2 * n <= k < |r| ==> r[k] == r[k - 2 * n]
    ensures r[j] == r[j - n]
    decreases j
  {
    if j >= 2 * n {
      HalfPeriod(r, n, j - n);
    }
  }

  /** `while (elementCount < 5)`: append a clone of every element, then count again. */
  method PadElements(elements: seq<nat>) returns (padded: seq<nat>)
    requires |elements| > 0
    ensures padded == Padded(elements)
  {
    padded := elements;
    var elementCount := |padded|;
    while elementCount < MinimumNumberOfElements
      invariant 0 < elementCount == |padded|
      invariant Padded(padded) == Padded(elements)
      decreases MinimumNumberOfElements - elementCount
    {
      ghost var before := padded;
      for i := 0 to elementCount
        invariant padded == before + before[..i]
      {
        padded := padded + [padded[i]];
      }
      assert padded == before + before;
      elementCount := |padded|;
    }
  }

  /** The indices are exactly 0 .. n-1, each once. */
  predicate IsPermutation(s: seq<int>) {
    && (forall i :: 0 <= i < |s| ==> 0 <= s[i] < |s|)
    && (forall i, j :: 0 <= i < j < |s| ==> s[i] != s[j])
    && (forall v :: 0 <= v < |s| ==> v in s)
  }

  /** `element.dataset.index = i` for each element in order. */
  method NumberElements(count: nat) returns (indices: seq<int>)
    ensures |indices| == count && IsPermutation(indices)
    ensures forall i :: 0 <= i < count ==> indices[i] == i
  {
    indices := [];
    for i := 0 to count
      invariant |indices| == i
      invariant forall k :: 0 <= k < i ==> indices[k] == k
    {
      indices := indices + [i];
    }
    forall v | 0 <= v < count
      ensures v in indices
    {
      assert indices[v] == v;
    }
  }

  /** `rotateElementsLeft`: one step down, 0 wrapping to the last position. */
  function LeftIndex(index: int, count: int): int {
    if index - 1 < 0 then count - 1 else index - 1
  }

  /** JavaScript's `%` on integers: the remainder takes the sign of the dividend. */
  function TruncatedRem(a: int, m: int): (r: int)
    requires m > 0
    ensures 0 <= a ==> 0 <= r < m
  {
    if a >= 0 then a % m else -((-a) % m)
  }

  /** `rotateElementsRight`: one step up, modulo the count. */
  function RightIndex(index: int, count: int): int
    requires count > 0
  {
    TruncatedRem(index + 1, count)
  }

  function RotatedLeft(s: seq<int>): (r: seq<int>)
    ensures |r| == |s|
  {
    seq(|s|, i requires 0 <= i < |s| => LeftIndex(s[i], |s|))
  }

  function RotatedRight(s: seq<int>): (r: seq<int>)
    requires |s| > 0
    ensures |r| == |s|
  {
    seq(|s|, i requires 0 <= i < |s| => RightIndex(s[i], |s|))
  }

  /** Within 0 .. count-1, the right rotation is a step up with count-1 wrapping to 0. */
  lemma RightIndexInRange(index: int, count: int)
    requires 0 <= index < count
    ensures RightIndex(index, count) == if index == count - 1 then 0 else index + 1
  {
    if index == count - 1 {
      assert (index + 1) % count == 0;
    } else {
      assert (index + 1) % count == index + 1;
    }
  }

  /** The left rotation keeps the indices a permutation of 0 .. n-1. */
  lemma RotatedLeftPermutation(s: seq<int>)
    requires IsPermutation(s) && |s| > 0
    ensures IsPermutation(RotatedLeft(s))
  {
    var n, l := |s|, RotatedLeft(s);
    forall v | 0 <= v < n
      ensures v in l
    {
      var up := if v == n - 1 then 0 else v + 1;
      assert up in s;
      var i :| 0 <= i < n && s[i] == up;
      assert l[i] == v;
    }
  }

  /** The right rotation keeps the indices a permutation of 0 .. n-1. */
  lemma RotatedRightPermutation(s: seq<int>)
    requires IsPermutation(s) && |s| > 0
    ensures IsPermutation(RotatedRight(s))
  {
    var n, r := |s|, RotatedRight(s);
    forall i | 0 <= i < n
      ensures r[i] == if s[i] == n - 1 then 0 else s[i] + 1
    {
      RightIndexInRange(s[i], n);
    }
    forall v | 0 <= v < n
      ensures v in r
    {
      var down := if v == 0 then n - 1 else v - 1;
      assert down in s;
      var k :| 0 <= k < n && s[k] == down;
      assert r[k] == v;
    }
  }

  /** Left then right, or right then left, puts every element back where it was. */
  lemma RotationsInverse(s: seq<int>)
    requires IsPermutation(s) && |s| > 0
    ensures RotatedRight(RotatedLeft(s)) == s
    ensures RotatedLeft(RotatedRight(s)) == s
  {
    var n, l, r := |s|, RotatedLeft(s), RotatedRight(s);
    forall i | 0 <= i < n
      ensures RotatedRight(l)[i] == s[i]
    {
      RightIndexInRange(l[i], n);
    }
    forall i | 0 <= i < n
      ensures RotatedLeft(r)[i] == s[i]
    {
      RightIndexInRange(s[i], n);
    }
  }

  /** The CSS classes of the carousel; `Unplaced` is an element with none of them. */
  datatype Placement = LeftOut | Left | Center | Right | RightOut | Unplaced

  /** `assignElementsClasses` for one element: a small table, the last index being left-out. */
  function PlacementFor(index: int, lastIndex: int): Placement {
    if index == 0 then Left
    else if index == 1 then Center
    else if index == 2 then Right
    else if index == 3 then RightOut
    else if index == lastIndex then LeftOut
    else Unplaced
  }

  function Placements(indices: seq<int>): (r: seq<Placement>)
    ensures |r| == |indices|
  {
    seq(|indices|, i requires 0 <= i < |indices| => PlacementFor(indices[i], |indices| - 1))
  }

  /** With five or more elements in a permutation, each of the five classes sits on exactly one element. */
  lemma EachPlacementOnce(s: seq<int>)
    requires IsPermutation(s) && |s| >= MinimumNumberOfElements
    ensures forall p :: p != Unplaced ==> p in Placements(s)
    ensures forall i, j :: 0 <= i < |s| && 0 <= j < |s| && Placements(s)[i] == Placements(s)[j] != Unplaced ==> i == j
  {
    var ps := Placements(s);
    forall p | p != Unplaced
      ensures p in ps
    {
      var v := match p
        case Left => 0
        case Center => 1
        case Right => 2
        case RightOut => 3
        case _ => |s| - 1;
      assert v in s;
      var i :| 0 <= i < |s| && s[i] == v;
      assert ps[i] == p;
    }
  }

  /** Clicking the left or the right element brings that element to the centre. */
  lemma ClickCentres(s: seq<int>, i: nat)
    requires IsPermutation(s) && |s| >= MinimumNumberOfElements && i < |s|
    ensures s[i] == 0 ==> Placements(RotatedRight(s))[i] == Center
    ensures s[i] == 2 ==> Placements(RotatedLeft(s))[i] == Center
  {
    if s[i] == 0 {
      assert (s[i] + 1) % |s| == 1;
    }
  }

  // ---------------------------------------------------------------------------
  // The menu
  // ---------------------------------------------------------------------------

  /** What a handler does: nothing, or one rotation. */
  datatype Turn = Stay | TurnLeft | TurnRight

  /** The click handler: the left element turns right, the right element turns left. */
  function ClickTurn(disabled: bool, index: int): Turn {
    if disabled then Stay
    else if index == 0 then TurnRight
    else if index == 2 then TurnLeft
    else Stay
  }

  /** The keydown handler: the left arrow turns right, the right arrow turns left. */
  function KeyTurn(disabled: bool, keyCode: int): Turn {
    if disabled then Stay
    else if keyCode == LeftArrowKey then TurnRight
    else if keyCode == RightArrowKey then TurnLeft
    else Stay
  }

  function IndicesAfter(indices: seq<int>, turn: Turn): seq<int>
    requires |indices| > 0
  {
    match turn
    case Stay => indices
    case TurnLeft => RotatedLeft(indices)
    case TurnRight => RotatedRight(indices)
  }

  /** A left rotation turns the camera by +amount, a right one by -amount. */
  function TurnAmount(turn: Turn): real {
    match turn
    case Stay => 0.0
    case TurnLeft => CameraRotationAmount
    case TurnRight => -CameraRotationAmount
  }

  /** The process list after a turn: unchanged, or one new process at the end. */
  ghost predicate Pushed(before: seq<CameraRotationProcess>, after: seq<CameraRotationProcess>, turn: Turn)
    reads after
  {
    if turn == Stay then after == before
    else
      && |after| == |before| + 1 && after[..|before|] == before
      && after[|before|].amount == TurnAmount(turn)
      && after[|before|].seconds == CameraRotationSeconds
      && after[|before|].State() == Start
  }

  /**
   * `addMenuMovement(container, simulation)`: the elements, their indices
   * and classes, the process list and the page-wide `transitionInProgress`
   * flag that gates the handlers on Firefox.
   */
  class MenuMovement {
    const simulation: Simulation.CubesSimulation
    const isFirefox: bool
    /** The menu elements; a clone has the same content as its original. */
    var elements: seq<nat>
    /** `dataset.index` of each element. */
    var indices: seq<int>
    /** The carousel class of each element. */
    var placements: seq<Placement>
    var processes: seq<CameraRotationProcess>
    var previousTimestamp: real
    var transitionInProgress: bool

    ghost predicate Valid()
      reads this
    {
      && |elements| >= MinimumNumberOfElements
      && |indices| == |elements| && IsPermutation(indices)
      && placements == Placements(indices)
      && ProcessesValid(processes)
    }

    /** `transitionDisabled()`. */
    function TransitionDisabled(): bool
      reads this
    {
      isFirefox && transitionInProgress
    }

    constructor (contents: seq<nat>, isFirefox: bool, simulation: Simulation.CubesSimulation)
      requires |contents| > 0
      ensures Valid() && this.simulation == simulation && this.isFirefox == isFirefox
      ensures elements == Padded(contents)
      ensures forall i :: 0 <= i < |indices| ==> indices[i] == i
      ensures processes == [] && previousTimestamp == 0.0 && !transitionInProgress
    {
      this.simulation := simulation;
      this.isFirefox := isFirefox;
      var padded := PadElements(contents);
      PaddedShape(contents);
      elements := padded;
      var numbered := NumberElements(|padded|);
      indices := numbered;
      placements := seq(|padded|, _ => Unplaced);
      processes := [];
      previousTimestamp := 0.0;
      transitionInProgress := false;
      new;
      AssignClasses();
    }

    /** `assignElementsClasses(elements)`. */
    method AssignClasses()
      requires |indices| == |elements| == |placements|
      modifies this`placements
      ensures placements == Placements(indices)
    {
      var lastIndex := |elements| - 1;
      for i := 0 to |elements|
        invariant |placements| == |elements|
        invariant forall k :: 0 <= k < i ==> placements[k] == PlacementFor(indices[k], lastIndex)
      {
        placements := placements[i := PlacementFor(indices[i], lastIndex)];
      }
    }

    /** `rotateElementsLeft(elements)`. */
    method RotateLeft()
      requires Valid()
      modifies this`indices, this`placements, this`processes
      ensures Valid() && indices == RotatedLeft(old(indices))
      ensures Pushed(old(processes), processes, TurnLeft) && fresh(processes[|old(processes)|])
    {
      var count := |elements|;
      for i := 0 to count
        modifies this`indices
        invariant |indices| == count
        invariant forall k :: 0 <= k < i ==> indices[k] == LeftIndex(old(indices)[k], count)
        invariant forall k :: i <= k < count ==> indices[k] == old(indices)[k]
      {
        indices := indices[i := LeftIndex(indices[i], count)];
      }
      assert indices == RotatedLeft(old(indices));
      RotatedLeftPermutation(old(indices));
      AssignClasses();
      var process := new CameraRotationProcess(CameraRotationAmount, CameraRotationSeconds);
      PushValid(processes, process);
      processes := processes + [process];
    }

    /** `rotateElementsRight(elements)`. */
    method RotateRight()
      requires Valid()
      modifies this`indices, this`placements, this`processes
      ensures Valid() && indices == RotatedRight(old(indices))
      ensures Pushed(old(processes), processes, TurnRight) && fresh(processes[|old(processes)|])
    {
      var count := |elements|;
      for i := 0 to count
        modifies this`indices
        invariant |indices| == count
        invariant forall k :: 0 <= k < i ==> indices[k] == RightIndex(old(indices)[k], count)
        invariant forall k :: i <= k < count ==> indices[k] == old(indices)[k]
      {
        indices := indices[i := RightIndex(indices[i], count)];
      }
      assert indices == RotatedRight(old(indices));
      RotatedRightPermutation(old(indices));
      AssignClasses();
      var process := new CameraRotationProcess(-CameraRotationAmount, CameraRotationSeconds);
      PushValid(processes, process);
      processes := processes + [process];
    }

    /** The click handler of the element at `position`. */
    method Click(position: nat)
      requires Valid() && position < |elements|
      modifies this`indices, this`placements, this`processes
      ensures Valid()
      ensures var turn := ClickTurn(old(TransitionDisabled()), old(indices[position]));
        indices == IndicesAfter(old(indices), turn) && Pushed(old(processes), processes, turn)
    {
      if TransitionDisabled() {
        return;
      }
      var index := indices[position];
      if index == 0 {
        RotateRight();
      } else if index == 2 {
        RotateLeft();
      }
    }

    /** The keydown handler. */
    method KeyDown(keyCode: int)
      requires Valid()
      modifies this`indices, this`placements, this`processes
      ensures Valid()
      ensures var turn := KeyTurn(old(TransitionDisabled()), keyCode);
        indices == IndicesAfter(old(indices), turn) && Pushed(old(processes), processes, turn)
    {
      if TransitionDisabled() {
        return;
      }
      if keyCode == LeftArrowKey {
        RotateRight();
      } else if keyCode == RightArrowKey {
        RotateLeft();
      }
    }

    /** The swipe handlers: a left swipe turns left, a right swipe turns right. */
    method Swipe(left: bool)
      requires Valid()
      modifies this`indices, this`placements, this`processes
      ensures Valid()
      ensures var turn := if old(TransitionDisabled()) then Stay else if left then TurnLeft else TurnRight;
        indices == IndicesAfter(old(indices), turn) && Pushed(old(processes), processes, turn)
    {
      if TransitionDisabled() {
        return;
      }
      if left {
        RotateLeft();
      } else {
        RotateRight();
      }
    }

    /**
     * `update(timestamp)`: every process advances by the frame time and the
     * finished ones leave the list; the page-wide flag records whether any
     * process is left.
     */
    method Update(timestamp: real)
      requires Valid()
      modifies this`previousTimestamp, this`processes, this`transitionInProgress
      modifies processes, simulation`cameraRotation
      ensures Valid() && previousTimestamp == timestamp
      ensures forall k :: 0 <= k < |old(processes)| ==>
        old(processes)[k].State()
          == Advance(old(processes[k].State()), old(processes)[k].amount, CameraRotationSeconds,
                     Simulation.DeltaSeconds(old(previousTimestamp), timestamp))
      ensures processes == Unfinished(old(processes))
      ensures transitionInProgress <==> |processes| > 0
      ensures simulation.cameraRotation
           == old(simulation.cameraRotation) + ProgressSum(old(processes)) - old(ProgressSum(processes))
    {
      var deltaSeconds := Simulation.DeltaSeconds(previousTimestamp, timestamp);
      previousTimestamp := timestamp;
      AdvanceProcesses(deltaSeconds);
      UnfinishedValid(old(processes));
      transitionInProgress := |processes| > 0;
    }

    /**
     * The loop of `update`: from the last process to the first, advance it,
     * turning the camera by its progress, and splice it out once finished.
     */
    method AdvanceProcesses(deltaSeconds: real)
      requires ProcessesValid(processes)
      modifies this`processes, processes, simulation`cameraRotation
      ensures forall k :: 0 <= k < |old(processes)| ==>
        old(processes)[k].State()
          == Advance(old(processes[k].State()), old(processes)[k].amount, CameraRotationSeconds, deltaSeconds)
      ensures processes == Unfinished(old(processes))
      ensures simulation.cameraRotation
           == old(simulation.cameraRotation) + ProgressSum(old(processes)) - old(ProgressSum(processes))
    {
      ghost var all := processes;
      var i := |processes| - 1;
      while i >= 0
        invariant -1 <= i < |all|
        invariant processes == all[..i + 1] + Unfinished(all[i + 1..])
        invariant forall k :: 0 <= k < |all| ==>
          all[k].State() == if k <= i then old(all[k].State())
                            else Advance(old(all[k].State()), all[k].amount, CameraRotationSeconds, deltaSeconds)
        invariant simulation.cameraRotation
               == old(simulation.cameraRotation) + ProgressSum(all[i + 1..]) - old(ProgressSum(all[i + 1..]))
        decreases i
      {
        AdvanceAt(i, deltaSeconds, all);
        i := i - 1;
      }
      assert all[0..] == all;
    }

    /** One turn of the loop of `update`, on the process at position `i`. */
    method AdvanceAt(i: nat, deltaSeconds: real, ghost all: seq<CameraRotationProcess>)
      requires i < |all| && ProcessesValid(all)
      requires processes == all[..i + 1] + Unfinished(all[i + 1..])
      modifies this`processes, all[i], simulation`cameraRotation
      ensures processes == all[..i] + Unfinished(all[i..])
      ensures all[i].State() == Advance(old(all[i].State()), all[i].amount, CameraRotationSeconds, deltaSeconds)
      ensures simulation.cameraRotation - ProgressSum(all[i..]) == old(simulation.cameraRotation - ProgressSum(all[i..]))
    {
      var process := processes[i];
      assert process == all[i];
      NotLater(all, i);
      ghost var keptLater := Unfinished(all[i + 1..]);
      ghost var sumLater := ProgressSum(all[i + 1..]);
      assert all[i..][1..] == all[i + 1..];
      process.Update(deltaSeconds, simulation);
      assert Unfinished(all[i + 1..]) == keptLater;
      assert ProgressSum(all[i + 1..]) == sumLater;
      assert all[..i + 1] == all[..i] + [all[i]];
      if process.finished {
        assert processes[..i] == all[..i] && processes[i + 1..] == keptLater;
        processes := processes[..i] + processes[i + 1..];
      }
    }
  }
}
