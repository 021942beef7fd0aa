/**
 * The per-frame driver of `CubesSimulation` (cubes-simulation.js): the clock
 * and camera-angle update of `render`, the background pass with its reduced
 * draw range, the god-rays post-process pass schedule and the render-target
 * sizes chosen on resize.
 *
 * The WebGL renderer is an append-only log of the calls made to it: each
 * `Pass` records the shader program drawn, the render targets bound as its
 * input textures, the target written, the renderer's clear colour and
 * whether the target is cleared first.
 */
module Simulation {
  import opened Numeric
  import opened CubesGeometry
  import Effects

  /** `this.clearColor`, 0x001B1B. */
  const ClearColor: int := 0x001B1B
  /** `occlusionClearColor`, 0x000000. */
  const OcclusionClearColor: int := 0x000000
  /** `lightColor`, the colour of the god-rays light disc and the point light. */
  const LightColor: Vec3 := Vec3(0.8, 0.6, 0.5)
  /** The background draws only the first 60 cubes of the shared buffer. */
  const BackgroundVertexCount: int := 36 * 60
  /** `blurriness`: the blur step is 3 pixels of the container. */
  const Blurriness: real := 3.0
  /** The camera turns at pi/20 radians per second. */
  const DefaultRotationSpeed: real := Pi * 0.05

  // ---------------------------------------------------------------------------
  // The frame clock
  // ---------------------------------------------------------------------------

  /** The values `render` carries from one frame to the next. */
  datatype FrameClock = FrameClock(previousTimestamp: real, totalSeconds: real, fAge: real, cameraRotation: real)

  /** `(timestamp - previousTimestamp) * 0.001`: milliseconds to seconds. */
  function DeltaSeconds(previousTimestamp: real, timestamp: real): real {
    (timestamp - previousTimestamp) * 0.001
  }

  /** The camera angle after turning at `speed` for `delta` seconds, wrapped by JavaScript's `%`. */
  function TurnCamera(rotation: real, speed: real, delta: real): (r: real)
    ensures -TwoPi < r < TwoPi
    ensures 0.0 <= rotation + speed * delta ==> 0.0 <= r
    ensures rotation + speed * delta <= 0.0 ==> r <= 0.0
    ensures -TwoPi < rotation + speed * delta < TwoPi ==> r == rotation + speed * delta
  {
    JsRem(rotation + speed * delta, TwoPi)
  }

  /** One frame's update of the clock. */
  function Tick(c: FrameClock, rotationSpeed: real, timestamp: real): FrameClock {
    var delta := DeltaSeconds(c.previousTimestamp, timestamp);
    FrameClock(timestamp, c.totalSeconds + delta, c.fAge + delta,
               TurnCamera(c.cameraRotation, rotationSpeed, delta))
  }

  /** The clock after a run of frames with the given timestamps. */
  function Run(c: FrameClock, rotationSpeed: real, timestamps: seq<real>): FrameClock {
    if |timestamps| == 0 then c
    else Tick(Run(c, rotationSpeed, timestamps[..|timestamps| - 1]), rotationSpeed, timestamps[|timestamps| - 1])
  }

  /**
   * Over any run of frames the elapsed time telescopes: `totalSeconds` and
   * `fAge` both grow by exactly the time between the first previous
   * timestamp and the last frame's, and the camera angle stays below 2 pi in
   * magnitude.
   */
  lemma {:induction false} RunTelescopes(c: FrameClock, rotationSpeed: real, timestamps: seq<real>)
    requires |timestamps| > 0
    ensures var last := timestamps[|timestamps| - 1];
      var r := Run(c, rotationSpeed, timestamps);
      && r.previousTimestamp == last
      && r.totalSeconds == c.totalSeconds + DeltaSeconds(c.previousTimestamp, last)
      && r.fAge == c.fAge + DeltaSeconds(c.previousTimestamp, last)
      && -TwoPi < r.cameraRotation < TwoPi
  {
    var n := |timestamps|;
    var prefix := timestamps[..n - 1];
    if n > 1 {
      RunTelescopes(c, rotationSpeed, prefix);
      assert prefix[|prefix| - 1] == timestamps[n - 2];
      var r := Run(c, rotationSpeed, prefix);
      assert r.previousTimestamp == timestamps[n - 2];
    }
  }

  // ---------------------------------------------------------------------------
  // The render log
  // ---------------------------------------------------------------------------

  datatype Target = Screen | DiffuseRT | GodRaysRT1 | GodRaysRT2

  /**
   * The shader programs drawn: the cube scene, the background scene, the
   * occlusion scene (black cubes and the light disc), and the four
   * full-screen passes of the post-process.
   */
  datatype Program = CubesDiffuse | BackgroundCubes | Occlusion | HorizontalBlur | VerticalBlur | GodRays | Additive

  /** The value of a material's texture uniform: unset, or a render target's texture. */
  datatype Binding = Unbound | Bound(target: Target)

  datatype RenderCall =
    | Clear(target: Target, clearColor: int)
    | Pass(program: Program, sources: seq<Binding>, dest: Target, clearColor: int, forceClear: bool, cubesRange: DrawRange)

  /** Drawing the cube buffer with a given range (the quad passes draw their own geometry whole). */
  predicate DrawsCubes(p: Program) {
    p == CubesDiffuse || p == BackgroundCubes || p == Occlusion
  }

  /** What `background.render(target)` logs. */
  function BackgroundPass(target: Target, clearColor: int): RenderCall {
    Pass(BackgroundCubes, [], target, clearColor, false, Range(0, BackgroundVertexCount))
  }

  /** The cube draw range once the background has run: the whole buffer again, or else untouched. */
  function RangeAfterBackground(background: bool, before: DrawRange, positionCount: nat): DrawRange {
    if background then Range(0, positionCount) else before
  }

  /** The frame without god rays: the cube scene to the screen, then the background over it. */
  function DirectFrame(background: bool, before: DrawRange, positionCount: nat): seq<RenderCall> {
    [Pass(CubesDiffuse, [], Screen, ClearColor, false, before)]
      + (if background then [BackgroundPass(Screen, ClearColor)] else [])
  }

  /** The cube image of a god-rays frame: diffuseRT cleared, the background, then the cubes. */
  function CubeImagePasses(background: bool, before: DrawRange, positionCount: nat): seq<RenderCall> {
    [Clear(DiffuseRT, ClearColor)]
      + (if background then [BackgroundPass(DiffuseRT, ClearColor)] else [])
      + [Pass(CubesDiffuse, [], DiffuseRT, ClearColor, false, RangeAfterBackground(background, before, positionCount))]
  }

  /** The occlusion scene drawn into RT1 over a black clear. */
  function OcclusionPass(range: DrawRange): RenderCall {
    Pass(Occlusion, [], GodRaysRT1, OcclusionClearColor, true, range)
  }

  /** Two rounds of horizontal then vertical blur, ping-ponging between RT1 and RT2. */
  const BlurPasses: seq<RenderCall> := [
    Pass(HorizontalBlur, [Bound(GodRaysRT1)], GodRaysRT2, ClearColor, false, Everything),
    Pass(VerticalBlur, [Bound(GodRaysRT2)], GodRaysRT1, ClearColor, false, Everything),
    Pass(HorizontalBlur, [Bound(GodRaysRT1)], GodRaysRT2, ClearColor, false, Everything),
    Pass(VerticalBlur, [Bound(GodRaysRT2)], GodRaysRT1, ClearColor, false, Everything)]

  /** The rays from the blurred occlusion image, then the cube image plus the rays on screen. */
  const CombinePasses: seq<RenderCall> := [
    Pass(GodRays, [Bound(GodRaysRT1)], GodRaysRT2, ClearColor, false, Everything),
    Pass(Additive, [Bound(DiffuseRT), Bound(GodRaysRT2)], Screen, ClearColor, false, Everything)]

  /** The post-process after the cube image. */
  function PostProcessPasses(range: DrawRange): seq<RenderCall> {
    [OcclusionPass(range)] + BlurPasses + CombinePasses
  }

  /** The frame with god rays, pass by pass. */
  function GodRaysFrame(background: bool, before: DrawRange, positionCount: nat): seq<RenderCall> {
    CubeImagePasses(background, before, positionCount)
      + PostProcessPasses(RangeAfterBackground(background, before, positionCount))
  }

  /** No pass samples the target it draws into. */
  predicate NoFeedback(log: seq<RenderCall>) {
    forall i :: 0 <= i < |log| && log[i].Pass? ==> Bound(log[i].dest) !in log[i].sources
  }

  /**
   * Exactly the occlusion passes run with the black clear colour, and they
   * clear; no explicit clear of a target uses black.
   */
  predicate BlackOnlyForOcclusion(log: seq<RenderCall>) {
    forall i :: 0 <= i < |log| ==>
      (log[i].clearColor == OcclusionClearColor <==> log[i].Pass? && log[i].program == Occlusion)
      && (log[i].Pass? && log[i].program == Occlusion ==> log[i].forceClear)
  }

  /** Each pass reads, as its first texture, the target the pass before it wrote. */
  ghost predicate Chained(log: seq<RenderCall>) {
    forall i, j :: 0 <= i < j < |log| && j == i + 1 ==>
      log[i].Pass? && log[j].Pass? && |log[j].sources| > 0 && log[j].sources[0] == Bound(log[i].dest)
  }

  lemma {:induction false} NoFeedbackAppend(a: seq<RenderCall>, b: seq<RenderCall>)
    requires NoFeedback(a) && NoFeedback(b)
    ensures NoFeedback(a + b)
  {
    forall i | 0 <= i < |a + b| && (a + b)[i].Pass?
      ensures Bound((a + b)[i].dest) !in (a + b)[i].sources
    {
      if i >= |a| {
        assert (a + b)[i] == b[i - |a|];
      }
    }
  }

  lemma {:induction false} BlackOnlyForOcclusionAppend(a: seq<RenderCall>, b: seq<RenderCall>)
    requires BlackOnlyForOcclusion(a) && BlackOnlyForOcclusion(b)
    ensures BlackOnlyForOcclusion(a + b)
  {
    forall i | 0 <= i < |a + b|
      ensures ((a + b)[i].clearColor == OcclusionClearColor <==> (a + b)[i].Pass? && (a + b)[i].program == Occlusion)
      ensures ((a + b)[i].Pass? && (a + b)[i].program == Occlusion ==> (a + b)[i].forceClear)
    {
      if i >= |a| {
        assert (a + b)[i] == b[i - |a|];
      }
    }
  }

  /**
   * The cube image: nothing sampled, diffuseRT cleared first with the normal
   * clear colour, nothing cleared to black, and its last
   * pass is the cube scene drawn into diffuseRT with the range the
   * background left behind.
   */
  lemma CubeImageSchedule(background: bool, before: DrawRange, positionCount: nat)
    ensures var f := CubeImagePasses(background, before, positionCount);
      && NoFeedback(f) && BlackOnlyForOcclusion(f)
      && f[0] == Clear(DiffuseRT, ClearColor)
      && f[|f| - 1] == Pass(CubesDiffuse, [], DiffuseRT, ClearColor, false,
                            RangeAfterBackground(background, before, positionCount))
  {
    var f := CubeImagePasses(background, before, positionCount);
    if background {
      assert f == [Clear(DiffuseRT, ClearColor), BackgroundPass(DiffuseRT, ClearColor), f[2]];
    } else {
      assert f == [Clear(DiffuseRT, ClearColor), f[1]];
    }
  }

  /**
   * The post-process: only the occlusion pass clears to black; from it on
   * the blurs ping-pong RT1 -> RT2 -> RT1 -> RT2 -> RT1, god rays go
   * RT1 -> RT2, no pass samples its own target, and the final pass draws
   * diffuseRT plus RT2 to the screen.
   */
  lemma PostProcessSchedule(range: DrawRange)
    ensures var f := PostProcessPasses(range);
      && |f| == 7
      && NoFeedback(f) && BlackOnlyForOcclusion(f) && Chained(f[..6])
      && f[0] == OcclusionPass(range)
      && f[5].dest == GodRaysRT2 && f[5].sources == [Bound(GodRaysRT1)]
      && f[6].dest == Screen && f[6].sources == [Bound(DiffuseRT), Bound(GodRaysRT2)]
  {
    var f := PostProcessPasses(range);
    assert f == [OcclusionPass(range), BlurPasses[0], BlurPasses[1], BlurPasses[2], BlurPasses[3],
                 CombinePasses[0], CombinePasses[1]];
  }

  /**
   * A whole god-rays frame: no pass samples its own target, and only the
   * occlusion pass runs with the black clear colour.
   */
  lemma GodRaysFrameSchedule(background: bool, before: DrawRange, positionCount: nat)
    ensures NoFeedback(GodRaysFrame(background, before, positionCount))
    ensures BlackOnlyForOcclusion(GodRaysFrame(background, before, positionCount))
  {
    var range := RangeAfterBackground(background, before, positionCount);
    CubeImageSchedule(background, before, positionCount);
    PostProcessSchedule(range);
    NoFeedbackAppend(CubeImagePasses(background, before, positionCount), PostProcessPasses(range));
    BlackOnlyForOcclusionAppend(CubeImagePasses(background, before, positionCount), PostProcessPasses(range));
  }

  /** Without god rays everything goes to the screen and nothing is sampled or cleared to black. */
  lemma DirectFrameSchedule(background: bool, before: DrawRange, positionCount: nat)
    ensures var f := DirectFrame(background, before, positionCount);
      && NoFeedback(f) && BlackOnlyForOcclusion(f)
      && (forall i :: 0 <= i < |f| ==> f[i].Pass? && f[i].dest == Screen && f[i].sources == [])
      && f[0].program == CubesDiffuse
  {
  }

  // ---------------------------------------------------------------------------
  // Render targets
  // ---------------------------------------------------------------------------

  datatype Size = Size(width: nat, height: nat)

  /** JavaScript's `x >> 1` on a container width: half, rounded down. */
  function Reduced(x: nat): (r: nat)
    ensures 2 * r <= x < 2 * r + 2
  {
    x / 2
  }

  /** `blurriness / offset`: JavaScript division, infinite for a zero-sized container. */
  datatype BlurStep = Step(value: real) | PositiveInfinity

  function BlurStepFor(pixels: nat): (s: BlurStep)
    ensures pixels == 0 <==> s == PositiveInfinity
    ensures pixels > 0 ==> s.value * (pixels as real) == Blurriness
  {
    if pixels == 0 then PositiveInfinity else Step(Blurriness / (pixels as real))
  }

  /** A container one pixel wide or less gets god-rays targets of width 0: there is no minimum size. */
  lemma NoMinimumTargetSize(x: nat)
    requires x <= 1
    ensures Reduced(x) == 0
  {
  }

  // ---------------------------------------------------------------------------
  // The simulation object
  // ---------------------------------------------------------------------------

  /**
   * The scene set-up: the cube buffer of `NumCubes` cubes. What the buffer
   * holds is stated on `CreateCubesGeometry`; here only its shape is kept.
   */
  method SetupScene(rng: RandomStream, m: Transcendentals) returns (g: BufferGeometry)
    requires rng.Valid() && rng.pos + 19 * NumCubes <= |rng.samples|
    modifies rng`pos
    ensures rng.Valid() && rng.pos == old(rng.pos) + 19 * NumCubes
    ensures fresh(g) && g.Valid() && g.numTriangles == 12 * NumCubes && g.drawRange == Everything
  {
    ghost var instances;
    g, instances := CreateCubesGeometry(NumCubes, rng, m);
  }

  /**
   * The random draws of the start-up, in their order: the camera angle, the
   * 19 samples of each of the `NumCubes` cubes, then the starting time.
   */
  method DrawScene(rng: RandomStream, m: Transcendentals) returns (rotation: real, g: BufferGeometry, seconds: real)
    requires rng.Valid() && rng.pos + 2 + 19 * NumCubes <= |rng.samples|
    modifies rng`pos
    ensures rng.Valid() && rng.pos == old(rng.pos) + 2 + 19 * NumCubes
    ensures fresh(g) && g.Valid() && g.numTriangles == 12 * NumCubes && g.drawRange == Everything
    ensures rotation == rng.samples[old(rng.pos)] * TwoPi
    ensures seconds == rng.samples[old(rng.pos) + 1 + 19 * NumCubes] * 60.0
  {
    var u := rng.Next();
    rotation := u * TwoPi;
    g := SetupScene(rng, m);
    var v := rng.Next();
    seconds := v * 60.0;
  }

  class CubesSimulation {
    /** The cube buffer, shared by the cube, black-cube and background meshes. */
    const geometry: BufferGeometry

    var previousTimestamp: real
    var totalSeconds: real
    var cameraRotation: real
    var rotationSpeed: real
    var godRaysEnabled: bool
    var backgroundEnabled: bool

    /** The renderer: its clear colour and everything drawn so far. */
    var rendererClearColor: int
    var log: seq<RenderCall>

    /** Uniform values of the materials. */
    var fAge: real                // cubesDiffuse.fAge
    var blackAge: real            // cubesBlack.fAge
    var backgroundAge: real       // background.fAge
    var pointLightPosition: Vec3  // cubesDiffuse.v3PointLightPosition
    var pointLightColor: Vec3     // cubesDiffuse.cPointLightColor
    var lightDiscY: real          // godRays.lightMesh.position.y
    var lightUv: Vec2             // godRays.v2LightPosition
    var horizontalBlurSource: Binding
    var verticalBlurSource: Binding
    var godRaysSource: Binding
    var additiveDiffuse: Binding
    var additiveAdd: Binding
    var fH: BlurStep
    var fV: BlurStep

    /** The sizes of diffuseRT, godRaysRT1 and godRaysRT2. */
    var diffuseSize: Size
    var godRaysSize1: Size
    var godRaysSize2: Size

    ghost predicate Valid()
      reads this, geometry
    {
      rendererClearColor == ClearColor && geometry.Valid()
    }

    function Clock(): FrameClock
      reads this
    {
      FrameClock(previousTimestamp, totalSeconds, fAge, cameraRotation)
    }

    /**
     * The constructor: one sample for the camera angle, the cube buffer, one
     * sample for the starting time, then the first `godRays.resize`.
     */
    constructor (width: nat, height: nat, rng: RandomStream, m: Transcendentals)
      requires rng.Valid() && rng.pos + 2 + 19 * NumCubes <= |rng.samples|
      modifies rng`pos
      ensures Valid() && fresh(geometry) && log == []
      ensures rng.Valid() && rng.pos == old(rng.pos) + 2 + 19 * NumCubes
      ensures geometry.numTriangles == 12 * NumCubes && geometry.drawRange == Everything
      ensures cameraRotation == rng.samples[old(rng.pos)] * TwoPi
      ensures totalSeconds == rng.samples[old(rng.pos) + 1 + 19 * NumCubes] * 60.0
      ensures previousTimestamp == 0.0 && fAge == Effects.DefaultAge && rotationSpeed == DefaultRotationSpeed
      ensures godRaysEnabled && backgroundEnabled
      ensures diffuseSize == Size(width, height)
      ensures godRaysSize1 == Size(Reduced(width), Reduced(height)) && godRaysSize2 == godRaysSize1
      ensures fH == BlurStepFor(width) && fV == BlurStepFor(height)
    {
      var rotation, g, seconds := DrawScene(rng, m);
      cameraRotation := rotation;
      rotationSpeed := DefaultRotationSpeed;
      geometry := g;
      totalSeconds := seconds;
      previousTimestamp := 0.0;
      godRaysEnabled := true;
      backgroundEnabled := true;
      rendererClearColor := ClearColor;
      log := [];
      fAge := Effects.DefaultAge;
      blackAge := Effects.DefaultAge;
      backgroundAge := Effects.DefaultAge;
      pointLightPosition := Effects.DefaultPointLightPosition;
      pointLightColor := Effects.DefaultPointLightColor;
      lightDiscY := 0.0;
      lightUv := Effects.DefaultGodRays.lightPosition;
      horizontalBlurSource, verticalBlurSource, godRaysSource := Unbound, Unbound, Unbound;
      additiveDiffuse, additiveAdd := Unbound, Unbound;
      fH := BlurStepFor(width);
      fV := BlurStepFor(height);
      diffuseSize := Size(width, height);
      godRaysSize1 := Size(Reduced(width), Reduced(height));
      godRaysSize2 := Size(Reduced(width), Reduced(height));
    }

    /**
     * `godRays.resize`: the blur steps follow the container's full size, and
     * the targets are rebuilt at full size (diffuseRT) and half size (the two
     * god-rays targets). Nothing else changes.
     */
    method Resize(width: nat, height: nat)
      modifies this`fH, this`fV, this`diffuseSize, this`godRaysSize1, this`godRaysSize2
      ensures fH == BlurStepFor(width) && fV == BlurStepFor(height)
      ensures diffuseSize == Size(width, height)
      ensures godRaysSize1 == Size(Reduced(width), Reduced(height)) && godRaysSize2 == godRaysSize1
    {
      fH := BlurStepFor(width);
      fV := BlurStepFor(height);
      diffuseSize := Size(width, height);
      godRaysSize1 := Size(Reduced(width), Reduced(height));
      godRaysSize2 := Size(Reduced(width), Reduced(height));
    }

    /** The textures a program samples, as its uniforms are bound now. */
    function Sources(p: Program): seq<Binding>
      reads this
    {
      match p
      case HorizontalBlur => [horizontalBlurSource]
      case VerticalBlur => [verticalBlurSource]
      case GodRays => [godRaysSource]
      case Additive => [additiveDiffuse, additiveAdd]
      case _ => []
    }

    /** The texture uniforms as the post-process of a god-rays frame leaves them bound. */
    predicate PostProcessBound()
      reads this
    {
      && horizontalBlurSource == Bound(GodRaysRT1) && verticalBlurSource == Bound(GodRaysRT2)
      && godRaysSource == Bound(GodRaysRT1)
      && additiveDiffuse == Bound(DiffuseRT) && additiveAdd == Bound(GodRaysRT2)
    }

    /** `renderer.render(scene, camera, dest, forceClear)`. */
    method Draw(p: Program, dest: Target, forceClear: bool)
      modifies this`log
      ensures log == old(log) + [Pass(p, Sources(p), dest, rendererClearColor, forceClear,
                                      if DrawsCubes(p) then geometry.drawRange else Everything)]
    {
      log := log + [Pass(p, Sources(p), dest, rendererClearColor, forceClear,
                         if DrawsCubes(p) then geometry.drawRange else Everything)];
    }

    /**
     * `background.render(target)`: the first 60 cubes only, after which the
     * draw range covers the whole buffer again.
     */
    method BackgroundRender(target: Target)
      requires Valid()
      modifies this`log, this`backgroundAge, geometry`drawRange
      ensures Valid() && backgroundAge == fAge
      ensures log == old(log) + [BackgroundPass(target, ClearColor)]
      ensures geometry.drawRange == Range(0, geometry.PositionCount())
    {
      backgroundAge := fAge;
      geometry.drawRange := Range(0, BackgroundVertexCount);
      Draw(BackgroundCubes, target, false);
      geometry.drawRange := Range(0, geometry.PositionCount());
    }

    /**
     * `godRays.render(totalSeconds)`: move the light disc, project it to
     * texture coordinates, then run the passes of `GodRaysFrame`.
     * `project` is the camera's projection to normalised device coordinates.
     */
    method GodRaysRender(seconds: real, m: Transcendentals, project: Vec3 -> Vec3)
      requires Valid()
      modifies this`log, this`backgroundAge, this`blackAge, this`rendererClearColor, geometry`drawRange
      modifies this`lightDiscY, this`pointLightPosition, this`pointLightColor, this`lightUv
      modifies this`horizontalBlurSource, this`verticalBlurSource, this`godRaysSource
      modifies this`additiveDiffuse, this`additiveAdd
      ensures Valid()
      ensures log == old(log) + GodRaysFrame(backgroundEnabled, old(geometry.drawRange), geometry.PositionCount())
      ensures geometry.drawRange == RangeAfterBackground(backgroundEnabled, old(geometry.drawRange), geometry.PositionCount())
      ensures blackAge == fAge && backgroundAge == if backgroundEnabled then fAge else old(backgroundAge)
      ensures lightDiscY == m.sin(seconds * 0.3) * 50.0
      ensures pointLightPosition == old(pointLightPosition).(y := lightDiscY) && pointLightColor == LightColor
      ensures var p := project(Vec3(0.0, lightDiscY, 0.0));
        lightUv == Vec2((p.x + 1.0) * 0.5, (p.y + 1.0) * 0.5)
      ensures PostProcessBound()
    {
      MoveLight(seconds, m, project);
      RenderPasses();
    }

    /** The light-disc part of `godRays.render`: height, point light and its screen position. */
    method MoveLight(seconds: real, m: Transcendentals, project: Vec3 -> Vec3)
      modifies this`blackAge, this`lightDiscY, this`pointLightPosition, this`pointLightColor, this`lightUv
      ensures blackAge == fAge
      ensures lightDiscY == m.sin(seconds * 0.3) * 50.0
      ensures pointLightPosition == old(pointLightPosition).(y := lightDiscY) && pointLightColor == LightColor
      ensures var p := project(Vec3(0.0, lightDiscY, 0.0));
        lightUv == Vec2((p.x + 1.0) * 0.5, (p.y + 1.0) * 0.5)
    {
      blackAge := fAge;
      lightDiscY := m.sin(seconds * 0.3) * 50.0;
      pointLightPosition := pointLightPosition.(y := lightDiscY);
      pointLightColor := LightColor;
      var p := project(Vec3(0.0, lightDiscY, 0.0));
      lightUv := Vec2((p.x + 1.0) * 0.5, (p.y + 1.0) * 0.5);
    }

    /** The passes of `godRays.render`, in their order. */
    method RenderPasses()
      requires Valid()
      modifies this`log, this`backgroundAge, this`rendererClearColor, geometry`drawRange
      modifies this`horizontalBlurSource, this`verticalBlurSource, this`godRaysSource
      modifies this`additiveDiffuse, this`additiveAdd
      ensures Valid()
      ensures log == old(log) + GodRaysFrame(backgroundEnabled, old(geometry.drawRange), geometry.PositionCount())
      ensures geometry.drawRange == RangeAfterBackground(backgroundEnabled, old(geometry.drawRange), geometry.PositionCount())
      ensures backgroundAge == if backgroundEnabled then fAge else old(backgroundAge)
      ensures PostProcessBound()
    {
      ghost var log0 := log;
      RenderCubeImage();
      ghost var log1 := log;
      RenderOcclusion();
      Blur();
      RaysAndCombine();
      assert log == log1 + PostProcessPasses(geometry.drawRange);
      assert log == log0 + GodRaysFrame(backgroundEnabled, old(geometry.drawRange), geometry.PositionCount());
    }

    /** The cube image into diffuseRT: clear it, draw the background if enabled, then the cubes. */
    method RenderCubeImage()
      requires Valid()
      modifies this`log, this`backgroundAge, geometry`drawRange
      ensures Valid()
      ensures log == old(log) + CubeImagePasses(backgroundEnabled, old(geometry.drawRange), geometry.PositionCount())
      ensures geometry.drawRange == RangeAfterBackground(backgroundEnabled, old(geometry.drawRange), geometry.PositionCount())
      ensures backgroundAge == if backgroundEnabled then fAge else old(backgroundAge)
    {
      log := log + [Clear(DiffuseRT, rendererClearColor)];
      if backgroundEnabled {
        BackgroundRender(DiffuseRT);
      }
      Draw(CubesDiffuse, DiffuseRT, false);
    }

    /** The occlusion scene into RT1 over a black clear; the clear colour is put back afterwards. */
    method RenderOcclusion()
      requires Valid()
      modifies this`log, this`rendererClearColor
      ensures Valid()
      ensures log == old(log) + [OcclusionPass(geometry.drawRange)]
    {
      rendererClearColor := OcclusionClearColor;
      Draw(Occlusion, GodRaysRT1, true);
      rendererClearColor := ClearColor;
    }

    /** Horizontal, vertical, horizontal, vertical: each pass samples the target the last one wrote. */
    method Blur()
      requires Valid()
      modifies this`log, this`horizontalBlurSource, this`verticalBlurSource
      ensures log == old(log) + BlurPasses
      ensures horizontalBlurSource == Bound(GodRaysRT1) && verticalBlurSource == Bound(GodRaysRT2)
    {
      horizontalBlurSource := Bound(GodRaysRT1);
      Draw(HorizontalBlur, GodRaysRT2, false);
      verticalBlurSource := Bound(GodRaysRT2);
      Draw(VerticalBlur, GodRaysRT1, false);
      horizontalBlurSource := Bound(GodRaysRT1);
      Draw(HorizontalBlur, GodRaysRT2, false);
      verticalBlurSource := Bound(GodRaysRT2);
      Draw(VerticalBlur, GodRaysRT1, false);
    }

    /** The rays from RT1 into RT2, then the cube image plus the rays onto the screen. */
    method RaysAndCombine()
      requires Valid()
      modifies this`log, this`godRaysSource, this`additiveDiffuse, this`additiveAdd
      ensures log == old(log) + CombinePasses
      ensures godRaysSource == Bound(GodRaysRT1)
      ensures additiveDiffuse == Bound(DiffuseRT) && additiveAdd == Bound(GodRaysRT2)
    {
      godRaysSource := Bound(GodRaysRT1);
      Draw(GodRays, GodRaysRT2, false);
      additiveDiffuse := Bound(DiffuseRT);
      additiveAdd := Bound(GodRaysRT2);
      Draw(Additive, Screen, false);
    }

    /**
     * `render(timestamp)`: advance the clock, turn the camera, then draw the
     * frame with or without god rays. Only the god-rays frame moves the light
     * and rebinds the post-process textures; the speed, the switches, the
     * blur steps and the target sizes never change here.
     */
    method Render(timestamp: real, m: Transcendentals, project: Vec3 -> Vec3)
      requires Valid()
      modifies this`previousTimestamp, this`totalSeconds, this`fAge, this`cameraRotation
      modifies this`log, this`backgroundAge, this`blackAge, this`rendererClearColor, geometry`drawRange
      modifies this`lightDiscY, this`pointLightPosition, this`pointLightColor, this`lightUv
      modifies this`horizontalBlurSource, this`verticalBlurSource, this`godRaysSource
      modifies this`additiveDiffuse, this`additiveAdd
      ensures Valid()
      ensures Clock() == Tick(old(Clock()), rotationSpeed, timestamp)
      ensures godRaysEnabled ==>
        log == old(log) + GodRaysFrame(backgroundEnabled, old(geometry.drawRange), geometry.PositionCount())
      ensures !godRaysEnabled ==>
        log == old(log) + DirectFrame(backgroundEnabled, old(geometry.drawRange), geometry.PositionCount())
      ensures geometry.drawRange == RangeAfterBackground(backgroundEnabled, old(geometry.drawRange), geometry.PositionCount())
      ensures backgroundAge == if backgroundEnabled then fAge else old(backgroundAge)
      ensures godRaysEnabled ==>
        && blackAge == fAge
        && lightDiscY == m.sin(totalSeconds * 0.3) * 50.0
        && pointLightPosition == old(pointLightPosition).(y := lightDiscY) && pointLightColor == LightColor
        && (var p := project(Vec3(0.0, lightDiscY, 0.0));
            lightUv == Vec2((p.x + 1.0) * 0.5, (p.y + 1.0) * 0.5))
        && PostProcessBound()
      ensures !godRaysEnabled ==>
        && blackAge == old(blackAge) && lightDiscY == old(lightDiscY)
        && pointLightPosition == old(pointLightPosition) && pointLightColor == old(pointLightColor)
        && lightUv == old(lightUv)
        && horizontalBlurSource == old(horizontalBlurSource) && verticalBlurSource == old(verticalBlurSource)
        && godRaysSource == old(godRaysSource)
        && additiveDiffuse == old(additiveDiffuse) && additiveAdd == old(additiveAdd)
    {
      AdvanceClock(timestamp);
      if godRaysEnabled {
        GodRaysRender(totalSeconds, m, project);
      } else {
        Draw(CubesDiffuse, Screen, false);
        if backgroundEnabled {
          BackgroundRender(Screen);
        }
      }
    }

    /** The clock part of `render`: elapsed seconds, age and camera angle. */
    method AdvanceClock(timestamp: real)
      modifies this`previousTimestamp, this`totalSeconds, this`fAge, this`cameraRotation
      ensures Clock() == Tick(old(Clock()), rotationSpeed, timestamp)
    {
      var deltaSeconds := DeltaSeconds(previousTimestamp, timestamp);
      previousTimestamp := timestamp;
      totalSeconds := totalSeconds + deltaSeconds;
      fAge := fAge + deltaSeconds;
      cameraRotation := TurnCamera(cameraRotation, rotationSpeed, deltaSeconds);
    }
  }

  /** On a screen-space light position inside the view, the god-rays light lands in [0, 1]^2. */
  lemma LightUvInUnitSquare(p: Vec3)
    requires -1.0 <= p.x <= 1.0 && -1.0 <= p.y <= 1.0
    ensures 0.0 <= (p.x + 1.0) * 0.5 <= 1.0 && 0.0 <= (p.y + 1.0) * 0.5 <= 1.0
  {
  }

  /** The light disc bobs between heights -50 and 50. */
  lemma LightDiscHeight(m: Transcendentals, seconds: real)
    requires Pythagorean(m)
    ensures -50.0 <= m.sin(seconds * 0.3) * 50.0 <= 50.0
  {
    var s := m.sin(seconds * 0.3);
    var c := m.cos(seconds * 0.3);
    assert s * s + c * c == 1.0;
    SquareNonNegative(c);
    if s > 1.0 {
      SquareMonotone(1.0, s);
    } else if s < -1.0 {
      SquareMonotone(1.0, -s);
    }
  }
}
