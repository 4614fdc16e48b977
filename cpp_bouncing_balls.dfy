/** `bounce::BouncingBalls` (bouncing_balls.cpp): the C++ dataset
    generator. For each sequence it points the simulator's writer at a
    numbered file, builds the scene (an occlusion and balls aimed across
    it, or free balls), runs `sequence_len` steps and resets, which saves
    the file.

    The random draws of sequence i are given: `choose(i)` for the choice of
    the ball count and `draw(i, b)` for ball b. Box2D's step is the
    simulator's `physics`. */
module CppGen {
  import opened Common
  import opened Wrappers
  import opened World
  import opened NpyWriterModel
  import opened Spawn
  import GenerateData
  import CppRender
  import CppSim
  import PySim

  const TRAIN: string := "train"
  const TEST: string := "test"
  const VALID: string := "validation"
  const FILE_NAME: string := "bouncing_balls_"
  const FILE_EXTENSION: string := ".npy"
  const FPS: int := 60
  /** The simulator's time step at 60 fps: 1000 / 60 ms. */
  const STEP_MS: int := 16

  /** `BouncingBalls::Config`. */
  datatype Config = Config(sequences: int, sequenceLen: int, occlusion: bool, balls: seq<int>,
                           dataDir: string, ballsRadius: real, meanVel: real, dof: nat,
                           screenHeight: nat, screenWidth: nat, channelsOrdering: Channels,
                           saveMetadata: bool)

  /** The `Config` constructor: every argument is kept, except that an
      empty `data_dir` becomes "data". */
  function MakeConfig(sequences: int, sequenceLen: int, occlusion: bool, balls: seq<int>,
                      dataDir: string, ballsRadius: nat, meanVel: real, dof: nat,
                      screenHeight: nat, screenWidth: nat, channelsOrdering: Channels,
                      saveMetadata: bool): (c: Config)
    ensures c.dataDir != "" && (dataDir != "" ==> c.dataDir == dataDir)
    ensures c.(dataDir := dataDir) == Config(sequences, sequenceLen, occlusion, balls, dataDir,
      ballsRadius as real, meanVel, dof, screenHeight, screenWidth, channelsOrdering, saveMetadata)
  {
    Config(sequences, sequenceLen, occlusion, balls, if dataDir == "" then "data" else dataDir,
           ballsRadius as real, meanVel, dof, screenHeight, screenWidth, channelsOrdering, saveMetadata)
  }

  /** `Config()` with every default: 48 x 64 pixels, channels last, dof 2. */
  function DefaultConfig(): (c: Config)
    ensures c.dataDir == "data" && c.balls == [] && c.dof == 2
    ensures c.screenHeight == 48 && c.screenWidth == 64 && c.channelsOrdering == Last
  {
    MakeConfig(0, 0, false, [], "", 5, 5000.0, 2, 48, 64, Last, true)
  }

  /** `int(rand_uniform() * n)`: an index into a list of n entries. */
  function Choice(u: real, n: nat): (k: nat)
    requires 0.0 <= u < 1.0 && n > 0
    ensures k < n
    ensures k as real <= u * n as real < k as real + 1.0
  {
    var x := u * n as real;
    PySim.ScaleBelow(u, n as real);
    assert 0.0 <= x < n as real;
    Trunc(x)
  }

  /** Every draw of `rand_uniform()` is in [0, 1). */
  ghost predicate Uniform(choose: nat -> real)
  {
    forall i: nat :: 0.0 <= choose(i) < 1.0
  }

  /** The number of balls a sequence gets: `balls[choice]`. */
  function BallsIn(config: Config, u: real): int
    requires 0.0 <= u < 1.0 && |config.balls| > 0
  {
    config.balls[Choice(u, |config.balls|)]
  }

  /** A sequence's ball count is one of the configured counts. */
  lemma BallsInListed(config: Config, u: real)
    requires 0.0 <= u < 1.0 && |config.balls| > 0
    ensures BallsIn(config, u) in config.balls
  {
  }

  // ---------------------------------------------------------------------
  // setup_environment_
  // ---------------------------------------------------------------------

  /** The circle one pass of the ball loop adds for draw d, on a renderer
      of rw x rh pixels: with the occlusion, one at
      `random_pos_outside_rectangle(screen_height, screen_width, rectangle)`
      moving with the drawn speed along the drawn direction (whose
      `assert`s fail on an empty screen); otherwise, for dof 1, one at
      `get_rand_pos_px()` moving along x with `2 * 5000 * u - 5000`, for
      dof 2 the `add_rand_circle` one, and for any other dof none. A failed
      `assert` is the error AssertionError here; the program itself aborts
      there, or goes on when built with NDEBUG. */
  function CppBall(config: Config, rw: nat, rh: nat, d: GenerateData.BallDraw): (r: Result<Option<Body>, Failure>)
    ensures r.Err? <==> config.occlusion && (config.screenHeight == 0 || config.screenWidth == 0)
    ensures r.Err? ==> r.error == AssertionError
    ensures r.Ok? ==> (r.value.Some? <==> AddsBalls(config))
  {
    if config.occlusion then
      match CppRandomPosOutsideRectangle(config.screenHeight, config.screenWidth, OCCLUSION, d.u1, d.u2)
      case Err(e) => Err(e)
      case Ok(p) => Ok(Some(CppSim.CppCircleBody(rh, Vec(p.0, p.1), GenerateData.Scaled(d), 5.0)))
    else if config.dof == 1 then
      Ok(Some(CppSim.CppCircleBody(rh, PySim.RandPos(rw, rh, d.u1, d.u2),
                                   Vec(2.0 * 5000.0 * d.u3 - 5000.0, 0.0), 5.0)))
    else if config.dof == 2 then
      Ok(Some(CppSim.CppCircleBody(rh, PySim.RandPos(rw, rh, d.u1, d.u2), GenerateData.Scaled(d), 5.0)))
    else Ok(None)
  }

  /** Whether the ball loop adds a circle per ball. */
  predicate AddsBalls(config: Config)
  {
    config.occlusion || config.dof == 1 || config.dof == 2
  }

  /** The world after the first j passes of the ball loop of sequence i,
      or the failure that ends it. */
  function BallsFrom(config: Config, rw: nat, rh: nat, draw: GenerateData.Draws, i: nat, base: seq<Body>, j: nat):
    Result<seq<Body>, Failure>
  {
    if j == 0 then Ok(base)
    else
      match BallsFrom(config, rw, rh, draw, i, base, j - 1)
      case Err(e) => Err(e)
      case Ok(w) =>
        match CppBall(config, rw, rh, draw(i, j - 1))
        case Err(e) => Err(e)
        case Ok(None) => Ok(w)
        case Ok(Some(b)) => Ok(CreateBody(w, b))
  }

  /** The occlusion body, if the configuration has one, on top of `base`. */
  function WithOcclusion(config: Config, rh: nat, base: seq<Body>): seq<Body>
  {
    if config.occlusion then CreateBody(base, CppSim.CppOcclusionBody(rh, OCCLUSION)) else base
  }

  /** The world `setup_environment_` builds on `base` for sequence i. */
  function SampleStart(config: Config, rw: nat, rh: nat, draw: GenerateData.Draws, i: nat, u: real, base: seq<Body>):
    Result<seq<Body>, Failure>
    requires 0.0 <= u < 1.0 && |config.balls| > 0
  {
    BallsFrom(config, rw, rh, draw, i, WithOcclusion(config, rh, base), GenerateData.Count(BallsIn(config, u)))
  }

  /** The ball loop fails iff it runs at least once and the occlusion's
      screen is empty; otherwise it adds one body per ball when the
      configuration adds balls, and none when it does not. */
  lemma {:induction false} BallsFromShape(config: Config, rw: nat, rh: nat, draw: GenerateData.Draws, i: nat,
                                          base: seq<Body>, j: nat)
    ensures var r := BallsFrom(config, rw, rh, draw, i, base, j);
      (r.Err? <==> j > 0 && config.occlusion && (config.screenHeight == 0 || config.screenWidth == 0)) &&
      (r.Err? ==> r.error == AssertionError) &&
      (r.Ok? ==> |r.value| == |base| + (if AddsBalls(config) then j else 0) &&
                 r.value[|r.value| - |base|..] == base)
  {
    if j > 0 {
      BallsFromShape(config, rw, rh, draw, i, base, j - 1);
      var r := BallsFrom(config, rw, rh, draw, i, base, j - 1);
      if r.Ok? {
        var c := CppBall(config, rw, rh, draw(i, j - 1));
        if c.Ok? && c.value.Some? {
          var w := CreateBody(r.value, c.value.value);
          assert w[|w| - |base|..] == r.value[|r.value| - |base|..];
        }
      }
    }
  }

  /** A sequence's world fails to build iff it has the occlusion, at least
      one ball and an empty configured screen. Otherwise it holds the base,
      the occlusion iff configured and one circle per ball. */
  lemma SampleStartShape(config: Config, rw: nat, rh: nat, draw: GenerateData.Draws, i: nat, u: real, base: seq<Body>)
    requires 0.0 <= u < 1.0 && |config.balls| > 0
    ensures var r := SampleStart(config, rw, rh, draw, i, u, base);
      var n := GenerateData.Count(BallsIn(config, u));
      (r.Err? <==> config.occlusion && n > 0 && (config.screenHeight == 0 || config.screenWidth == 0)) &&
      (r.Ok? ==> |r.value| == |base| + (if config.occlusion then 1 else 0) + (if AddsBalls(config) then n else 0) &&
                 r.value[|r.value| - |base|..] == base)
  {
    var w := WithOcclusion(config, rh, base);
    BallsFromShape(config, rw, rh, draw, i, w, GenerateData.Count(BallsIn(config, u)));
    var r := SampleStart(config, rw, rh, draw, i, u, base);
    if r.Ok? && config.occlusion {
      assert r.value[|r.value| - |base|..] == w[|w| - |base|..];
    }
  }

  // ---------------------------------------------------------------------
  // Which runs fail
  // ---------------------------------------------------------------------

  /** Adding a body keeps an undrawable world undrawable. */
  lemma UndrawableStays(bodies: seq<Body>, b: Body)
    requires CppRender.SomeUndrawable(bodies)
    ensures CppRender.SomeUndrawable(CreateBody(bodies, b))
  {
    var k :| 0 <= k < |bodies| && bodies[k].data.visible && CppRender.HasUndrawable(bodies[k].fixtures);
    assert CreateBody(bodies, b)[k + 1] == bodies[k];
  }

  /** Adding a circle keeps a drawable world drawable. */
  lemma CircleKeepsDrawable(bodies: seq<Body>, heightPx: int, pos: Vec, vel: Vec, radius: real)
    requires !CppRender.SomeUndrawable(bodies)
    ensures !CppRender.SomeUndrawable(CreateBody(bodies, CppSim.CppCircleBody(heightPx, pos, vel, radius)))
  {
    CppSim.CircleVelocityNotNegated(heightPx, pos, vel, radius);
  }

  /** Every world the generator builds with the occlusion is undrawable
      (the occlusion is a visible polygon); every one it builds without is
      drawable (a chain box and circles). */
  lemma {:induction false} BallsFromDrawable(config: Config, rw: nat, rh: nat, draw: GenerateData.Draws, i: nat,
                                             base: seq<Body>, j: nat)
    requires BallsFrom(config, rw, rh, draw, i, base, j).Ok?
    ensures CppRender.SomeUndrawable(BallsFrom(config, rw, rh, draw, i, base, j).value) <==>
      CppRender.SomeUndrawable(base)
  {
    if j > 0 {
      BallsFromDrawable(config, rw, rh, draw, i, base, j - 1);
      var w := BallsFrom(config, rw, rh, draw, i, base, j - 1).value;
      var c := CppBall(config, rw, rh, draw(i, j - 1));
      if c.value.Some? {
        var b := c.value.value;
        if CppRender.SomeUndrawable(w) {
          UndrawableStays(w, b);
        } else {
          var d := draw(i, j - 1);
          if config.occlusion {
            var p := CppRandomPosOutsideRectangle(config.screenHeight, config.screenWidth, OCCLUSION, d.u1, d.u2).value;
            CircleKeepsDrawable(w, rh, Vec(p.0, p.1), GenerateData.Scaled(d), 5.0);
          } else if config.dof == 1 {
            CircleKeepsDrawable(w, rh, PySim.RandPos(rw, rh, d.u1, d.u2), Vec(2.0 * 5000.0 * d.u3 - 5000.0, 0.0), 5.0);
          } else {
            CircleKeepsDrawable(w, rh, PySim.RandPos(rw, rh, d.u1, d.u2), GenerateData.Scaled(d), 5.0);
          }
        }
      }
    }
  }

  lemma SampleStartDrawable(config: Config, rw: nat, rh: nat, draw: GenerateData.Draws, i: nat, u: real)
    requires 0.0 <= u < 1.0 && |config.balls| > 0
    requires SampleStart(config, rw, rh, draw, i, u, [CppSim.ScreenChainBox(rw, rh)]).Ok?
    ensures CppRender.SomeUndrawable(SampleStart(config, rw, rh, draw, i, u, [CppSim.ScreenChainBox(rw, rh)]).value) <==>
      config.occlusion
  {
    var base := [CppSim.ScreenChainBox(rw, rh)];
    CppSim.ChainBoxCorners(rw, rh);
    BallsFromDrawable(config, rw, rh, draw, i, WithOcclusion(config, rh, base), GenerateData.Count(BallsIn(config, u)));
    if config.occlusion {
      CppSim.OcclusionBoxSwapped(rh, base, OCCLUSION);
    }
  }

  /** Box2D's step keeps every body's data and fixtures, so it never turns
      a drawable world into one `get_frame` rejects. */
  ghost predicate KeepsShapes(physics: Physics)
  {
    forall bodies: seq<Body>, dt: real ::
      !CppRender.SomeUndrawable(bodies) ==> !CppRender.SomeUndrawable(physics(bodies, dt))
  }

  /** Under such a step, a run from a drawable world takes every step. */
  lemma {:induction false} DrawableRunsComplete(physics: Physics, bodies: seq<Body>, dt: real, n: nat)
    requires KeepsShapes(physics) && !CppRender.SomeUndrawable(bodies)
    ensures CppSim.CleanSteps(physics, bodies, dt, n) == n
    decreases n
  {
    if n > 0 {
      DrawableRunsComplete(physics, physics(bodies, dt), dt, n - 1);
    }
  }

  /** A run from an undrawable world takes no step. */
  lemma UndrawableRunsStop(physics: Physics, bodies: seq<Body>, dt: real, n: nat)
    requires CppRender.SomeUndrawable(bodies)
    ensures CppSim.CleanSteps(physics, bodies, dt, n) == 0
  {
  }

  /** The path sequence i is saved to: `dataset_dir / "bouncing_balls_"`,
      then `std::to_string(i) + ".npy"`. */
  function SequenceFile(datasetDir: string, i: nat): string
  {
    GenerateData.NumberedFile(GenerateData.PathJoin(datasetDir, FILE_NAME), i)
  }

  /** Each sequence gets a file of its own, ".../bouncing_balls_<i>.npy". */
  lemma SequenceFilesDistinct(datasetDir: string, i: nat, j: nat)
    ensures var p := GenerateData.PathJoin(datasetDir, FILE_NAME);
      SequenceFile(datasetDir, i)[..|p|] == p &&
      SequenceFile(datasetDir, i)[|p|..] == GenerateData.NatToString(i) + FILE_EXTENSION
    ensures SequenceFile(datasetDir, i) == SequenceFile(datasetDir, j) <==> i == j
  {
    GenerateData.NumberedFilesDistinct(GenerateData.PathJoin(datasetDir, FILE_NAME), i, j);
  }

  /** `close` empties the buffer and saves its frames, if any, after the
      files already saved. */
  lemma ClosedSaves(frames: seq<NpyArray>, path: string, saved0: seq<SavedFile>, more: seq<SavedFile>)
    requires FramesCopyable(frames)
    ensures CppSim.Closed(frames, path, saved0 + more).0 == []
    ensures CppSim.Closed(frames, path, saved0 + more).2 ==
      saved0 + (more + (if frames == [] then [] else [SavedFile(path, StackFrames(frames))]))
  {
  }

  /** The writer after k sequences that all succeed, sequence j leaving
      `frames(j)` in the buffer for `file(j)` before `reset` closes it. */
  ghost function WriterAfterRuns(frames: nat -> seq<NpyArray>, file: nat -> string,
                                 w0: (seq<NpyArray>, string, seq<SavedFile>), k: nat):
    (seq<NpyArray>, string, seq<SavedFile>)
  {
    if k == 0 then w0
    else
      var prev := WriterAfterRuns(frames, file, w0, k - 1);
      if FramesCopyable(frames(k - 1)) then CppSim.Closed(frames(k - 1), file(k - 1), prev.2) else prev
  }

  /** The files the first k of those sequences save, in order. */
  ghost function SavedByRuns(frames: nat -> seq<NpyArray>, file: nat -> string, k: nat): seq<SavedFile>
  {
    if k == 0 then []
    else
      SavedByRuns(frames, file, k - 1) +
        (if frames(k - 1) == [] || !FramesCopyable(frames(k - 1)) then []
         else [SavedFile(file(k - 1), StackFrames(frames(k - 1)))])
  }

  lemma {:induction false} WriterAfterRunsSaves(frames: nat -> seq<NpyArray>, file: nat -> string,
                                                w0: (seq<NpyArray>, string, seq<SavedFile>), k: nat)
    requires forall j: nat :: j < k ==> FramesCopyable(frames(j))
    ensures WriterAfterRuns(frames, file, w0, k).2 == w0.2 + SavedByRuns(frames, file, k)
    ensures k > 0 ==> WriterAfterRuns(frames, file, w0, k).0 == []
  {
    if k > 0 {
      WriterAfterRunsSaves(frames, file, w0, k - 1);
      ClosedSaves(frames(k - 1), file(k - 1), w0.2, SavedByRuns(frames, file, k - 1));
    }
  }

  /** The first j < k with `fails(j)`, if any: the sequence that ends a
      generation of k sequences. */
  ghost function FirstFailing(fails: nat -> bool, k: nat): (f: Option<nat>)
    ensures f.Some? ==> f.value < k && fails(f.value)
  {
    if k == 0 then None
    else
      var f := FirstFailing(fails, k - 1);
      if f.Some? then f
      else if fails(k - 1) then Some(k - 1)
      else None
  }

  /** It is the first: no earlier sequence fails, and none of the k does
      when there is none. */
  lemma {:induction false} FirstFailingIsFirst(fails: nat -> bool, k: nat, j: nat)
    ensures FirstFailing(fails, k).Some? && j < FirstFailing(fails, k).value ==> !fails(j)
    ensures FirstFailing(fails, k).None? && j < k ==> !fails(j)
    decreases k
  {
    if k > 0 {
      FirstFailingIsFirst(fails, k - 1, j);
    }
  }

  /** Once some sequence fails, later ones do not change the first. */
  lemma {:induction false} FirstFailingStays(fails: nat -> bool, k: nat, l: nat)
    requires k <= l && FirstFailing(fails, k).Some?
    ensures FirstFailing(fails, l) == FirstFailing(fails, k)
    decreases l
  {
    if l > k {
      FirstFailingStays(fails, k, l - 1);
    }
  }

  // ---------------------------------------------------------------------
  // The generator
  // ---------------------------------------------------------------------

  class Generator {
    const config: Config
    /** `rectangle_`, the occlusion. */
    const rectangle: Rect := Rect(22, 19, 20, 10)
    const renderer: CppRender.VideoRenderer
    const writer: NpyWriter

    /** `BouncingBalls(config)`: the occlusion rectangle (22, 19, 20, 10), a
        fresh writer, and a renderer constructed as
        `VideoRenderer(screen_height, screen_width, channels_ordering)`
        while its parameters are (width, height, ordering): the renderer is
        `screen_height` pixels wide and `screen_width` pixels high. */
    constructor (config: Config)
      ensures this.config == config && rectangle == OCCLUSION
      ensures renderer.screenWidthPx == config.screenHeight && renderer.screenHeightPx == config.screenWidth
      ensures renderer.channelOrdering == config.channelsOrdering
      ensures fresh(writer) && writer.frames == [] && writer.path == "" && writer.saved == []
    {
      this.config := config;
      renderer := new CppRender.VideoRenderer(config.screenHeight, config.screenWidth, config.channelsOrdering);
      writer := new NpyWriter();
    }

    /** The frames are the renderer's: with channels last, (screen_width,
        screen_height, 1), so the default 48 x 64 configuration makes
        frames of 64 rows of 48 pixels. */
    lemma FrameShape(bodies: seq<Body>)
      requires renderer.screenWidthPx == config.screenHeight && renderer.screenHeightPx == config.screenWidth
      requires renderer.imageShape == if renderer.channelOrdering == Last
        then [renderer.screenHeightPx, renderer.screenWidthPx, 1]
        else [1, renderer.screenHeightPx, renderer.screenWidthPx]
      requires renderer.channelOrdering == Last
      ensures renderer.Frame(bodies).shape == [config.screenWidth, config.screenHeight, 1]
      ensures |renderer.Frame(bodies).data| == config.screenWidth * config.screenHeight
    {
    }

    /** The simulator between sequences: valid, on this renderer, at 60 fps
        (a 16 ms step), with only the chain box in its world. */
    ghost predicate Idle(env: CppSim.Simulator)
      reads env, env.writer
    {
      env.Valid() && env.renderer == renderer && env.fps == FPS && env.timeStep == STEP_MS &&
      env.world == [CppSim.ScreenChainBox(renderer.screenWidthPx, renderer.screenHeightPx)]
    }

    /** The world sequence i starts from. */
    function Start(draw: GenerateData.Draws, i: nat, u: real): Result<seq<Body>, Failure>
      requires 0.0 <= u < 1.0 && |config.balls| > 0
    {
      SampleStart(config, renderer.screenWidthPx, renderer.screenHeightPx, draw, i, u,
                  [CppSim.ScreenChainBox(renderer.screenWidthPx, renderer.screenHeightPx)])
    }

    /** What sequence i leaves in the writer and how it ends: no frame and
        the failed `assert` if its world cannot be built; otherwise the
        frames of the steps before the first undrawable world, and
        `NotImplementedException` if that comes before `sequence_len`
        steps. */
    ghost function SampleRun(physics: Physics, draw: GenerateData.Draws, i: nat, u: real): (r: (seq<NpyArray>, Option<Failure>))
      requires 0.0 <= u < 1.0 && |config.balls| > 0
      ensures FramesCopyable(r.0)
    {
      match Start(draw, i, u)
      case Err(e) => ([], Some(e))
      case Ok(start) =>
        var n := GenerateData.Count(config.sequenceLen);
        var m := CppSim.CleanSteps(physics, start, STEP_MS as real, n);
        var frames := CppSim.FramesAfter(renderer, physics, start, STEP_MS as real, m);
        CppSim.FramesSized(renderer, PySim.Trajectory(physics, start, STEP_MS as real, m));
        CppSim.SizedCopyable(renderer, frames);
        (frames, if m < n then Some(NotImplemented) else None)
    }

    /** Whether sequence j fails. */
    ghost function RunFails(physics: Physics, choose: nat -> real, draw: GenerateData.Draws): nat -> bool
    {
      (j: nat) => 0.0 <= choose(j) < 1.0 && |config.balls| > 0 && SampleRun(physics, draw, j, choose(j)).1.Some?
    }

    /** The frames sequence j leaves in the writer. */
    ghost function RunFrames(physics: Physics, choose: nat -> real, draw: GenerateData.Draws): nat -> seq<NpyArray>
    {
      (j: nat) => if 0.0 <= choose(j) < 1.0 && |config.balls| > 0 then SampleRun(physics, draw, j, choose(j)).0 else []
    }

    /** The writer (frames, path, saved files) after the first k sequences
        all succeed, from w0. */
    ghost function WriterAfter(physics: Physics, choose: nat -> real, draw: GenerateData.Draws, datasetDir: string,
                               w0: (seq<NpyArray>, string, seq<SavedFile>), k: nat):
      (seq<NpyArray>, string, seq<SavedFile>)
    {
      WriterAfterRuns(RunFrames(physics, choose, draw), (j: nat) => SequenceFile(datasetDir, j), w0, k)
    }

    /** The files saved are those of the sequences with frames, in order,
        after those there already were; the buffer is left empty. With
        `sequence_len` > 0, every sequence saves a file of `sequence_len`
        frames. */
    lemma WriterAfterSaves(physics: Physics, choose: nat -> real, draw: GenerateData.Draws, datasetDir: string,
                           w0: (seq<NpyArray>, string, seq<SavedFile>), k: nat)
      requires Uniform(choose) && |config.balls| > 0
      ensures WriterAfter(physics, choose, draw, datasetDir, w0, k).2 ==
        w0.2 + SavedByRuns(RunFrames(physics, choose, draw), (j: nat) => SequenceFile(datasetDir, j), k)
      ensures k > 0 ==> WriterAfter(physics, choose, draw, datasetDir, w0, k).0 == []
    {
      var frames := RunFrames(physics, choose, draw);
      forall j: nat | j < k
        ensures FramesCopyable(frames(j))
      {
        assert frames(j) == SampleRun(physics, draw, j, choose(j)).0;
      }
      WriterAfterRunsSaves(frames, (j: nat) => SequenceFile(datasetDir, j), w0, k);
    }

    /** Without the occlusion and with Box2D keeping shapes, no sequence
        fails and sequence i saves the frames of `sequence_len` steps from
        its world; with the occlusion and at least one step, the first
        sequence fails and no file is saved. */
    lemma OcclusionDecides(physics: Physics, choose: nat -> real, draw: GenerateData.Draws, i: nat)
      requires Uniform(choose) && |config.balls| > 0
      requires KeepsShapes(physics)
      ensures !config.occlusion ==>
        Start(draw, i, choose(i)).Ok? &&
        SampleRun(physics, draw, i, choose(i)) ==
          (CppSim.FramesAfter(renderer, physics, Start(draw, i, choose(i)).value, STEP_MS as real,
                              GenerateData.Count(config.sequenceLen)), None)
      ensures config.occlusion && config.sequenceLen > 0 ==>
        SampleRun(physics, draw, i, choose(i)).0 == [] && SampleRun(physics, draw, i, choose(i)).1.Some?
    {
      var u := choose(i);
      SampleStartShape(config, renderer.screenWidthPx, renderer.screenHeightPx, draw, i, u,
                       [CppSim.ScreenChainBox(renderer.screenWidthPx, renderer.screenHeightPx)]);
      var s := Start(draw, i, u);
      if s.Ok? {
        SampleStartDrawable(config, renderer.screenWidthPx, renderer.screenHeightPx, draw, i, u);
        if config.occlusion {
          UndrawableRunsStop(physics, s.value, STEP_MS as real, GenerateData.Count(config.sequenceLen));
        } else {
          DrawableRunsComplete(physics, s.value, STEP_MS as real, GenerateData.Count(config.sequenceLen));
        }
      }
    }

    /** `generate(dataset_dir, suppress_output)` and `generate_`: a
        simulator on this renderer at 60 fps; then, for i = 0, 1, ...,
        `sequences` - 1, save to the numbered file, set up the scene, step
        `sequence_len` times and reset. A failing `assert` or step ends the
        whole generation, leaving that sequence's frames in the writer. */
    method Generate(datasetDir: string, suppressOutput: bool, physics: Physics,
                    choose: nat -> real, draw: GenerateData.Draws) returns (err: Option<Failure>)
      requires KeepsBodies(physics) && Uniform(choose) && |config.balls| > 0
      modifies writer
      ensures var f := FirstFailing(RunFails(physics, choose, draw), GenerateData.Count(config.sequences));
        var w0 := (old(writer.frames), old(writer.path), old(writer.saved));
        if f.None? then
          err.None? &&
          (writer.frames, writer.path, writer.saved) ==
            WriterAfter(physics, choose, draw, datasetDir, w0, GenerateData.Count(config.sequences))
        else
          err == SampleRun(physics, draw, f.value, choose(f.value)).1 &&
          writer.frames == SampleRun(physics, draw, f.value, choose(f.value)).0 &&
          writer.path == SequenceFile(datasetDir, f.value) &&
          writer.saved == WriterAfter(physics, choose, draw, datasetDir, w0, f.value).2
    {
      var env := new CppSim.Simulator(renderer, physics, config.saveMetadata);
      var _ := env.SetFps(FPS);
      ghost var w0 := (writer.frames, writer.path, writer.saved);
      assert w0 == (old(writer.frames), old(writer.path), old(writer.saved));
      var i := 0;
      while i < config.sequences
        invariant 0 <= i <= GenerateData.Count(config.sequences)
        invariant Idle(env) && env.physics == physics && fresh(env)
        invariant env.writer == null || env.writer == writer
        invariant FirstFailing(RunFails(physics, choose, draw), i).None?
        invariant (writer.frames, writer.path, writer.saved) == WriterAfter(physics, choose, draw, datasetDir, w0, i)
        decreases config.sequences - i
      {
        var e := NextSequence(env, datasetDir, physics, choose, draw, w0, i);
        if e.Some? {
          assert FirstFailing(RunFails(physics, choose, draw), i + 1) == Some(i);
          FirstFailingStays(RunFails(physics, choose, draw), i + 1, GenerateData.Count(config.sequences));
          return e;
        }
        i := i + 1;
      }
      assert i == GenerateData.Count(config.sequences);
      err := None;
    }

    /** Sequence i of `generate_`, stated against the writer after the
        sequences before it and whether sequence i fails. */
    method NextSequence(env: CppSim.Simulator, datasetDir: string, physics: Physics,
                        choose: nat -> real, draw: GenerateData.Draws,
                        ghost w0: (seq<NpyArray>, string, seq<SavedFile>), i: nat)
      returns (err: Option<Failure>)
      requires Uniform(choose) && |config.balls| > 0
      requires Idle(env) && env.physics == physics && (env.writer == null || env.writer == writer)
      requires (writer.frames, writer.path, writer.saved) == WriterAfter(physics, choose, draw, datasetDir, w0, i)
      modifies env`world, env`bodyDataStorage, env`fps, env`timeStep, env`save, env`writer, writer
      ensures env.writer == writer
      ensures err.Some? <==> RunFails(physics, choose, draw)(i)
      ensures err.None? ==> Idle(env)
      ensures err.None? ==>
        (writer.frames, writer.path, writer.saved) == WriterAfter(physics, choose, draw, datasetDir, w0, i + 1)
      ensures err.Some? ==>
        err == SampleRun(physics, draw, i, choose(i)).1 &&
        writer.frames == SampleRun(physics, draw, i, choose(i)).0 &&
        writer.path == SequenceFile(datasetDir, i) &&
        writer.saved == WriterAfter(physics, choose, draw, datasetDir, w0, i).2
    {
      ghost var saved := writer.saved;
      err := GenerateSequence(env, datasetDir, draw, i, choose(i));
      ghost var frames := RunFrames(physics, choose, draw);
      assert frames(i) == SampleRun(physics, draw, i, choose(i)).0;
      assert WriterAfter(physics, choose, draw, datasetDir, w0, i + 1) ==
        CppSim.Closed(frames(i), SequenceFile(datasetDir, i), saved);
    }

    /** One pass of the sequence loop: `save_to`, `setup_environment_`,
        `sequence_len` steps and `reset`. */
    method GenerateSequence(env: CppSim.Simulator, datasetDir: string, draw: GenerateData.Draws, i: nat, u: real)
      returns (err: Option<Failure>)
      requires Idle(env) && (env.writer == null || env.writer == writer)
      requires 0.0 <= u < 1.0 && |config.balls| > 0
      modifies env`world, env`bodyDataStorage, env`fps, env`timeStep, env`save, env`writer, writer
      ensures env.writer == writer && env.save
      ensures err == SampleRun(env.physics, draw, i, u).1
      ensures err.None? ==> Idle(env)
      ensures err.None? ==>
        (writer.frames, writer.path, writer.saved) ==
          CppSim.Closed(SampleRun(env.physics, draw, i, u).0, SequenceFile(datasetDir, i), old(writer.saved))
      ensures err.Some? ==>
        writer.frames == SampleRun(env.physics, draw, i, u).0 && writer.path == SequenceFile(datasetDir, i) &&
        writer.saved == old(writer.saved)
    {
      err := PrepareSequence(env, datasetDir, draw, i, u);
      if err.Some? {
        SampleRunFails(env.physics, draw, i, u);
        return;
      }
      SampleRunSteps(env.physics, draw, i, u, env.world);
      err := RunSequence(env);
    }

    /** The `sequence_len` steps of a sequence, then `reset`, which closes
        the file unless a step throws first. */
    method RunSequence(env: CppSim.Simulator) returns (err: Option<Failure>)
      requires env.Valid() && env.save && env.writer == writer && writer.frames == []
      requires env.renderer == renderer && env.fps == FPS && env.timeStep == STEP_MS
      modifies env`world, env`bodyDataStorage, env`fps, env`timeStep, writer
      ensures var n := GenerateData.Count(config.sequenceLen);
        var m := CppSim.CleanSteps(env.physics, old(env.world), STEP_MS as real, n);
        var frames := CppSim.FramesAfter(renderer, env.physics, old(env.world), STEP_MS as real, m);
        FramesCopyable(frames) &&
        err == (if m < n then Some(NotImplemented) else None) &&
        (err.Some? ==> writer.frames == frames && writer.path == old(writer.path) && writer.saved == old(writer.saved)) &&
        (err.None? ==> Idle(env)) &&
        (err.None? ==>
          (writer.frames, writer.path, writer.saved) == CppSim.Closed(frames, old(writer.path), old(writer.saved)))
    {
      ghost var m := CppSim.CleanSteps(env.physics, env.world, STEP_MS as real, GenerateData.Count(config.sequenceLen));
      CppSim.FramesSized(renderer, PySim.Trajectory(env.physics, env.world, STEP_MS as real, m));
      CppSim.SizedCopyable(renderer, CppSim.FramesAfter(renderer, env.physics, env.world, STEP_MS as real, m));
      ghost var frames := CppSim.FramesAfter(renderer, env.physics, env.world, STEP_MS as real, m);
      ghost var path, saved := writer.path, writer.saved;
      err := StepSequence(env);
      assert writer.frames == frames by {
        assert [] + frames == frames;
      }
      if err.Some? {
        return;
      }
      CloseSequence(env);
    }

    /** `reset` after a sequence whose every step went through: the
        environment is idle again and the frames are in their file. */
    method CloseSequence(env: CppSim.Simulator)
      requires env.Valid() && env.save && env.writer == writer && env.renderer == renderer
      modifies env`world, env`bodyDataStorage, env`fps, env`timeStep, writer
      ensures Idle(env) && FramesCopyable(old(writer.frames))
      ensures (writer.frames, writer.path, writer.saved) ==
        CppSim.Closed(old(writer.frames), old(writer.path), old(writer.saved))
    {
      CppSim.SizedCopyable(renderer, writer.frames);
      env.Reset();
    }

    /** `save_to` the numbered file, then `setup_environment_`. */
    method PrepareSequence(env: CppSim.Simulator, datasetDir: string, draw: GenerateData.Draws, i: nat, u: real)
      returns (err: Option<Failure>)
      requires Idle(env) && (env.writer == null || env.writer == writer)
      requires 0.0 <= u < 1.0 && |config.balls| > 0
      modifies env`world, env`bodyDataStorage, env`save, env`writer, writer
      ensures env.Valid() && env.renderer == renderer && env.writer == writer && env.save
      ensures writer.frames == [] && writer.path == SequenceFile(datasetDir, i) && writer.saved == old(writer.saved)
      ensures err.None? <==> Start(draw, i, u).Ok?
      ensures err.Some? ==> err == Some(Start(draw, i, u).error)
      ensures err.None? ==> env.world == Start(draw, i, u).value
    {
      var path := GenerateData.PathJoin(datasetDir, FILE_NAME) + GenerateData.NatToString(i) + FILE_EXTENSION;
      env.SaveTo(path, writer);
      err := SetupEnvironment(env, draw, i, u);
    }

    lemma SampleRunFails(physics: Physics, draw: GenerateData.Draws, i: nat, u: real)
      requires 0.0 <= u < 1.0 && |config.balls| > 0
      requires Start(draw, i, u).Err?
      ensures SampleRun(physics, draw, i, u) == ([], Some(Start(draw, i, u).error))
    {
    }

    lemma SampleRunSteps(physics: Physics, draw: GenerateData.Draws, i: nat, u: real, start: seq<Body>)
      requires 0.0 <= u < 1.0 && |config.balls| > 0
      requires Start(draw, i, u) == Ok(start)
      ensures var n := GenerateData.Count(config.sequenceLen);
        var m := CppSim.CleanSteps(physics, start, STEP_MS as real, n);
        SampleRun(physics, draw, i, u) ==
          (CppSim.FramesAfter(renderer, physics, start, STEP_MS as real, m), if m < n then Some(NotImplemented) else None)
    {
    }

    /** `setup_environment_`: pick the ball count, then add the occlusion
        and the balls aimed across it, or the free balls of the dof. */
    method SetupEnvironment(env: CppSim.Simulator, draw: GenerateData.Draws, i: nat, u: real) returns (err: Option<Failure>)
      requires env.Valid() && env.renderer == renderer
      requires 0.0 <= u < 1.0 && |config.balls| > 0
      modifies env`world, env`bodyDataStorage
      ensures env.Valid()
      ensures var s := SampleStart(config, renderer.screenWidthPx, renderer.screenHeightPx, draw, i, u, old(env.world));
        (err.None? <==> s.Ok?) &&
        (s.Ok? ==> env.world == s.value) &&
        (s.Err? ==> err == Some(s.error) && env.world == WithOcclusion(config, renderer.screenHeightPx, old(env.world)))
      ensures |env.bodyDataStorage| - |old(env.bodyDataStorage)| == |env.world| - |old(env.world)|
    {
      var choice := Choice(u, |config.balls|);
      var balls := config.balls[choice];
      ghost var rw, rh := renderer.screenWidthPx, renderer.screenHeightPx;
      ghost var base := WithOcclusion(config, rh, env.world);
      if config.occlusion {
        env.AddRectangularOcclusion(rectangle);
      }
      var b := 0;
      while b < balls
        invariant env.Valid()
        invariant 0 <= b <= GenerateData.Count(balls)
        invariant BallsFrom(config, rw, rh, draw, i, base, b) == Ok(env.world)
        invariant b > 0 && config.occlusion ==> config.screenHeight > 0 && config.screenWidth > 0
        invariant |env.bodyDataStorage| - |old(env.bodyDataStorage)| == |env.world| - |old(env.world)|
        decreases balls - b
      {
        var e := AddBall(env, draw, i, base, b);
        if e.Some? {
          BallsFromShape(config, rw, rh, draw, i, base, b);
          BallsFromShape(config, rw, rh, draw, i, base, GenerateData.Count(balls));
          return e;
        }
        b := b + 1;
      }
      err := None;
    }

    /** One pass of the ball loop of `setup_environment_`: ball b of
        sequence i is added to the world, or its position fails. */
    method AddBall(env: CppSim.Simulator, draw: GenerateData.Draws, i: nat, ghost base: seq<Body>, b: nat)
      returns (err: Option<Failure>)
      requires env.Valid() && env.renderer == renderer
      requires BallsFrom(config, renderer.screenWidthPx, renderer.screenHeightPx, draw, i, base, b) == Ok(env.world)
      modifies env`world, env`bodyDataStorage
      ensures env.Valid()
      ensures err.None? ==>
        BallsFrom(config, renderer.screenWidthPx, renderer.screenHeightPx, draw, i, base, b + 1) == Ok(env.world)
      ensures err.Some? ==>
        BallsFrom(config, renderer.screenWidthPx, renderer.screenHeightPx, draw, i, base, b + 1) == Err(err.value) &&
        env.world == old(env.world)
      ensures |env.bodyDataStorage| - |old(env.bodyDataStorage)| == |env.world| - |old(env.world)|
    {
      var d := draw(i, b);
      if config.occlusion {
        var position := CppRandomPosOutsideRectangle(config.screenHeight, config.screenWidth, rectangle, d.u1, d.u2);
        if position.Err? {
          return Some(position.error);
        }
        env.AddCircle(Vec(position.value.0, position.value.1), GenerateData.Scaled(d), 5.0);
      } else if config.dof == 1 {
        env.AddCircle(env.GetRandPosPx(d.u1, d.u2), Vec(2.0 * 5000.0 * d.u3 - 5000.0, 0.0), 5.0);
      } else if config.dof == 2 {
        env.AddRandCircle(d.u1, d.u2, GenerateData.Scaled(d), 5.0);
      }
      err := None;
    }

    /** The inner loop of `generate_`: `step` `sequence_len` times, ending
        at the first step that throws. */
    method StepSequence(env: CppSim.Simulator) returns (err: Option<Failure>)
      requires env.Valid() && env.save
      modifies env`world, env.writer
      ensures env.Valid()
      ensures var n := GenerateData.Count(config.sequenceLen);
        var m := CppSim.CleanSteps(env.physics, old(env.world), env.timeStep as real, n);
        env.world == Iterate(env.physics, old(env.world), env.timeStep as real, m) &&
        err == (if m < n then Some(NotImplemented) else None)
      ensures var m := CppSim.CleanSteps(env.physics, old(env.world), env.timeStep as real,
                                         GenerateData.Count(config.sequenceLen));
        env.writer.frames == old(env.writer.frames) +
          CppSim.FramesAfter(env.renderer, env.physics, old(env.world), env.timeStep as real, m)
      ensures env.writer.path == old(env.writer.path) && env.writer.saved == old(env.writer.saved)
    {
      ghost var n := GenerateData.Count(config.sequenceLen);
      ghost var m := CppSim.CleanSteps(env.physics, env.world, env.timeStep as real, n);
      ghost var start, frames0, path0, saved0 := env.world, env.writer.frames, env.writer.path, env.writer.saved;
      var t := 0;
      while t < config.sequenceLen
        invariant env.Valid()
        invariant 0 <= t <= m
        invariant env.Tracks(start, frames0, path0, saved0, t)
        decreases config.sequenceLen - t
      {
        CppSim.CleanStepsNext(env.physics, start, env.timeStep as real, n, t);
        var r := env.StepTracked(start, frames0, path0, saved0, t);
        if r.Err? {
          assert t == m < n;
          return Some(r.error);
        }
        t := t + 1;
      }
      assert t == m == n;
      err := None;
    }
  }
}
