/** The dataset generator of generate_data.py: a `Config`, the choice of
    the split and of the number of samples, the file each sample goes to,
    the loop that fills one `BouncingBalls` simulator per sample (an
    occlusion and `balls` circles, `sequence_len` steps, a reset), and the
    check that skips the work when the dataset is already there.

    The random draws are passed in as a function from (sample, ball) to
    the values drawn for that ball; the file system is passed in as the
    facts `generate_data` reads from it; the output is the log of the calls
    made on the writer. */
module GenerateData {
  import opened Common
  import opened Wrappers
  import opened World
  import opened PySim
  import opened Spawn
  import Legacy

  const TRAIN: string := "train"
  const TEST: string := "test"
  /** The `fps` generate_dataset sets. */
  const GENERATOR_FPS: int := 60

  /** `Config(sequences, sequence_len, occlusion, balls, data_dir,
      mean_vel=5000, dof=2)`. */
  datatype Config = Config(sequences: int, sequenceLen: int, occlusion: bool, balls: int,
                           dataDir: string, meanVel: int, dof: int)

  /** `Config.__init__`: every argument is kept, and a missing `data_dir`
      (None) becomes "data"; an empty one stays empty. */
  function MakeConfig(sequences: int, sequenceLen: int, occlusion: bool, balls: int,
                      dataDir: Option<string>, meanVel: int, dof: int): (c: Config)
    ensures c.dataDir == (if dataDir.None? then "data" else dataDir.value)
    ensures c.sequences == sequences && c.sequenceLen == sequenceLen && c.occlusion == occlusion
    ensures c.balls == balls && c.meanVel == meanVel && c.dof == dof
  {
    Config(sequences, sequenceLen, occlusion, balls,
           if dataDir.Some? then dataDir.value else "data", meanVel, dof)
  }

  /** `range(n)` has max(n, 0) elements. */
  function Count(n: int): (c: nat)
    ensures n > 0 ==> c == n
    ensures n <= 0 ==> c == 0
  {
    if n > 0 then n else 0
  }

  /** The number of samples of a split: `sequences` for "train",
      `sequences // 10` (floor division) for "test", and a ValueError for
      anything else. */
  function SampleCount(config: Config, split: string): (r: Result<int, Failure>)
    ensures r.Err? <==> split != TRAIN && split != TEST
    ensures r.Err? ==> r.error == ValueError
    ensures split == TRAIN ==> r == Ok(config.sequences)
    ensures split == TEST ==> r.Ok? && 10 * r.value <= config.sequences < 10 * r.value + 10
  {
    if split != TRAIN && split != TEST then Err(ValueError)
    else if split == TRAIN then Ok(config.sequences)
    else Ok(config.sequences / 10)
  }

  // ---------------------------------------------------------------------
  // File names
  // ---------------------------------------------------------------------

  /** `os.path.join(a, b)` on POSIX: an absolute b replaces a; otherwise b
      is appended, after a '/' unless a is empty or already ends in one. */
  function PathJoin(a: string, b: string): (p: string)
    ensures |b| > 0 && b[0] == '/' ==> p == b
    ensures (|b| == 0 || b[0] != '/') ==>
      |a| + |b| <= |p| && p[..|a|] == a && p[|p| - |b|..] == b
  {
    if |b| > 0 && b[0] == '/' then b
    else if |a| == 0 || a[|a| - 1] == '/' then a + b
    else a + ['/'] + b
  }

  function DigitChar(d: nat): char
    requires d < 10
  {
    ['0', '1', '2', '3', '4', '5', '6', '7', '8', '9'][d]
  }

  predicate IsDigit(c: char)
  {
    '0' <= c <= '9'
  }

  /** The value of a string of decimal digits, most significant first. */
  function DigitsValue(s: string): nat
    requires forall k :: 0 <= k < |s| ==> IsDigit(s[k])
  {
    if |s| == 0 then 0
    else
      var c := s[|s| - 1];
      assert IsDigit(c);
      DigitsValue(s[..|s| - 1]) * 10 + ((c as int) - ('0' as int))
  }

  /** `str(i)` for a natural i: its decimal digits, with no leading zero,
      which read back give i. */
  function NatToString(n: nat): (s: string)
    ensures |s| >= 1 && (forall k :: 0 <= k < |s| ==> IsDigit(s[k]))
    ensures |s| > 1 ==> s[0] != '0'
    ensures DigitsValue(s) == n
  {
    if n < 10 then [DigitChar(n)]
    else
      var init := NatToString(n / 10);
      var s := init + [DigitChar(n % 10)];
      assert s[..|s| - 1] == init;
      s
  }

  /** The string of a natural number determines it. */
  lemma NatToStringInjective(i: nat, j: nat)
    ensures NatToString(i) == NatToString(j) <==> i == j
  {
  }

  /** The directory a split is written to, `os.path.join(data_dir, split)`. */
  function DatasetDir(config: Config, split: string): string
  {
    PathJoin(config.dataDir, split)
  }

  /** `prefix + str(i) + ".npy"`: file i of a numbered series. */
  function NumberedFile(prefix: string, i: nat): string
  {
    prefix + NatToString(i) + ".npy"
  }

  /** File i keeps the prefix, ends in its own number and ".npy", and no
      two numbers share a file. */
  lemma NumberedFilesDistinct(prefix: string, i: nat, j: nat)
    ensures NumberedFile(prefix, i)[..|prefix|] == prefix
    ensures NumberedFile(prefix, i)[|prefix|..] == NatToString(i) + ".npy"
    ensures NumberedFile(prefix, i) == NumberedFile(prefix, j) <==> i == j
  {
    var (a, b) := (NatToString(i), NatToString(j));
    assert NumberedFile(prefix, i) == prefix + (a + ".npy");
    assert NumberedFile(prefix, j) == prefix + (b + ".npy");
    if NumberedFile(prefix, i) == NumberedFile(prefix, j) {
      assert |a| == |b|;
      assert a == (prefix + (a + ".npy"))[|prefix|..|prefix| + |a|];
      assert b == (prefix + (b + ".npy"))[|prefix|..|prefix| + |b|];
      NatToStringInjective(i, j);
    }
  }

  /** The file sample i is saved to:
      `os.path.join(dataset_dir, "bouncing_balls_") + str(i) + ".npy"`. */
  function FileName(config: Config, split: string, i: nat): string
  {
    NumberedFile(PathJoin(DatasetDir(config, split), "bouncing_balls_"), i)
  }

  /** Every sample of a split gets a file of its own, named
      ".../bouncing_balls_<i>.npy" inside the split's directory. */
  lemma FileNamesDistinct(config: Config, split: string, i: nat, j: nat)
    ensures var p := PathJoin(DatasetDir(config, split), "bouncing_balls_");
      FileName(config, split, i)[..|p|] == p &&
      FileName(config, split, i)[|p|..] == NatToString(i) + ".npy" &&
      p[|p| - |"bouncing_balls_"|..] == "bouncing_balls_"
    ensures FileName(config, split, i) == FileName(config, split, j) <==> i == j
  {
    NumberedFilesDistinct(PathJoin(DatasetDir(config, split), "bouncing_balls_"), i, j);
  }

  // ---------------------------------------------------------------------
  // The bodies of one sample
  // ---------------------------------------------------------------------

  /** The values drawn for one ball: `u1`, `u2`, `u3` from `random()`,
      `speed` from the normal distribution and `direction` the unit vector
      `random_trajectory_through_rectangle` or `get_rand_vel` computes. */
  datatype BallDraw = BallDraw(u1: real, u2: real, u3: real, speed: real, direction: Vec)

  /** Ball j of sample i draws `draw(i, j)`. */
  type Draws = (nat, nat) -> BallDraw

  /** The velocity `direction * speed`. */
  function Scaled(d: BallDraw): Vec
  {
    Vec(d.direction.x * d.speed, d.direction.y * d.speed)
  }

  /** The circle the ball loop adds for one draw, if it adds one: with the
      occlusion, one aimed across it from a point outside it; otherwise, for
      dof 1, one at `get_rand_pos()` moving along x with
      `2 * 5000 * random() - 5000`, for dof 2 the `add_rand_circle` one,
      and for any other dof none. Every circle has the default radius 5. */
  function Ball(config: Config, d: BallDraw): Option<Body>
  {
    if config.occlusion then
      var p := LocalRandomPosOutsideRectangle(OCCLUSION, d.u1, d.u2);
      Some(CircleBody(LOCAL_SCREEN_HEIGHT, Vec(p.0, p.1), Scaled(d), 5.0))
    else if config.dof == 1 then
      Some(CircleBody(LOCAL_SCREEN_HEIGHT, RandPos(LOCAL_SCREEN_WIDTH, LOCAL_SCREEN_HEIGHT, d.u1, d.u2),
                      Vec(2.0 * 5000.0 * d.u3 - 5000.0, 0.0), 5.0))
    else if config.dof == 2 then
      Some(CircleBody(LOCAL_SCREEN_HEIGHT, RandPos(LOCAL_SCREEN_WIDTH, LOCAL_SCREEN_HEIGHT, d.u1, d.u2),
                      Scaled(d), 5.0))
    else None
  }

  /** The world after the first j balls of sample i are added to `base`. */
  function BallsAdded(config: Config, draw: Draws, i: nat, base: seq<Body>, j: nat): seq<Body>
  {
    Added(base, (k: nat) => Ball(config, draw(i, k)), j)
  }

  /** `base` after creating, in order, the bodies `ball(0)`, ...,
      `ball(j - 1)` that are present. */
  function Added(base: seq<Body>, ball: nat -> Option<Body>, j: nat): seq<Body>
  {
    if j == 0 then base
    else
      var w := Added(base, ball, j - 1);
      match ball(j - 1)
      case Some(b) => CreateBody(w, b)
      case None => w
  }

  /** The world sample i starts from, built on `base`: the occlusion first,
      if any, then the `balls` circles. */
  function SampleWorld(config: Config, draw: Draws, i: nat, base: seq<Body>): seq<Body>
  {
    var withOcclusion :=
      if config.occlusion then CreateBody(base, OcclusionBody(LOCAL_SCREEN_HEIGHT, OCCLUSION)) else base;
    BallsAdded(config, draw, i, withOcclusion, Count(config.balls))
  }

  /** Whether the ball loop adds a circle per ball: with the occlusion,
      or with a dof of 1 or 2. */
  predicate AddsBalls(config: Config)
  {
    config.occlusion || config.dof == 1 || config.dof == 2
  }

  /** The number of circles a sample gets: `balls`, or none for a dof
      other than 1 and 2 without occlusion. */
  function BallCount(config: Config): nat
  {
    if AddsBalls(config) then Count(config.balls) else 0
  }

  /** A ball loop either adds a circle for every draw or for none. */
  lemma BallPresent(config: Config, d: BallDraw)
    ensures Ball(config, d).Some? <==> AddsBalls(config)
  {
  }

  lemma BallsAddedShape(config: Config, draw: Draws, i: nat, base: seq<Body>, j: nat)
    ensures var w := BallsAdded(config, draw, i, base, j);
      var n := if AddsBalls(config) then j else 0;
      |w| == |base| + n && w[n..] == base &&
      (forall k :: 0 <= k < n ==> w[k] == Ball(config, draw(i, n - 1 - k)).value)
  {
    var ball := (k: nat) => Ball(config, draw(i, k));
    forall k: nat | k < j
      ensures ball(k).Some? == AddsBalls(config)
    {
      BallPresent(config, draw(i, k));
    }
    AddedShape(base, ball, j, AddsBalls(config));
  }

  /** With every `ball(k)` present (or every one absent), the newest body
      comes first and `base` is left at the end. */
  lemma {:induction false} AddedShape(base: seq<Body>, ball: nat -> Option<Body>, j: nat, adds: bool)
    requires forall k: nat :: k < j ==> ball(k).Some? == adds
    ensures var w := Added(base, ball, j);
      var n := if adds then j else 0;
      |w| == |base| + n && w[n..] == base &&
      (forall k :: 0 <= k < n ==> w[k] == ball(n - 1 - k).value)
  {
    if j > 0 {
      AddedShape(base, ball, j - 1, adds);
    }
  }

  /** What sample i starts from, on the box: the circles, the newest
      first, each the one its draw gives; then the occlusion when asked
      for; and last the bounding box. */
  lemma SampleWorldShape(config: Config, draw: Draws, i: nat, box: Body)
    ensures var w := SampleWorld(config, draw, i, [box]);
      var n := BallCount(config);
      var o := if config.occlusion then 1 else 0;
      |w| == n + o + 1 && w[|w| - 1] == box &&
      (config.occlusion ==> w[n] == OcclusionBody(LOCAL_SCREEN_HEIGHT, OCCLUSION)) &&
      (forall k :: 0 <= k < n ==> w[k] == Ball(config, draw(i, n - 1 - k)).value)
  {
    var withOcclusion :=
      if config.occlusion then CreateBody([box], OcclusionBody(LOCAL_SCREEN_HEIGHT, OCCLUSION)) else [box];
    BallsAddedShape(config, draw, i, withOcclusion, Count(config.balls));
  }

  /** With the occlusion every ball starts outside the rectangle grown by
      the tolerance, and is a visible circle aimed with its draw. */
  lemma OccludedBallsStartOutside(config: Config, d: BallDraw)
    requires config.occlusion
    ensures exists p: Point ::
      !InExpanded(OCCLUSION, p) &&
      Ball(config, d) == Some(CircleBody(LOCAL_SCREEN_HEIGHT, Vec(p.0, p.1), Scaled(d), 5.0))
  {
    var p := LocalRandomPosOutsideRectangle(OCCLUSION, d.u1, d.u2);
    assert !InExpanded(OCCLUSION, p);
  }

  // ---------------------------------------------------------------------
  // What the writer gets
  // ---------------------------------------------------------------------

  /** The calls `save_to` makes for sample i. */
  function SampleHeader<F>(config: Config, split: string, i: nat): seq<WriterCall<F>>
  {
    [SetFrameRate(GENERATOR_FPS), SetResolution(LOCAL_SCREEN_WIDTH, LOCAL_SCREEN_HEIGHT),
     Open(FileName(config, split, i))]
  }

  /** The time step of a 60 fps simulator. */
  function GeneratorTimeStep(): real
  {
    1.0 / GENERATOR_FPS as real
  }

  /** The world every sample starts from: the bounding box alone. */
  function StartWorld(): seq<Body>
  {
    [ScreenBox(LOCAL_SCREEN_WIDTH, LOCAL_SCREEN_HEIGHT)]
  }

  /** The frames n steps from `start` write: one per step, rendered from
      the world the step starts from. */
  function FramesFrom<F>(render: seq<Body> -> F, physics: Physics, start: seq<Body>, dt: real,
                         n: nat): seq<WriterCall<F>>
  {
    Writes(render, Trajectory(physics, start, dt, n))
  }

  /** The frames of sample i: those of its `sequence_len` steps. */
  function SampleFrames<F>(config: Config, render: seq<Body> -> F, physics: Physics,
                           draw: Draws, i: nat): seq<WriterCall<F>>
  {
    FramesFrom(render, physics, SampleWorld(config, draw, i, StartWorld()),
               GeneratorTimeStep(), Count(config.sequenceLen))
  }

  /** The writer calls of sample i: the header, its frames, and the
      `close` of `reset`. */
  function SampleLog<F>(config: Config, split: string, render: seq<Body> -> F, physics: Physics,
                        draw: Draws, i: nat): seq<WriterCall<F>>
  {
    SampleHeader(config, split, i) + SampleFrames(config, render, physics, draw, i) + [Close]
  }

  /** part(0) + part(1) + ... + part(n - 1). */
  function Concat<T>(part: nat -> seq<T>, n: nat): seq<T>
  {
    if n == 0 then [] else Concat(part, n - 1) + part(n - 1)
  }

  /** In the concatenation of n parts, part i starts where the first i
      parts end. */
  lemma {:induction false} ConcatPrefix<T>(part: nat -> seq<T>, i: nat, n: nat)
    requires i < n
    ensures |Concat(part, i)| + |part(i)| <= |Concat(part, n)|
    ensures Concat(part, n)[..|Concat(part, i)| + |part(i)|] == Concat(part, i) + part(i)
  {
    if i < n - 1 {
      ConcatPrefix(part, i, n - 1);
      var m := |Concat(part, i)| + |part(i)|;
      assert Concat(part, n)[..m] == Concat(part, n - 1)[..m];
    }
  }

  /** The writer calls of the first n samples, in sample order. */
  function SamplesLog<F>(config: Config, split: string, render: seq<Body> -> F, physics: Physics,
                         draw: Draws, n: nat): seq<WriterCall<F>>
  {
    Concat((i: nat) => SampleLog(config, split, render, physics, draw, i), n)
  }

  /** The writer calls of a whole split: every sample's, then the `close`
      the `with` block's `quit` makes once a sample has been saved. */
  function DatasetLog<F>(config: Config, split: string, render: seq<Body> -> F, physics: Physics,
                         draw: Draws, samples: nat): seq<WriterCall<F>>
  {
    SamplesLog(config, split, render, physics, draw, samples) + (if samples > 0 then [Close] else [])
  }

  /** Sample i writes exactly `sequence_len` frames (none when it is not
      positive), between its header and its `close`. */
  lemma SampleLogShape<F>(config: Config, split: string, render: seq<Body> -> F, physics: Physics,
                          draw: Draws, i: nat)
    ensures var log := SampleLog(config, split, render, physics, draw, i);
      |log| == Count(config.sequenceLen) + 4 &&
      log[2] == Open(FileName(config, split, i)) && log[|log| - 1] == Close &&
      (forall k :: 3 <= k < |log| - 1 ==> log[k].Write?)
  {
    var start := SampleWorld(config, draw, i, StartWorld());
    var n := Count(config.sequenceLen);
    HeaderFramesClose(config, split, i, render, physics, start, GeneratorTimeStep(), n);
  }

  /** The shape of a sample's log, whatever world it starts from. */
  lemma HeaderFramesClose<F>(config: Config, split: string, i: nat, render: seq<Body> -> F,
                             physics: Physics, start: seq<Body>, dt: real, n: nat)
    ensures var log := SampleHeader(config, split, i) + FramesFrom(render, physics, start, dt, n) + [Close];
      |log| == n + 4 &&
      log[2] == Open(FileName(config, split, i)) && log[|log| - 1] == Close &&
      (forall k :: 3 <= k < |log| - 1 ==> log[k].Write?)
  {
    FramesFromWrite(render, physics, start, dt, n);
    Bracketed(SampleHeader(config, split, i), FramesFrom(render, physics, start, dt, n));
  }

  /** Writes between a three-call header and a `close`. */
  lemma Bracketed<F>(header: seq<WriterCall<F>>, ws: seq<WriterCall<F>>)
    requires |header| == 3 && forall k :: 0 <= k < |ws| ==> ws[k].Write?
    ensures var log := header + ws + [Close];
      |log| == |ws| + 4 && log[2] == header[2] && log[|log| - 1] == Close &&
      (forall k :: 3 <= k < |log| - 1 ==> log[k].Write?)
  {
    var log := header + ws + [Close];
    forall k | 3 <= k < |log| - 1
      ensures log[k].Write?
    {
      assert log[k] == ws[k - 3];
    }
  }

  /** n steps write n frames. */
  lemma FramesFromWrite<F>(render: seq<Body> -> F, physics: Physics, start: seq<Body>, dt: real, n: nat)
    ensures |FramesFrom(render, physics, start, dt, n)| == n
    ensures forall k :: 0 <= k < n ==> FramesFrom(render, physics, start, dt, n)[k].Write?
  {
    var worlds := Trajectory(physics, start, dt, n);
    forall k | 0 <= k < n
      ensures FramesFrom(render, physics, start, dt, n)[k].Write?
    {
      WritesAt(render, worlds, k);
    }
  }

  /** The log of n samples is their logs one after the other: sample i's
      starts where the first i samples' end. */
  lemma SamplesLogPrefix<F>(config: Config, split: string, render: seq<Body> -> F,
                            physics: Physics, draw: Draws, i: nat, n: nat)
    requires i < n
    ensures var (before, at) := (SamplesLog(config, split, render, physics, draw, i),
                                 SampleLog(config, split, render, physics, draw, i));
      var all := SamplesLog(config, split, render, physics, draw, n);
      |before| + |at| <= |all| && all[..|before| + |at|] == before + at
  {
    ConcatPrefix((i: nat) => SampleLog(config, split, render, physics, draw, i), i, n);
  }

  // ---------------------------------------------------------------------
  // add_rand_circle's keyword
  // ---------------------------------------------------------------------

  /** A call `add_rand_circle(<name>=value)` on the `BouncingBalls` of
      bouncing_balls.py, whose signature is `(mean_vel=5000, radius=5)`:
      the (mean_vel, radius) it runs with, or a TypeError for a keyword it
      does not take. */
  function BindRandCircleKeyword(name: string, value: int): (r: Result<(int, int), Failure>)
    ensures r.Ok? <==> name == "mean_vel" || name == "radius"
    ensures r.Err? ==> r.error == TypeError
    ensures r.Ok? ==> (name == "mean_vel" ==> r.value.0 == value) && (name == "radius" ==> r.value.1 == value)
    ensures r.Ok? ==> (name == "mean_vel" ==> r.value.1 == 5) && (name == "radius" ==> r.value.0 == 5000)
  {
    if name == "mean_vel" then Ok((value, 5))
    else if name == "radius" then Ok((5000, value))
    else Err(TypeError)
  }

  /** The keyword the dof-2 branch passes. */
  const LINE_144_KEYWORD: string := "max_vel"

  /** As written, the dof-2 branch without occlusion raises TypeError on
      its first ball, so such a configuration with a ball and a sample
      never gets past the first `save_to`; with `mean_vel` it adds the
      ball with the configured mean speed. */
  lemma Line144RaisesTypeError(config: Config)
    ensures BindRandCircleKeyword(LINE_144_KEYWORD, config.meanVel) == Err(TypeError)
    ensures BindRandCircleKeyword("mean_vel", config.meanVel) == Ok((config.meanVel, 5))
  {
  }

  // ---------------------------------------------------------------------
  // the renderer of generate_dataset
  // ---------------------------------------------------------------------

  /** A call `VideoRenderer(...)` of render.py with n positional
      arguments: its `__init__(width, height, channel_ordering)` has no
      default, so any other number of arguments is a TypeError. */
  function NewVideoRenderer(n: nat): (r: Option<Failure>)
    ensures r.None? <==> n == 3
    ensures r.Some? ==> r.value == TypeError
  {
    if n == 3 then None else Some(TypeError)
  }

  /** The arguments generate_dataset passes: the width and the height. */
  const LINE_123_ARGUMENTS: nat := 2

  /** As written, generate_dataset raises TypeError while it builds its
      renderer, before the first sample, for either split; with a channel
      ordering given the renderer is built. */
  lemma Line123RaisesTypeError()
    ensures NewVideoRenderer(LINE_123_ARGUMENTS) == Some(TypeError)
    ensures NewVideoRenderer(LINE_123_ARGUMENTS + 1) == None
  {
  }

  // ---------------------------------------------------------------------
  // generate_dataset
  // ---------------------------------------------------------------------

  /** The state a `BouncingBalls` is in between two samples of
      generate_dataset. */
  ghost predicate Idle<F>(bb: Legacy.BouncingBalls<F>)
    reads bb
  {
    bb.Valid() && bb.screenWidthPx == LOCAL_SCREEN_WIDTH && bb.screenHeightPx == LOCAL_SCREEN_HEIGHT &&
    bb.fps == GENERATOR_FPS && bb.timeStep == GeneratorTimeStep() && bb.rendererVisible.Some? &&
    bb.world == StartWorld()
  }

  /** The occlusion and ball loops of one sample, as corrected. Line 144
      of generate_data.py writes `add_rand_circle(max_vel=...)`, a keyword
      the method does not have, so the dof-2 branch raises TypeError there
      (Line144RaisesTypeError, recorded under Findings). Here that branch
      is the intended `add_rand_circle(mean_vel=config.mean_vel)` call;
      `mean_vel` only shapes the distribution the speed is drawn from. */
  method AddBodies<F>(bb: Legacy.BouncingBalls<F>, config: Config, draw: Draws, i: nat)
    requires bb.Valid() && bb.screenWidthPx == LOCAL_SCREEN_WIDTH && bb.screenHeightPx == LOCAL_SCREEN_HEIGHT
    modifies bb`world
    ensures bb.Valid()
    ensures bb.world == SampleWorld(config, draw, i, old(bb.world))
  {
    if config.occlusion {
      bb.AddRectangularOcclusion(OCCLUSION);
      ghost var base := bb.world;
      for j := 0 to Count(config.balls)
        invariant bb.Valid()
        invariant bb.world == BallsAdded(config, draw, i, base, j)
      {
        var d := draw(i, j);
        var position := LocalRandomPosOutsideRectangle(OCCLUSION, d.u1, d.u2);
        bb.AddCircle(Vec(position.0, position.1), Scaled(d), 5.0);
      }
    } else {
      ghost var base := bb.world;
      for j := 0 to Count(config.balls)
        invariant bb.Valid()
        invariant bb.world == BallsAdded(config, draw, i, base, j)
      {
        var d := draw(i, j);
        if config.dof == 1 {
          var position := RandPos(bb.screenWidthPx, bb.screenHeightPx, d.u1, d.u2);
          bb.AddCircle(position, Vec(2.0 * 5000.0 * d.u3 - 5000.0, 0.0), 5.0);
        } else if config.dof == 2 {
          bb.AddRandCircle(d.u1, d.u2, Scaled(d), 5.0);
        }
      }
    }
  }

  /** Sample i: save to its file, add its bodies, step `sequence_len`
      times (the length each step reports is not used), reset. */
  method GenerateSample<F>(bb: Legacy.BouncingBalls<F>, config: Config, split: string, draw: Draws, i: nat)
    requires Idle(bb)
    modifies bb`world, bb`metadata, bb`writerLog, bb`save
    ensures Idle(bb) && bb.save
    ensures bb.writerLog == old(bb.writerLog) + SampleLog(config, split, bb.render, bb.physics, draw, i)
  {
    ghost var log0 := bb.writerLog;
    PrepareSample(bb, config, split, draw, i);
    ghost var start := bb.world;
    StepTimes(bb, Count(config.sequenceLen));
    bb.Reset();
    SampleLogOfParts(config, split, bb.render, bb.physics, draw, i, log0, start, bb.timeStep);
  }

  /** The calls of one sample, put together: the header, the frames of the
      steps from the sample's world, the `close`. */
  lemma SampleLogOfParts<F>(config: Config, split: string, render: seq<Body> -> F, physics: Physics,
                            draw: Draws, i: nat, log0: seq<WriterCall<F>>, start: seq<Body>, dt: real)
    requires start == SampleWorld(config, draw, i, StartWorld()) && dt == GeneratorTimeStep()
    ensures log0 + SampleHeader(config, split, i) + FramesFrom(render, physics, start, dt, Count(config.sequenceLen)) +
      [Close] == log0 + SampleLog(config, split, render, physics, draw, i)
  {
  }

  /** The start of sample i: `save_to` its file, then its bodies. */
  method PrepareSample<F>(bb: Legacy.BouncingBalls<F>, config: Config, split: string, draw: Draws, i: nat)
    requires Idle(bb)
    modifies bb`world, bb`writerLog, bb`save
    ensures bb.Valid() && bb.save
    ensures bb.world == SampleWorld(config, draw, i, StartWorld())
    ensures bb.writerLog == old(bb.writerLog) + SampleHeader(config, split, i)
  {
    bb.SaveTo(FileName(config, split, i));
    AddBodies(bb, config, draw, i);
  }

  /** `for k in range(frame_per_sequence): bouncing_balls.step()` on a
      saving simulator: one frame per step, from the worlds the n steps
      start from. The length each step reports is not used. */
  method StepTimes<F>(bb: Legacy.BouncingBalls<F>, n: nat)
    requires bb.Valid() && bb.save
    modifies bb`world, bb`metadata, bb`writerLog
    ensures bb.Valid()
    ensures bb.world == Iterate(bb.physics, old(bb.world), bb.timeStep, n)
    ensures bb.writerLog == old(bb.writerLog) + FramesFrom(bb.render, bb.physics, old(bb.world), bb.timeStep, n)
  {
    for k := 0 to n
      invariant bb.Valid()
      invariant bb.world == Iterate(bb.physics, old(bb.world), bb.timeStep, k)
      invariant bb.writerLog == LogAfter(old(bb.writerLog), true, bb.render, bb.physics, old(bb.world), bb.timeStep, k)
    {
      LogStepExtends(old(bb.writerLog), true, bb.render, bb.physics, old(bb.world), bb.timeStep, k);
      IterateStep(bb.physics, old(bb.world), bb.timeStep, k);
      var _ := bb.Step(0);
    }
  }

  /** `generate_dataset(config, train_or_test, suppress_output)`, as
      corrected: line 123 of generate_data.py builds the renderer without
      the channel ordering it needs, which raises TypeError
      (Line123RaisesTypeError, recorded under Findings). Here the renderer
      is built with one, on a `BouncingBalls` over the 64 x 48 renderer
      `render` draws with: a
      ValueError for an unknown split; otherwise the samples one after the
      other, and the `quit` of the `with` block. */
  method GenerateDataset<F>(config: Config, split: string, suppressOutput: bool,
                            render: seq<Body> -> F, physics: Physics, draw: Draws)
    returns (log: seq<WriterCall<F>>, err: Option<Failure>)
    requires KeepsBodies(physics)
    ensures err == (if split != TRAIN && split != TEST then Some(ValueError) else None)
    ensures err.Some? ==> log == []
    ensures err.None? ==>
      log == DatasetLog(config, split, render, physics, draw, Count(SampleCount(config, split).value))
  {
    if split != TRAIN && split != TEST {
      return [], Some(ValueError);
    }
    var samples := Count(SampleCount(config, split).value);
    var bb := new Legacy.BouncingBalls(LOCAL_SCREEN_WIDTH, LOCAL_SCREEN_HEIGHT, render, physics, true, None);
    var _ := bb.SetFps(GENERATOR_FPS);
    bb.SuppressOutput(suppressOutput);
    for i := 0 to samples
      invariant Idle(bb) && bb.render == render && bb.physics == physics
      invariant bb.save == (i > 0)
      invariant bb.writerLog == SamplesLog(config, split, render, physics, draw, i)
    {
      GenerateSample(bb, config, split, draw, i);
    }
    bb.Quit();
    log := bb.writerLog;
    err := None;
  }

  // ---------------------------------------------------------------------
  // generate_data
  // ---------------------------------------------------------------------

  /** What `generate_data` reads from the file system: whether `data_dir`
      exists and, for each split's directory, how many entries it lists
      (None when it does not exist). The `and` stops before listing the
      test directory when the training count differs. Ok(true): the data
      is already there. */
  function SkipGeneration(config: Config, dataDirExists: bool, trainFiles: Option<nat>,
                          testFiles: Option<nat>): (r: Result<bool, Failure>)
    ensures r == Ok(true) <==>
      dataDirExists && trainFiles.Some? && trainFiles.value == config.sequences &&
      testFiles.Some? && testFiles.value == config.sequences / 10
    ensures r.Err? <==>
      dataDirExists && (trainFiles.None? || (trainFiles.value == config.sequences && testFiles.None?))
    ensures r.Err? ==> r.error == FileNotFoundError
  {
    if !dataDirExists then Ok(false)
    else if trainFiles.None? then Err(FileNotFoundError)
    else if trainFiles.value != config.sequences then Ok(false)
    else if testFiles.None? then Err(FileNotFoundError)
    else Ok(testFiles.value == config.sequences / 10)
  }

  /** `generate_data(config, suppress_output)`: nothing when the dataset
      is already there; otherwise the training set, then the test set, each
      with its own simulator and writer (the logs come back in that
      order). */
  method GenerateAll<F>(config: Config, dataDirExists: bool, trainFiles: Option<nat>, testFiles: Option<nat>,
                        suppressOutput: bool, render: seq<Body> -> F, physics: Physics,
                        trainDraw: Draws, testDraw: Draws)
    returns (logs: seq<seq<WriterCall<F>>>, err: Option<Failure>)
    requires KeepsBodies(physics)
    ensures var skip := SkipGeneration(config, dataDirExists, trainFiles, testFiles);
      (skip.Err? ==> err == Some(skip.error) && logs == []) &&
      (skip == Ok(true) ==> err == None && logs == []) &&
      (skip == Ok(false) ==>
        err == None &&
        logs == [DatasetLog(config, TRAIN, render, physics, trainDraw, Count(config.sequences)),
                 DatasetLog(config, TEST, render, physics, testDraw, Count(config.sequences / 10))])
  {
    var skip := SkipGeneration(config, dataDirExists, trainFiles, testFiles);
    if skip.Err? {
      return [], Some(skip.error);
    }
    if skip.value {
      return [], None;
    }
    var trainLog, _ := GenerateDataset(config, TRAIN, suppressOutput, render, physics, trainDraw);
    var testLog, _ := GenerateDataset(config, TEST, suppressOutput, render, physics, testDraw);
    logs := [trainLog, testLog];
    err := None;
  }
}
