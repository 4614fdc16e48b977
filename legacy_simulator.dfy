/** The older `BouncingBalls` simulator (bouncing_balls.py), the one the
    Python dataset generator drives. It keeps the same state as
    `EnvironmentSimulator`, but `step` asks the renderer whether it is
    visible: a visible renderer makes the step last whatever the pygame
    clock reports, an invisible one a time step, and a renderer without an
    `is_visible` attribute makes the step fail after it has done its work.

    The pygame clock is given as the readings it would report, clock(k) ms
    at the k-th step of a run. */
module Legacy {
  import opened Common
  import opened Wrappers
  import opened World
  import opened PySim

  /** Milliseconds the first n clock readings add up to. */
  function Elapsed(clock: nat -> nat, n: nat): nat
  {
    if n == 0 then 0 else Elapsed(clock, n - 1) + clock(n - 1)
  }

  /** With every reading at least 1 ms, n readings last at least n ms. */
  lemma {:induction false} ElapsedAtLeast(clock: nat -> nat, n: nat)
    requires forall j: nat :: clock(j) >= 1
    ensures Elapsed(clock, n) >= n
  {
    if n > 0 {
      ElapsedAtLeast(clock, n - 1);
    }
  }

  /** The first n >= k at which the readings add up to maxMs: the number of
      steps a run of maxMs takes on a visible renderer, for k = 0. */
  function ClockSteps(clock: nat -> nat, maxMs: real, k: nat): (n: nat)
    requires forall j: nat :: clock(j) >= 1
    ensures k <= n && Elapsed(clock, n) as real >= maxMs
    ensures forall j: nat :: k <= j < n ==> Elapsed(clock, j) as real < maxMs
    decreases Ceil(maxMs) - k
  {
    if Elapsed(clock, k) as real >= maxMs then k
    else
      ElapsedAtLeast(clock, k);
      ClockSteps(clock, maxMs, k + 1)
  }

  /** The loop test of a run on a visible renderer after k <= n steps. */
  lemma ClockStepsIsFirst(clock: nat -> nat, maxMs: real, k: nat)
    requires forall j: nat :: clock(j) >= 1
    requires k <= ClockSteps(clock, maxMs, 0)
    ensures Elapsed(clock, k) as real < maxMs <==> k < ClockSteps(clock, maxMs, 0)
  {
  }

  /** What `run_simulation` needs to come to an end: a positive time step
      when the renderer is invisible, clock readings of at least 1 ms when
      it is visible (a renderer without `is_visible` fails at once). */
  ghost predicate Terminates(visible: Option<bool>, stepMs: real, clock: nat -> nat, maxMs: real)
  {
    match visible
    case None => true
    case Some(false) => stepMs > 0.0 || maxMs <= 0.0
    case Some(true) => forall j: nat :: clock(j) >= 1
  }

  /** The number of steps `run_simulation` takes: StepCount on an invisible
      renderer, the clock's count on a visible one, and on a renderer
      without `is_visible` the one step that fails, if any time is to be
      run at all. */
  function RunSteps(visible: Option<bool>, stepMs: real, clock: nat -> nat, maxMs: real): nat
    requires Terminates(visible, stepMs, clock, maxMs)
  {
    match visible
    case None => if maxMs > 0.0 then 1 else 0
    case Some(false) => StepCount(stepMs, maxMs)
    case Some(true) => ClockSteps(clock, maxMs, 0)
  }

  /** What `step` returns: the clock's reading on a visible renderer, the
      time step in ms on an invisible one, and an AttributeError where the
      renderer has no `is_visible`. */
  function StepLength(visible: Option<bool>, clockMs: nat, stepMs: real): Result<real, Failure>
  {
    match visible
    case None => Err(AttributeError)
    case Some(true) => Ok(clockMs as real)
    case Some(false) => Ok(stepMs)
  }

  /** The time the first k steps of a run took. */
  function ElapsedAfter(visible: Option<bool>, clock: nat -> nat, stepMs: real, k: nat): real
  {
    match visible
    case None => 0.0
    case Some(false) => k as real * stepMs
    case Some(true) => Elapsed(clock, k) as real
  }

  /** A successful step adds its length to the elapsed time. */
  lemma ElapsedGrows(visible: Option<bool>, clock: nat -> nat, stepMs: real, k: nat)
    requires visible != None
    ensures ElapsedAfter(visible, clock, stepMs, k + 1) ==
      ElapsedAfter(visible, clock, stepMs, k) + StepLength(visible, clock(k), stepMs).value
  {
    MultipleStep(k, stepMs);
  }

  class BouncingBalls<F> {
    const screenWidthPx: int
    const screenHeightPx: int
    /** `renderer.get_frame`. */
    const render: seq<Body> -> F
    /** `world.Step(time_step, 10, 10)`. */
    const physics: Physics
    const saveMetadata: bool

    var fps: int
    var timeStep: real
    var world: seq<Body>
    var metadata: seq<seq<(int, int)>>
    var save: bool
    /** The calls made on the writer, oldest first. */
    var writerLog: seq<WriterCall<F>>
    /** The renderer's `is_visible` attribute; None while it has none. */
    var rendererVisible: Option<bool>

    /** The bounding box is the body created first, so it is the last of
        the list, and Box2D's step keeps every body where it is. */
    ghost predicate Valid()
      reads this
    {
      |world| >= 1 && KeepsBodies(physics)
    }

    /** `__init__(renderer, save_metadata)`: fps 60, nothing saved, and a
        world holding only the bounding box. */
    constructor (widthPx: int, heightPx: int, render: seq<Body> -> F, physics: Physics,
                 saveMetadata: bool, rendererVisible: Option<bool>)
      requires KeepsBodies(physics)
      ensures Valid()
      ensures screenWidthPx == widthPx && screenHeightPx == heightPx
      ensures this.render == render && this.physics == physics
      ensures this.saveMetadata == saveMetadata && this.rendererVisible == rendererVisible
      ensures fps == DEFAULT_FPS && timeStep == 1.0 / DEFAULT_FPS as real
      ensures world == [ScreenBox(widthPx, heightPx)]
      ensures metadata == [] && !save && writerLog == []
    {
      screenWidthPx := widthPx;
      screenHeightPx := heightPx;
      this.render := render;
      this.physics := physics;
      this.saveMetadata := saveMetadata;
      this.rendererVisible := rendererVisible;
      fps := DEFAULT_FPS;
      timeStep := 1.0 / DEFAULT_FPS as real;
      world := [ScreenBox(widthPx, heightPx)];
      metadata := [];
      save := false;
      writerLog := [];
    }

    /** `set_fps`: the rate is stored first, so a rate of zero is kept
        even though computing the time step then fails. */
    method SetFps(newFps: int) returns (err: Option<Failure>)
      modifies this`fps, this`timeStep
      ensures fps == newFps
      ensures newFps == 0 ==> err == Some(ZeroDivisionError) && timeStep == old(timeStep)
      ensures newFps != 0 ==> err == None && timeStep * newFps as real == 1.0
    {
      fps := newFps;
      if newFps == 0 {
        return Some(ZeroDivisionError);
      }
      timeStep := 1.0 / newFps as real;
      err := None;
    }

    /** `enable_bounding_box`: switch the box's `active` flag. */
    method EnableBoundingBox(enable: bool)
      requires Valid()
      modifies this`world
      ensures Valid()
      ensures |world| == |old(world)|
      ensures world[|world| - 1] == old(world)[|world| - 1].(active := enable)
      ensures world[..|world| - 1] == old(world)[..|world| - 1]
    {
      var last := |world| - 1;
      world := world[last := world[last].(active := enable)];
    }

    /** `suppress_output`: give the renderer an `is_visible` attribute. */
    method SuppressOutput(noOutput: bool)
      modifies this`rendererVisible
      ensures rendererVisible == Some(!noOutput)
    {
      rendererVisible := Some(!noOutput);
    }

    /** `save_to(path, writer)`. */
    method SaveTo(path: string)
      modifies this`save, this`writerLog
      ensures save
      ensures writerLog ==
        old(writerLog) + [SetFrameRate(fps), SetResolution(screenWidthPx, screenHeightPx), Open(path)]
    {
      save := true;
      writerLog := writerLog + [SetFrameRate(fps), SetResolution(screenWidthPx, screenHeightPx), Open(path)];
    }

    method AddLine(p1: Vec, p2: Vec)
      requires Valid()
      modifies this`world
      ensures Valid()
      ensures world == CreateBody(old(world), LineBody(screenHeightPx, p1, p2))
    {
      world := CreateBody(world, LineBody(screenHeightPx, p1, p2));
    }

    method AddRectangularOcclusion(rect: Rect)
      requires Valid()
      modifies this`world
      ensures Valid()
      ensures world == CreateBody(old(world), OcclusionBody(screenHeightPx, rect))
    {
      world := CreateBody(world, OcclusionBody(screenHeightPx, rect));
    }

    method AddCircle(pos: Vec, vel: Vec, radius: real)
      requires Valid()
      modifies this`world
      ensures Valid()
      ensures world == CreateBody(old(world), CircleBody(screenHeightPx, pos, vel, radius))
    {
      world := CreateBody(world, CircleBody(screenHeightPx, pos, vel, radius));
    }

    /** `add_rand_circle`: a circle at `get_rand_pos()`, drawn from u1 and
        u2, moving with `vel`, the velocity `get_rand_vel` drew. */
    method AddRandCircle(u1: real, u2: real, vel: Vec, radius: real)
      requires Valid()
      modifies this`world
      ensures Valid()
      ensures world == CreateBody(old(world),
        CircleBody(screenHeightPx, RandPos(screenWidthPx, screenHeightPx, u1, u2), vel, radius))
    {
      var pos := RandPos(screenWidthPx, screenHeightPx, u1, u2);
      AddCircle(pos, vel, radius);
    }

    /** `_collect_metadata`. */
    method CollectMetadata()
      modifies this`metadata
      ensures metadata == old(metadata) + [MetadataEntry(screenHeightPx, world)]
    {
      var coords := BallsCoordinates(screenHeightPx, world);
      metadata := metadata + [coords];
    }

    /** `step`, the clock reporting clockMs: render, write the frame iff
        saving, record the metadata entry iff asked to, advance the world
        by one time step; then report the step's length, failing when the
        renderer has no `is_visible`. */
    method Step(clockMs: nat) returns (r: Result<real, Failure>)
      requires Valid()
      modifies this`world, this`metadata, this`writerLog
      ensures Valid()
      ensures writerLog == old(writerLog) + WriteIf(save, render, old(world))
      ensures metadata == old(metadata) + EntryIf(saveMetadata, screenHeightPx, old(world))
      ensures world == physics(old(world), timeStep)
      ensures r == StepLength(rendererVisible, clockMs, timeStep * 1000.0)
    {
      assert KeepsBodies(physics);
      var frame := render(world);
      if save {
        writerLog := writerLog + [Write(frame)];
      }
      if saveMetadata {
        CollectMetadata();
      }
      StepKeepsCount(physics, world, timeStep);
      world := physics(world, timeStep);
      if rendererVisible == None {
        r := Err(AttributeError);
      } else if rendererVisible.value {
        r := Ok(clockMs as real);
      } else {
        r := Ok(timeStep * 1000.0);
      }
    }

    /** `run_simulation(time_s)`: run the steps, then close the writer iff
        saving; a failing step ends the run before the writer is closed. */
    method RunSimulation(timeS: real, clock: nat -> nat) returns (err: Option<Failure>)
      requires Valid()
      requires Terminates(rendererVisible, timeStep * 1000.0, clock, timeS * 1000.0)
      modifies this`world, this`metadata, this`writerLog
      ensures Valid()
      ensures err == (if rendererVisible == None && timeS * 1000.0 > 0.0 then Some(AttributeError) else None)
      ensures var n := RunSteps(rendererVisible, timeStep * 1000.0, clock, timeS * 1000.0);
        world == Iterate(physics, old(world), timeStep, n) &&
        metadata == MetadataAfter(screenHeightPx, old(metadata), saveMetadata, physics, old(world), timeStep, n) &&
        writerLog == LogAfter(old(writerLog), save, render, physics, old(world), timeStep, n) +
          (if save && err == None then [Close] else [])
    {
      err := RunLoop(timeS * 1000.0, clock);
      if err == None && save {
        writerLog := writerLog + [Close];
      }
    }

    /** The loop of `run_simulation`: step until the steps add up to at
        least maxMs, RunSteps steps, or until a step fails. */
    method RunLoop(maxTimeMs: real, clock: nat -> nat) returns (err: Option<Failure>)
      requires Valid()
      requires Terminates(rendererVisible, timeStep * 1000.0, clock, maxTimeMs)
      modifies this`world, this`metadata, this`writerLog
      ensures Valid()
      ensures err == (if rendererVisible == None && maxTimeMs > 0.0 then Some(AttributeError) else None)
      ensures var n := RunSteps(rendererVisible, timeStep * 1000.0, clock, maxTimeMs);
        world == Iterate(physics, old(world), timeStep, n) &&
        metadata == MetadataAfter(screenHeightPx, old(metadata), saveMetadata, physics, old(world), timeStep, n) &&
        writerLog == LogAfter(old(writerLog), save, render, physics, old(world), timeStep, n)
    {
      var elapsedMs := 0.0;
      ghost var stepMs := timeStep * 1000.0;
      ghost var n := RunSteps(rendererVisible, stepMs, clock, maxTimeMs);
      var k: nat := 0;  // which clock reading the next step gets
      while elapsedMs < maxTimeMs
        invariant Valid()
        invariant k <= n
        invariant rendererVisible == None ==> k == 0
        invariant elapsedMs == ElapsedAfter(rendererVisible, clock, stepMs, k)
        invariant world == Iterate(physics, old(world), timeStep, k)
        invariant metadata == MetadataAfter(screenHeightPx, old(metadata), saveMetadata, physics, old(world), timeStep, k)
        invariant writerLog == LogAfter(old(writerLog), save, render, physics, old(world), timeStep, k)
        decreases n - k
      {
        StepExtends(screenHeightPx, old(metadata), saveMetadata, old(writerLog), save, render,
                    physics, old(world), timeStep, k);
        IterateStep(physics, old(world), timeStep, k);
        var r := Step(clock(k));
        Progress(rendererVisible, clock, stepMs, maxTimeMs, k, r);
        if r.Err? {
          return Some(r.error);
        }
        elapsedMs := elapsedMs + r.value;
        k := k + 1;
      }
      RunStepsIsFirst(rendererVisible, stepMs, clock, maxTimeMs, k);
      err := None;
    }

    /** `reset`: destroy every body, recreate the bounding box, close the
        writer iff saving (saving stays on) and forget the metadata. */
    method Reset()
      requires Valid()
      modifies this`world, this`metadata, this`writerLog
      ensures Valid()
      ensures world == [ScreenBox(screenWidthPx, screenHeightPx)]
      ensures metadata == []
      ensures writerLog == old(writerLog) + (if save then [Close] else [])
    {
      while world != []
        invariant metadata == old(metadata) && writerLog == old(writerLog)
        decreases |world|
      {
        world := world[1..];
      }
      world := CreateBody(world, ScreenBox(screenWidthPx, screenHeightPx));
      if save {
        writerLog := writerLog + [Close];
      }
      metadata := [];
    }

    /** `quit`, also run on leaving a `with` block. */
    method Quit()
      modifies this`writerLog
      ensures writerLog == old(writerLog) + (if save then [Close] else [])
    {
      if save {
        writerLog := writerLog + [Close];
      }
    }
  }

  /** Step k + 1 of a run: it is one of the RunSteps steps; it fails only
      on a renderer without `is_visible`, as the last step; otherwise it
      adds its length to the elapsed time. */
  lemma Progress(visible: Option<bool>, clock: nat -> nat, stepMs: real, maxMs: real, k: nat,
                 r: Result<real, Failure>)
    requires Terminates(visible, stepMs, clock, maxMs)
    requires k <= RunSteps(visible, stepMs, clock, maxMs) && (visible == None ==> k == 0)
    requires ElapsedAfter(visible, clock, stepMs, k) < maxMs
    requires r == StepLength(visible, clock(k), stepMs)
    ensures k < RunSteps(visible, stepMs, clock, maxMs)
    ensures r.Err? ==>
      visible == None && r.error == AttributeError && RunSteps(visible, stepMs, clock, maxMs) == k + 1
    ensures r.Ok? ==>
      visible != None &&
      ElapsedAfter(visible, clock, stepMs, k + 1) == ElapsedAfter(visible, clock, stepMs, k) + r.value
  {
    RunStepsIsFirst(visible, stepMs, clock, maxMs, k);
    if r.Ok? {
      ElapsedGrows(visible, clock, stepMs, k);
    }
  }

  /** The loop test of `run_simulation` after k <= RunSteps steps: with the
      time the k steps took, the loop goes on exactly while k < RunSteps. */
  lemma RunStepsIsFirst(visible: Option<bool>, stepMs: real, clock: nat -> nat, maxMs: real, k: nat)
    requires Terminates(visible, stepMs, clock, maxMs)
    requires k <= RunSteps(visible, stepMs, clock, maxMs)
    requires visible == None ==> k == 0
    ensures ElapsedAfter(visible, clock, stepMs, k) < maxMs <==> k < RunSteps(visible, stepMs, clock, maxMs)
  {
    match visible
    case None =>
    case Some(false) => StepCountIsFirst(stepMs, maxMs, k);
    case Some(true) => ClockStepsIsFirst(clock, maxMs, k);
  }
}
