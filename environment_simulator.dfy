/** `EnvironmentSimulator` (environment_simulator.py): a Box2D world with a
    bounding box along the screen border, circles and occlusions added by
    the caller, stepped at a fixed frame rate while every frame goes to a
    writer and, optionally, the ball positions to a metadata list.

    The renderer is given as its screen size and its `get_frame`, a
    function of the bodies; the writer as the log of the calls made on it;
    Box2D's `world.Step` as the `physics` function. */
module EnvSim {
  import opened Common
  import opened Wrappers
  import opened World
  import opened PySim

  class EnvironmentSimulator<F> {
    const screenWidthPx: int
    const screenHeightPx: int
    /** `renderer.get_frame`. */
    const render: seq<Body> -> F
    /** `world.Step(time_step, 10, 10)`. */
    const physics: Physics
    const saveMetadata: bool

    var fps: int
    var timeStep: real
    var world: seq<Body>
    var metadata: seq<seq<(int, int)>>
    var save: bool
    /** The calls made on the writer, oldest first. */
    var writerLog: seq<WriterCall<F>>
    /** The renderer's `is_visible` attribute; None while it has none. */
    var rendererVisible: Option<bool>

    /** The bounding box is the body created first, so it is the last of
        the list, and Box2D's step keeps every body where it is. */
    ghost predicate Valid()
      reads this
    {
      |world| >= 1 && KeepsBodies(physics)
    }

    /** `__init__(renderer, save_metadata)`: fps 60, nothing saved, and a
        world holding only the bounding box. */
    constructor (widthPx: int, heightPx: int, render: seq<Body> -> F, physics: Physics,
                 saveMetadata: bool, rendererVisible: Option<bool>)
      requires KeepsBodies(physics)
      ensures Valid()
      ensures screenWidthPx == widthPx && screenHeightPx == heightPx
      ensures this.render == render && this.physics == physics
      ensures this.saveMetadata == saveMetadata && this.rendererVisible == rendererVisible
      ensures fps == DEFAULT_FPS && timeStep == 1.0 / DEFAULT_FPS as real
      ensures world == [ScreenBox(widthPx, heightPx)]
      ensures metadata == [] && !save && writerLog == []
    {
      screenWidthPx := widthPx;
      screenHeightPx := heightPx;
      this.render := render;
      this.physics := physics;
      this.saveMetadata := saveMetadata;
      this.rendererVisible := rendererVisible;
      fps := DEFAULT_FPS;
      timeStep := 1.0 / DEFAULT_FPS as real;
      world := [ScreenBox(widthPx, heightPx)];
      metadata := [];
      save := false;
      writerLog := [];
    }

    /** The `fps` property. */
    function Fps(): int
      reads this
    {
      fps
    }

    /** The `fps` setter: the rate is stored first, so a rate of zero is
        kept even though computing the time step then fails. */
    method SetFps(newFps: int) returns (err: Option<Failure>)
      modifies this`fps, this`timeStep
      ensures Fps() == newFps
      ensures newFps == 0 ==> err == Some(ZeroDivisionError) && timeStep == old(timeStep)
      ensures newFps != 0 ==> err == None && timeStep * newFps as real == 1.0
    {
      fps := newFps;
      if newFps == 0 {
        return Some(ZeroDivisionError);
      }
      timeStep := 1.0 / newFps as real;
      err := None;
    }

    /** `enable_bounding_box`: switch the box's `active` flag. */
    method EnableBoundingBox(enable: bool)
      requires Valid()
      modifies this`world
      ensures Valid()
      ensures |world| == |old(world)|
      ensures world[|world| - 1] == old(world)[|world| - 1].(active := enable)
      ensures world[..|world| - 1] == old(world)[..|world| - 1]
    {
      var last := |world| - 1;
      world := world[last := world[last].(active := enable)];
    }

    /** `suppress_output`: sets the renderer's `is_visible`, which this
        simulator never reads. */
    method SuppressOutput(noOutput: bool)
      modifies this`rendererVisible
      ensures rendererVisible == Some(!noOutput)
    {
      rendererVisible := Some(!noOutput);
    }

    /** `save_to(path, writer)`: from now on every step writes a frame. The
        writer gets the frame rate, the resolution as (width, height) and
        the path, in that order. */
    method SaveTo(path: string)
      modifies this`save, this`writerLog
      ensures save
      ensures writerLog ==
        old(writerLog) + [SetFrameRate(fps), SetResolution(screenWidthPx, screenHeightPx), Open(path)]
    {
      save := true;
      writerLog := writerLog + [SetFrameRate(fps), SetResolution(screenWidthPx, screenHeightPx), Open(path)];
    }

    method AddLine(p1: Vec, p2: Vec)
      requires Valid()
      modifies this`world
      ensures Valid()
      ensures world == CreateBody(old(world), LineBody(screenHeightPx, p1, p2))
    {
      world := CreateBody(world, LineBody(screenHeightPx, p1, p2));
    }

    method AddRectangularOcclusion(rect: Rect)
      requires Valid()
      modifies this`world
      ensures Valid()
      ensures world == CreateBody(old(world), OcclusionBody(screenHeightPx, rect))
    {
      world := CreateBody(world, OcclusionBody(screenHeightPx, rect));
    }

    method AddCircle(pos: Vec, vel: Vec, radius: real)
      requires Valid()
      modifies this`world
      ensures Valid()
      ensures world == CreateBody(old(world), CircleBody(screenHeightPx, pos, vel, radius))
    {
      world := CreateBody(world, CircleBody(screenHeightPx, pos, vel, radius));
    }

    /** `add_rand_circle`: a circle at `get_rand_pos()`, drawn from u1 and
        u2, moving with `vel`, the velocity `get_rand_vel` drew. */
    method AddRandCircle(u1: real, u2: real, vel: Vec, radius: real)
      requires Valid()
      modifies this`world
      ensures Valid()
      ensures world == CreateBody(old(world),
        CircleBody(screenHeightPx, RandPos(screenWidthPx, screenHeightPx, u1, u2), vel, radius))
    {
      var pos := RandPos(screenWidthPx, screenHeightPx, u1, u2);
      AddCircle(pos, vel, radius);
    }

    /** `_collect_metadata`. */
    method CollectMetadata()
      modifies this`metadata
      ensures metadata == old(metadata) + [MetadataEntry(screenHeightPx, world)]
    {
      var coords := BallsCoordinates(screenHeightPx, world);
      metadata := metadata + [coords];
    }

    /** `step`: render the world, write the frame iff saving, record the
        metadata entry iff asked to, then advance the world by one time
        step; the step lasts `time_step * 1000` ms. */
    method Step() returns (ms: real)
      requires Valid()
      modifies this`world, this`metadata, this`writerLog
      ensures Valid()
      ensures ms == timeStep * 1000.0
      ensures writerLog == old(writerLog) + WriteIf(save, render, old(world))
      ensures metadata == old(metadata) + EntryIf(saveMetadata, screenHeightPx, old(world))
      ensures world == physics(old(world), timeStep)
    {
      assert KeepsBodies(physics);
      var frame := render(world);
      if save {
        writerLog := writerLog + [Write(frame)];
      }
      if saveMetadata {
        CollectMetadata();
      }
      StepKeepsCount(physics, world, timeStep);
      world := physics(world, timeStep);
      ms := timeStep * 1000.0;
    }

    /** `run_simulation(time_s)`: step until the steps add up to at least
        `time_s * 1000` ms, that is StepCount steps, then close the writer
        iff saving. The loop ends only when the time step is positive or
        there is no time to run. */
    method RunSimulation(timeS: real)
      requires Valid()
      requires timeStep > 0.0 || timeS <= 0.0
      modifies this`world, this`metadata, this`writerLog
      ensures Valid()
      ensures var n := StepCount(timeStep * 1000.0, timeS * 1000.0);
        world == Iterate(physics, old(world), timeStep, n) &&
        metadata == MetadataAfter(screenHeightPx, old(metadata), saveMetadata, physics, old(world), timeStep, n) &&
        writerLog == LogAfter(old(writerLog), save, render, physics, old(world), timeStep, n) +
          (if save then [Close] else [])
    {
      var elapsedMs := 0.0;
      var maxTimeMs := timeS * 1000.0;
      ghost var stepMs := timeStep * 1000.0;
      ghost var n := StepCount(stepMs, maxTimeMs);
      ghost var k: nat := 0;
      while elapsedMs < maxTimeMs
        invariant Valid()
        invariant k <= n
        invariant elapsedMs == k as real * stepMs
        invariant world == Iterate(physics, old(world), timeStep, k)
        invariant metadata == MetadataAfter(screenHeightPx, old(metadata), saveMetadata, physics, old(world), timeStep, k)
        invariant writerLog == LogAfter(old(writerLog), save, render, physics, old(world), timeStep, k)
        decreases n - k
      {
        StepCountIsFirst(stepMs, maxTimeMs, k);
        StepExtends(screenHeightPx, old(metadata), saveMetadata, old(writerLog), save, render,
                    physics, old(world), timeStep, k);
        IterateStep(physics, old(world), timeStep, k);
        var ms := Step();
        MultipleStep(k, stepMs);
        elapsedMs := elapsedMs + ms;
        k := k + 1;
      }
      StepCountIsFirst(stepMs, maxTimeMs, k);
      if save {
        writerLog := writerLog + [Close];
      }
    }

    /** `reset`: destroy every body, recreate the bounding box, close the
        writer iff saving (saving stays on) and forget the metadata. */
    method Reset()
      requires Valid()
      modifies this`world, this`metadata, this`writerLog
      ensures Valid()
      ensures world == [ScreenBox(screenWidthPx, screenHeightPx)]
      ensures metadata == []
      ensures writerLog == old(writerLog) + (if save then [Close] else [])
    {
      while world != []
        invariant metadata == old(metadata) && writerLog == old(writerLog)
        decreases |world|
      {
        world := world[1..];
      }
      world := CreateBody(world, ScreenBox(screenWidthPx, screenHeightPx));
      if save {
        writerLog := writerLog + [Close];
      }
      metadata := [];
    }

    /** `quit`, also run on leaving a `with` block. */
    method Quit()
      modifies this`writerLog
      ensures writerLog == old(writerLog) + (if save then [Close] else [])
    {
      if save {
        writerLog := writerLog + [Close];
      }
    }
  }
}
