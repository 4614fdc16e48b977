/** The C++ `bounce::Simulator` (simulator.cpp): the same state machine as
    the Python simulators over a Box2D world, with a `VideoRenderer` whose
    frames go to an `NpyWriter`. Unlike the Python versions, its time step
    is a whole number of milliseconds (`1000 / fps` by integer division),
    which is also what it hands to `world->Step`; its circles are static
    bodies whose velocity keeps its sign; its occlusion box has its
    half-extents swapped and not halved; and it keeps every `BodyData` it
    ever created. */
module CppSim {
  import opened Common
  import opened Wrappers
  import opened World
  import opened NpyWriterModel
  import CppRender
  import PySim

  /** `Simulator::DEFAULT_FPS`. */
  const DEFAULT_FPS: int := 60
  const UINT32_LIMIT: int := 0x1_0000_0000

  /** `BodyData(name, visible)`: the radius takes its default. */
  function CppData(name: string, visible: bool): BodyData
  {
    BodyData(name, visible, DEFAULT_BODY_RADIUS)
  }

  // ---------------------------------------------------------------------
  // Bodies
  // ---------------------------------------------------------------------

  /** `create_screen_bounding_box_`: a static, active, invisible body at the
      screen centre holding one closed chain through the four corners. */
  function ChainBox(widthM: real, heightM: real): Body
  {
    var (cx, cy) := (widthM / 2.0, heightM / 2.0);
    Body(CppData("world_bounding_box", false), Static, true, Vec(cx, cy), Vec(0.0, 0.0),
         [Chain([Vec(-cx, -cy), Vec(cx, -cy), Vec(cx, cy), Vec(-cx, cy)], true)])
  }

  function ScreenChainBox(widthPx: int, heightPx: int): Body
  {
    ChainBox(CppRender.PixelsToMeters(widthPx as real), CppRender.PixelsToMeters(heightPx as real))
  }

  /** The chain box runs through the world-frame images of the four screen
      corners, in the order bottom left, bottom right, top right, top left,
      and closes the loop; it never shows in a frame. */
  lemma ChainBoxCorners(widthPx: int, heightPx: int)
    ensures var b := ScreenChainBox(widthPx, heightPx);
      !b.data.visible && b.active && b.kind == Static && |b.fixtures| == 1 &&
      b.fixtures[0].Chain? && b.fixtures[0].closed && |b.fixtures[0].vertices| == 4 &&
      WorldPoint(b, b.fixtures[0].vertices[0]) == CppRender.ToWorldFrame(heightPx, Vec(0.0, heightPx as real)) &&
      WorldPoint(b, b.fixtures[0].vertices[1]) == CppRender.ToWorldFrame(heightPx, Vec(widthPx as real, heightPx as real)) &&
      WorldPoint(b, b.fixtures[0].vertices[2]) == CppRender.ToWorldFrame(heightPx, Vec(widthPx as real, 0.0)) &&
      WorldPoint(b, b.fixtures[0].vertices[3]) == CppRender.ToWorldFrame(heightPx, Vec(0.0, 0.0))
    ensures !CppRender.SomeUndrawable([ScreenChainBox(widthPx, heightPx)])
  {
  }

  /** `add_line(p1, p2)`: a static, inactive, invisible body placed at the
      midpoint of the two screen-frame points, whose edge runs between
      their world-frame images taken relative to that position. */
  function CppLineBody(heightPx: int, p1: Vec, p2: Vec): Body
  {
    var (w1, w2) := (CppRender.ToWorldFrame(heightPx, p1), CppRender.ToWorldFrame(heightPx, p2));
    var m := Vec((p1.x + p2.x) / 2.0, (p1.y + p2.y) / 2.0);
    Body(CppData("line", false), Static, false, m, Vec(0.0, 0.0),
         [Edge(Vec(w1.x - m.x, w1.y - m.y), Vec(w2.x - m.x, w2.y - m.y))])
  }

  /** Although the body sits at the screen-frame midpoint, its edge still
      joins the world-frame images of p1 and p2, and being invisible it
      does not stop a frame from being drawn. */
  lemma LineEndsInWorldFrame(heightPx: int, bodies: seq<Body>, p1: Vec, p2: Vec)
    ensures var b := CppLineBody(heightPx, p1, p2);
      WorldPoint(b, b.fixtures[0].v1) == CppRender.ToWorldFrame(heightPx, p1) &&
      WorldPoint(b, b.fixtures[0].v2) == CppRender.ToWorldFrame(heightPx, p2)
    ensures CppRender.SomeUndrawable(CreateBody(bodies, CppLineBody(heightPx, p1, p2))) <==>
      CppRender.SomeUndrawable(bodies)
  {
    var w := CreateBody(bodies, CppLineBody(heightPx, p1, p2));
    if CppRender.SomeUndrawable(w) {
      var k :| 0 <= k < |w| && w[k].data.visible && CppRender.HasUndrawable(w[k].fixtures);
      assert w[k] == bodies[k - 1];
    }
    if CppRender.SomeUndrawable(bodies) {
      var k :| 0 <= k < |bodies| && bodies[k].data.visible && CppRender.HasUndrawable(bodies[k].fixtures);
      assert w[k + 1] == bodies[k];
    }
  }

  /** `add_rectangular_occlusion(rect)`: a static, inactive, visible body at
      the world-frame rectangle centre whose box is
      `SetAsBox(height_m, width_m)`: half-extents (h, w). */
  function CppOcclusionBody(heightPx: int, rect: Rect): Body
  {
    var widthM := CppRender.PixelsToMeters(rect.w as real);
    var heightM := CppRender.PixelsToMeters(rect.h as real);
    Body(CppData("rectangular_occlusion", true), Static, false,
         CppRender.ToWorldFrame(heightPx, PySim.RectCenter(rect)), Vec(0.0, 0.0),
         [Polygon(BoxVertices(heightM, widthM))])
  }

  /** The occlusion box is 2h wide and 2w tall: for a non-square rectangle
      it is not the rectangle (the Python box is). And since it is a
      visible polygon, no frame can be drawn once it exists. */
  lemma OcclusionBoxSwapped(heightPx: int, bodies: seq<Body>, rect: Rect)
    requires rect.w >= 0 && rect.h >= 0
    ensures var b := CppOcclusionBody(heightPx, rect);
      b.fixtures[0].Polygon? &&
      (forall v :: v in b.fixtures[0].vertices ==>
        -(rect.h as real) <= v.x <= rect.h as real && -(rect.w as real) <= v.y <= rect.w as real) &&
      Vec(rect.h as real, rect.w as real) in b.fixtures[0].vertices
    ensures CppRender.SomeUndrawable(CreateBody(bodies, CppOcclusionBody(heightPx, rect)))
  {
    BoxVerticesSpan(rect.h as real, rect.w as real);
    var w := CreateBody(bodies, CppOcclusionBody(heightPx, rect));
    assert CppRender.Undrawable(w[0].fixtures[0]);
  }

  /** `add_circle(pos, vel, radius)`: a body tagged "circle", visible, at
      `to_world_frame(pos)`, of Box2D's default (static) type, with the
      velocity scaled but not negated; its circle fixture of the given
      radius is centred at the world-frame position again, relative to the
      body. The renderer draws it with `BodyData.radius`, the default 5. */
  function CppCircleBody(heightPx: int, pos: Vec, vel: Vec, radius: real): Body
  {
    var posM := CppRender.ToWorldFrame(heightPx, pos);
    Body(CppData("circle", true), Static, true, posM,
         Vec(CppRender.PixelsToMeters(vel.x), CppRender.PixelsToMeters(vel.y)),
         [Circle(posM, radius)])
  }

  /** The C++ circle keeps vy where the Python one negates it: the two
      start at the same place, and their vertical velocities are opposite. */
  lemma CircleVelocityNotNegated(heightPx: int, pos: Vec, vel: Vec, radius: real)
    ensures var (c, p) := (CppCircleBody(heightPx, pos, vel, radius), PySim.CircleBody(heightPx, pos, vel, radius));
      c.position == p.position && c.velocity.x == p.velocity.x && c.velocity.y == -p.velocity.y
    ensures var c := CppCircleBody(heightPx, pos, vel, radius);
      c.data.visible && CppRender.HasCircle(c.fixtures) && !CppRender.HasUndrawable(c.fixtures)
  {
    var c := CppCircleBody(heightPx, pos, vel, radius);
    assert c.fixtures[0].Circle?;
  }

  // ---------------------------------------------------------------------
  // Time
  // ---------------------------------------------------------------------

  /** The time step `set_fps(fps)` computes, in ms: `1000 / int32_t(fps)`
      with C++'s truncating division; None for a rate of zero, where the
      C++ division is undefined behaviour. */
  function TimeStepMs(fps: int): (r: Option<int>)
    requires 0 <= fps < UINT32_LIMIT
    ensures r.None? <==> fps == 0
  {
    if fps == 0 then None else Some(TruncDiv(1000, Int32OfUint32(fps)))
  }

  /** Up to 1000 fps the step is the whole number of ms that fits in one
      frame, so it undershoots 1000 / fps; past 1000 fps it is 0, and past
      the int32 range the wrapped divisor makes it 0 or negative. */
  lemma TimeStepBounds(fps: int)
    requires 0 < fps < UINT32_LIMIT
    ensures fps <= 1000 ==> var q := TimeStepMs(fps).value;
      q > 0 && q * fps <= 1000 < (q + 1) * fps
    ensures 1000 < fps < 0x8000_0000 ==> TimeStepMs(fps) == Some(0)
    ensures 0x8000_0000 <= fps ==> -1000 <= TimeStepMs(fps).value <= 0
  {
    if fps <= 1000 {
      DivBounds(1000, fps);
    } else if fps < 0x8000_0000 {
      DivSmall(1000, fps);
    } else {
      DivAtMost(1000, UINT32_LIMIT - fps);
    }
  }

  lemma DivBounds(a: int, b: int)
    requires a >= b > 0
    ensures a / b >= 1 && (a / b) * b <= a < (a / b + 1) * b
  {
    var q, r := a / b, a % b;
    assert q * b + r == a;
    MultipleStepInt(q, b);
    if q < 1 {
      MulLe(q, 0, b);
    }
  }

  lemma DivSmall(a: int, b: int)
    requires 0 <= a < b
    ensures a / b == 0
  {
  }

  lemma DivAtMost(a: int, b: int)
    requires a >= 0 && b >= 1
    ensures 0 <= a / b <= a
  {
    var q := a / b;
    assert q * b + a % b == a;
    if q > a {
      MulLe(a + 1, q, b);
      MulLe(1, b, a + 1);
    }
  }

  lemma MultipleStepInt(k: int, s: int)
    ensures k * s + s == (k + 1) * s
  {
  }

  /** A rate past the int32 range wraps to a negative divisor: the
      largest `uint32_t` gives a step of -1000 ms. */
  lemma LargestFpsWraps()
    ensures TimeStepMs(UINT32_LIMIT - 1) == Some(-1000)
  {
  }

  /** The number of steps `run_simulation` takes: the least n with
      n * stepMs >= maxMs. The loop only ends when the step is positive or
      there is nothing to run. */
  function StepCountMs(stepMs: int, maxMs: int): (n: nat)
    requires stepMs > 0 || maxMs <= 0
    ensures n * stepMs >= maxMs
    ensures n > 0 ==> (n - 1) * stepMs < maxMs
  {
    if maxMs <= 0 then 0
    else
      var q := (maxMs + stepMs - 1) / stepMs;
      CeilDiv(maxMs, stepMs);
      q
  }

  lemma CeilDiv(m: int, s: int)
    requires m > 0 && s > 0
    ensures var q := (m + s - 1) / s;
      q >= 1 && q * s >= m && (q - 1) * s < m
  {
    DivBounds(m + s - 1, s);
    MultipleStepInt((m + s - 1) / s - 1, s);
  }

  /** With the step positive, the count is the rounded-up quotient of
      1000 * time_s by the step. */
  lemma StepCountIsCeil(stepMs: int, timeS: int)
    requires stepMs > 0 && timeS > 0
    ensures StepCountMs(stepMs, 1000 * timeS) == (1000 * timeS + stepMs - 1) / stepMs
  {
  }

  lemma StepCountMsIsFirst(stepMs: int, maxMs: int, k: nat)
    requires stepMs > 0 || maxMs <= 0
    requires k <= StepCountMs(stepMs, maxMs)
    ensures k * stepMs < maxMs <==> k < StepCountMs(stepMs, maxMs)
  {
    var n := StepCountMs(stepMs, maxMs);
    if k < n {
      MulLe(k, n - 1, stepMs);
    }
  }

  // ---------------------------------------------------------------------
  // Runs
  // ---------------------------------------------------------------------

  /** The number of steps among the first n from `bodies` before the first
      whose world has a visible polygon or edge, which `get_frame` rejects. */
  function CleanSteps(physics: Physics, bodies: seq<Body>, dt: real, n: nat): (m: nat)
    ensures m <= n
    ensures forall k :: 0 <= k < m ==> !CppRender.SomeUndrawable(Iterate(physics, bodies, dt, k))
    ensures m < n ==> CppRender.SomeUndrawable(Iterate(physics, bodies, dt, m))
    decreases n
  {
    if n == 0 || CppRender.SomeUndrawable(bodies) then 0
    else
      var m := 1 + CleanSteps(physics, physics(bodies, dt), dt, n - 1);
      assert forall k :: 1 <= k < m ==>
        Iterate(physics, bodies, dt, k) == Iterate(physics, physics(bodies, dt), dt, k - 1);
      m
  }

  /** Before the count is reached, step k is clean iff the run goes past it. */
  lemma CleanStepsNext(physics: Physics, bodies: seq<Body>, dt: real, n: nat, k: nat)
    requires k < n && k <= CleanSteps(physics, bodies, dt, n)
    ensures k < CleanSteps(physics, bodies, dt, n) <==> !CppRender.SomeUndrawable(Iterate(physics, bodies, dt, k))
  {
  }

  /** The frames `get_frame` draws of a sequence of worlds. */
  ghost function Frames(renderer: CppRender.VideoRenderer, worlds: seq<seq<Body>>): (fs: seq<NpyArray>)
    ensures |fs| == |worlds|
  {
    if |worlds| == 0 then []
    else Frames(renderer, worlds[..|worlds| - 1]) + [renderer.Frame(worlds[|worlds| - 1])]
  }

  lemma FramesAppend(renderer: CppRender.VideoRenderer, worlds: seq<seq<Body>>, w: seq<Body>)
    ensures Frames(renderer, worlds + [w]) == Frames(renderer, worlds) + [renderer.Frame(w)]
  {
    assert (worlds + [w])[..|worlds|] == worlds;
  }

  /** The frames of the first k steps from `bodies`. */
  ghost function FramesAfter(renderer: CppRender.VideoRenderer, physics: Physics, bodies: seq<Body>,
                             dt: real, k: nat): seq<NpyArray>
  {
    Frames(renderer, PySim.Trajectory(physics, bodies, dt, k))
  }

  lemma FramesGrow(renderer: CppRender.VideoRenderer, physics: Physics, bodies: seq<Body>, dt: real, k: nat)
    ensures FramesAfter(renderer, physics, bodies, dt, k + 1) ==
      FramesAfter(renderer, physics, bodies, dt, k) + [renderer.Frame(Iterate(physics, bodies, dt, k))]
  {
    PySim.TrajectoryGrows(physics, bodies, dt, k);
    FramesAppend(renderer, PySim.Trajectory(physics, bodies, dt, k), Iterate(physics, bodies, dt, k));
  }

  /** Every frame of the renderer has width * height bytes. */
  ghost predicate Sized(renderer: CppRender.VideoRenderer, frames: seq<NpyArray>)
  {
    forall k :: 0 <= k < |frames| ==> |frames[k].data| == renderer.screenWidthPx * renderer.screenHeightPx
  }

  /** Frames of one size can all be stacked by `close`. */
  lemma SizedCopyable(renderer: CppRender.VideoRenderer, frames: seq<NpyArray>)
    requires Sized(renderer, frames)
    ensures FramesCopyable(frames)
  {
  }

  lemma FramesSized(renderer: CppRender.VideoRenderer, worlds: seq<seq<Body>>)
    ensures Sized(renderer, Frames(renderer, worlds))
  {
    var fs := Frames(renderer, worlds);
    forall k | 0 <= k < |fs|
      ensures |fs[k].data| == renderer.screenWidthPx * renderer.screenHeightPx
    {
      FramesAt(renderer, worlds, k);
    }
  }

  lemma {:induction false} FramesAt(renderer: CppRender.VideoRenderer, worlds: seq<seq<Body>>, k: nat)
    requires k < |worlds|
    ensures Frames(renderer, worlds)[k] == renderer.Frame(worlds[k])
  {
    var n := |worlds| - 1;
    if k < n {
      FramesAt(renderer, worlds[..n], k);
    }
  }

  /** The writer's (frames, path, saved files) after `close`. */
  function Closed(frames: seq<NpyArray>, path: string, saved: seq<SavedFile>): (seq<NpyArray>, string, seq<SavedFile>)
    requires FramesCopyable(frames)
  {
    if frames == [] then ([], path, saved) else ([], "", saved + [SavedFile(path, StackFrames(frames))])
  }

  // ---------------------------------------------------------------------
  // The simulator
  // ---------------------------------------------------------------------

  class Simulator {
    const renderer: CppRender.VideoRenderer
    /** `world_->Step(time_step_.count(), 10, 10)`. */
    const physics: Physics

    var writer: NpyWriter?
    var save: bool
    var world: seq<Body>
    var fps: int
    /** `time_step_`, in milliseconds. */
    var timeStep: int
    /** `body_data_storage_`: every `BodyData` created, oldest first. */
    var bodyDataStorage: seq<BodyData>

    /** The bounding box is the oldest body; the step keeps every body; fps
        is a `uint32_t`; and while saving, the writer holds only this
        renderer's frames. */
    ghost predicate Valid()
      reads this, writer
    {
      |world| >= 1 && KeepsBodies(physics) && 0 <= fps < UINT32_LIMIT &&
      (save ==> writer != null && Sized(renderer, writer.frames))
    }

    /** `Simulator(renderer, save_metadata)`: fps 60, so a 16 ms step, not
        saving, and a world holding only the chain box. `save_metadata` is
        not stored. */
    constructor (renderer: CppRender.VideoRenderer, physics: Physics, saveMetadata: bool)
      requires KeepsBodies(physics)
      ensures Valid()
      ensures this.renderer == renderer && this.physics == physics
      ensures fps == DEFAULT_FPS && timeStep == 16 && !save && writer == null
      ensures world == [ScreenChainBox(renderer.screenWidthPx, renderer.screenHeightPx)]
      ensures bodyDataStorage == [CppData("world_bounding_box", false)]
    {
      this.renderer := renderer;
      this.physics := physics;
      fps := DEFAULT_FPS;
      timeStep := 1000 / DEFAULT_FPS;
      writer := null;
      save := false;
      world := [ScreenChainBox(renderer.screenWidthPx, renderer.screenHeightPx)];
      bodyDataStorage := [CppData("world_bounding_box", false)];
    }

    function GetFps(): int
      reads this
    {
      fps
    }

    /** `set_fps`: the rate is stored, and the step becomes
        `1000 / int32_t(fps)` ms. A rate of zero is an integer division by
        zero, undefined behaviour in C++ (a trap on common targets); here it
        is the error ZeroDivisionError, with the step kept. */
    method SetFps(newFps: int) returns (err: Option<Failure>)
      requires 0 <= newFps < UINT32_LIMIT
      modifies this`fps, this`timeStep
      ensures GetFps() == newFps
      ensures err.Some? <==> newFps == 0
      ensures err.Some? ==> err.value == ZeroDivisionError && timeStep == old(timeStep)
      ensures err.None? ==> timeStep == TimeStepMs(newFps).value
    {
      fps := newFps;
      if newFps == 0 {
        return Some(ZeroDivisionError);
      }
      timeStep := TruncDiv(1000, Int32OfUint32(newFps));
      err := None;
    }

    /** `save_to(path, writer)`: the writer gets the rate, passed from the
        simulator's `uint32_t` to the writer's `int32_t` and so wrapped for
        a rate of 2^31 or more, then
        `set_resolution(screen_width_px, screen_height_px)` (whose
        parameters are (height, width), so `get_resolution` returns the
        width first), then is opened on the path, which empties it. */
    method SaveTo(path: string, w: NpyWriter)
      requires Valid()
      modifies this`save, this`writer, w
      ensures Valid() && save && writer == w
      ensures w.frames == [] && w.path == path && w.saved == old(w.saved)
      ensures w.GetFps() == Int32OfUint32(fps)
      ensures w.GetResolution() == (renderer.screenWidthPx as int, renderer.screenHeightPx as int)
    {
      save := true;
      writer := w;
      writer.SetFps(Int32OfUint32(fps));
      writer.SetResolution(renderer.screenWidthPx, renderer.screenHeightPx);
      var _ := writer.Open(path);
    }

    /** `create_body_data_` and `world_->CreateBody` for body b. */
    method AddBody(b: Body)
      requires Valid()
      modifies this`world, this`bodyDataStorage
      ensures Valid()
      ensures world == CreateBody(old(world), b)
      ensures bodyDataStorage == old(bodyDataStorage) + [b.data]
    {
      bodyDataStorage := bodyDataStorage + [b.data];
      world := CreateBody(world, b);
    }

    method AddLine(p1: Vec, p2: Vec)
      requires Valid()
      modifies this`world, this`bodyDataStorage
      ensures Valid()
      ensures world == CreateBody(old(world), CppLineBody(renderer.screenHeightPx, p1, p2))
      ensures bodyDataStorage == old(bodyDataStorage) + [CppData("line", false)]
    {
      AddBody(CppLineBody(renderer.screenHeightPx, p1, p2));
    }

    method AddRectangularOcclusion(rect: Rect)
      requires Valid()
      modifies this`world, this`bodyDataStorage
      ensures Valid()
      ensures world == CreateBody(old(world), CppOcclusionBody(renderer.screenHeightPx, rect))
      ensures bodyDataStorage == old(bodyDataStorage) + [CppData("rectangular_occlusion", true)]
    {
      AddBody(CppOcclusionBody(renderer.screenHeightPx, rect));
    }

    method AddCircle(pos: Vec, vel: Vec, radius: real)
      requires Valid()
      modifies this`world, this`bodyDataStorage
      ensures Valid()
      ensures world == CreateBody(old(world), CppCircleBody(renderer.screenHeightPx, pos, vel, radius))
      ensures bodyDataStorage == old(bodyDataStorage) + [CppData("circle", true)]
    {
      AddBody(CppCircleBody(renderer.screenHeightPx, pos, vel, radius));
    }

    /** `get_rand_pos_px`, given its two draws: a point of the renderer's
        screen. */
    function GetRandPosPx(u1: real, u2: real): (p: Vec)
      ensures 0.0 <= u1 < 1.0 && renderer.screenWidthPx > 0 ==> 0.0 <= p.x < renderer.screenWidthPx as real
      ensures 0.0 <= u2 < 1.0 && renderer.screenHeightPx > 0 ==> 0.0 <= p.y < renderer.screenHeightPx as real
    {
      PySim.RandPos(renderer.screenWidthPx, renderer.screenHeightPx, u1, u2)
    }

    /** `add_rand_circle`: a circle at `get_rand_pos_px()`, drawn from u1
        and u2, moving with `vel`, the velocity `get_rand_vel` drew. */
    method AddRandCircle(u1: real, u2: real, vel: Vec, radius: real)
      requires Valid()
      modifies this`world, this`bodyDataStorage
      ensures Valid()
      ensures world == CreateBody(old(world), CppCircleBody(renderer.screenHeightPx,
        PySim.RandPos(renderer.screenWidthPx, renderer.screenHeightPx, u1, u2), vel, radius))
      ensures bodyDataStorage == old(bodyDataStorage) + [CppData("circle", true)]
    {
      var position := GetRandPosPx(u1, u2);
      AddCircle(position, vel, radius);
    }

    /** `step`: get the frame, which throws on a visible polygon or edge
        before anything changes; push it iff saving; advance the world by
        `time_step_.count()`, a number of milliseconds, as Box2D's seconds;
        return the step. */
    method Step() returns (r: Result<int, Failure>)
      requires Valid()
      modifies this`world, writer
      ensures Valid()
      ensures r.Err? <==> CppRender.SomeUndrawable(old(world))
      ensures r.Err? ==> r.error == NotImplemented && world == old(world)
      ensures r.Ok? ==> r.value == timeStep && world == physics(old(world), timeStep as real)
      ensures writer != null ==>
        writer.frames == old(writer.frames) + (if save && r.Ok? then [renderer.Frame(old(world))] else []) &&
        writer.path == old(writer.path) && writer.saved == old(writer.saved)
    {
      assert KeepsBodies(physics);
      var frame := renderer.GetFrame(world);
      if frame.Err? {
        return Err(frame.error);
      }
      if save {
        writer.Push(frame.value);
      }
      StepKeepsCount(physics, world, timeStep as real);
      world := physics(world, timeStep as real);
      r := Ok(timeStep);
    }

    /** `close` on the writer iff saving. */
    method CloseIfSaving()
      requires Valid()
      modifies writer
      ensures Valid()
      ensures writer != null && old(save) ==>
        (writer.frames, writer.path, writer.saved) == Closed(old(writer.frames), old(writer.path), old(writer.saved))
      ensures writer != null && !old(save) ==>
        writer.frames == old(writer.frames) && writer.path == old(writer.path) && writer.saved == old(writer.saved)
    {
      if save {
        var _ := writer.Close();
      }
    }

    /** `run_simulation(time_s)`: the steps of the loop, then `close` iff
        saving. A step that throws ends the run, leaving the writer open. */
    method RunSimulation(timeS: int) returns (err: Option<Failure>)
      requires Valid()
      requires timeStep > 0 || timeS <= 0
      modifies this`world, writer
      ensures Valid()
      ensures var n := StepCountMs(timeStep, 1000 * timeS);
        var m := CleanSteps(physics, old(world), timeStep as real, n);
        world == Iterate(physics, old(world), timeStep as real, m) &&
        err == (if m < n then Some(NotImplemented) else None)
      ensures writer != null ==>
        var n := StepCountMs(timeStep, 1000 * timeS);
        var m := CleanSteps(physics, old(world), timeStep as real, n);
        var pushed := old(writer.frames) +
          (if save then FramesAfter(renderer, physics, old(world), timeStep as real, m) else []);
        (save ==> FramesCopyable(pushed)) &&
        (if save && err.None?
         then (writer.frames, writer.path, writer.saved) == Closed(pushed, old(writer.path), old(writer.saved))
         else writer.frames == pushed && writer.path == old(writer.path) && writer.saved == old(writer.saved))
    {
      err := RunLoop(1000 * timeS);
      if save {
        SizedCopyable(renderer, writer.frames);
      }
      if err.None? {
        CloseIfSaving();
      }
    }

    /** The loop of `run_simulation`: step while the elapsed milliseconds
        are below maxMs, stopping at the first step that throws. */
    method RunLoop(maxMs: int) returns (err: Option<Failure>)
      requires Valid()
      requires timeStep > 0 || maxMs <= 0
      modifies this`world, writer
      ensures Valid()
      ensures var n := StepCountMs(timeStep, maxMs);
        var m := CleanSteps(physics, old(world), timeStep as real, n);
        world == Iterate(physics, old(world), timeStep as real, m) &&
        err == (if m < n then Some(NotImplemented) else None)
      ensures writer != null ==>
        var m := CleanSteps(physics, old(world), timeStep as real, StepCountMs(timeStep, maxMs));
        writer.frames == old(writer.frames) +
          (if save then FramesAfter(renderer, physics, old(world), timeStep as real, m) else []) &&
        writer.path == old(writer.path) && writer.saved == old(writer.saved)
    {
      var elapsedMs := 0;
      ghost var n := StepCountMs(timeStep, maxMs);
      ghost var m := CleanSteps(physics, world, timeStep as real, n);
      ghost var frames0 := if writer != null then writer.frames else [];
      ghost var path0 := if writer != null then writer.path else "";
      ghost var saved0 := if writer != null then writer.saved else [];
      ghost var k: nat := 0;
      while elapsedMs < maxMs
        invariant Valid()
        invariant k <= m
        invariant elapsedMs == k * timeStep
        invariant Tracks(old(world), frames0, path0, saved0, k)
        decreases n - k
      {
        StepCountMsIsFirst(timeStep, maxMs, k);
        CleanStepsNext(physics, old(world), timeStep as real, n, k);
        var r := StepTracked(old(world), frames0, path0, saved0, k);
        if r.Err? {
          assert k == m < n;
          return Some(r.error);
        }
        MultipleStepInt(k, timeStep);
        elapsedMs := elapsedMs + r.value;
        k := k + 1;
      }
      StepCountMsIsFirst(timeStep, maxMs, k);
      err := None;
    }

    /** After k steps from `start`: the world is the k-th of the trajectory
        and, while saving, the writer has received the frames of the k
        worlds before it. */
    ghost predicate Tracks(start: seq<Body>, frames0: seq<NpyArray>, path0: string, saved0: seq<SavedFile>, k: nat)
      reads this, writer
    {
      world == Iterate(physics, start, timeStep as real, k) &&
      (writer != null ==>
        writer.frames == frames0 + (if save then FramesAfter(renderer, physics, start, timeStep as real, k) else []) &&
        writer.path == path0 && writer.saved == saved0)
    }

    /** One `step` of the loop, seen along the trajectory from `start`. */
    method StepTracked(ghost start: seq<Body>, ghost frames0: seq<NpyArray>, ghost path0: string,
                       ghost saved0: seq<SavedFile>, ghost k: nat) returns (r: Result<int, Failure>)
      requires Valid() && Tracks(start, frames0, path0, saved0, k)
      modifies this`world, writer
      ensures Valid()
      ensures r.Err? <==> CppRender.SomeUndrawable(Iterate(physics, start, timeStep as real, k))
      ensures r.Err? ==> r.error == NotImplemented && Tracks(start, frames0, path0, saved0, k)
      ensures r.Ok? ==> r.value == timeStep && Tracks(start, frames0, path0, saved0, k + 1)
    {
      FramesGrow(renderer, physics, start, timeStep as real, k);
      IterateStep(k, timeStep as real, start);
      r := Step();
    }

    /** `Iterate` one step further, for this simulator's physics. */
    lemma IterateStep(k: nat, dt: real, start: seq<Body>)
      ensures Iterate(physics, start, dt, k + 1) == physics(Iterate(physics, start, dt, k), dt)
    {
      PySim.IterateStep(physics, start, dt, k);
    }

    /** `reset`: `body_data_storage_.empty()` only tests for emptiness, so
        the storage keeps every entry and gains the new box's; a new world
        holds only the chain box; the writer is closed iff saving; the rate
        goes back to 60 fps. */
    method Reset()
      requires Valid()
      modifies this`world, this`bodyDataStorage, this`fps, this`timeStep, writer
      ensures Valid()
      ensures world == [ScreenChainBox(renderer.screenWidthPx, renderer.screenHeightPx)]
      ensures bodyDataStorage == old(bodyDataStorage) + [CppData("world_bounding_box", false)]
      ensures fps == DEFAULT_FPS && timeStep == 16
      ensures writer != null && save ==>
        (writer.frames, writer.path, writer.saved) == Closed(old(writer.frames), old(writer.path), old(writer.saved))
      ensures writer != null && !save ==>
        writer.frames == old(writer.frames) && writer.path == old(writer.path) && writer.saved == old(writer.saved)
    {
      var box := ScreenChainBox(renderer.screenWidthPx, renderer.screenHeightPx);
      bodyDataStorage := bodyDataStorage + [box.data];
      world := CreateBody([], box);
      CloseIfSaving();
      var _ := SetFps(DEFAULT_FPS);
    }

    /** `quit`: close the writer iff saving. */
    method Quit()
      requires Valid()
      modifies writer
      ensures Valid()
      ensures writer != null && save ==>
        (writer.frames, writer.path, writer.saved) == Closed(old(writer.frames), old(writer.path), old(writer.saved))
      ensures writer != null && !save ==>
        writer.frames == old(writer.frames) && writer.path == old(writer.path) && writer.saved == old(writer.saved)
    {
      CloseIfSaving();
    }
  }
}
