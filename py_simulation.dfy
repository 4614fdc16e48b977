/** What the two Python simulators, `EnvironmentSimulator`
    (environment_simulator.py) and the older `BouncingBalls`
    (bouncing_balls.py), have in common: the bodies they create, the
    metadata entry `_collect_metadata` records, the calls they make on their
    writer, and the bookkeeping of `run_simulation`. */
module PySim {
  import opened Common
  import opened World
  import Render

  /** A call a simulator makes on its writer. The writer classes
      (video_writer) are not part of this model: a simulator records the
      calls it makes, in order. */
  datatype WriterCall<F> =
    | SetFrameRate(fps: int)                // `writer.FPS = fps`
    | SetResolution(width: int, height: int) // `writer.resolution = (w, h)`
    | Open(path: string)
    | Write(frame: F)
    | Close

  /** `DEFAULT_FPS` of both simulators. */
  const DEFAULT_FPS: int := 60

  /** The Python `BodyData(name, visible)`; it has no radius, so the
      radius slot holds the default. */
  function PyData(name: string, visible: bool): BodyData
  {
    BodyData(name, visible, DEFAULT_BODY_RADIUS)
  }

  // ---------------------------------------------------------------------
  // Bodies
  // ---------------------------------------------------------------------

  /** `_create_screen_bounding_box` / `create_screen_bounding_box`: a static
      body at the screen centre with four edges, invisible. */
  function BoundingBox(widthM: real, heightM: real): Body
  {
    var (cx, cy) := (widthM / 2.0, heightM / 2.0);
    var bottomLeft := Vec(-cx, -cy);
    var bottomRight := Vec(cx, -cy);
    var topRight := Vec(cx, cy);
    var topLeft := Vec(-cx, cy);
    Body(PyData("world_bounding_box", false), Static, true, Vec(cx, cy), Vec(0.0, 0.0),
         [Edge(bottomLeft, bottomRight), Edge(bottomRight, topRight),
          Edge(topRight, topLeft), Edge(topLeft, bottomLeft)])
  }

  /** The bounding box of a simulator whose screen is widthPx x heightPx. */
  function ScreenBox(widthPx: int, heightPx: int): Body
  {
    BoundingBox(Render.PixelsToMeters(widthPx as real), Render.PixelsToMeters(heightPx as real))
  }

  /** The corners of the screen, (0, h), (w, h), (w, 0), (0, 0), in screen
      pixels. */
  function ScreenCorners(widthPx: int, heightPx: int): seq<(int, int)>
  {
    [(0, heightPx), (widthPx, heightPx), (widthPx, 0), (0, 0)]
  }

  /** The bounding box is an invisible static body whose four edges form a
      closed loop, each starting where the previous one ends, and traced in
      screen pixels they run along the border of the screen. It adds nothing
      to a metadata entry. */
  lemma ScreenBoxProperties(widthPx: int, heightPx: int)
    ensures var b := ScreenBox(widthPx, heightPx);
      !b.data.visible && b.kind == Static && b.data.name == "world_bounding_box" &&
      |b.fixtures| == 4 &&
      (forall i :: 0 <= i < 4 ==> b.fixtures[i].Edge?) &&
      b.fixtures[0].v2 == b.fixtures[1].v1 && b.fixtures[1].v2 == b.fixtures[2].v1 &&
      b.fixtures[2].v2 == b.fixtures[3].v1 && b.fixtures[3].v2 == b.fixtures[0].v1
    ensures var b := ScreenBox(widthPx, heightPx);
      forall i :: 0 <= i < 4 ==>
        Render.ToScreenFrame(heightPx, WorldPoint(b, b.fixtures[i].v1)) ==
          ScreenCorners(widthPx, heightPx)[i]
    ensures MetadataEntry(heightPx, [ScreenBox(widthPx, heightPx)]) == []
  {
    var b := ScreenBox(widthPx, heightPx);
    var (w, h) := (widthPx as real, heightPx as real);
    var corners := [Vec(0.0, 0.0), Vec(w, 0.0), Vec(w, h), Vec(0.0, h)];
    assert forall i :: 0 <= i < 4 ==> WorldPoint(b, b.fixtures[i].v1) == corners[i];
    ScreenCornersOfWorld(widthPx, heightPx);
    assert [b][..0] == [];
  }

  /** The world-frame corners of the screen, traced back to pixels. */
  lemma ScreenCornersOfWorld(widthPx: int, heightPx: int)
    ensures var (w, h) := (widthPx as real, heightPx as real);
      var corners := [Vec(0.0, 0.0), Vec(w, 0.0), Vec(w, h), Vec(0.0, h)];
      forall i :: 0 <= i < 4 ==>
        Render.ToScreenFrame(heightPx, corners[i]) == ScreenCorners(widthPx, heightPx)[i]
  {
    TruncOfInt(0);
    TruncOfInt(widthPx);
    TruncOfInt(heightPx);
  }

  /** The body `add_circle(pos, vel, radius)` creates: dynamic, visible,
      tagged "circle", at `to_world_frame(pos)`, with one circle fixture
      centred on the body, and the velocity converted with its y component
      negated. */
  function CircleBody(heightPx: int, pos: Vec, vel: Vec, radius: real): Body
  {
    Body(PyData("circle", true), Dynamic, true, Render.ToWorldFrame(heightPx, pos),
         Vec(Render.PixelsToMeters(vel.x), -Render.PixelsToMeters(vel.y)),
         [Circle(Vec(0.0, 0.0), radius)])
  }

  /** Screen pixels advanced by a velocity for a time dt. */
  function Advance(p: Vec, v: Vec, dt: real): Vec
  {
    Vec(p.x + v.x * dt, p.y + v.y * dt)
  }

  /** Negating vy is what makes the body move the way the screen-frame
      velocity says: moving in the world frame with the body's velocity for
      any time dt lands on the world-frame image of the screen point moved
      with `vel`. */
  lemma CircleVelocityMatchesScreen(heightPx: int, pos: Vec, vel: Vec, radius: real, dt: real)
    ensures var b := CircleBody(heightPx, pos, vel, radius);
      Advance(b.position, b.velocity, dt) ==
        Render.ToWorldFrame(heightPx, Advance(pos, vel, dt))
  {
  }

  /** `get_rand_pos` given its two draws u1, u2 in [0, 1): a point of the
      screen picked as (u1 * width, u2 * height). */
  function RandPos(widthPx: int, heightPx: int, u1: real, u2: real): (p: Vec)
    ensures 0.0 <= u1 < 1.0 && widthPx > 0 ==> 0.0 <= p.x < widthPx as real
    ensures 0.0 <= u2 < 1.0 && heightPx > 0 ==> 0.0 <= p.y < heightPx as real
  {
    Vec(Scale(u1, widthPx as real), Scale(u2, heightPx as real))
  }

  /** A draw u scaled to a length. */
  function Scale(u: real, length: real): (x: real)
    ensures 0.0 <= u < 1.0 && length > 0.0 ==> 0.0 <= x < length
  {
    ScaleBelow(u, length);
    u * length
  }

  /** A draw in [0, 1) scaled by a positive length lands in [0, length). */
  lemma ScaleBelow(u: real, length: real)
    ensures 0.0 <= u < 1.0 && length > 0.0 ==> 0.0 <= u * length < length
  {
    if 0.0 <= u < 1.0 && length > 0.0 {
      MulMono(0.0, u, length);
      MulStrict(u, 1.0, length);
    }
  }

  /** The body `add_line(p1, p2)` creates: a static, inactive, invisible
      body tagged "line" at the world-frame midpoint, with one edge whose
      ends are given relative to that midpoint. */
  function LineBody(heightPx: int, p1: Vec, p2: Vec): Body
  {
    var (w1, w2) := (Render.ToWorldFrame(heightPx, p1), Render.ToWorldFrame(heightPx, p2));
    var m := Vec((w1.x + w2.x) / 2.0, (w1.y + w2.y) / 2.0);
    Body(PyData("line", false), Static, false, m, Vec(0.0, 0.0),
         [Edge(Vec(w1.x - m.x, w1.y - m.y), Vec(w2.x - m.x, w2.y - m.y))])
  }

  /** The line's edge runs between the world-frame images of p1 and p2,
      and, being invisible, the line adds nothing to a metadata entry. */
  lemma LineJoinsEnds(heightPx: int, bodies: seq<Body>, p1: Vec, p2: Vec)
    ensures var b := LineBody(heightPx, p1, p2);
      !b.active && !b.data.visible && b.kind == Static && |b.fixtures| == 1 &&
      b.fixtures[0].Edge? &&
      WorldPoint(b, b.fixtures[0].v1) == Render.ToWorldFrame(heightPx, p1) &&
      WorldPoint(b, b.fixtures[0].v2) == Render.ToWorldFrame(heightPx, p2)
    ensures MetadataEntry(heightPx, CreateBody(bodies, LineBody(heightPx, p1, p2))) ==
      MetadataEntry(heightPx, bodies)
  {
    MetadataOfCreated(heightPx, bodies, LineBody(heightPx, p1, p2));
  }

  /** The centre of the rectangle (x, y, w, h) in screen pixels. */
  function RectCenter(rect: Rect): Vec
  {
    Vec(rect.x as real + rect.w as real / 2.0, rect.y as real + rect.h as real / 2.0)
  }

  /** The body `add_rectangular_occlusion(rect)` creates: static, inactive,
      at the world-frame centre of the rectangle, a box of half-extents
      (w / 2, h / 2); the `BodyData` default makes it visible. */
  function OcclusionBody(heightPx: int, rect: Rect): Body
  {
    var widthM := Render.PixelsToMeters(rect.w as real);
    var heightM := Render.PixelsToMeters(rect.h as real);
    Body(PyData("rectangular_occlusion", true), Static, false,
         Render.ToWorldFrame(heightPx, RectCenter(rect)), Vec(0.0, 0.0),
         [Polygon(BoxVertices(widthM / 2.0, heightM / 2.0))])
  }

  /** The corners of the rectangle in the order the box's vertices come:
      bottom left, bottom right, top right, top left of the world frame. */
  function RectCorners(rect: Rect): seq<(int, int)>
  {
    [(rect.x, rect.y + rect.h), (rect.x + rect.w, rect.y + rect.h),
     (rect.x + rect.w, rect.y), (rect.x, rect.y)]
  }

  /** The occlusion body is inactive and visible, and the box's vertices
      traced back to the screen are exactly the rectangle's corners. */
  lemma OcclusionCoversRectangle(heightPx: int, rect: Rect)
    ensures var b := OcclusionBody(heightPx, rect);
      !b.active && b.data.visible && b.kind == Static &&
      |b.fixtures| == 1 && b.fixtures[0].Polygon? && |b.fixtures[0].vertices| == 4 &&
      forall i :: 0 <= i < 4 ==>
        Render.ToScreenFrame(heightPx, WorldPoint(b, b.fixtures[0].vertices[i])) ==
          RectCorners(rect)[i]
  {
    var b := OcclusionBody(heightPx, rect);
    var (x0, x1) := (rect.x as real, (rect.x + rect.w) as real);
    var (y0, y1) := ((heightPx - rect.y - rect.h) as real, (heightPx - rect.y) as real);
    var corners := [Vec(x0, y0), Vec(x1, y0), Vec(x1, y1), Vec(x0, y1)];
    var v := b.fixtures[0].vertices;
    assert WorldPoint(b, v[0]) == corners[0] && WorldPoint(b, v[1]) == corners[1];
    assert WorldPoint(b, v[2]) == corners[2] && WorldPoint(b, v[3]) == corners[3];
    TruncOfInt(rect.x);
    TruncOfInt(rect.x + rect.w);
    TruncOfInt(heightPx - rect.y);
    TruncOfInt(heightPx - rect.y - rect.h);
    forall i | 0 <= i < 4
      ensures Render.ToScreenFrame(heightPx, WorldPoint(b, v[i])) == RectCorners(rect)[i]
    {
      assert WorldPoint(b, v[i]) == corners[i];
    }
  }

  /** It adds nothing to a metadata entry: it has no circle. */
  lemma OcclusionNotReported(heightPx: int, bodies: seq<Body>, rect: Rect)
    ensures MetadataEntry(heightPx, CreateBody(bodies, OcclusionBody(heightPx, rect))) ==
      MetadataEntry(heightPx, bodies)
  {
    var b := OcclusionBody(heightPx, rect);
    MetadataOfCreated(heightPx, bodies, b);
    assert b.fixtures[..0] == [];
    assert FixtureCenters(heightPx, b, b.fixtures) == FixtureCenters(heightPx, b, []);
  }

  // ---------------------------------------------------------------------
  // _collect_metadata
  // ---------------------------------------------------------------------

  /** One entry per circle among `fixtures`, each the screen-frame position
      of the body. */
  function FixtureCenters(heightPx: int, b: Body, fixtures: seq<Shape>): seq<(int, int)>
  {
    if |fixtures| == 0 then []
    else
      FixtureCenters(heightPx, b, fixtures[..|fixtures| - 1]) +
      (if fixtures[|fixtures| - 1].Circle? then [Render.ToScreenFrame(heightPx, b.position)]
       else [])
  }

  /** What a body contributes to a metadata entry: nothing when invisible. */
  function BodyCenters(heightPx: int, b: Body): seq<(int, int)>
  {
    if b.data.visible then FixtureCenters(heightPx, b, b.fixtures) else []
  }

  /** The list `_collect_metadata` appends: the screen-frame centres of the
      circle fixtures of the visible bodies, in body and fixture order. */
  function MetadataEntry(heightPx: int, bodies: seq<Body>): seq<(int, int)>
  {
    if |bodies| == 0 then []
    else MetadataEntry(heightPx, bodies[..|bodies| - 1]) + BodyCenters(heightPx, bodies[|bodies| - 1])
  }

  /** `balls_coordinates` as the loops of `_collect_metadata` build it. */
  method BallsCoordinates(heightPx: int, bodies: seq<Body>) returns (coords: seq<(int, int)>)
    ensures coords == MetadataEntry(heightPx, bodies)
  {
    coords := [];
    var i := 0;
    while i < |bodies|
      invariant 0 <= i <= |bodies|
      invariant coords == MetadataEntry(heightPx, bodies[..i])
    {
      var body := bodies[i];
      ghost var before := coords;
      if body.data.visible {
        var j := 0;
        while j < |body.fixtures|
          invariant 0 <= j <= |body.fixtures|
          invariant coords == before + FixtureCenters(heightPx, body, body.fixtures[..j])
        {
          assert body.fixtures[..j + 1][..j] == body.fixtures[..j];
          if body.fixtures[j].Circle? {
            coords := coords + [Render.ToScreenFrame(heightPx, body.position)];
          }
          j := j + 1;
        }
        assert body.fixtures[..j] == body.fixtures;
      }
      assert bodies[..i + 1][..i] == bodies[..i];
      i := i + 1;
    }
    assert bodies[..i] == bodies;
  }

  /** The entry of a world made of two parts is the entry of the first
      part followed by that of the second. */
  lemma {:induction false} MetadataEntryAppend(heightPx: int, a: seq<Body>, b: seq<Body>)
    ensures MetadataEntry(heightPx, a + b) == MetadataEntry(heightPx, a) + MetadataEntry(heightPx, b)
    decreases |b|
  {
    if |b| == 0 {
      assert a + b == a;
    } else {
      var n := |b| - 1;
      assert (a + b)[..|a + b| - 1] == a + b[..n];
      assert (a + b)[|a + b| - 1] == b[n];
      MetadataEntryAppend(heightPx, a, b[..n]);
      assert MetadataEntry(heightPx, a + b) ==
        MetadataEntry(heightPx, a + b[..n]) + BodyCenters(heightPx, b[n]);
    }
  }

  /** Creating a body puts its centres at the front of the entry. */
  lemma MetadataOfCreated(heightPx: int, bodies: seq<Body>, b: Body)
    ensures MetadataEntry(heightPx, CreateBody(bodies, b)) ==
      BodyCenters(heightPx, b) + MetadataEntry(heightPx, bodies)
  {
    MetadataEntryAppend(heightPx, [b], bodies);
    assert [b][..0] == [];
  }

  /** A circle added at an integer pixel is reported at exactly that pixel,
      ahead of everything already in the world. */
  lemma AddedCircleReported(heightPx: int, bodies: seq<Body>, px: int, py: int,
                            vel: Vec, radius: real)
    ensures MetadataEntry(heightPx,
                          CreateBody(bodies, CircleBody(heightPx, Vec(px as real, py as real), vel, radius)))
      == [(px, py)] + MetadataEntry(heightPx, bodies)
  {
    var b := CircleBody(heightPx, Vec(px as real, py as real), vel, radius);
    MetadataOfCreated(heightPx, bodies, b);
    Render.ScreenWorldRoundTrip(heightPx, px, py);
    assert b.fixtures[..0] == [];
    assert FixtureCenters(heightPx, b, b.fixtures) == [Render.ToScreenFrame(heightPx, b.position)];
  }

  /** Every centre in an entry is the screen-frame position of a visible
      body of the world that has a circle fixture. */
  lemma {:induction false} MetadataEntrySound(heightPx: int, bodies: seq<Body>, c: (int, int))
    requires c in MetadataEntry(heightPx, bodies)
    ensures exists i :: 0 <= i < |bodies| && BodyReports(heightPx, bodies[i], c)
  {
    var n := |bodies| - 1;
    if c in MetadataEntry(heightPx, bodies[..n]) {
      MetadataEntrySound(heightPx, bodies[..n], c);
      var i :| 0 <= i < n && BodyReports(heightPx, bodies[..n][i], c);
      assert bodies[..n][i] == bodies[i];
    } else {
      var b := bodies[n];
      FixtureCentersSound(heightPx, b, b.fixtures, c);
      assert BodyReports(heightPx, bodies[n], c);
    }
  }

  /** Body b is visible, has a circle fixture and sits at screen point c. */
  predicate BodyReports(heightPx: int, b: Body, c: (int, int))
  {
    b.data.visible && (exists j :: 0 <= j < |b.fixtures| && b.fixtures[j].Circle?) &&
    c == Render.ToScreenFrame(heightPx, b.position)
  }

  lemma {:induction false} FixtureCentersSound(heightPx: int, b: Body, fixtures: seq<Shape>, c: (int, int))
    requires c in FixtureCenters(heightPx, b, fixtures)
    ensures exists j :: 0 <= j < |fixtures| && fixtures[j].Circle?
    ensures c == Render.ToScreenFrame(heightPx, b.position)
  {
    var n := |fixtures| - 1;
    if c in FixtureCenters(heightPx, b, fixtures[..n]) {
      FixtureCentersSound(heightPx, b, fixtures[..n], c);
      var j :| 0 <= j < n && fixtures[..n][j].Circle?;
      assert fixtures[j] == fixtures[..n][j];
    } else {
      assert fixtures[n].Circle?;
    }
  }

  // ---------------------------------------------------------------------
  // run_simulation
  // ---------------------------------------------------------------------

  /** `Iterate` seen from the other end: n + 1 steps are n steps and one. */
  lemma {:induction false} IterateStep(physics: Physics, bodies: seq<Body>, dt: real, n: nat)
    ensures Iterate(physics, bodies, dt, n + 1) == physics(Iterate(physics, bodies, dt, n), dt)
    decreases n
  {
    if n > 0 {
      IterateStep(physics, physics(bodies, dt), dt, n - 1);
    }
  }

  /** The worlds the first n steps start from. */
  function Trajectory(physics: Physics, bodies: seq<Body>, dt: real, n: nat): (ws: seq<seq<Body>>)
    ensures |ws| == n
  {
    if n == 0 then [] else Trajectory(physics, bodies, dt, n - 1) + [Iterate(physics, bodies, dt, n - 1)]
  }

  /** Step k of a trajectory starts from the world after k steps. */
  lemma {:induction false} TrajectoryAt(physics: Physics, bodies: seq<Body>, dt: real, n: nat, k: nat)
    requires k < n
    ensures Trajectory(physics, bodies, dt, n)[k] == Iterate(physics, bodies, dt, k)
  {
    if k < n - 1 {
      TrajectoryAt(physics, bodies, dt, n - 1, k);
    }
  }

  /** The metadata entries recorded along a trajectory. */
  function Entries(heightPx: int, worlds: seq<seq<Body>>): (es: seq<seq<(int, int)>>)
    ensures |es| == |worlds|
  {
    if |worlds| == 0 then []
    else Entries(heightPx, worlds[..|worlds| - 1]) + [MetadataEntry(heightPx, worlds[|worlds| - 1])]
  }

  /** Entry k is the metadata entry of world k. */
  lemma {:induction false} EntriesAt(heightPx: int, worlds: seq<seq<Body>>, k: nat)
    requires k < |worlds|
    ensures Entries(heightPx, worlds)[k] == MetadataEntry(heightPx, worlds[k])
  {
    var n := |worlds| - 1;
    if k < n {
      EntriesAt(heightPx, worlds[..n], k);
    }
  }

  /** The frames written along a trajectory. */
  function Writes<F>(render: seq<Body> -> F, worlds: seq<seq<Body>>): (ws: seq<WriterCall<F>>)
    ensures |ws| == |worlds|
  {
    if |worlds| == 0 then []
    else Writes(render, worlds[..|worlds| - 1]) + [Write(render(worlds[|worlds| - 1]))]
  }

  /** Write k is the frame of world k. */
  lemma {:induction false} WritesAt<F>(render: seq<Body> -> F, worlds: seq<seq<Body>>, k: nat)
    requires k < |worlds|
    ensures Writes(render, worlds)[k] == Write(render(worlds[k]))
  {
    var n := |worlds| - 1;
    if k < n {
      WritesAt(render, worlds[..n], k);
    }
  }

  /** One more step extends the trajectory by the world it starts from. */
  lemma TrajectoryGrows(physics: Physics, bodies: seq<Body>, dt: real, n: nat)
    ensures Trajectory(physics, bodies, dt, n + 1) ==
      Trajectory(physics, bodies, dt, n) + [Iterate(physics, bodies, dt, n)]
  {
  }

  lemma EntriesAppend(heightPx: int, worlds: seq<seq<Body>>, w: seq<Body>)
    ensures Entries(heightPx, worlds + [w]) == Entries(heightPx, worlds) + [MetadataEntry(heightPx, w)]
  {
    assert (worlds + [w])[..|worlds|] == worlds;
  }

  lemma WritesAppend<F>(render: seq<Body> -> F, worlds: seq<seq<Body>>, w: seq<Body>)
    ensures Writes(render, worlds + [w]) == Writes(render, worlds) + [Write(render(w))]
  {
    assert (worlds + [w])[..|worlds|] == worlds;
  }

  /** The metadata list after k steps that each recorded an entry iff
      `record`. */
  function MetadataAfter(heightPx: int, start: seq<seq<(int, int)>>, record: bool,
                         physics: Physics, bodies: seq<Body>, dt: real, k: nat): seq<seq<(int, int)>>
  {
    start + (if record then Entries(heightPx, Trajectory(physics, bodies, dt, k)) else [])
  }

  /** The writer log after k steps that each wrote a frame iff `saving`. */
  function LogAfter<F>(start: seq<WriterCall<F>>, saving: bool, render: seq<Body> -> F,
                       physics: Physics, bodies: seq<Body>, dt: real, k: nat): seq<WriterCall<F>>
  {
    start + (if saving then Writes(render, Trajectory(physics, bodies, dt, k)) else [])
  }

  /** What one step adds to the metadata list: its entry iff `record`. */
  function EntryIf(record: bool, heightPx: int, w: seq<Body>): seq<seq<(int, int)>>
  {
    if record then [MetadataEntry(heightPx, w)] else []
  }

  /** What one step adds to the writer log: its frame iff `saving`. */
  function WriteIf<F>(saving: bool, render: seq<Body> -> F, w: seq<Body>): seq<WriterCall<F>>
  {
    if saving then [Write(render(w))] else []
  }

  /** Step k + 1 of a run, from the world after k steps, extends both. */
  lemma StepExtends<F>(heightPx: int, start: seq<seq<(int, int)>>, record: bool,
                       log: seq<WriterCall<F>>, saving: bool, render: seq<Body> -> F,
                       physics: Physics, bodies: seq<Body>, dt: real, k: nat)
    ensures var w := Iterate(physics, bodies, dt, k);
      MetadataAfter(heightPx, start, record, physics, bodies, dt, k + 1) ==
        MetadataAfter(heightPx, start, record, physics, bodies, dt, k) + EntryIf(record, heightPx, w) &&
      LogAfter(log, saving, render, physics, bodies, dt, k + 1) ==
        LogAfter(log, saving, render, physics, bodies, dt, k) + WriteIf(saving, render, w)
  {
    var ws := Trajectory(physics, bodies, dt, k);
    var w := Iterate(physics, bodies, dt, k);
    TrajectoryGrows(physics, bodies, dt, k);
    EntriesAppend(heightPx, ws, w);
    LogStepExtends(log, saving, render, physics, bodies, dt, k);
  }

  /** The writer log part of the same step. */
  lemma LogStepExtends<F>(log: seq<WriterCall<F>>, saving: bool, render: seq<Body> -> F,
                          physics: Physics, bodies: seq<Body>, dt: real, k: nat)
    ensures LogAfter(log, saving, render, physics, bodies, dt, k + 1) ==
      LogAfter(log, saving, render, physics, bodies, dt, k) + WriteIf(saving, render, Iterate(physics, bodies, dt, k))
  {
    var ws := Trajectory(physics, bodies, dt, k);
    var w := Iterate(physics, bodies, dt, k);
    TrajectoryGrows(physics, bodies, dt, k);
    WritesAppend(render, ws, w);
  }

  /** The number of steps `run_simulation` takes when every step lasts
      stepMs: the least n with n * stepMs >= maxMs. */
  function StepCount(stepMs: real, maxMs: real): (n: nat)
    requires stepMs > 0.0 || maxMs <= 0.0
    ensures n as real * stepMs >= maxMs
    ensures n > 0 ==> (n - 1) as real * stepMs < maxMs
  {
    if maxMs <= 0.0 then 0
    else
      CeilSteps(stepMs, maxMs);
      Ceil(maxMs / stepMs)
  }

  /** At fps frames per second, with a time step of 1 / fps, a run of a
      whole number of seconds takes fps steps per second. */
  lemma StepsOfWholeSeconds(fps: int, seconds: nat)
    requires fps > 0
    ensures StepCount((1.0 / fps as real) * 1000.0, seconds as real * 1000.0) == fps * seconds
  {
    var f := fps as real;
    var stepMs := (1.0 / f) * 1000.0;
    var maxMs := seconds as real * 1000.0;
    if seconds > 0 {
      assert stepMs * f == 1000.0;
      assert maxMs / stepMs == (fps * seconds) as real by {
        assert (fps * seconds) as real * stepMs == maxMs by {
          assert (fps * seconds) as real == f * seconds as real;
        }
      }
      assert Ceil((fps * seconds) as real) == fps * seconds;
    }
  }

  lemma CeilSteps(stepMs: real, maxMs: real)
    requires stepMs > 0.0 && maxMs > 0.0
    ensures var c := Ceil(maxMs / stepMs);
      c >= 1 && c as real * stepMs >= maxMs && (c - 1) as real * stepMs < maxMs
  {
    var q := maxMs / stepMs;
    assert q * stepMs == maxMs;
    CeilScaled(q, stepMs, maxMs, Ceil(q));
  }

  /** c = ceil(q) steps of length s reach q * s, and c - 1 steps do not. */
  lemma CeilScaled(q: real, s: real, m: real, c: int)
    requires s > 0.0 && m > 0.0 && q * s == m
    requires c as real - 1.0 < q <= c as real
    ensures c >= 1 && c as real * s >= m && (c - 1) as real * s < m
  {
    if c < 1 {
      NonPositiveScaled(q, s);
    } else {
      MulMono(q, c as real, s);
      assert c as real * s >= m;
      MulStrict((c - 1) as real, q, s);
      assert (c - 1) as real * s < m;
    }
  }

  lemma NonPositiveScaled(a: real, s: real)
    requires a <= 0.0 && s >= 0.0
    ensures a * s <= 0.0
  {
  }

  lemma MultipleStep(k: nat, s: real)
    ensures k as real * s + s == (k + 1) as real * s
  {
  }

  lemma MulMono(a: real, b: real, s: real)
    requires a <= b && s >= 0.0
    ensures a * s <= b * s
  {
  }

  lemma MulStrict(a: real, b: real, s: real)
    requires a < b && s > 0.0
    ensures a * s < b * s
  {
  }

  /** The loop test of `run_simulation` after k steps of length stepMs,
      k <= StepCount: the loop goes on exactly while k < StepCount. */
  lemma StepCountIsFirst(stepMs: real, maxMs: real, k: nat)
    requires stepMs > 0.0 || maxMs <= 0.0
    requires k <= StepCount(stepMs, maxMs)
    ensures k as real * stepMs < maxMs <==> k < StepCount(stepMs, maxMs)
  {
    var n := StepCount(stepMs, maxMs);
    if k < n {
      MulMono(k as real, (n - 1) as real, stepMs);
    }
  }
}
