/** The part of a Box2D world the renderers, the simulators and the dataset
    generators look at. A world is the sequence of its bodies in the order
    Box2D keeps them: `b2World::CreateBody` links a new body in at the head
    of the list, so creating a body prepends it. Box2D's own integration
    (`world.Step`) is not modelled; each simulator is given it as a
    function. */
module World {

  datatype Vec = Vec(x: real, y: real)

  /** Fixture shapes, with coordinates in the body's local frame (metres). */
  datatype Shape =
    | Circle(center: Vec, radius: real)
    | Edge(v1: Vec, v2: Vec)
    | Polygon(vertices: seq<Vec>)
    | Chain(vertices: seq<Vec>, closed: bool)

  datatype BodyKind = Static | Dynamic

  /** The user data attached to a body: its name and whether the renderers
      draw it; `radius` is the C++ `BodyData::radius` (default 5), which the
      Python renderers never read. */
  datatype BodyData = BodyData(name: string, visible: bool, radius: real)

  const DEFAULT_BODY_RADIUS: real := 5.0

  datatype Body = Body(data: BodyData, kind: BodyKind, active: bool,
                       position: Vec, velocity: Vec, fixtures: seq<Shape>)

  /** One call of Box2D's `world.Step(time_step, ...)`. */
  type Physics = (seq<Body>, real) -> seq<Body>

  /** Box2D's step moves bodies but neither creates nor destroys any, so a
      body keeps its place in the list across steps. */
  ghost predicate KeepsBodies(physics: Physics)
  {
    forall bodies: seq<Body>, dt: real :: |physics(bodies, dt)| == |bodies|
  }

  lemma StepKeepsCount(physics: Physics, bodies: seq<Body>, dt: real)
    requires KeepsBodies(physics)
    ensures |physics(bodies, dt)| == |bodies|
  {
  }

  /** `b2World::CreateBody`: the new body becomes the head of the list. */
  function CreateBody(bodies: seq<Body>, b: Body): (r: seq<Body>)
    ensures |r| == |bodies| + 1 && r[0] == b && r[1..] == bodies
  {
    [b] + bodies
  }

  /** `body.transform * v` / `GetWorldPoint(v)` for a body at angle zero:
      every body here is created unrotated and the physics is not modelled. */
  function WorldPoint(b: Body, v: Vec): Vec
  {
    Vec(b.position.x + v.x, b.position.y + v.y)
  }

  /** The four vertices `b2PolygonShape::SetAsBox(hx, hy)` produces, in
      Box2D's counter-clockwise order. */
  function BoxVertices(hx: real, hy: real): seq<Vec>
  {
    [Vec(-hx, -hy), Vec(hx, -hy), Vec(hx, hy), Vec(-hx, hy)]
  }

  /** n successive physics steps of length dt. */
  function Iterate(physics: Physics, bodies: seq<Body>, dt: real, n: nat): seq<Body>
    decreases n
  {
    if n == 0 then bodies else Iterate(physics, physics(bodies, dt), dt, n - 1)
  }

  /** The polygons a renderer can meet come from `SetAsBox`: Box2D polygons
      have at least three vertices. */
  predicate PolygonsNonEmpty(bodies: seq<Body>)
  {
    forall i, j :: 0 <= i < |bodies| && 0 <= j < |bodies[i].fixtures| ==>
      (bodies[i].fixtures[j].Polygon? ==> |bodies[i].fixtures[j].vertices| > 0)
  }

  lemma BoxVerticesSpan(hx: real, hy: real)
    requires hx >= 0.0 && hy >= 0.0
    ensures forall v :: v in BoxVertices(hx, hy) ==> -hx <= v.x <= hx && -hy <= v.y <= hy
    ensures Vec(-hx, -hy) in BoxVertices(hx, hy) && Vec(hx, hy) in BoxVertices(hx, hy)
  {
  }
}
