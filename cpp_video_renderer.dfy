/** The C++ `bounce::VideoRenderer` (video_renderer.cpp and its two
    headers): conversions between the screen frame (pixels, y down) and the
    world frame (metres, y up), the bounds-checked `putpixel_`, the clipped
    `fill_line_`, the 8-way integer circle `draw_circle_` and `get_frame`,
    which draws the visible circles into a zeroed `uint8` frame and fails
    on any visible polygon or edge. The frame is the flat row-major buffer
    the C++ code writes: pixel (x, y) is byte y * width + x, and every
    shape of the frame has that many bytes. */
module CppRender {
  import opened Wrappers
  import opened Common
  import opened World

  // ---------------------------------------------------------------------
  // Conversions
  // ---------------------------------------------------------------------

  /** `VideoRenderer::PPM` in video_renderer.cpp. */
  const PPM: real := 1.0

  function PixelsToMeters(pixels: real): real
  {
    pixels / PPM
  }

  function MetersToPixels(meters: real): real
  {
    meters * PPM
  }

  /** `to_world_frame`: scale by 1/PPM and flip y about the screen height. */
  function ToWorldFrame(heightPx: int, p: Vec): Vec
  {
    Vec(PixelsToMeters(p.x), PixelsToMeters(heightPx as real - p.y))
  }

  /** `to_screen_frame`: the inverse of `to_world_frame`. Unlike the Python
      version it keeps the coordinates as floats. */
  function ToScreenFrame(heightPx: int, p: Vec): Vec
  {
    Vec(MetersToPixels(p.x), heightPx as real - MetersToPixels(p.y))
  }

  /** The two conversions are mutual inverses, for every point. */
  lemma ConversionsInverse(heightPx: int, p: Vec)
    ensures PixelsToMeters(MetersToPixels(p.x)) == p.x
    ensures MetersToPixels(PixelsToMeters(p.x)) == p.x
    ensures ToScreenFrame(heightPx, ToWorldFrame(heightPx, p)) == p
    ensures ToWorldFrame(heightPx, ToScreenFrame(heightPx, p)) == p
  {
  }

  // ---------------------------------------------------------------------
  // Pixels of the flat buffer
  // ---------------------------------------------------------------------

  predicate OnScreen(width: int, height: int, x: int, y: int)
  {
    0 <= x < width && 0 <= y < height
  }

  /** Byte i of the buffer is the pixel p, which lies on the screen. */
  predicate PixelAt(width: int, height: int, p: (int, int), i: int)
  {
    OnScreen(width, height, p.0, p.1) && i == p.1 * width + p.0
  }

  lemma RowMajorInRange(width: int, height: int, x: int, y: int)
    requires OnScreen(width, height, x, y)
    ensures 0 <= y * width + x < width * height
  {
    assert y * width + x < (y + 1) * width;
    assert (y + 1) * width <= height * width by { MulLe(y + 1, height, width); }
  }

  lemma MulLe(a: int, b: int, c: int)
    requires a <= b && c >= 0
    ensures a * c <= b * c
  {
  }

  lemma MulLt(a: int, b: int, c: int)
    requires c > 0 && a * c < b * c
    ensures a < b
  {
  }

  /** Two on-screen pixels never share a byte. */
  lemma RowMajorInjective(width: int, height: int, p: (int, int), q: (int, int))
    requires OnScreen(width, height, p.0, p.1) && OnScreen(width, height, q.0, q.1)
    requires p.1 * width + p.0 == q.1 * width + q.0
    ensures p == q
  {
    assert p.1 * width < (q.1 + 1) * width;
    assert q.1 * width < (p.1 + 1) * width;
    MulLt(p.1, q.1 + 1, width);
    MulLt(q.1, p.1 + 1, width);
  }

  // ---------------------------------------------------------------------
  // draw_circle_
  // ---------------------------------------------------------------------

  /** One pass of the loop of `draw_circle_` on (x, y, dx, dy, err): step y
      when err <= 0, then step x when the updated err > 0. */
  function BresenhamStep(x: int, y: int, dx: int, dy: int, err: int, r: int)
    : (int, int, int, int, int)
  {
    var (y1, dy1, err1) := if err <= 0 then (y + 1, dy + 2, err + dy) else (y, dy, err);
    if err1 > 0 then (x - 1, y1, dx + 2, dy1, err1 + (dx + 2) - 2 * r)
    else (x, y1, dx, dy1, err1)
  }

  /** The octant offsets (x, y) the loop hands to the eight `putpixel_`
      calls from state (x, y, dx, dy, err) on, while x >= y. */
  function BresenhamOffsets(x: int, y: int, dx: int, dy: int, err: int, r: int)
    : seq<(int, int)>
    decreases if x >= y then x - y + 1 else 0
  {
    if x >= y then
      var (x', y', dx', dy', err') := BresenhamStep(x, y, dx, dy, err, r);
      [(x, y)] + BresenhamOffsets(x', y', dx', dy', err', r)
    else []
  }

  /** Every offset `draw_circle_(center, radius)` visits, in order; the
      source starts from x = radius - 1, y = 0, dx = dy = 1 and
      err = 1 - (radius << 1). */
  function CircleOffsets(radius: int): seq<(int, int)>
  {
    BresenhamOffsets(radius - 1, 0, 1, 1, 1 - 2 * radius, radius)
  }

  /** The eight pixels of one offset o about (x0, y0), in the order of the
      `putpixel_` calls. */
  function OctantPoints(o: (int, int), x0: int, y0: int): seq<(int, int)>
  {
    [(x0 + o.0, y0 + o.1), (x0 + o.1, y0 + o.0), (x0 - o.1, y0 + o.0), (x0 - o.0, y0 + o.1),
     (x0 - o.0, y0 - o.1), (x0 - o.1, y0 - o.0), (x0 + o.1, y0 - o.0), (x0 + o.0, y0 - o.1)]
  }

  /** Byte i is one of the eight pixels of offset o. */
  ghost predicate OctantMarks(width: int, height: int, o: (int, int), x0: int, y0: int, i: int)
  {
    exists k :: 0 <= k < 8 && PixelAt(width, height, OctantPoints(o, x0, y0)[k], i)
  }

  /** Byte i is the pixel of one of the first k points of pts. */
  ghost predicate MarksFirst(width: int, height: int, pts: seq<(int, int)>, k: nat, i: int)
  {
    exists j :: 0 <= j < k && j < |pts| && PixelAt(width, height, pts[j], i)
  }

  lemma MarksFirstStep(width: int, height: int, pts: seq<(int, int)>, k: nat)
    requires k < |pts|
    ensures forall i :: MarksFirst(width, height, pts, k + 1, i) <==>
      MarksFirst(width, height, pts, k, i) || PixelAt(width, height, pts[k], i)
  {
  }

  /** The screen s with the pixel p set, when p is on the screen. */
  function Paint(width: int, height: int, s: seq<Byte>, p: (int, int)): (r: seq<Byte>)
    requires |s| == width * height
    ensures |r| == |s|
  {
    if OnScreen(width, height, p.0, p.1) then
      RowMajorInRange(width, height, p.0, p.1);
      s[p.1 * width + p.0 := 0xFF]
    else s
  }

  /** The screen s with the pixels of the first k points of pts set, in
      order. */
  function PaintAll(width: int, height: int, s: seq<Byte>, pts: seq<(int, int)>, k: nat): (r: seq<Byte>)
    requires |s| == width * height && k <= |pts|
    ensures |r| == |s|
  {
    if k == 0 then s
    else Paint(width, height, PaintAll(width, height, s, pts, k - 1), pts[k - 1])
  }

  /** Painting sets exactly the byte of the pixel. */
  lemma PaintMarks(width: int, height: int, s: seq<Byte>, p: (int, int), i: int)
    requires |s| == width * height && 0 <= i < |s|
    ensures Paint(width, height, s, p)[i] == if PixelAt(width, height, p, i) then 0xFF else s[i]
  {
  }

  /** Painting k points sets exactly the bytes of their pixels. */
  lemma {:induction false} PaintAllMarks(width: int, height: int, s: seq<Byte>, pts: seq<(int, int)>,
                                         k: nat, i: int)
    requires |s| == width * height && k <= |pts| && 0 <= i < |s|
    ensures PaintAll(width, height, s, pts, k)[i] ==
      if MarksFirst(width, height, pts, k, i) then 0xFF else s[i]
  {
    if k > 0 {
      PaintAllMarks(width, height, s, pts, k - 1, i);
      PaintMarks(width, height, PaintAll(width, height, s, pts, k - 1), pts[k - 1], i);
      MarksFirstStep(width, height, pts, k - 1);
    }
  }

  lemma OctantMarksFirst(width: int, height: int, o: (int, int), x0: int, y0: int)
    ensures forall i :: OctantMarks(width, height, o, x0, y0, i) <==>
      MarksFirst(width, height, OctantPoints(o, x0, y0), 8, i)
  {
  }

  /** Byte i is one of the pixels of some offset of offs. */
  ghost predicate CircleMarks(width: int, height: int, offs: seq<(int, int)>,
                              x0: int, y0: int, i: int)
  {
    |offs| > 0 &&
    (CircleMarks(width, height, offs[..|offs| - 1], x0, y0, i) ||
     OctantMarks(width, height, offs[|offs| - 1], x0, y0, i))
  }

  // Properties of the offsets draw_circle_ visits.

  /** y only grows and x only shrinks, and an offset is visited only while
      x >= y, so every offset lies in the octant 0 <= y <= x <= r - 1. */
  lemma {:induction false} BresenhamOffsetsBounds(x: int, y: int, dx: int, dy: int,
                                                   err: int, r: int)
    requires 0 <= y && x <= r - 1
    ensures forall k :: 0 <= k < |BresenhamOffsets(x, y, dx, dy, err, r)| ==>
      var o := BresenhamOffsets(x, y, dx, dy, err, r)[k];
      0 <= o.1 <= o.0 <= r - 1
    decreases if x >= y then x - y + 1 else 0
  {
    if x >= y {
      var (x', y', dx', dy', err') := BresenhamStep(x, y, dx, dy, err, r);
      BresenhamOffsetsBounds(x', y', dx', dy', err', r);
      assert BresenhamOffsets(x, y, dx, dy, err, r) ==
        [(x, y)] + BresenhamOffsets(x', y', dx', dy', err', r);
    }
  }

  /** Offset o lies in the closed disc of radius r, and the next pixel
      outward along x does not: x^2 + y^2 <= r^2 <= (x + 1)^2 + y^2. */
  predicate OnRing(o: (int, int), r: int)
  {
    o.0 * o.0 + o.1 * o.1 <= r * r <= (o.0 + 1) * (o.0 + 1) + o.1 * o.1
  }

  /** The loop state of `draw_circle_`: the error term is the circle
      function err == x^2 + y^2 - r^2, with dy == 2y + 1 and
      dx == 2(r - x) - 1; it is never positive while x >= y, and x + 1 is
      never inside the circle. */
  predicate RingState(x: int, y: int, dx: int, dy: int, err: int, r: int)
  {
    err == x * x + y * y - r * r && dy == 2 * y + 1 && dx == 2 * (r - x) - 1 &&
    0 <= y && (x >= y ==> err <= 0) && err + 2 * x + 1 >= 0
  }

  lemma RingStateStep(x: int, y: int, dx: int, dy: int, err: int, r: int)
    requires RingState(x, y, dx, dy, err, r) && x >= y
    ensures OnRing((x, y), r)
    ensures var (x', y', dx', dy', err') := BresenhamStep(x, y, dx, dy, err, r);
      RingState(x', y', dx', dy', err', r)
  {
    assert OnRing((x, y), r) by {
      assert (x + 1) * (x + 1) == x * x + 2 * x + 1;
    }
    var err1 := err + dy;
    assert (y + 1) * (y + 1) == y * y + 2 * y + 1;
    if err1 > 0 {
      assert BresenhamStep(x, y, dx, dy, err, r) ==
        (x - 1, y + 1, dx + 2, dy + 2, err1 - 2 * x + 1);
      assert (x - 1) * (x - 1) == x * x - 2 * x + 1;
    } else {
      assert BresenhamStep(x, y, dx, dy, err, r) == (x, y + 1, dx, dy + 2, err1);
    }
  }

  /** Every offset visited from a ring state lies on the ring. */
  lemma {:induction false} BresenhamOffsetsRing(x: int, y: int, dx: int, dy: int,
                                                 err: int, r: int)
    requires RingState(x, y, dx, dy, err, r)
    ensures forall k :: 0 <= k < |BresenhamOffsets(x, y, dx, dy, err, r)| ==>
      OnRing(BresenhamOffsets(x, y, dx, dy, err, r)[k], r)
    decreases if x >= y then x - y + 1 else 0
  {
    if x >= y {
      var (x', y', dx', dy', err') := BresenhamStep(x, y, dx, dy, err, r);
      RingStateStep(x, y, dx, dy, err, r);
      BresenhamOffsetsRing(x', y', dx', dy', err', r);
      assert BresenhamOffsets(x, y, dx, dy, err, r) ==
        [(x, y)] + BresenhamOffsets(x', y', dx', dy', err', r);
    }
  }

  /** The offsets of `draw_circle_`: none for a radius <= 0; otherwise the
      first is (r - 1, 0), and all lie in the octant 0 <= y <= x <= r - 1 on
      the ring x^2 + y^2 <= r^2 <= (x + 1)^2 + y^2. */
  lemma CircleOffsetsProperties(r: int)
    ensures r <= 0 ==> CircleOffsets(r) == []
    ensures r >= 1 ==> |CircleOffsets(r)| > 0 && CircleOffsets(r)[0] == (r - 1, 0)
    ensures forall k :: 0 <= k < |CircleOffsets(r)| ==>
      var o := CircleOffsets(r)[k];
      0 <= o.1 <= o.0 <= r - 1 && OnRing(o, r)
  {
    BresenhamOffsetsBounds(r - 1, 0, 1, 1, 1 - 2 * r, r);
    if r >= 1 {
      assert (r - 1) * (r - 1) == r * r - 2 * r + 1;
      assert RingState(r - 1, 0, 1, 1, 1 - 2 * r, r);
      BresenhamOffsetsRing(r - 1, 0, 1, 1, 1 - 2 * r, r);
    }
  }

  lemma {:induction false} MarksMember(width: int, height: int, offs: seq<(int, int)>, k: int,
                                       x0: int, y0: int, i: int)
    requires 0 <= k < |offs| && OctantMarks(width, height, offs[k], x0, y0, i)
    ensures CircleMarks(width, height, offs, x0, y0, i)
  {
    if k < |offs| - 1 {
      var init := offs[..|offs| - 1];
      assert init[k] == offs[k];
      MarksMember(width, height, init, k, x0, y0, i);
    }
  }

  /** A marked byte is a pixel of some offset. */
  lemma {:induction false} MarksWitness(width: int, height: int, offs: seq<(int, int)>,
                                        x0: int, y0: int, i: int)
      returns (k: int)
    requires CircleMarks(width, height, offs, x0, y0, i)
    ensures 0 <= k < |offs| && OctantMarks(width, height, offs[k], x0, y0, i)
  {
    var init := offs[..|offs| - 1];
    if CircleMarks(width, height, init, x0, y0, i) {
      k := MarksWitness(width, height, init, x0, y0, i);
      assert init[k] == offs[k];
    } else {
      k := |offs| - 1;
    }
  }

  function Abs(a: int): int
  {
    if a < 0 then -a else a
  }

  /** Each of the eight pixels of offset o sits at distances (o.0, o.1) or
      (o.1, o.0) from the centre along the two axes. */
  lemma OctantPointOffsets(o: (int, int), x0: int, y0: int, j: int)
    requires 0 <= o.0 && 0 <= o.1 && 0 <= j < 8
    ensures var p := OctantPoints(o, x0, y0)[j];
      (Abs(p.0 - x0), Abs(p.1 - y0)) == (o.0, o.1) ||
      (Abs(p.0 - x0), Abs(p.1 - y0)) == (o.1, o.0)
  {
  }

  lemma SquareAbs(a: int)
    ensures a * a == Abs(a) * Abs(a)
  {
  }

  /** Every pixel `draw_circle_` sets lies within the closed disc of radius
      r about the centre, and so within Chebyshev distance r - 1 of it. */
  lemma CircleWithinRadius(width: int, height: int, r: int, x0: int, y0: int, cx: int, cy: int)
    requires OnScreen(width, height, cx, cy)
    requires CircleMarks(width, height, CircleOffsets(r), x0, y0, cy * width + cx)
    ensures Abs(cx - x0) <= r - 1 && Abs(cy - y0) <= r - 1
    ensures (cx - x0) * (cx - x0) + (cy - y0) * (cy - y0) <= r * r
  {
    var i := cy * width + cx;
    var k := MarksWitness(width, height, CircleOffsets(r), x0, y0, i);
    var o := CircleOffsets(r)[k];
    assert 0 <= o.1 <= o.0 <= r - 1 && OnRing(o, r) by { CircleOffsetsProperties(r); }
    var j :| 0 <= j < 8 && PixelAt(width, height, OctantPoints(o, x0, y0)[j], i);
    RowMajorInjective(width, height, OctantPoints(o, x0, y0)[j], (cx, cy));
    OctantPointOffsets(o, x0, y0, j);
    SquareAbs(cx - x0);
    SquareAbs(cy - y0);
    assert o.0 * o.0 + o.1 * o.1 <= r * r;
  }

  /** For a radius r >= 1 the four points at distance r - 1 along the axes
      are set whenever they lie on the screen. */
  lemma CircleAxisPoints(width: int, height: int, r: int, x0: int, y0: int)
    requires r >= 1
    ensures OnScreen(width, height, x0 + r - 1, y0) ==>
      CircleMarks(width, height, CircleOffsets(r), x0, y0, y0 * width + x0 + r - 1)
    ensures OnScreen(width, height, x0 - r + 1, y0) ==>
      CircleMarks(width, height, CircleOffsets(r), x0, y0, y0 * width + x0 - r + 1)
    ensures OnScreen(width, height, x0, y0 + r - 1) ==>
      CircleMarks(width, height, CircleOffsets(r), x0, y0, (y0 + r - 1) * width + x0)
    ensures OnScreen(width, height, x0, y0 - r + 1) ==>
      CircleMarks(width, height, CircleOffsets(r), x0, y0, (y0 - r + 1) * width + x0)
  {
    CircleOffsetsProperties(r);
    var offs := CircleOffsets(r);
    var pts := OctantPoints((r - 1, 0), x0, y0);
    if OnScreen(width, height, x0 + r - 1, y0) {
      assert PixelAt(width, height, pts[0], y0 * width + x0 + r - 1);
      MarksMember(width, height, offs, 0, x0, y0, y0 * width + x0 + r - 1);
    }
    if OnScreen(width, height, x0 - r + 1, y0) {
      assert PixelAt(width, height, pts[3], y0 * width + x0 - r + 1);
      MarksMember(width, height, offs, 0, x0, y0, y0 * width + x0 - r + 1);
    }
    if OnScreen(width, height, x0, y0 + r - 1) {
      assert PixelAt(width, height, pts[1], (y0 + r - 1) * width + x0);
      MarksMember(width, height, offs, 0, x0, y0, (y0 + r - 1) * width + x0);
    }
    if OnScreen(width, height, x0, y0 - r + 1) {
      assert PixelAt(width, height, pts[6], (y0 - r + 1) * width + x0);
      MarksMember(width, height, offs, 0, x0, y0, (y0 - r + 1) * width + x0);
    }
  }

  // ---------------------------------------------------------------------
  // fill_line_
  // ---------------------------------------------------------------------

  /** The early return of `fill_line_`. */
  predicate FillLineSkips(width: int, height: int, xBegin: int, xEnd: int, y: int)
  {
    xEnd < 0 || xBegin >= width || y < 0 || y >= height
  }

  /** x_begin raised to 0 and x_end lowered to width - 1. */
  function FillFirst(xBegin: int): int
  {
    if xBegin < 0 then 0 else xBegin
  }

  function FillLast(width: int, xEnd: int): int
  {
    if xEnd >= width then width - 1 else xEnd
  }

  /** The bytes `fill_line_` sets, as written: the half-open range
      [x_begin, x_end) of row y after clipping. */
  predicate FillSpan(width: int, height: int, xBegin: int, xEnd: int, y: int, i: int)
  {
    !FillLineSkips(width, height, xBegin, xEnd, y) &&
    y * width + FillFirst(xBegin) <= i < y * width + FillLast(width, xEnd)
  }

  /** The bytes of the corrected fill: columns x_begin..x_end of row y,
      both ends included, after clipping. */
  predicate FillSpanInclusive(width: int, height: int, xBegin: int, xEnd: int, y: int, i: int)
  {
    !FillLineSkips(width, height, xBegin, xEnd, y) &&
    y * width + FillFirst(xBegin) <= i <= y * width + FillLast(width, xEnd)
  }

  /** `fill_line_` as written touches only bytes of row y, and nothing at
      all in its three early-return cases. */
  lemma FillSpanInRow(width: int, height: int, xBegin: int, xEnd: int, y: int, i: int)
    requires FillSpan(width, height, xBegin, xEnd, y, i)
    ensures 0 <= y < height && y * width <= i < y * width + width
    ensures !(xEnd < 0 || xBegin >= width || y < 0 || y >= height)
  {
  }

  /** As written, the last column is never set: a line reaching the right
      edge stops one pixel short of it, e.g. width 4, fill_line_(0, 10, 0)
      sets bytes 0, 1, 2 but not 3. */
  lemma FillLineMissesLastColumn(width: int, height: int, xBegin: int, xEnd: int, y: int)
    requires 0 <= y < height && xBegin < width && xEnd >= width - 1 && width >= 1
    ensures !FillSpan(width, height, xBegin, xEnd, y, y * width + width - 1)
    ensures FillSpanInclusive(width, height, xBegin, xEnd, y, y * width + width - 1)
  {
  }

  /** The corrected fill sets exactly the on-screen pixels of row y whose
      column lies in [x_begin, x_end]. */
  lemma FillSpanInclusiveExact(width: int, height: int, xBegin: int, xEnd: int,
                               cx: int, cy: int, y: int)
    requires OnScreen(width, height, cx, cy)
    ensures FillSpanInclusive(width, height, xBegin, xEnd, y, cy * width + cx) <==>
      (cy == y && xBegin <= cx <= xEnd)
  {
    if FillSpanInclusive(width, height, xBegin, xEnd, y, cy * width + cx) {
      RowMajorInRange(width, height, cx, cy);
      var c := cy * width + cx - y * width;
      assert 0 <= c < width;
      RowMajorInjective(width, height, (c, y), (cx, cy));
    }
  }

  // ---------------------------------------------------------------------
  // get_frame
  // ---------------------------------------------------------------------

  predicate HasCircle(fixtures: seq<Shape>)
  {
    exists k :: 0 <= k < |fixtures| && fixtures[k].Circle?
  }

  /** A fixture `get_frame` cannot draw: `draw_polygon_` and `draw_edge_`
      throw `NotImplementedException`. */
  predicate Undrawable(s: Shape)
  {
    s.Polygon? || s.Edge?
  }

  predicate HasUndrawable(fixtures: seq<Shape>)
  {
    exists k :: 0 <= k < |fixtures| && Undrawable(fixtures[k])
  }

  /** Some visible body holds a polygon or an edge. */
  predicate SomeUndrawable(bodies: seq<Body>)
  {
    exists k :: 0 <= k < |bodies| && bodies[k].data.visible && HasUndrawable(bodies[k].fixtures)
  }

  /** The centre and radius `draw_circle_` is called with for body b: the
      screen-frame body position and `BodyData.radius`, each converted to
      `int32_t`. */
  function CircleCenter(heightPx: int, b: Body): (int, int)
  {
    var c := ToScreenFrame(heightPx, b.position);
    (Trunc(c.x), Trunc(c.y))
  }

  function CircleRadius(b: Body): int
  {
    Trunc(MetersToPixels(b.data.radius))
  }

  /** Byte i is set by body b: b is visible and has a circle fixture, and
      i is a pixel of its circle. */
  ghost predicate BodyMarks(width: int, height: int, b: Body, i: int)
  {
    b.data.visible && HasCircle(b.fixtures) &&
    CircleMarks(width, height, CircleOffsets(CircleRadius(b)),
                CircleCenter(height, b).0, CircleCenter(height, b).1, i)
  }

  ghost predicate BodiesMark(width: int, height: int, bodies: seq<Body>, i: int)
  {
    |bodies| > 0 &&
    (BodiesMark(width, height, bodies[..|bodies| - 1], i) ||
     BodyMarks(width, height, bodies[|bodies| - 1], i))
  }

  class VideoRenderer {
    const screenHeightPx: nat
    const screenWidthPx: nat
    const channelOrdering: Channels
    const imageShape: seq<nat>

    /** The constructor of video_renderer.cpp, (width, height, ordering):
        the frame is (h, w, 1) for channels last and (1, h, w) otherwise. */
    constructor (screenWidth: nat, screenHeight: nat, ordering: Channels)
      ensures screenWidthPx == screenWidth && screenHeightPx == screenHeight
      ensures channelOrdering == ordering
      ensures imageShape == if ordering == Last then [screenHeight, screenWidth, 1]
                            else [1, screenHeight, screenWidth]
    {
      screenHeightPx := screenHeight;
      screenWidthPx := screenWidth;
      channelOrdering := ordering;
      imageShape := if ordering == Last then [screenHeight, screenWidth, 1]
                    else [1, screenHeight, screenWidth];
    }

    /** `putpixel_`: byte y * width + x becomes 0xFF when (x, y) is on the
        screen; off-screen points leave the buffer as it is. */
    method PutPixel(x: int, y: int, screen: array<Byte>)
      requires screen.Length == screenWidthPx * screenHeightPx
      modifies screen
      ensures screen[..] == Paint(screenWidthPx, screenHeightPx, old(screen[..]), (x, y))
    {
      if x < 0 || x >= screenWidthPx || y < 0 || y >= screenHeightPx {
        return;
      }
      RowMajorInRange(screenWidthPx, screenHeightPx, x, y);
      screen[y * screenWidthPx + x] := 0xFF;
    }

    /** `fill_line_` (bouncing_balls_cpp header), as written: the
        `std::fill` over [x_begin, x_end) after clipping. `std::fill` needs
        a valid range, so the clipped x_begin must not exceed x_end. */
    method FillLine(xBegin: int, xEnd: int, y: int, screen: array<Byte>)
      requires screen.Length == screenWidthPx * screenHeightPx
      requires FillLineSkips(screenWidthPx, screenHeightPx, xBegin, xEnd, y) ||
               FillFirst(xBegin) <= FillLast(screenWidthPx, xEnd)
      modifies screen
      ensures forall i :: 0 <= i < screen.Length ==>
        screen[i] == if FillSpan(screenWidthPx, screenHeightPx, xBegin, xEnd, y, i) then 0xFF
                     else old(screen[i])
    {
      if xEnd < 0 || xBegin >= screenWidthPx || y < 0 || y >= screenHeightPx {
        return;
      }
      var first, last := xBegin, xEnd;
      if first < 0 { first := 0; }
      if last >= screenWidthPx { last := screenWidthPx - 1; }
      RowMajorInRange(screenWidthPx, screenHeightPx, last, y);
      var line := y * screenWidthPx;
      forall i | line + first <= i < line + last {
        screen[i] := 0xFF;
      }
    }

    /** The fill with the right end included, which sets the last column
        too. */
    method FillLineInclusive(xBegin: int, xEnd: int, y: int, screen: array<Byte>)
      requires screen.Length == screenWidthPx * screenHeightPx
      modifies screen
      ensures forall i :: 0 <= i < screen.Length ==>
        screen[i] == if FillSpanInclusive(screenWidthPx, screenHeightPx, xBegin, xEnd, y, i)
                     then 0xFF else old(screen[i])
    {
      if xEnd < 0 || xBegin >= screenWidthPx || y < 0 || y >= screenHeightPx {
        return;
      }
      var first, last := xBegin, xEnd;
      if first < 0 { first := 0; }
      if last >= screenWidthPx { last := screenWidthPx - 1; }
      if first <= last {
        RowMajorInRange(screenWidthPx, screenHeightPx, last, y);
      }
      var line := y * screenWidthPx;
      forall i | line + first <= i <= line + last {
        screen[i] := 0xFF;
      }
    }

    /** The eight `putpixel_` calls of one pass of `draw_circle_`. */
    method OctantPixels(x0: int, y0: int, x: int, y: int, screen: array<Byte>)
      requires screen.Length == screenWidthPx * screenHeightPx
      modifies screen
      ensures forall i :: 0 <= i < screen.Length ==>
        screen[i] == if OctantMarks(screenWidthPx, screenHeightPx, (x, y), x0, y0, i) then 0xFF
                     else old(screen[i])
    {
      ghost var pts := OctantPoints((x, y), x0, y0);
      ghost var before := screen[..];
      PutPixel(x0 + x, y0 + y, screen);
      assert screen[..] == PaintAll(screenWidthPx, screenHeightPx, before, pts, 1);
      PutPixel(x0 + y, y0 + x, screen);
      assert screen[..] == PaintAll(screenWidthPx, screenHeightPx, before, pts, 2);
      PutPixel(x0 - y, y0 + x, screen);
      assert screen[..] == PaintAll(screenWidthPx, screenHeightPx, before, pts, 3);
      PutPixel(x0 - x, y0 + y, screen);
      assert screen[..] == PaintAll(screenWidthPx, screenHeightPx, before, pts, 4);
      PutPixel(x0 - x, y0 - y, screen);
      assert screen[..] == PaintAll(screenWidthPx, screenHeightPx, before, pts, 5);
      PutPixel(x0 - y, y0 - x, screen);
      assert screen[..] == PaintAll(screenWidthPx, screenHeightPx, before, pts, 6);
      PutPixel(x0 + y, y0 - x, screen);
      assert screen[..] == PaintAll(screenWidthPx, screenHeightPx, before, pts, 7);
      PutPixel(x0 + x, y0 - y, screen);
      assert screen[..] == PaintAll(screenWidthPx, screenHeightPx, before, pts, 8);
      OctantMarksFirst(screenWidthPx, screenHeightPx, (x, y), x0, y0);
      forall i | 0 <= i < screen.Length
        ensures screen[i] == if OctantMarks(screenWidthPx, screenHeightPx, (x, y), x0, y0, i) then 0xFF
                             else old(screen[i])
      {
        PaintAllMarks(screenWidthPx, screenHeightPx, before, pts, 8, i);
        assert screen[i] == screen[..][i];
      }
    }

    /** `draw_circle_`: sets exactly the pixels of CircleOffsets(radius)
        about the truncated centre; every other byte keeps its value. */
    method DrawCircle(center: Vec, radius: int, screen: array<Byte>)
      requires screen.Length == screenWidthPx * screenHeightPx
      modifies screen
      ensures forall i :: 0 <= i < screen.Length ==>
        screen[i] == if CircleMarks(screenWidthPx, screenHeightPx, CircleOffsets(radius),
                                    Trunc(center.x), Trunc(center.y), i) then 0xFF
                     else old(screen[i])
    {
      var x0, y0 := Trunc(center.x), Trunc(center.y);
      var x, y, dx, dy, err := radius - 1, 0, 1, 1, 1 - 2 * radius;
      ghost var done: seq<(int, int)> := [];
      while x >= y
        invariant done + BresenhamOffsets(x, y, dx, dy, err, radius) == CircleOffsets(radius)
        invariant forall i :: 0 <= i < screen.Length ==>
          screen[i] == if CircleMarks(screenWidthPx, screenHeightPx, done, x0, y0, i) then 0xFF
                       else old(screen[i])
        decreases x - y + 1
      {
        OctantPixels(x0, y0, x, y, screen);
        ghost var before := done;
        done := done + [(x, y)];
        assert done[..|done| - 1] == before;
        if err <= 0 {
          y := y + 1;
          err := err + dy;
          dy := dy + 2;
        }
        if err > 0 {
          x := x - 1;
          dx := dx + 2;
          err := err + dx - 2 * radius;
        }
      }
      assert done == CircleOffsets(radius);
    }

    /** The fixture loop of `get_frame` for one visible body: false at the
        first polygon or edge (where the source throws), otherwise every
        circle fixture draws the body's circle. */
    method DrawFixtures(body: Body, screen: array<Byte>) returns (ok: bool)
      requires screen.Length == screenWidthPx * screenHeightPx
      requires body.data.visible
      modifies screen
      ensures ok <==> !HasUndrawable(body.fixtures)
      ensures ok ==> forall i :: 0 <= i < screen.Length ==>
        screen[i] == if BodyMarks(screenWidthPx, screenHeightPx, body, i) then 0xFF
                     else old(screen[i])
    {
      var center := ToScreenFrame(screenHeightPx, body.position);
      var radius := Trunc(MetersToPixels(body.data.radius));
      var drawn := false;
      var j := 0;
      while j < |body.fixtures|
        invariant 0 <= j <= |body.fixtures|
        invariant !HasUndrawable(body.fixtures[..j])
        invariant drawn <==> HasCircle(body.fixtures[..j])
        invariant forall i :: 0 <= i < screen.Length ==>
          screen[i] == if drawn && CircleMarks(screenWidthPx, screenHeightPx,
                                               CircleOffsets(radius),
                                               Trunc(center.x), Trunc(center.y), i)
                       then 0xFF else old(screen[i])
      {
        var s := body.fixtures[j];
        assert body.fixtures[..j + 1] == body.fixtures[..j] + [s];
        if Undrawable(s) {
          assert body.fixtures[..j + 1][j] == s;
          return false;
        }
        if s.Circle? {
          DrawCircle(center, radius, screen);
          drawn := true;
        }
        j := j + 1;
      }
      assert body.fixtures[..j] == body.fixtures;
      return true;
    }

    /** `get_frame`: a zeroed frame of `imageShape` into which the circle of
        every visible body with a circle fixture is drawn; it fails with
        NotImplemented exactly when a visible body holds a polygon or an
        edge. Chains and invisible bodies draw nothing. */
    method GetFrame(bodies: seq<Body>) returns (r: Result<NpyArray, Failure>)
      ensures r.Err? <==> SomeUndrawable(bodies)
      ensures r.Ok? ==> r.value == Frame(bodies)
      ensures r.Err? ==> r.error == NotImplemented
      ensures r.Ok? ==> r.value.shape == imageShape
      ensures r.Ok? ==> |r.value.data| == screenWidthPx * screenHeightPx
      ensures r.Ok? ==> forall i :: 0 <= i < |r.value.data| ==>
        r.value.data[i] == if BodiesMark(screenWidthPx, screenHeightPx, bodies, i) then 0xFF
                           else 0
    {
      var screen := new Byte[screenWidthPx * screenHeightPx](_ => 0);
      var k := 0;
      while k < |bodies|
        invariant 0 <= k <= |bodies|
        invariant !SomeUndrawable(bodies[..k])
        invariant forall i :: 0 <= i < screen.Length ==>
          screen[i] == if BodiesMark(screenWidthPx, screenHeightPx, bodies[..k], i) then 0xFF
                       else 0
      {
        var body := bodies[k];
        assert bodies[..k + 1] == bodies[..k] + [body];
        assert bodies[..k + 1][..k] == bodies[..k];
        if body.data.visible {
          var ok := DrawFixtures(body, screen);
          if !ok {
            assert bodies[k].data.visible && HasUndrawable(bodies[k].fixtures);
            return Err(NotImplemented);
          }
        }
        k := k + 1;
      }
      assert bodies[..k] == bodies;
      assert screen[..] == Frame(bodies).data;
      return Ok(NpyArray(imageShape, screen[..]));
    }

    /** The frame `get_frame` returns when it succeeds, byte for byte: 0xFF
        where a visible body's circle is, 0 elsewhere. */
    ghost function Frame(bodies: seq<Body>): NpyArray
    {
      NpyArray(imageShape, seq(screenWidthPx * screenHeightPx,
                               i => if BodiesMark(screenWidthPx, screenHeightPx, bodies, i) then 0xFF else 0))
    }

    /** `get_shape_vertexes_<b2PolygonShape>`: one screen-frame point per
        vertex, in vertex order. */
    method PolygonVertexes(body: Body, vertices: seq<Vec>) returns (ps: seq<Vec>)
      ensures |ps| == |vertices|
      ensures forall i :: 0 <= i < |vertices| ==>
        ToWorldFrame(screenHeightPx, ps[i]) == WorldPoint(body, vertices[i])
    {
      ps := [];
      var i := 0;
      while i < |vertices|
        invariant 0 <= i <= |vertices| && |ps| == i
        invariant forall j :: 0 <= j < i ==>
          ToWorldFrame(screenHeightPx, ps[j]) == WorldPoint(body, vertices[j])
      {
        var w := WorldPoint(body, vertices[i]);
        ConversionsInverse(screenHeightPx, w);
        ps := ps + [ToScreenFrame(screenHeightPx, w)];
        i := i + 1;
      }
    }

    /** `get_shape_vertexes_<b2EdgeShape>` of the bouncing_balls_cpp header:
        the screen-frame images of the two vertices it reads, m_vertex0 and
        m_vertex1. Box2D's b2EdgeShape::Set stores an edge's endpoints in
        m_vertex1 and m_vertex2, and m_vertex0 is a ghost vertex, so this
        pair is not the edge's endpoints either. The renderers draw no
        edge, so this changes no frame. */
    function EdgeVertexes(body: Body, v0: Vec, v1: Vec): (ps: seq<Vec>)
      ensures |ps| == 2
      ensures ToWorldFrame(screenHeightPx, ps[0]) == WorldPoint(body, v0)
      ensures ToWorldFrame(screenHeightPx, ps[1]) == WorldPoint(body, v1)
    {
      ConversionsInverse(screenHeightPx, WorldPoint(body, v0));
      ConversionsInverse(screenHeightPx, WorldPoint(body, v1));
      [ToScreenFrame(screenHeightPx, WorldPoint(body, v0)),
       ToScreenFrame(screenHeightPx, WorldPoint(body, v1))]
    }

    /** The same function in the cpp/include header, as written: its first
        point takes x from vertex 0 but y from vertex 1. */
    function EdgeVertexesAsWritten(body: Body, v0: Vec, v1: Vec): (ps: seq<Vec>)
      ensures |ps| == 2
      ensures ToWorldFrame(screenHeightPx, ps[0]) ==
        Vec(WorldPoint(body, v0).x, WorldPoint(body, v1).y)
      ensures ToWorldFrame(screenHeightPx, ps[1]) == WorldPoint(body, v1)
    {
      var w0 := WorldPoint(body, v0);
      var w1 := WorldPoint(body, v1);
      ConversionsInverse(screenHeightPx, Vec(w0.x, w1.y));
      ConversionsInverse(screenHeightPx, w1);
      [ToScreenFrame(screenHeightPx, Vec(w0.x, w1.y)), ToScreenFrame(screenHeightPx, w1)]
    }

    /** The two edge functions agree only on horizontal edges: whenever the
        vertices differ in y the as-written one returns a wrong first
        point. */
    lemma EdgeVertexesDiffer(body: Body, v0: Vec, v1: Vec)
      ensures EdgeVertexesAsWritten(body, v0, v1) == EdgeVertexes(body, v0, v1) <==> v0.y == v1.y
    {
      var a := EdgeVertexesAsWritten(body, v0, v1);
      var b := EdgeVertexes(body, v0, v1);
      if a == b {
        assert ToWorldFrame(screenHeightPx, a[0]) == ToWorldFrame(screenHeightPx, b[0]);
      }
    }
  }
}
