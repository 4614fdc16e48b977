/** render.py: the rasterisation helpers (center_of_mass,
    draw_horizontal_line, symmetry_points, plot_circle), the coordinate
    conversions of the `Renderer` base class, and the three renderers
    `VideoRenderer`, `CentroidVideoRenderer` and
    `PositionAndVelocityExtractor`. */
module Render {
  import opened Wrappers
  import opened Common
  import opened World

  // ---------------------------------------------------------------------
  // Coordinate conversions (class Renderer)
  // ---------------------------------------------------------------------

  /** Pixels per metre. */
  const PPM: real := 1.0

  function PixelsToMeters(pixels: real): real
  {
    pixels / PPM
  }

  /** `int(meters * PPM)`: truncation toward zero. */
  function MetersToPixels(meters: real): int
  {
    Trunc(meters * PPM)
  }

  /** Screen (pixels, y down from the top row) to world (metres, y up). */
  function ToWorldFrame(heightPx: int, p: Vec): Vec
  {
    Vec(PixelsToMeters(p.x), PixelsToMeters(heightPx as real - p.y))
  }

  /** World to screen; both coordinates are truncated to integers. */
  function ToScreenFrame(heightPx: int, p: Vec): (int, int)
  {
    (MetersToPixels(p.x), heightPx - MetersToPixels(p.y))
  }

  /** An integer pixel survives the trip into the world frame and back. */
  lemma ScreenWorldRoundTrip(heightPx: int, px: int, py: int)
    ensures ToScreenFrame(heightPx, ToWorldFrame(heightPx, Vec(px as real, py as real))) == (px, py)
  {
    TruncOfInt(px);
    TruncOfInt(heightPx - py);
  }

  /** A world point moved to the screen and back lands within one pixel of
      where it started, on each axis. */
  lemma WorldScreenWithinOnePixel(heightPx: int, p: Vec)
    ensures var s := ToScreenFrame(heightPx, p);
            var q := ToWorldFrame(heightPx, Vec(s.0 as real, s.1 as real));
            -1.0 < q.x - p.x < 1.0 && -1.0 < q.y - p.y < 1.0
  {
  }

  // ---------------------------------------------------------------------
  // center_of_mass
  // ---------------------------------------------------------------------

  function SumX(points: seq<Vec>): real
  {
    if |points| == 0 then 0.0 else SumX(points[..|points| - 1]) + points[|points| - 1].x
  }

  function SumY(points: seq<Vec>): real
  {
    if |points| == 0 then 0.0 else SumY(points[..|points| - 1]) + points[|points| - 1].y
  }

  /** The arithmetic mean of a non-empty list of points. */
  function Centroid(points: seq<Vec>): Vec
    requires |points| > 0
  {
    Vec(SumX(points) / |points| as real, SumY(points) / |points| as real)
  }

  /** `center_of_mass`: sums the points in a loop and divides by their
      number. An empty list divides 0 by 0 (numpy's nan), reported as None. */
  method CenterOfMass(points: seq<Vec>) returns (center: Option<Vec>)
    ensures |points| == 0 <==> center.None?
    ensures |points| > 0 ==> center == Some(Centroid(points))
  {
    var sx, sy := 0.0, 0.0;
    var i := 0;
    while i < |points|
      invariant 0 <= i <= |points|
      invariant sx == SumX(points[..i]) && sy == SumY(points[..i])
    {
      assert points[..i + 1][..i] == points[..i];
      sx := sx + points[i].x;
      sy := sy + points[i].y;
      i := i + 1;
    }
    assert points[..i] == points;
    if |points| == 0 {
      return None;
    }
    return Some(Vec(sx / |points| as real, sy / |points| as real));
  }

  predicate InBox(p: Vec, lo: Vec, hi: Vec)
  {
    lo.x <= p.x <= hi.x && lo.y <= p.y <= hi.y
  }

  lemma {:induction false} SumXBounded(points: seq<Vec>, lo: real, hi: real)
    requires forall i :: 0 <= i < |points| ==> lo <= points[i].x <= hi
    ensures |points| as real * lo <= SumX(points) <= |points| as real * hi
  {
    if |points| > 0 {
      var n := (|points| - 1) as real;
      SumXBounded(points[..|points| - 1], lo, hi);
      assert (n + 1.0) * lo == n * lo + lo && (n + 1.0) * hi == n * hi + hi;
    }
  }

  lemma {:induction false} SumYBounded(points: seq<Vec>, lo: real, hi: real)
    requires forall i :: 0 <= i < |points| ==> lo <= points[i].y <= hi
    ensures |points| as real * lo <= SumY(points) <= |points| as real * hi
  {
    if |points| > 0 {
      var n := (|points| - 1) as real;
      SumYBounded(points[..|points| - 1], lo, hi);
      assert (n + 1.0) * lo == n * lo + lo && (n + 1.0) * hi == n * hi + hi;
    }
  }

  /** The mean x coordinate lies within any bounds of the x coordinates. */
  lemma MeanXBounded(points: seq<Vec>, lo: real, hi: real)
    requires |points| > 0
    requires forall i :: 0 <= i < |points| ==> lo <= points[i].x <= hi
    ensures lo <= SumX(points) / |points| as real <= hi
  {
    SumXBounded(points, lo, hi);
    DivBounds(SumX(points), |points| as real, lo, hi);
  }

  /** The mean y coordinate lies within any bounds of the y coordinates. */
  lemma MeanYBounded(points: seq<Vec>, lo: real, hi: real)
    requires |points| > 0
    requires forall i :: 0 <= i < |points| ==> lo <= points[i].y <= hi
    ensures lo <= SumY(points) / |points| as real <= hi
  {
    SumYBounded(points, lo, hi);
    DivBounds(SumY(points), |points| as real, lo, hi);
  }

  /** The centroid lies in every axis-aligned box that holds all the points. */
  lemma CentroidInBox(points: seq<Vec>, lo: Vec, hi: Vec)
    requires |points| > 0
    requires forall i :: 0 <= i < |points| ==> InBox(points[i], lo, hi)
    ensures InBox(Centroid(points), lo, hi)
  {
    MeanXBounded(points, lo.x, hi.x);
    MeanYBounded(points, lo.y, hi.y);
  }

  lemma DivBounds(s: real, n: real, lo: real, hi: real)
    requires n > 0.0 && n * lo <= s <= n * hi
    ensures lo <= s / n <= hi
  {
    assert (s / n) * n == s;
  }

  // ---------------------------------------------------------------------
  // draw_horizontal_line, symmetry_points, plot_circle
  // ---------------------------------------------------------------------

  /** The two successive ifs that move an index into [0, m): first up to
      0, then down to m - 1. */
  function Clamp(v: int, m: int): int
  {
    var v1 := if v < 0 then 0 else v;
    if v1 >= m then m - 1 else v1
  }

  /** The clamped index lies in [0, m) when m >= 1, and an index already
      there is left unchanged. With m <= 0 the result is m - 1. */
  lemma ClampRange(v: int, m: int)
    ensures m >= 1 ==> 0 <= Clamp(v, m) < m
    ensures 0 <= v < m ==> Clamp(v, m) == v
    ensures m <= 0 ==> Clamp(v, m) == m - 1
  {
  }

  /** numpy's reading of an integer index i on an axis of length n: a
      negative index counts from the end. The index is valid iff the result
      lies in [0, n). */
  function AxisIndex(i: int, n: int): int
  {
    if i < 0 then i + n else i
  }

  /** numpy's reading of a slice bound i on an axis of length n: a negative
      bound counts from the end, and a bound beyond the axis is cut to it. */
  function SliceBound(i: int, n: int): (b: int)
    ensures n >= 0 ==> 0 <= b <= n
    ensures 0 <= i <= n ==> b == i
  {
    if i < 0 then (if i + n < 0 then 0 else i + n)
    else if i > n then n else i
  }

  /** draw_horizontal_line(y) raises IndexError on a plane of `rows` rows:
      the clamped row is no index of the plane. With max_y >= 1 rows this
      never happens; with max_y == 0 the row is -1. */
  predicate RowFails(y: int, maxY: int, rows: int)
  {
    var i := AxisIndex(Clamp(y, maxY), rows);
    !(0 <= i < rows)
  }

  /** Cell (row, col) of a rows x cols plane is set by
      draw_horizontal_line(y, xBegin, xEnd): the clamped row, and the
      columns of `x_begin:x_end+1` after both ends are clamped, read as
      numpy reads a slice. With max_x == 0 both ends clamp to -1 and the
      slice is empty. */
  ghost predicate LineCovers(line: (int, int, int), maxX: int, maxY: int,
                             rows: int, cols: int, row: int, col: int)
  {
    var (y, xBegin, xEnd) := line;
    !RowFails(y, maxY, rows) && row == AxisIndex(Clamp(y, maxY), rows) &&
    SliceBound(Clamp(xBegin, maxX), cols) <= col < SliceBound(Clamp(xEnd, maxX) + 1, cols)
  }

  /** The four calls of symmetry_points for the octant offset (x, y), in
      call order, each as (y, x_begin, x_end). */
  function SymmetryLines(x: int, y: int, x0: int, y0: int): seq<(int, int, int)>
  {
    [(y0 + y, x0 - x, x0 + x), (y0 - y, x0 - x, x0 + x),
     (y0 + x, x0 - y, x0 + y), (y0 - x, x0 - y, x0 + y)]
  }

  /** Drawing lines[j..] in order raises IndexError: the row of one of them
      fails. */
  predicate SomeRowFails(lines: seq<(int, int, int)>, j: nat, maxY: int, rows: int)
    decreases |lines| - j
  {
    j < |lines| && (RowFails(lines[j].0, maxY, rows) || SomeRowFails(lines, j + 1, maxY, rows))
  }

  /** Cell (row, col) is set by drawing lines[j..] in order: by one of
      them, each drawn only when no earlier one raised. */
  ghost predicate DrawnFrom(lines: seq<(int, int, int)>, j: nat, maxX: int, maxY: int,
                            rows: int, cols: int, row: int, col: int)
    decreases |lines| - j
  {
    j < |lines| &&
    (LineCovers(lines[j], maxX, maxY, rows, cols, row, col) ||
     (!RowFails(lines[j].0, maxY, rows) &&
      DrawnFrom(lines, j + 1, maxX, maxY, rows, cols, row, col)))
  }

  /** On plot_circle's plane, whose max_x and max_y are its own width and
      height, draw_horizontal_line(y, xBegin, xEnd) covers the clamped row
      and the clamped columns xBegin..xEnd inclusive. */
  ghost predicate SpanCovers(line: (int, int, int), maxX: int, maxY: int, row: int, col: int)
  {
    var (y, xBegin, xEnd) := line;
    row == Clamp(y, maxY) && Clamp(xBegin, maxX) <= col <= Clamp(xEnd, maxX)
  }

  /** On a plane with rows no clamped row raises, and the numpy reading of
      a line is that span, for every cell of the plane. (A plane of width 0
      has no cells.) */
  lemma PlaneLineCovers(line: (int, int, int), maxX: int, maxY: int, row: int, col: int)
    requires maxY >= 1 && 0 <= row < maxY && 0 <= col < maxX
    ensures !RowFails(line.0, maxY, maxY)
    ensures LineCovers(line, maxX, maxY, maxY, maxX, row, col) <==>
            SpanCovers(line, maxX, maxY, row, col)
  {
  }

  /** On a plane of max_y >= 1 rows no clamped row raises. */
  lemma RowOnPlane(y: int, maxY: int)
    requires maxY >= 1
    ensures !RowFails(y, maxY, maxY)
  {
  }

  /** The four spans symmetry_points draws for the octant offset o = (x, y)
      on plot_circle's plane. */
  ghost predicate SymmetryCovers(o: (int, int), x0: int, y0: int, maxX: int, maxY: int,
                                 row: int, col: int)
  {
    var (x, y) := o;
    SpanCovers((y0 + y, x0 - x, x0 + x), maxX, maxY, row, col) ||
    SpanCovers((y0 - y, x0 - x, x0 + x), maxX, maxY, row, col) ||
    SpanCovers((y0 + x, x0 - y, x0 + y), maxX, maxY, row, col) ||
    SpanCovers((y0 - x, x0 - y, x0 + y), maxX, maxY, row, col)
  }

  /** On a plane with rows, drawing lines[j..] raises nothing, and covers
      a cell exactly when one of their spans does. */
  ghost predicate SpansFrom(lines: seq<(int, int, int)>, j: nat, maxX: int, maxY: int,
                            row: int, col: int)
    decreases |lines| - j
  {
    j < |lines| &&
    (SpanCovers(lines[j], maxX, maxY, row, col) || SpansFrom(lines, j + 1, maxX, maxY, row, col))
  }

  lemma {:induction false} PlaneDrawnFrom(lines: seq<(int, int, int)>, j: nat, maxX: int, maxY: int,
                                          row: int, col: int)
    requires maxY >= 1 && 0 <= row < maxY && 0 <= col < maxX
    ensures !SomeRowFails(lines, j, maxY, maxY)
    ensures DrawnFrom(lines, j, maxX, maxY, maxY, maxX, row, col) <==>
            SpansFrom(lines, j, maxX, maxY, row, col)
    decreases |lines| - j
  {
    if j < |lines| {
      PlaneLineCovers(lines[j], maxX, maxY, row, col);
      PlaneDrawnFrom(lines, j + 1, maxX, maxY, row, col);
    }
  }

  /** symmetry_points on plot_circle's plane with rows: no span raises,
      and the four numpy lines cover exactly the four spans. */
  lemma PlaneSymmetryCovers(x: int, y: int, x0: int, y0: int, maxX: int, maxY: int)
    requires maxY >= 1
    ensures !SomeRowFails(SymmetryLines(x, y, x0, y0), 0, maxY, maxY)
    ensures forall row, col :: 0 <= row < maxY && 0 <= col < maxX ==>
      (DrawnFrom(SymmetryLines(x, y, x0, y0), 0, maxX, maxY, maxY, maxX, row, col) <==>
       SymmetryCovers((x, y), x0, y0, maxX, maxY, row, col))
  {
    var lines := SymmetryLines(x, y, x0, y0);
    RowOnPlane(y0 + y, maxY);
    RowOnPlane(y0 - y, maxY);
    RowOnPlane(y0 + x, maxY);
    RowOnPlane(y0 - x, maxY);
    assert !SomeRowFails(lines, 0, maxY, maxY) by {
      assert !SomeRowFails(lines, 4, maxY, maxY);
      assert !SomeRowFails(lines, 3, maxY, maxY);
      assert !SomeRowFails(lines, 2, maxY, maxY);
    }
    forall row, col | 0 <= row < maxY && 0 <= col < maxX
      ensures DrawnFrom(lines, 0, maxX, maxY, maxY, maxX, row, col) <==>
              SymmetryCovers((x, y), x0, y0, maxX, maxY, row, col)
    {
      PlaneDrawnFrom(lines, 0, maxX, maxY, row, col);
      assert !SpansFrom(lines, 4, maxX, maxY, row, col);
      assert SpansFrom(lines, 2, maxX, maxY, row, col) <==>
             SpanCovers(lines[2], maxX, maxY, row, col) || SpanCovers(lines[3], maxX, maxY, row, col);
    }
  }

  /** Some offset of offs, drawn by symmetry_points, covers (row, col). */
  ghost predicate CircleCovers(offs: seq<(int, int)>, x0: int, y0: int, maxX: int, maxY: int,
                               row: int, col: int)
  {
    |offs| > 0 &&
    (CircleCovers(offs[..|offs| - 1], x0, y0, maxX, maxY, row, col) ||
     SymmetryCovers(offs[|offs| - 1], x0, y0, maxX, maxY, row, col))
  }

  /** One pass of plot_circle's loop on (x, y, 4d). The decision variable d
      starts at 5/4 - radius and changes by integers, so 4d is an integer. */
  function MidpointStep(x: int, y: int, d4: int): (int, int, int)
  {
    if d4 < 0 then (x + 1, y, d4 + 8 * (x + 1) + 4)
    else (x + 1, y - 1, d4 + 8 * ((x + 1) - (y - 1)) + 4)
  }

  /** The offsets the loop visits after (x, y), while x < y. */
  function MidpointOffsets(x: int, y: int, d4: int): seq<(int, int)>
    decreases if x < y then y - x else 0
  {
    if x < y then
      var (x', y', d4') := MidpointStep(x, y, d4);
      [(x', y')] + MidpointOffsets(x', y', d4')
    else []
  }

  /** Every offset plot_circle hands to symmetry_points, in order. */
  function CircleOffsets(radius: int): seq<(int, int)>
  {
    [(0, radius)] + MidpointOffsets(0, radius, 5 - 4 * radius)
  }

  /** `draw_horizontal_line` on plane 0 of `screen`, which is the 2-D
      `image` of the source (get_frame passes `screen[0, :, :]`). It clamps
      the row and both ends, then assigns `image[y, x_begin:x_end+1]` as
      numpy does: a negative index counts from the end, the slice is cut to
      the row, and a row index outside the plane raises IndexError. */
  method DrawHorizontalLine(screen: array3<real>, y: int, xBegin: int, xEnd: int,
                            maxX: int, maxY: int) returns (err: Option<Failure>)
    requires screen.Length0 >= 1
    modifies screen
    ensures err == if RowFails(y, maxY, screen.Length1) then Some(IndexError) else None
    ensures forall p, r, c ::
      (0 <= p < screen.Length0 && 0 <= r < screen.Length1 && 0 <= c < screen.Length2) ==>
        screen[p, r, c] ==
          if p == 0 && LineCovers((y, xBegin, xEnd), maxX, maxY, screen.Length1,
                                  screen.Length2, r, c) then 1.0
          else old(screen[p, r, c])
  {
    // each pair of ifs of the source is one Clamp
    var row, first, last := Clamp(y, maxY), Clamp(xBegin, maxX), Clamp(xEnd, maxX);
    if row < 0 { row := row + screen.Length1; }
    if !(0 <= row < screen.Length1) {
      return Some(IndexError);
    }
    var lo, hi := SliceBound(first, screen.Length2), SliceBound(last + 1, screen.Length2);
    forall c | lo <= c < hi {
      screen[0, row, c] := 1.0;
    }
    return None;
  }

  /** The calls of `symmetry_points` from lines[j] on, in order: the first
      line that raises IndexError ends the call, and the later lines are
      not drawn. */
  method DrawLines(screen: array3<real>, lines: seq<(int, int, int)>, j: nat,
                   maxX: int, maxY: int) returns (err: Option<Failure>)
    requires screen.Length0 >= 1 && j <= |lines|
    modifies screen
    ensures err == if SomeRowFails(lines, j, maxY, screen.Length1) then Some(IndexError) else None
    ensures forall p, r, c ::
      (0 <= p < screen.Length0 && 0 <= r < screen.Length1 && 0 <= c < screen.Length2) ==>
        screen[p, r, c] ==
          if p == 0 && DrawnFrom(lines, j, maxX, maxY, screen.Length1, screen.Length2, r, c)
          then 1.0
          else old(screen[p, r, c])
    decreases |lines| - j
  {
    if j == |lines| {
      return None;
    }
    var (y, xBegin, xEnd) := lines[j];
    err := DrawHorizontalLine(screen, y, xBegin, xEnd, maxX, maxY);
    if err.Some? {
      return;
    }
    err := DrawLines(screen, lines, j + 1, maxX, maxY);
  }

  /** `symmetry_points`: the four spans of one octant offset, drawn in
      order. */
  method SymmetryPoints(screen: array3<real>, x: int, y: int, x0: int, y0: int,
                        maxX: int, maxY: int) returns (err: Option<Failure>)
    requires screen.Length0 >= 1
    modifies screen
    ensures err == if SomeRowFails(SymmetryLines(x, y, x0, y0), 0, maxY, screen.Length1)
                   then Some(IndexError) else None
    ensures forall p, r, c ::
      (0 <= p < screen.Length0 && 0 <= r < screen.Length1 && 0 <= c < screen.Length2) ==>
        screen[p, r, c] ==
          if p == 0 && DrawnFrom(SymmetryLines(x, y, x0, y0), 0, maxX, maxY, screen.Length1,
                                 screen.Length2, r, c) then 1.0
          else old(screen[p, r, c])
  {
    err := DrawLines(screen, SymmetryLines(x, y, x0, y0), 0, maxX, maxY);
  }

  /** `plot_circle`: the midpoint circle algorithm, filling the circle by
      horizontal spans. On a plane without rows the first span raises
      IndexError. Otherwise plane 0 ends up covered exactly by the spans of
      CircleOffsets(radius), which is nothing on a plane of width 0. Every
      other cell keeps its value. */
  method PlotCircle(screen: array3<real>, radius: int, x0: int, y0: int)
    returns (err: Option<Failure>)
    requires screen.Length0 >= 1
    modifies screen
    ensures err == if screen.Length1 == 0 then Some(IndexError) else None
    ensures forall p, r, c ::
      (0 <= p < screen.Length0 && 0 <= r < screen.Length1 && 0 <= c < screen.Length2) ==>
        screen[p, r, c] ==
          if p == 0 && CircleCovers(CircleOffsets(radius), x0, y0, screen.Length2,
                                    screen.Length1, r, c) then 1.0
          else old(screen[p, r, c])
  {
    var maxX, maxY := screen.Length2, screen.Length1;
    var x, y := 0, radius;
    var d := 5.0 / 4.0 - radius as real;
    ghost var k := 1 - radius;
    ghost var done := [(0, radius)];
    err := SymmetryPoints(screen, x, y, x0, y0, maxX, maxY);
    if maxY >= 1 {
      PlaneSymmetryCovers(x, y, x0, y0, maxX, maxY);
    }
    if err.Some? {
      return;
    }
    assert done[..0] == [];
    while x < y
      // max_y is the plane's own height, so no later span raises either
      invariant maxY >= 1 && err.None?
      invariant d == k as real + 0.25
      invariant done + MidpointOffsets(x, y, 4 * k + 1) == CircleOffsets(radius)
      invariant |done| > 0 && done[|done| - 1] == (x, y)
      invariant forall p, r, c ::
        (0 <= p < screen.Length0 && 0 <= r < screen.Length1 && 0 <= c < screen.Length2) ==>
          screen[p, r, c] ==
            if p == 0 && CircleCovers(done, x0, y0, maxX, maxY, r, c) then 1.0
            else old(screen[p, r, c])
      decreases y - x
    {
      ghost var before, rest := done, MidpointOffsets(x, y, 4 * k + 1);
      ghost var next := MidpointStep(x, y, 4 * k + 1);
      if d < 0.0 {
        x := x + 1;
        d := d + (2 * x + 1) as real;
        k := k + 2 * x + 1;
      } else {
        x := x + 1;
        y := y - 1;
        d := d + (2 * (x - y) + 1) as real;
        k := k + 2 * (x - y) + 1;
      }
      assert next == (x, y, 4 * k + 1);
      assert rest == [(x, y)] + MidpointOffsets(x, y, 4 * k + 1);
      done := done + [(x, y)];
      assert done + MidpointOffsets(x, y, 4 * k + 1) == before + rest;
      assert done[..|done| - 1] == before;
      err := SymmetryPoints(screen, x, y, x0, y0, maxX, maxY);
      PlaneSymmetryCovers(x, y, x0, y0, maxX, maxY);
    }
    assert MidpointOffsets(x, y, 4 * k + 1) == [];
    assert done == CircleOffsets(radius);
  }

  // Properties of the offsets plot_circle visits.

  /** Along the loop x grows by one per pass and y never grows or drops
      below zero, so every offset lies in [0, r] x [0, r]. */
  lemma {:induction false} MidpointOffsetsBounds(x: int, y: int, d4: int, r: int)
    requires 0 <= x && 0 <= y <= r
    ensures forall k :: 0 <= k < |MidpointOffsets(x, y, d4)| ==>
      MidpointOffsets(x, y, d4)[k].0 == x + 1 + k &&
      0 <= MidpointOffsets(x, y, d4)[k].1 <= y && MidpointOffsets(x, y, d4)[k].0 <= r
    decreases if x < y then y - x else 0
  {
    if x < y {
      var (x', y', d4') := MidpointStep(x, y, d4);
      MidpointOffsetsBounds(x', y', d4', r);
      var tail := MidpointOffsets(x', y', d4');
      assert MidpointOffsets(x, y, d4) == [(x', y')] + tail;
    }
  }

  /** The decision value 4d is the circle function at the next midpoint,
      4 (x+1)^2 + (2y-1)^2 - 4 r^2; hence no visited offset lies more than
      half a pixel inside the circle: 4 x^2 + (2y+1)^2 >= 4 r^2. */
  lemma {:induction false} MidpointOffsetsOutside(x: int, y: int, d4: int, r: int)
    requires 0 <= x
    requires d4 == 4 * (x + 1) * (x + 1) + (2 * y - 1) * (2 * y - 1) - 4 * r * r
    requires 4 * x * x + (2 * y + 1) * (2 * y + 1) >= 4 * r * r
    ensures forall k :: 0 <= k < |MidpointOffsets(x, y, d4)| ==>
      var o := MidpointOffsets(x, y, d4)[k];
      4 * o.0 * o.0 + (2 * o.1 + 1) * (2 * o.1 + 1) >= 4 * r * r
    decreases if x < y then y - x else 0
  {
    if x < y {
      var (x', y', d4') := MidpointStep(x, y, d4);
      if d4 < 0 {
        assert x' == x + 1 && y' == y;
        assert 4 * x' * x' >= 4 * x * x by { SquareGrows(x); }
        assert d4' == d4 + 8 * x' + 4;
        assert 4 * (x' + 1) * (x' + 1) == 4 * (x + 1) * (x + 1) + 8 * x' + 4;
      } else {
        assert x' == x + 1 && y' == y - 1;
        assert 2 * y' + 1 == 2 * y - 1;
        assert d4' == d4 + 8 * (x' - y') + 4;
        assert 4 * (x' + 1) * (x' + 1) == 4 * x' * x' + 8 * x' + 4;
        assert (2 * y' - 1) * (2 * y' - 1) == (2 * y - 1) * (2 * y - 1) - 8 * y';
      }
      MidpointOffsetsOutside(x', y', d4', r);
      var tail := MidpointOffsets(x', y', d4');
      assert MidpointOffsets(x, y, d4) == [(x', y')] + tail;
    }
  }

  lemma SquareGrows(x: int)
    requires x >= 0
    ensures (x + 1) * (x + 1) >= x * x
  {
  }

  /** The offsets of plot_circle for radius r >= 0: the k-th has x == k,
      all lie in [0, r] x [0, r], and none lies more than half a pixel
      inside the circle. */
  lemma CircleOffsetsProperties(r: int)
    requires r >= 0
    ensures forall k :: 0 <= k < |CircleOffsets(r)| ==>
      var o := CircleOffsets(r)[k];
      o.0 == k && 0 <= o.1 <= r && o.0 <= r &&
      4 * o.0 * o.0 + (2 * o.1 + 1) * (2 * o.1 + 1) >= 4 * r * r
  {
    assert 5 - 4 * r == 4 * 1 * 1 + (2 * r - 1) * (2 * r - 1) - 4 * r * r;
    assert 4 * 0 * 0 + (2 * r + 1) * (2 * r + 1) >= 4 * r * r;
    MidpointOffsetsBounds(0, r, 5 - 4 * r, r);
    MidpointOffsetsOutside(0, r, 5 - 4 * r, r);
    var tail := MidpointOffsets(0, r, 5 - 4 * r);
    forall k | 0 <= k < |CircleOffsets(r)|
      ensures var o := CircleOffsets(r)[k];
        o.0 == k && 0 <= o.1 <= r && o.0 <= r &&
        4 * o.0 * o.0 + (2 * o.1 + 1) * (2 * o.1 + 1) >= 4 * r * r
    {
      if k > 0 {
        assert CircleOffsets(r)[k] == tail[k - 1];
      }
    }
  }

  /** The screen holds the whole bounding square of the circle. */
  predicate SquareOnScreen(x0: int, y0: int, r: int, maxX: int, maxY: int)
  {
    0 <= x0 - r && x0 + r < maxX && 0 <= y0 - r && y0 + r < maxY
  }

  lemma {:induction false} CoversInSquare(offs: seq<(int, int)>, x0: int, y0: int,
                                          maxX: int, maxY: int, r: int)
    requires r >= 0 && SquareOnScreen(x0, y0, r, maxX, maxY)
    requires forall k :: 0 <= k < |offs| ==> 0 <= offs[k].0 <= r && 0 <= offs[k].1 <= r
    ensures forall row, col :: CircleCovers(offs, x0, y0, maxX, maxY, row, col) ==>
      y0 - r <= row <= y0 + r && x0 - r <= col <= x0 + r
  {
    if |offs| > 0 {
      CoversInSquare(offs[..|offs| - 1], x0, y0, maxX, maxY, r);
      var o := offs[|offs| - 1];
      assert 0 <= o.0 <= r && 0 <= o.1 <= r;
    }
  }

  /** When the bounding square is on screen, plot_circle marks nothing
      outside it. */
  lemma CircleInsideSquare(r: int, x0: int, y0: int, maxX: int, maxY: int)
    requires r >= 0 && SquareOnScreen(x0, y0, r, maxX, maxY)
    ensures forall row, col :: CircleCovers(CircleOffsets(r), x0, y0, maxX, maxY, row, col) ==>
      y0 - r <= row <= y0 + r && x0 - r <= col <= x0 + r
  {
    CircleOffsetsProperties(r);
    CoversInSquare(CircleOffsets(r), x0, y0, maxX, maxY, r);
  }

  lemma {:induction false} CoversMember(offs: seq<(int, int)>, k: int, x0: int, y0: int,
                                        maxX: int, maxY: int, row: int, col: int)
    requires 0 <= k < |offs| && SymmetryCovers(offs[k], x0, y0, maxX, maxY, row, col)
    ensures CircleCovers(offs, x0, y0, maxX, maxY, row, col)
  {
    if k < |offs| - 1 {
      var init := offs[..|offs| - 1];
      assert init[k] == offs[k];
      CoversMember(init, k, x0, y0, maxX, maxY, row, col);
    }
  }

  /** The first offset (0, r) alone covers the four extreme points of the
      circle and its centre. */
  lemma FirstOffsetExtremes(r: int, x0: int, y0: int, maxX: int, maxY: int)
    requires r >= 0 && SquareOnScreen(x0, y0, r, maxX, maxY)
    ensures SymmetryCovers((0, r), x0, y0, maxX, maxY, y0, x0 - r)
    ensures SymmetryCovers((0, r), x0, y0, maxX, maxY, y0, x0 + r)
    ensures SymmetryCovers((0, r), x0, y0, maxX, maxY, y0 - r, x0)
    ensures SymmetryCovers((0, r), x0, y0, maxX, maxY, y0 + r, x0)
    ensures SymmetryCovers((0, r), x0, y0, maxX, maxY, y0, x0)
  {
    assert Clamp(y0, maxY) == y0;
    assert Clamp(y0 - r, maxY) == y0 - r;
    assert Clamp(y0 + r, maxY) == y0 + r;
    assert Clamp(x0 - r, maxX) == x0 - r;
    assert Clamp(x0 + r, maxX) == x0 + r;
    assert Clamp(x0, maxX) == x0;
  }

  /** Any offset list starting with (0, r) covers the four extreme points
      of the circle and its centre. */
  lemma {:induction false} ExtremesCovered(offs: seq<(int, int)>, r: int, x0: int, y0: int, maxX: int, maxY: int)
    requires r >= 0 && SquareOnScreen(x0, y0, r, maxX, maxY)
    requires |offs| > 0 && offs[0] == (0, r)
    ensures CircleCovers(offs, x0, y0, maxX, maxY, y0, x0 - r)
    ensures CircleCovers(offs, x0, y0, maxX, maxY, y0, x0 + r)
    ensures CircleCovers(offs, x0, y0, maxX, maxY, y0 - r, x0)
    ensures CircleCovers(offs, x0, y0, maxX, maxY, y0 + r, x0)
    ensures CircleCovers(offs, x0, y0, maxX, maxY, y0, x0)
  {
    FirstOffsetExtremes(r, x0, y0, maxX, maxY);
    CoversMember(offs, 0, x0, y0, maxX, maxY, y0, x0 - r);
    CoversMember(offs, 0, x0, y0, maxX, maxY, y0, x0 + r);
    CoversMember(offs, 0, x0, y0, maxX, maxY, y0 - r, x0);
    CoversMember(offs, 0, x0, y0, maxX, maxY, y0 + r, x0);
    CoversMember(offs, 0, x0, y0, maxX, maxY, y0, x0);
  }

  /** When the bounding square is on screen, the four extreme points of the
      circle are marked, and so is its centre. */
  lemma CircleExtremesMarked(r: int, x0: int, y0: int, maxX: int, maxY: int)
    requires r >= 0 && SquareOnScreen(x0, y0, r, maxX, maxY)
    ensures CircleCovers(CircleOffsets(r), x0, y0, maxX, maxY, y0, x0 - r)
    ensures CircleCovers(CircleOffsets(r), x0, y0, maxX, maxY, y0, x0 + r)
    ensures CircleCovers(CircleOffsets(r), x0, y0, maxX, maxY, y0 - r, x0)
    ensures CircleCovers(CircleOffsets(r), x0, y0, maxX, maxY, y0 + r, x0)
    ensures CircleCovers(CircleOffsets(r), x0, y0, maxX, maxY, y0, x0)
  {
    ExtremesCovered(CircleOffsets(r), r, x0, y0, maxX, maxY);
  }

  /** On a plane of width 0, which numpy allows, every span is an empty
      slice: nothing is marked, whatever the offsets. */
  lemma {:induction false} ZeroWidthCircleBlank(offs: seq<(int, int)>, x0: int, y0: int,
                                                maxY: int, row: int, col: int)
    requires 0 <= col
    ensures !CircleCovers(offs, x0, y0, 0, maxY, row, col)
  {
    if |offs| > 0 {
      ZeroWidthCircleBlank(offs[..|offs| - 1], x0, y0, maxY, row, col);
    }
  }

  // ---------------------------------------------------------------------
  // VideoRenderer
  // ---------------------------------------------------------------------

  /** Some circle among the fixtures, drawn about `center`, covers
      (row, col). Polygons, edges and chains draw nothing. */
  ghost predicate FixturesPaint(fixtures: seq<Shape>, center: (int, int), maxX: int, maxY: int,
                                row: int, col: int)
  {
    |fixtures| > 0 &&
    (FixturesPaint(fixtures[..|fixtures| - 1], center, maxX, maxY, row, col) ||
     (fixtures[|fixtures| - 1].Circle? &&
      CircleCovers(CircleOffsets(MetersToPixels(fixtures[|fixtures| - 1].radius)),
                   center.0, center.1, maxX, maxY, row, col)))
  }

  /** Some visible body paints (row, col): its circles are drawn about the
      screen position of the body. */
  ghost predicate BodiesPaint(bodies: seq<Body>, heightPx: int, maxX: int, maxY: int,
                              row: int, col: int)
  {
    |bodies| > 0 &&
    (BodiesPaint(bodies[..|bodies| - 1], heightPx, maxX, maxY, row, col) ||
     (bodies[|bodies| - 1].data.visible &&
      FixturesPaint(bodies[|bodies| - 1].fixtures,
                    ToScreenFrame(heightPx, bodies[|bodies| - 1].position),
                    maxX, maxY, row, col)))
  }

  /** Plane 0 of `screen` shows exactly what `bodies` paint together with
      `fixtures` drawn about `center`; the other planes are zero. */
  ghost predicate Shows(screen: array3<real>, bodies: seq<Body>, heightPx: int,
                        fixtures: seq<Shape>, center: (int, int))
    reads screen
  {
    forall p, r, c ::
      (0 <= p < screen.Length0 && 0 <= r < screen.Length1 && 0 <= c < screen.Length2) ==>
        screen[p, r, c] ==
          if p == 0 && (BodiesPaint(bodies, heightPx, screen.Length2, screen.Length1, r, c) ||
                        FixturesPaint(fixtures, center, screen.Length2, screen.Length1, r, c))
          then 1.0 else 0.0
  }

  /** On a plane of width 0 no fixture paints anything. */
  lemma {:induction false} ZeroWidthFixturesBlank(fixtures: seq<Shape>, center: (int, int),
                                                  maxY: int, row: int, col: int)
    requires 0 <= col
    ensures !FixturesPaint(fixtures, center, 0, maxY, row, col)
  {
    if |fixtures| > 0 {
      ZeroWidthFixturesBlank(fixtures[..|fixtures| - 1], center, maxY, row, col);
      var f := fixtures[|fixtures| - 1];
      if f.Circle? {
        ZeroWidthCircleBlank(CircleOffsets(MetersToPixels(f.radius)), center.0, center.1,
                             maxY, row, col);
      }
    }
  }

  /** So a channels-first renderer of width 0 paints nothing: get_frame
      returns its (1, h, 0) zero image. */
  lemma {:induction false} ZeroWidthFrameBlank(bodies: seq<Body>, heightPx: int, maxY: int,
                                               row: int, col: int)
    requires 0 <= col
    ensures !BodiesPaint(bodies, heightPx, 0, maxY, row, col)
  {
    if |bodies| > 0 {
      ZeroWidthFrameBlank(bodies[..|bodies| - 1], heightPx, maxY, row, col);
      var b := bodies[|bodies| - 1];
      ZeroWidthFixturesBlank(b.fixtures, ToScreenFrame(heightPx, b.position), maxY, row, col);
    }
  }

  /** The screen has no plane 0 (`screen[0, :, :]` raises IndexError), or
      plane 0 has no rows (its first span raises IndexError). */
  predicate NoRows(screen: array3<real>)
  {
    screen.Length0 == 0 || screen.Length1 == 0
  }

  /** Body b is visible and has a circle fixture, so get_frame plots it. */
  predicate DrawsCircle(b: Body)
  {
    b.data.visible && exists k :: 0 <= k < |b.fixtures| && b.fixtures[k].Circle?
  }

  /** One pass of the fixture loop of `get_frame`: plots fixture j when it is
      a circle. Taking `screen[0, :, :]` or drawing on a plane without rows
      raises IndexError. */
  method PlotFixture(screen: array3<real>, bodies: seq<Body>, heightPx: int,
                     fixtures: seq<Shape>, j: int, center: (int, int))
    returns (err: Option<Failure>)
    requires 0 <= j < |fixtures| && Shows(screen, bodies, heightPx, fixtures[..j], center)
    modifies screen
    ensures err == if fixtures[j].Circle? && NoRows(screen) then Some(IndexError) else None
    ensures Shows(screen, bodies, heightPx, fixtures[..j + 1], center)
  {
    assert fixtures[..j + 1][..j] == fixtures[..j];
    err := None;
    match fixtures[j] {
      case Polygon(_) =>
      case Edge(_, _) =>
      case Circle(_, radius) =>
        if screen.Length0 == 0 {
          return Some(IndexError);
        }
        err := PlotCircle(screen, MetersToPixels(radius), center.0, center.1);
      case Chain(_, _) =>
    }
  }

  /** One pass of the body loop of `get_frame`: plots every circle of body
      i when it is visible, stopping at the first that raises. */
  method PlotBody(screen: array3<real>, bodies: seq<Body>, i: int, heightPx: int)
    returns (err: Option<Failure>)
    requires 0 <= i < |bodies| && Shows(screen, bodies[..i], heightPx, [], (0, 0))
    modifies screen
    ensures err == if DrawsCircle(bodies[i]) && NoRows(screen) then Some(IndexError) else None
    ensures err.None? ==> Shows(screen, bodies[..i + 1], heightPx, [], (0, 0))
  {
    var body := bodies[i];
    assert bodies[..i + 1][..i] == bodies[..i];
    err := None;
    if body.data.visible {
      var center := ToScreenFrame(heightPx, body.position);
      var j := 0;
      assert body.fixtures[..0] == [];
      while j < |body.fixtures|
        invariant 0 <= j <= |body.fixtures| && err.None?
        invariant Shows(screen, bodies[..i], heightPx, body.fixtures[..j], center)
        invariant NoRows(screen) ==> forall k :: 0 <= k < j ==> !body.fixtures[k].Circle?
      {
        err := PlotFixture(screen, bodies[..i], heightPx, body.fixtures, j, center);
        if err.Some? {
          return;
        }
        j := j + 1;
      }
      assert body.fixtures[..j] == body.fixtures;
    }
  }

  class VideoRenderer {
    const screenWidthPx: int
    const screenHeightPx: int
    const channelOrdering: Channels
    /** (1, height, width) for channels first, (height, width, 1) otherwise. */
    const screenShape: (int, int, int) :=
      if channelOrdering == First then (1, screenHeightPx, screenWidthPx)
      else (screenHeightPx, screenWidthPx, 1)

    constructor (width: int, height: int, ordering: Channels)
      ensures screenWidthPx == width && screenHeightPx == height
      ensures channelOrdering == ordering
    {
      screenWidthPx := width;
      screenHeightPx := height;
      channelOrdering := ordering;
    }

    /** A negative width or height, which `np.zeros` rejects. */
    predicate NegativeSize()
    {
      screenWidthPx < 0 || screenHeightPx < 0
    }

    /** The image has no plane 0 with rows to draw on: a height of 0, or,
        with channels last, a width of 0 (plane 0 is then a width x 1
        slice). */
    predicate NoDrawingRows()
    {
      screenShape.0 == 0 || screenShape.1 == 0
    }

    /** `get_frame`: a zero image of `screenShape` on whose plane 0 every
        circle of every visible body is plotted. With channels last the
        plane is `screen[0, :, :]`, a width x 1 slice, exactly as the source
        indexes it. A negative size raises ValueError in `np.zeros`. When
        there is no plane 0 with rows, the first circle drawn raises
        IndexError; a renderer of that size with no visible circle returns
        its zero image. */
    method GetFrame(bodies: seq<Body>) returns (frame: Result<array3<real>, Failure>)
      ensures frame.Err? <==>
        NegativeSize() || (NoDrawingRows() && exists i :: 0 <= i < |bodies| && DrawsCircle(bodies[i]))
      ensures frame.Err? ==> frame.error == if NegativeSize() then ValueError else IndexError
      ensures frame.Ok? ==> fresh(frame.value)
      ensures frame.Ok? ==>
        var screen := frame.value;
        (screen.Length0, screen.Length1, screen.Length2) == screenShape &&
        forall p, r, c ::
          (0 <= p < screen.Length0 && 0 <= r < screen.Length1 && 0 <= c < screen.Length2) ==>
            screen[p, r, c] ==
              if p == 0 && BodiesPaint(bodies, screenHeightPx, screen.Length2, screen.Length1, r, c)
              then 1.0 else 0.0
    {
      if NegativeSize() {
        return Err(ValueError);
      }
      var screen := new real[screenShape.0, screenShape.1, screenShape.2]((_, _, _) => 0.0);
      var i := 0;
      while i < |bodies|
        invariant 0 <= i <= |bodies|
        invariant Shows(screen, bodies[..i], screenHeightPx, [], (0, 0))
        invariant NoRows(screen) ==> forall k :: 0 <= k < i ==> !DrawsCircle(bodies[k])
      {
        var err := PlotBody(screen, bodies, i, screenHeightPx);
        if err.Some? {
          return Err(err.value);
        }
        i := i + 1;
      }
      assert bodies[..i] == bodies;
      return Ok(screen);
    }
  }

  /** A frame holding one visible ball whose bounding square lies on the
      screen has the ball's centre and its four extreme points set and
      nothing outside the square. */
  lemma SingleBallFrame(b: Body, heightPx: int, maxX: int, maxY: int)
    requires b.data.visible && |b.fixtures| == 1 && b.fixtures[0].Circle?
    requires MetersToPixels(b.fixtures[0].radius) >= 0
    requires SquareOnScreen(ToScreenFrame(heightPx, b.position).0,
                            ToScreenFrame(heightPx, b.position).1,
                            MetersToPixels(b.fixtures[0].radius), maxX, maxY)
    ensures var (x0, y0) := ToScreenFrame(heightPx, b.position);
            var r := MetersToPixels(b.fixtures[0].radius);
            BodiesPaint([b], heightPx, maxX, maxY, y0, x0) &&
            BodiesPaint([b], heightPx, maxX, maxY, y0, x0 - r) &&
            BodiesPaint([b], heightPx, maxX, maxY, y0, x0 + r) &&
            BodiesPaint([b], heightPx, maxX, maxY, y0 - r, x0) &&
            BodiesPaint([b], heightPx, maxX, maxY, y0 + r, x0) &&
            forall row, col :: BodiesPaint([b], heightPx, maxX, maxY, row, col) ==>
              y0 - r <= row <= y0 + r && x0 - r <= col <= x0 + r
  {
    var (x0, y0) := ToScreenFrame(heightPx, b.position);
    var r := MetersToPixels(b.fixtures[0].radius);
    assert [b][..0] == [] && b.fixtures[..0] == [];
    CircleExtremesMarked(r, x0, y0, maxX, maxY);
    CircleInsideSquare(r, x0, y0, maxX, maxY);
    forall row, col | BodiesPaint([b], heightPx, maxX, maxY, row, col)
      ensures y0 - r <= row <= y0 + r && x0 - r <= col <= x0 + r
    {
      assert [b][..0] == [] && [b][0] == b;
      assert !BodiesPaint([b][..0], heightPx, maxX, maxY, row, col);
      assert FixturesPaint(b.fixtures, (x0, y0), maxX, maxY, row, col);
      assert !FixturesPaint(b.fixtures[..0], (x0, y0), maxX, maxY, row, col);
      assert CircleCovers(CircleOffsets(r), x0, y0, maxX, maxY, row, col);
    }
  }

  // ---------------------------------------------------------------------
  // CentroidVideoRenderer
  // ---------------------------------------------------------------------

  /** `body.transform * v` for every vertex of a shape. */
  function WorldPoints(b: Body, vertices: seq<Vec>): (ps: seq<Vec>)
    ensures |ps| == |vertices|
  {
    seq(|vertices|, i requires 0 <= i < |vertices| => WorldPoint(b, vertices[i]))
  }

  class CentroidVideoRenderer {
    const screenWidthPx: nat
    const screenHeightPx: nat
    /** 0.0 until the first frame, then the fixed factor 1/8. */
    var downsampling: real
    /** The downsampled uint8 canvas; None (null) until the first reset with
        a factor. */
    var screen: array2?<Byte>

    ghost predicate Valid()
      reads this
    {
      downsampling == 0.0 || downsampling == 1.0 / 8.0
    }

    constructor (width: nat, height: nat)
      ensures screenWidthPx == width && screenHeightPx == height
      ensures downsampling == 0.0 && screen == null
      ensures Valid()
    {
      screenWidthPx := width;
      screenHeightPx := height;
      downsampling := 0.0;
      screen := null;
    }

    /** Rows and columns of the downsampled canvas. */
    function Rows(): int
      reads this
    {
      Trunc(screenHeightPx as real * downsampling)
    }

    function Cols(): int
      reads this
    {
      Trunc(screenWidthPx as real * downsampling)
    }

    /** `_compute_downsampling_factor`: the search for the first circle is
        commented out in the source; the factor is the constant 1/8. */
    method ComputeDownsamplingFactor() returns (factor: real)
      ensures factor == 1.0 / 8.0
    {
      factor := 1.0 / 8.0;
    }

    /** `_fit_in_screen`: clamps the row into [0, Rows()) and the column
        into [0, Cols()). */
    function FitInScreen(p: (int, int)): (q: (int, int))
      reads this
      ensures Rows() >= 1 && Cols() >= 1 ==> 0 <= q.0 < Rows() && 0 <= q.1 < Cols()
      ensures 0 <= p.0 < Rows() && 0 <= p.1 < Cols() ==> q == p
    {
      (Clamp(p.0, Rows()), Clamp(p.1, Cols()))
    }

    /** The overridden `to_screen_frame`: the base conversion, scaled by the
        factor, and returned as (row, column). */
    function ToCanvas(p: Vec): (int, int)
      reads this
    {
      var s := ToScreenFrame(screenHeightPx, p);
      (Trunc(s.1 as real * downsampling), Trunc(s.0 as real * downsampling))
    }

    /** The canvas cell one fixture marks: the body position for a circle,
        the centroid of the world vertices for a polygon or an edge; a chain
        marks nothing (it is none of the three types tested). */
    function FixtureMark(b: Body, f: Shape): Option<(int, int)>
      reads this
    {
      match f
      case Circle(_, _) => Some(FitInScreen(ToCanvas(b.position)))
      case Polygon(vs) =>
        if |vs| == 0 then None  // excluded by PolygonsNonEmpty
        else Some(FitInScreen(ToCanvas(Centroid(WorldPoints(b, vs)))))
      case Edge(v1, v2) => Some(FitInScreen(ToCanvas(Centroid(WorldPoints(b, [v1, v2])))))
      case Chain(_, _) => None
    }

    ghost predicate FixturesMark(b: Body, fixtures: seq<Shape>, cell: (int, int))
      reads this
    {
      |fixtures| > 0 &&
      (FixturesMark(b, fixtures[..|fixtures| - 1], cell) ||
       FixtureMark(b, fixtures[|fixtures| - 1]) == Some(cell))
    }

    /** Some fixture of a visible body marks the cell. */
    ghost predicate BodiesMark(bodies: seq<Body>, cell: (int, int))
      reads this
    {
      |bodies| > 0 &&
      (BodiesMark(bodies[..|bodies| - 1], cell) ||
       (bodies[|bodies| - 1].data.visible &&
        FixturesMark(bodies[|bodies| - 1], bodies[|bodies| - 1].fixtures, cell)))
    }

    /** `reset`: nothing before the factor is known, then a fresh zero
        canvas of Rows() x Cols(). */
    method Reset()
      requires Valid()
      modifies this
      ensures Valid() && downsampling == old(downsampling)
      ensures old(downsampling) == 0.0 ==> screen == old(screen)
      ensures old(downsampling) != 0.0 ==>
        screen != null && fresh(screen) &&
        screen.Length0 == Rows() && screen.Length1 == Cols() &&
        forall i, j :: 0 <= i < screen.Length0 && 0 <= j < screen.Length1 ==> screen[i, j] == 0
    {
      if downsampling == 0.0 {
        return;
      }
      screen := new Byte[Rows(), Cols()]((_, _) => 0);
    }

    /** The cell one fixture marks, computed as the loop body of
        `get_frame` does (through center_of_mass). */
    method MarkOf(body: Body, shape: Shape) returns (cell: Option<(int, int)>)
      requires shape.Polygon? ==> |shape.vertices| > 0
      ensures cell == FixtureMark(body, shape)
    {
      match shape {
        case Circle(_, _) =>
          cell := Some(FitInScreen(ToCanvas(body.position)));
        case Polygon(vs) =>
          var com := CenterOfMass(WorldPoints(body, vs));
          cell := Some(FitInScreen(ToCanvas(com.value)));
        case Edge(v1, v2) =>
          var com := CenterOfMass(WorldPoints(body, [v1, v2]));
          cell := Some(FitInScreen(ToCanvas(com.value)));
        case Chain(_, _) =>
          cell := None;
      }
    }

    /** The inner loop of `get_frame`: marks the cells of one body's fixtures. */
    method MarkFixtures(body: Body, frame: array2<Byte>)
      requires Rows() >= 1 && Cols() >= 1
      requires frame.Length0 == Rows() && frame.Length1 == Cols()
      requires forall j :: 0 <= j < |body.fixtures| && body.fixtures[j].Polygon? ==>
        |body.fixtures[j].vertices| > 0
      modifies frame
      ensures forall r, c :: 0 <= r < frame.Length0 && 0 <= c < frame.Length1 ==>
        frame[r, c] ==
          if FixturesMark(body, body.fixtures, (r, c)) then 255 else old(frame[r, c])
    {
      var j := 0;
      while j < |body.fixtures|
        invariant 0 <= j <= |body.fixtures|
        invariant forall r, c :: 0 <= r < frame.Length0 && 0 <= c < frame.Length1 ==>
          frame[r, c] ==
            if FixturesMark(body, body.fixtures[..j], (r, c)) then 255 else old(frame[r, c])
      {
        assert body.fixtures[..j + 1][..j] == body.fixtures[..j];
        var cell := MarkOf(body, body.fixtures[j]);
        if cell.Some? {
          frame[cell.value.0, cell.value.1] := 255;
        }
        j := j + 1;
      }
      assert body.fixtures[..j] == body.fixtures;
    }

    /** `get_frame`: fixes the factor on the first call, clears the canvas
        and sets to 255 the cell of every circle, polygon and edge of every
        visible body. The canvas must have at least one row and one column
        (the source indexes a zero-length axis otherwise). */
    method GetFrame(bodies: seq<Body>) returns (frame: array2<Byte>)
      requires Valid() && screenWidthPx >= 8 && screenHeightPx >= 8
      requires PolygonsNonEmpty(bodies)
      modifies this
      ensures Valid() && downsampling == 1.0 / 8.0
      ensures screen == frame && fresh(frame)
      ensures frame.Length0 == Rows() && frame.Length1 == Cols()
      ensures forall i, j :: 0 <= i < frame.Length0 && 0 <= j < frame.Length1 ==>
        frame[i, j] == if BodiesMark(bodies, (i, j)) then 255 else 0
    {
      if downsampling == 0.0 {
        downsampling := ComputeDownsamplingFactor();
      }
      Reset();
      frame := screen;
      assert Rows() >= 1 && Cols() >= 1;
      var i := 0;
      while i < |bodies|
        invariant 0 <= i <= |bodies|
        invariant downsampling == 1.0 / 8.0 && screen == frame
        invariant frame.Length0 == Rows() && frame.Length1 == Cols()
        invariant forall r, c :: 0 <= r < frame.Length0 && 0 <= c < frame.Length1 ==>
          frame[r, c] == if BodiesMark(bodies[..i], (r, c)) then 255 else 0
      {
        assert bodies[..i + 1][..i] == bodies[..i];
        if bodies[i].data.visible {
          MarkFixtures(bodies[i], frame);
        }
        i := i + 1;
      }
      assert bodies[..i] == bodies;
    }
  }

  lemma TruncDivEight(n: int)
    requires n >= 0
    ensures Trunc(n as real * (1.0 / 8.0)) == n / 8
  {
    var q := n / 8;
    assert q * 8 <= n < q * 8 + 8;
    assert n as real * (1.0 / 8.0) == n as real / 8.0;
    assert q as real <= n as real / 8.0 < q as real + 1.0;
  }

  /** A ball at an integer pixel (px, py) of the screen marks the canvas
      cell (py / 8, px / 8), pulled back onto the last row or column when
      the screen size is not a multiple of 8. */
  lemma CircleMarksDownsampledPixel(cr: CentroidVideoRenderer, b: Body, f: Shape, px: int, py: int)
    requires cr.downsampling == 1.0 / 8.0 && cr.screenWidthPx >= 8 && cr.screenHeightPx >= 8
    requires 0 <= px < cr.screenWidthPx && 0 <= py < cr.screenHeightPx
    requires b.position == ToWorldFrame(cr.screenHeightPx, Vec(px as real, py as real))
    requires f.Circle?
    ensures cr.FixtureMark(b, f) ==
      Some((if py / 8 < cr.screenHeightPx / 8 then py / 8 else cr.screenHeightPx / 8 - 1,
            if px / 8 < cr.screenWidthPx / 8 then px / 8 else cr.screenWidthPx / 8 - 1))
  {
    ScreenWorldRoundTrip(cr.screenHeightPx, px, py);
    TruncDivEight(px);
    TruncDivEight(py);
    TruncDivEight(cr.screenHeightPx);
    TruncDivEight(cr.screenWidthPx);
    assert cr.ToCanvas(b.position) == (py / 8, px / 8);
  }

  // ---------------------------------------------------------------------
  // PositionAndVelocityExtractor
  // ---------------------------------------------------------------------

  /** The four values one fixture contributes: screen position, then the
      body's velocity in metres per second. A polygon's position is the
      mean of its vertices' screen positions, a circle's the screen
      position of its body; edges and chains contribute nothing. */
  function FixtureEntry(heightPx: int, b: Body, f: Shape): (e: seq<real>)
    ensures |e| == 0 || |e| == 4
  {
    match f
    case Polygon(vs) =>
      if |vs| == 0 then []  // excluded by PolygonsNonEmpty
      else
        var c := Centroid(ScreenPoints(heightPx, WorldPoints(b, vs)));
        [c.x, c.y, b.velocity.x, b.velocity.y]
    case Circle(_, _) =>
      var s := ToScreenFrame(heightPx, b.position);
      [s.0 as real, s.1 as real, b.velocity.x, b.velocity.y]
    case _ => []
  }

  /** Integer screen positions of world points, as reals. */
  function ScreenPoints(heightPx: int, ps: seq<Vec>): (qs: seq<Vec>)
    ensures |qs| == |ps|
  {
    seq(|ps|, i requires 0 <= i < |ps| =>
      var s := ToScreenFrame(heightPx, ps[i]); Vec(s.0 as real, s.1 as real))
  }

  function FixtureEntries(heightPx: int, b: Body, fixtures: seq<Shape>): seq<real>
  {
    if |fixtures| == 0 then []
    else FixtureEntries(heightPx, b, fixtures[..|fixtures| - 1]) +
         FixtureEntry(heightPx, b, fixtures[|fixtures| - 1])
  }

  /** All entries in body-list order; invisible bodies contribute nothing. */
  function BodyEntries(heightPx: int, bodies: seq<Body>): seq<real>
  {
    if |bodies| == 0 then []
    else
      var last := bodies[|bodies| - 1];
      BodyEntries(heightPx, bodies[..|bodies| - 1]) +
      (if last.data.visible then FixtureEntries(heightPx, last, last.fixtures) else [])
  }

  /** numpy's `zeros(n)`. */
  function Zeros(n: nat): (z: seq<real>)
    ensures |z| == n
  {
    if n == 0 then [] else [0.0] + Zeros(n - 1)
  }

  /** Number of visible polygon and circle fixtures: the objects the
      extractor reports. */
  function Reported(bodies: seq<Body>): nat
  {
    if |bodies| == 0 then 0
    else
      var last := bodies[|bodies| - 1];
      Reported(bodies[..|bodies| - 1]) +
      (if last.data.visible then ReportedFixtures(last.fixtures) else 0)
  }

  function ReportedFixtures(fixtures: seq<Shape>): nat
  {
    if |fixtures| == 0 then 0
    else
      var last := fixtures[|fixtures| - 1];
      ReportedFixtures(fixtures[..|fixtures| - 1]) +
      (if (last.Polygon? && |last.vertices| > 0) || last.Circle? then 1 else 0)
  }

  lemma {:induction false} FixtureEntriesLength(heightPx: int, b: Body, fixtures: seq<Shape>)
    ensures |FixtureEntries(heightPx, b, fixtures)| == 4 * ReportedFixtures(fixtures)
  {
    if |fixtures| > 0 {
      FixtureEntriesLength(heightPx, b, fixtures[..|fixtures| - 1]);
    }
  }

  /** Every reported object takes exactly four slots. */
  lemma {:induction false} BodyEntriesLength(heightPx: int, bodies: seq<Body>)
    ensures |BodyEntries(heightPx, bodies)| == 4 * Reported(bodies)
  {
    if |bodies| > 0 {
      var last := bodies[|bodies| - 1];
      FixtureEntriesLength(heightPx, last, last.fixtures);
      BodyEntriesLength(heightPx, bodies[..|bodies| - 1]);
    }
  }

  class PositionAndVelocityExtractor {
    const screenWidthPx: int
    const screenHeightPx: int
    /** The flat float32 vector of the last frame. */
    var screen: seq<real>

    constructor (width: int, height: int)
      ensures screenWidthPx == width && screenHeightPx == height && screen == []
    {
      screenWidthPx := width;
      screenHeightPx := height;
      screen := [];
    }

    /** `reset`: zeros of the current length. */
    method Reset()
      modifies this
      ensures screen == Zeros(|old(screen)|)
    {
      screen := Zeros(|screen|);
    }

    /** The entry of one fixture, computed as the loop body of `get_frame`
        does (through center_of_mass for a polygon). */
    method EntryOf(body: Body, shape: Shape) returns (entry: seq<real>)
      ensures entry == FixtureEntry(screenHeightPx, body, shape)
    {
      entry := [];
      if shape.Polygon? || shape.Circle? {
        var position: Vec;
        if shape.Polygon? {
          var vertices := ScreenPoints(screenHeightPx, WorldPoints(body, shape.vertices));
          var com := CenterOfMass(vertices);
          if com.None? {
            // numpy's nan centre; excluded by Box2D (see FixtureEntry)
            return;
          }
          position := com.value;
        } else {
          var s := ToScreenFrame(screenHeightPx, body.position);
          position := Vec(s.0 as real, s.1 as real);
        }
        entry := [position.x, position.y, body.velocity.x, body.velocity.y];
      }
    }

    /** One pass of the inner loop of `get_frame`: a polygon or a circle
        writes its entry with `screen[body_index:body_index + 4] = entry`,
        which fails, leaving the vector as it is, when the slice is short. */
    method WriteFixture(body: Body, shape: Shape, next: int, n: int, ghost cur: seq<real>)
      returns (fits: bool, next': int)
      requires next == |cur| <= n && next % 4 == 0 && n % 4 == 0
      requires Padded(screen, cur, n)
      modifies this
      ensures var e := FixtureEntry(screenHeightPx, body, shape);
        (fits <==> next + |e| <= n) &&
        (fits ==> next' == next + |e| && next' % 4 == 0 && Padded(screen, cur + e, n)) &&
        (!fits ==> |e| == 4 && screen == cur && next == n)
    {
      var entry := EntryOf(body, shape);
      if |entry| == 0 {
        assert cur + entry == cur;
        return true, next;
      }
      if next + 4 > n {
        FourAligned(next, n);
        assert screen == screen[..n];
        return false, next;
      }
      PutEntry(screen, cur, entry, n);
      screen := screen[..next] + entry + screen[next + 4..];
      return true, next + 4;
    }

    /** The inner loop of `get_frame` for one visible body: writes the
        body's entries from slot `start` on, failing when the next one does
        not fit. */
    method WriteBody(body: Body, n: int, start: int, ghost written: seq<real>)
      returns (ok: bool, next: int)
      requires start == |written| <= n && start % 4 == 0 && n % 4 == 0
      requires Padded(screen, written, n)
      modifies this
      ensures var w := written + FixtureEntries(screenHeightPx, body, body.fixtures);
        (ok <==> |w| <= n) &&
        (ok ==> next == |w| && next % 4 == 0 && Padded(screen, w, n)) &&
        (!ok ==> screen == w[..n])
    {
      ghost var cur := written;
      next := start;
      var j := 0;
      while j < |body.fixtures|
        invariant 0 <= j <= |body.fixtures|
        invariant cur == written + FixtureEntries(screenHeightPx, body, body.fixtures[..j])
        invariant next == |cur| <= n && next % 4 == 0
        invariant Padded(screen, cur, n)
      {
        ghost var entry := FixtureEntry(screenHeightPx, body, body.fixtures[j]);
        FixtureEntriesStep(screenHeightPx, body, written, j);
        var fits;
        fits, next := WriteFixture(body, body.fixtures[j], next, n, cur);
        if !fits {
          FixturesOverflow(screenHeightPx, body, j, written, cur, entry, n);
          return false, next;
        }
        cur := cur + entry;
        j := j + 1;
      }
      assert body.fixtures[..j] == body.fixtures;
      ok := true;
    }

    /** The outer loop of `get_frame`, over the bodies, on a zero vector
        of n slots. */
    method WriteBodies(bodies: seq<Body>, n: int) returns (ok: bool)
      requires n >= 0 && n % 4 == 0 && Padded(screen, [], n)
      modifies this
      ensures var all := BodyEntries(screenHeightPx, bodies);
        (ok <==> |all| <= n) &&
        (ok ==> Padded(screen, all, n)) &&
        (!ok ==> screen == all[..n])
    {
      var bodyIndex := 0;
      ghost var written: seq<real> := [];
      var i := 0;
      while i < |bodies|
        invariant 0 <= i <= |bodies|
        invariant written == BodyEntries(screenHeightPx, bodies[..i])
        invariant bodyIndex == |written| <= n && bodyIndex % 4 == 0
        invariant Padded(screen, written, n)
      {
        var body := bodies[i];
        ghost var w := written +
          (if body.data.visible then FixtureEntries(screenHeightPx, body, body.fixtures) else []);
        assert w == BodyEntries(screenHeightPx, bodies[..i + 1]) by {
          assert bodies[..i + 1][..i] == bodies[..i];
        }
        if body.data.visible {
          var fits;
          fits, bodyIndex := WriteBody(body, n, bodyIndex, written);
          if !fits {
            ghost var all := BodyEntries(screenHeightPx, bodies);
            assert screen == all[..n] && |all| > n by {
              BodyEntriesPrefix(screenHeightPx, bodies, i + 1);
              PrefixTake([], w, all, n);
              assert [] + all == all && [] + w == w;
            }
            return false;
          }
        } else {
          assert w == written;
        }
        written := w;
        i := i + 1;
      }
      assert bodies[..i] == bodies;
      ok := true;
    }

    /** `get_frame`: 4 (|bodies| - 1) slots, filled in order with the
        entries of the visible polygons and circles. An empty world asks
        numpy for a negative size, and more entries than slots make a slice
        assignment fail to broadcast: both raise ValueError. */
    method GetFrame(bodies: seq<Body>) returns (r: Result<seq<real>, Failure>)
      requires PolygonsNonEmpty(bodies)
      modifies this
      ensures |bodies| == 0 ==> r == Err(ValueError) && screen == Zeros(|old(screen)|)
      ensures |bodies| > 0 ==>
        (r.Ok? <==> |BodyEntries(screenHeightPx, bodies)| <= 4 * (|bodies| - 1))
      ensures r.Ok? ==>
        r.value == screen &&
        screen == BodyEntries(screenHeightPx, bodies) +
                  Zeros(4 * (|bodies| - 1) - |BodyEntries(screenHeightPx, bodies)|)
      ensures |bodies| > 0 && r.Err? ==>
        r.error == ValueError &&
        screen == BodyEntries(screenHeightPx, bodies)[..4 * (|bodies| - 1)]
    {
      Reset();
      var numOfObjects := |bodies| - 1;
      if numOfObjects * 4 < 0 {
        return Err(ValueError);
      }
      var n := numOfObjects * 4;
      screen := Zeros(n);
      ZerosAreZero(n);
      var ok := WriteBodies(bodies, n);
      if !ok {
        return Err(ValueError);
      }
      PaddedIsZeros(screen, BodyEntries(screenHeightPx, bodies), n);
      return Ok(screen);
    }
  }

  predicate IsPrefix(a: seq<real>, b: seq<real>)
  {
    |a| <= |b| && b[..|a|] == a
  }

  lemma {:induction false} FixtureEntriesPrefix(heightPx: int, b: Body, fixtures: seq<Shape>, k: nat)
    requires k <= |fixtures|
    ensures IsPrefix(FixtureEntries(heightPx, b, fixtures[..k]), FixtureEntries(heightPx, b, fixtures))
    decreases |fixtures|
  {
    if k < |fixtures| {
      var init := fixtures[..|fixtures| - 1];
      assert init[..k] == fixtures[..k];
      FixtureEntriesPrefix(heightPx, b, init, k);
    } else {
      assert fixtures[..k] == fixtures;
    }
  }

  lemma {:induction false} BodyEntriesPrefix(heightPx: int, bodies: seq<Body>, k: nat)
    requires k <= |bodies|
    ensures IsPrefix(BodyEntries(heightPx, bodies[..k]), BodyEntries(heightPx, bodies))
    decreases |bodies|
  {
    if k < |bodies| {
      var init := bodies[..|bodies| - 1];
      assert init[..k] == bodies[..k];
      BodyEntriesPrefix(heightPx, init, k);
    } else {
      assert bodies[..k] == bodies;
    }
  }

  lemma FourAligned(a: int, n: int)
    requires a % 4 == 0 && n % 4 == 0 && a <= n < a + 4
    ensures a == n
  {
  }

  /** When the next entry overflows, what is written so far is the first n
      values of all the entries. */
  /** The entries of the first j + 1 fixtures extend those of the first j
      by the entry of fixture j. */
  lemma FixtureEntriesStep(heightPx: int, b: Body, written: seq<real>, j: int)
    requires 0 <= j < |b.fixtures|
    ensures written + FixtureEntries(heightPx, b, b.fixtures[..j]) +
              FixtureEntry(heightPx, b, b.fixtures[j]) ==
            written + FixtureEntries(heightPx, b, b.fixtures[..j + 1])
  {
    assert b.fixtures[..j + 1][..j] == b.fixtures[..j];
  }

  /** The 4-slot entry of fixture j overflowing a full vector: the vector
      holds the first n values of what all the fixtures would write. */
  lemma FixturesOverflow(heightPx: int, b: Body, j: int, written: seq<real>,
                         cur: seq<real>, entry: seq<real>, n: int)
    requires 0 <= j < |b.fixtures|
    requires cur + entry == written + FixtureEntries(heightPx, b, b.fixtures[..j + 1])
    requires |cur| == n && |entry| == 4
    ensures |written + FixtureEntries(heightPx, b, b.fixtures)| > n
    ensures (written + FixtureEntries(heightPx, b, b.fixtures))[..n] == cur
  {
    FixtureEntriesPrefix(heightPx, b, b.fixtures, j + 1);
    OverflowPrefix(written, cur, entry, FixtureEntries(heightPx, b, b.fixtures[..j + 1]),
                   FixtureEntries(heightPx, b, b.fixtures), n);
  }

  lemma OverflowPrefix(written: seq<real>, cur: seq<real>, entry: seq<real>,
                       part: seq<real>, whole: seq<real>, n: int)
    requires written + part == cur + entry && IsPrefix(part, whole)
    requires |cur| == n && |entry| == 4
    ensures (written + whole)[..n] == cur && |written + whole| > n
  {
    PrefixTake(written, part, whole, n);
    assert (cur + entry)[..n] == cur;
  }

  lemma PrefixTake(x: seq<real>, y: seq<real>, z: seq<real>, n: int)
    requires IsPrefix(y, z) && 0 <= n <= |x| + |y|
    ensures (x + z)[..n] == (x + y)[..n] && |x + z| >= |x + y|
  {
    assert (x + y) == (x + z)[..|x| + |y|];
  }

  /** v holds `prefix` followed by zeros up to length n. */
  predicate Padded(v: seq<real>, prefix: seq<real>, n: int)
  {
    |v| == n && |prefix| <= n && v[..|prefix|] == prefix &&
    forall k :: |prefix| <= k < n ==> v[k] == 0.0
  }

  /** Writing four values right after the filled prefix. */
  lemma PutEntry(v: seq<real>, cur: seq<real>, entry: seq<real>, n: int)
    requires Padded(v, cur, n) && |entry| == 4 && |cur| + 4 <= n
    ensures Padded(v[..|cur|] + entry + v[|cur| + 4..], cur + entry, n)
  {
    var v' := v[..|cur|] + entry + v[|cur| + 4..];
    assert v'[..|cur| + 4] == cur + entry;
    forall k | |cur| + 4 <= k < n
      ensures v'[k] == 0.0
    {
      assert v'[k] == v[k];
    }
  }

  lemma {:induction false} ZerosAreZero(m: nat)
    ensures forall k :: 0 <= k < m ==> Zeros(m)[k] == 0.0
  {
    if m > 0 {
      ZerosAreZero(m - 1);
      assert forall k :: 1 <= k < m ==> Zeros(m)[k] == Zeros(m - 1)[k - 1];
    }
  }

  lemma PaddedIsZeros(v: seq<real>, prefix: seq<real>, n: int)
    requires Padded(v, prefix, n)
    ensures v == prefix + Zeros(n - |prefix|)
  {
    ZerosAreZero(n - |prefix|);
    var z := prefix + Zeros(n - |prefix|);
    forall k | 0 <= k < n
      ensures v[k] == z[k]
    {
      if k < |prefix| {
        assert v[k] == v[..|prefix|][k];
      }
    }
  }

  /** The extractor succeeds exactly when it reports no more objects than
      the world has bodies besides one: with the invisible bounding box
      present and one drawable fixture per visible body, that always holds. */
  lemma {:induction false} ReportedWithinBodies(bodies: seq<Body>)
    requires exists k :: 0 <= k < |bodies| && !bodies[k].data.visible
    requires forall k :: 0 <= k < |bodies| ==> ReportedFixtures(bodies[k].fixtures) <= 1
    ensures Reported(bodies) <= |bodies| - 1
  {
    var k :| 0 <= k < |bodies| && !bodies[k].data.visible;
    var init := bodies[..|bodies| - 1];
    if k == |bodies| - 1 {
      AtMostOnePerBody(init);
    } else {
      assert init[k] == bodies[k];
      ReportedWithinBodies(init);
    }
  }

  lemma {:induction false} AtMostOnePerBody(bodies: seq<Body>)
    requires forall k :: 0 <= k < |bodies| ==> ReportedFixtures(bodies[k].fixtures) <= 1
    ensures Reported(bodies) <= |bodies|
  {
    if |bodies| > 0 {
      AtMostOnePerBody(bodies[..|bodies| - 1]);
    }
  }

  /** Hence, in such a world, the extractor returns the entries followed
      by zero padding. */
  lemma ExtractorSucceeds(heightPx: int, bodies: seq<Body>)
    requires exists k :: 0 <= k < |bodies| && !bodies[k].data.visible
    requires forall k :: 0 <= k < |bodies| ==> ReportedFixtures(bodies[k].fixtures) <= 1
    ensures |BodyEntries(heightPx, bodies)| <= 4 * (|bodies| - 1)
  {
    ReportedWithinBodies(bodies);
    BodyEntriesLength(heightPx, bodies);
  }
}
