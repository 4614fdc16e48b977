/** Where new balls are spawned when the scene has an occlusion, with the
    random draws passed in as parameters in [0, 1):
    `random_pos_outside_rectangle` in its three versions (utility_functions.py,
    the fixed-screen copy in generate_data.py, and bouncing_balls.cpp) and
    the choice of the two target corners in
    `random_trajectory_through_rectangle`, a copy of which is in each of the
    same three files. Coordinates are screen pixels. */
module Spawn {
  import opened Wrappers
  import opened Common

  type Point = (real, real)

  /** The tolerance `tol` of random_pos_outside_rectangle. */
  const TOL: int := 3

  /** The x-interval of the rectangle grown by the tolerance, open at both
      ends. */
  predicate InBandX(rect: Rect, x: real)
  {
    (rect.x - TOL) as real < x < (rect.x + rect.w + TOL) as real
  }

  /** The rectangle grown by the tolerance, with the ends the source uses:
      open in x, and in y open above and closed below. */
  predicate InExpanded(rect: Rect, p: Point)
  {
    InBandX(rect, p.0) && (rect.y - TOL) as real < p.1 <= (rect.y + rect.h + TOL) as real
  }

  /** The y drawn when x falls in the band: a point of the free interval
      of height `screen_height - rect[3] - 2 tol`, moved below the
      rectangle when it lies past its top edge. It never lands in the
      grown rectangle's y-range. */
  function BandY(screenHeight: int, rect: Rect, u: real): (y: real)
    ensures y <= (rect.y - TOL) as real || y > (rect.y + rect.h + TOL) as real
  {
    var emptyIntervalY := screenHeight - rect.h - 2 * TOL;
    PastRect(rect, u * emptyIntervalY as real)
  }

  /** A y of the free interval, moved below the rectangle when it lies
      past its top edge. */
  function PastRect(rect: Rect, y: real): (r: real)
    ensures r <= (rect.y - TOL) as real || r > (rect.y + rect.h + TOL) as real
  {
    if y > (rect.y - TOL) as real then y + (rect.h + 2 * TOL) as real else y
  }

  /** `random_pos_outside_rectangle(screen_height, screen_width, rect)` of
      utility_functions.py, drawing u1 for x and u2 for y. Both screen
      dimensions are asserted positive; the point returned is never in the
      grown rectangle, whatever the draws. */
  function RandomPosOutsideRectangle(screenHeight: int, screenWidth: int, rect: Rect,
                                     u1: real, u2: real): (r: Result<Point, Failure>)
    ensures r.Err? <==> screenHeight <= 0 || screenWidth <= 0
    ensures r.Err? ==> r.error == AssertionError
    ensures r.Ok? ==> !InExpanded(rect, r.value)
  {
    if screenHeight <= 0 || screenWidth <= 0 then Err(AssertionError)
    else
      var x := u1 * screenWidth as real;
      if InBandX(rect, x) then Ok((x, BandY(screenHeight, rect, u2)))
      else Ok((x, u2 * screenHeight as real))
  }

  lemma ScaleBounds(u: real, n: real)
    requires 0.0 <= u < 1.0 && n > 0.0
    ensures 0.0 <= u * n < n
  {
  }

  /** With a free interval of positive height, the band draw stays on the
      screen. */
  lemma BandYOnScreen(screenHeight: int, rect: Rect, u: real)
    requires screenHeight - rect.h - 2 * TOL > 0 && rect.h >= 0
    requires 0.0 <= u < 1.0
    ensures 0.0 <= BandY(screenHeight, rect, u) < screenHeight as real
  {
    var e := screenHeight - rect.h - 2 * TOL;
    ScaleBounds(u, e as real);
    PastRectOnScreen(screenHeight, rect, u * e as real);
  }

  /** The same with the draw already scaled to y in the free interval. */
  lemma PastRectOnScreen(screenHeight: int, rect: Rect, y: real)
    requires rect.h >= 0 && 0.0 <= y < (screenHeight - rect.h - 2 * TOL) as real
    ensures 0.0 <= PastRect(rect, y) < screenHeight as real
  {
  }

  /** The point for positive screen dimensions. */
  lemma RandomPosValue(screenHeight: int, screenWidth: int, rect: Rect, u1: real, u2: real)
    requires screenHeight > 0 && screenWidth > 0
    ensures var x := u1 * screenWidth as real;
      RandomPosOutsideRectangle(screenHeight, screenWidth, rect, u1, u2) ==
        if InBandX(rect, x) then Ok((x, BandY(screenHeight, rect, u2)))
        else Ok((x, u2 * screenHeight as real))
  {
  }

  /** For draws in [0, 1) the point lies on the screen in x, and in y
      whenever x misses the band or the free interval has positive height
      (for a rectangle of non-negative height). */
  lemma RandomPosOnScreen(screenHeight: int, screenWidth: int, rect: Rect, u1: real, u2: real)
    requires screenHeight > 0 && screenWidth > 0 && rect.h >= 0
    requires 0.0 <= u1 < 1.0 && 0.0 <= u2 < 1.0
    ensures var p := RandomPosOutsideRectangle(screenHeight, screenWidth, rect, u1, u2).value;
      0.0 <= p.0 < screenWidth as real &&
      ((!InBandX(rect, p.0) || screenHeight - rect.h - 2 * TOL > 0) ==>
         0.0 <= p.1 < screenHeight as real)
  {
    if InBandX(rect, u1 * screenWidth as real) {
      RandomPosInBand(screenHeight, screenWidth, rect, u1, u2);
    } else {
      RandomPosOffBand(screenHeight, screenWidth, rect, u1, u2);
    }
  }

  lemma RandomPosInBand(screenHeight: int, screenWidth: int, rect: Rect, u1: real, u2: real)
    requires screenHeight > 0 && screenWidth > 0 && rect.h >= 0
    requires 0.0 <= u1 < 1.0 && 0.0 <= u2 < 1.0
    requires InBandX(rect, u1 * screenWidth as real)
    ensures RandomPosOutsideRectangle(screenHeight, screenWidth, rect, u1, u2).value ==
      (u1 * screenWidth as real, BandY(screenHeight, rect, u2))
    ensures 0.0 <= u1 * screenWidth as real < screenWidth as real
    ensures screenHeight - rect.h - 2 * TOL > 0 ==> 0.0 <= BandY(screenHeight, rect, u2) < screenHeight as real
  {
    ScaleBounds(u1, screenWidth as real);
    if screenHeight - rect.h - 2 * TOL > 0 {
      BandYOnScreen(screenHeight, rect, u2);
    }
  }

  lemma RandomPosOffBand(screenHeight: int, screenWidth: int, rect: Rect, u1: real, u2: real)
    requires screenHeight > 0 && screenWidth > 0
    requires 0.0 <= u1 < 1.0 && 0.0 <= u2 < 1.0
    requires !InBandX(rect, u1 * screenWidth as real)
    ensures RandomPosOutsideRectangle(screenHeight, screenWidth, rect, u1, u2).value ==
      (u1 * screenWidth as real, u2 * screenHeight as real)
    ensures 0.0 <= u1 * screenWidth as real < screenWidth as real
    ensures 0.0 <= u2 * screenHeight as real < screenHeight as real
  {
    ScaleBounds(u1, screenWidth as real);
    ScaleBounds(u2, screenHeight as real);
  }

  /** With a free interval of height zero the band draw lands exactly on
      y == screen_height (one past the last row) whenever the rectangle's
      top is less than the tolerance from the top of the screen. */
  lemma BandYAtEmptyInterval(screenHeight: int, rect: Rect, u: real)
    requires screenHeight - rect.h - 2 * TOL == 0 && rect.y < TOL
    ensures BandY(screenHeight, rect, u) == screenHeight as real
  {
  }

  /** The copy in generate_data.py on its fixed 64 x 48 screen
      (`Config.screen_width`, `Config.screen_height`), without the
      assertions. */
  const LOCAL_SCREEN_WIDTH: int := 64
  const LOCAL_SCREEN_HEIGHT: int := 48

  function LocalRandomPosOutsideRectangle(rect: Rect, u1: real, u2: real): (p: Point)
    ensures !InExpanded(rect, p)
  {
    var x := u1 * LOCAL_SCREEN_WIDTH as real;
    if InBandX(rect, x) then (x, BandY(LOCAL_SCREEN_HEIGHT, rect, u2))
    else (x, u2 * LOCAL_SCREEN_HEIGHT as real)
  }

  /** The fixed-screen copy gives the point the general function gives for
      a 48-row, 64-column screen. */
  lemma LocalMatchesGeneral(rect: Rect, u1: real, u2: real)
    ensures RandomPosOutsideRectangle(LOCAL_SCREEN_HEIGHT, LOCAL_SCREEN_WIDTH, rect, u1, u2) ==
      Ok(LocalRandomPosOutsideRectangle(rect, u1, u2))
  {
  }

  /** The band test of bouncing_balls.cpp as written:
      `rect[0] - tol < x < rect[0] + rect[2] + tol` parses as
      `(rect[0] - tol < x) < rect[0] + rect[2] + tol`, comparing the bool
      (0 or 1) with the right end. */
  predicate CppBandTest(rect: Rect, x: real)
  {
    (if (rect.x - TOL) as real < x then 1 else 0) < rect.x + rect.w + TOL
  }

  /** `random_pos_outside_rectangle` of bouncing_balls.cpp, as written. A
      failed `assert` on the screen dimensions is the error AssertionError
      here; the program itself aborts, or goes on when built with NDEBUG. */
  function CppRandomPosOutsideRectangle(screenHeight: int, screenWidth: int, rect: Rect,
                                        u1: real, u2: real): (r: Result<Point, Failure>)
    ensures r.Err? <==> screenHeight <= 0 || screenWidth <= 0
    ensures r.Err? ==> r.error == AssertionError
    ensures r.Ok? && CppBandTest(rect, r.value.0) ==>
      r.value.1 <= (rect.y - TOL) as real || r.value.1 > (rect.y + rect.h + TOL) as real
  {
    if screenHeight <= 0 || screenWidth <= 0 then Err(AssertionError)
    else
      var x := u1 * screenWidth as real;
      if CppBandTest(rect, x) then Ok((x, BandY(screenHeight, rect, u2)))
      else Ok((x, u2 * screenHeight as real))
  }

  /** The occlusion rectangle of both generators, (22, 19, 20, 10). */
  const OCCLUSION: Rect := Rect(22, 19, 20, 10)

  /** Whenever the right end of the band exceeds 1, as for (22, 19, 20, 10),
      the C++ test holds for every x: y always comes from the band, so the
      point still avoids the grown rectangle (it avoids its whole y-range). */
  lemma CppAlwaysDrawsFromBand(screenHeight: int, screenWidth: int, rect: Rect,
                               u1: real, u2: real)
    requires screenHeight > 0 && screenWidth > 0
    requires rect.x + rect.w + TOL > 1
    ensures CppRandomPosOutsideRectangle(screenHeight, screenWidth, rect, u1, u2) ==
      Ok((u1 * screenWidth as real, BandY(screenHeight, rect, u2)))
    ensures !InExpanded(rect, CppRandomPosOutsideRectangle(screenHeight, screenWidth,
                                                           rect, u1, u2).value)
  {
  }

  /** The two versions differ: on the 48 x 64 screen with the occlusion
      rectangle, the draws (0, 1/2) put x = 0 outside the band, where the
      Python code draws y = 24 over the whole screen and the C++ code takes
      y = 16 from the band. */
  lemma CppDiffersFromPython()
    ensures RandomPosOutsideRectangle(48, 64, OCCLUSION, 0.0, 0.5) == Ok((0.0, 24.0))
    ensures CppRandomPosOutsideRectangle(48, 64, OCCLUSION, 0.0, 0.5) == Ok((0.0, 16.0))
  {
  }

  // ---------------------------------------------------------------------
  // The corner pair of random_trajectory_through_rectangle
  // ---------------------------------------------------------------------

  /** The rectangle shrunk by 10 pixels on every side. */
  function MinX(rect: Rect): real { (rect.x + 10) as real }
  function MaxX(rect: Rect): real { (rect.x + rect.w - 10) as real }
  function MinY(rect: Rect): real { (rect.y + 10) as real }
  function MaxY(rect: Rect): real { (rect.y + rect.h - 10) as real }

  /** `vertices`: the corners of the shrunk rectangle, in the source's
      order. */
  function Corners(rect: Rect): seq<Point>
  {
    [(MinX(rect), MinY(rect)), (MinX(rect), MaxY(rect)),
     (MaxX(rect), MaxY(rect)), (MaxX(rect), MinY(rect))]
  }

  predicate InShrunk(rect: Rect, p: Point)
  {
    MinX(rect) <= p.0 <= MaxX(rect) && MinY(rect) <= p.1 <= MaxY(rect)
  }

  /** `vertex1, vertex2` of random_trajectory_through_rectangle: a fixed
      pair of corners for each of the eight regions around the shrunk
      rectangle. For a point inside it no pair is bound (Python then
      raises UnboundLocalError on `vertex1`; C++ reads default-constructed
      `valarray`s). */
  function CornerPair(p: Point, rect: Rect): (r: Option<(Point, Point)>)
    ensures r.None? <==> InShrunk(rect, p)
    ensures r.Some? ==> r.value.0 in Corners(rect) && r.value.1 in Corners(rect)
  {
    var v := Corners(rect);
    if p.0 < MinX(rect) then
      if p.1 < MinY(rect) then Some((v[1], v[3]))
      else if p.1 > MaxY(rect) then Some((v[0], v[2]))
      else Some((v[0], v[1]))
    else if p.0 > MaxX(rect) then
      if p.1 < MinY(rect) then Some((v[0], v[2]))
      else if p.1 > MaxY(rect) then Some((v[1], v[3]))
      else Some((v[2], v[3]))
    else
      if p.1 < MinY(rect) then Some((v[0], v[3]))
      else if p.1 > MaxY(rect) then Some((v[1], v[2]))
      else None
  }

  /** With the occlusion rectangle, 10 pixels high, shrinking inverts the
      y-range (MinY 29 > MaxY 19), so every point gets a pair. */
  lemma OcclusionAlwaysHasPair(p: Point)
    ensures CornerPair(p, OCCLUSION).Some?
  {
  }

  /** The position of q relative to o. */
  function Rel(o: Point, q: Point): Point
  {
    (q.0 - o.0, q.1 - o.1)
  }

  /** The cross product of two offsets: positive when w is
      counter-clockwise of u. */
  function Cr(u: Point, w: Point): real
  {
    u.0 * w.1 - u.1 * w.0
  }

  /** a and b are on the same side of (or on) the line through the
      origin along v. */
  predicate SameSide(v: Point, a: Point, b: Point)
  {
    (Cr(v, a) >= 0.0 && Cr(v, b) >= 0.0) || (Cr(v, a) <= 0.0 && Cr(v, b) <= 0.0)
  }

  /** c lies in the closed angle at the origin between u and v. */
  predicate Between(u: Point, v: Point, c: Point)
  {
    SameSide(u, c, v) && SameSide(v, c, u)
  }

  /** c lies in the closed angle at o between the rays through v1 and v2. */
  predicate InAngle(o: Point, v1: Point, v2: Point, c: Point)
  {
    Between(Rel(o, v1), Rel(o, v2), Rel(o, c))
  }

  /** The corners of a rectangle [a, b] x [c, d] of offsets, in the order
      of `Corners`. */
  function Offs(a: real, b: real, c: real, d: real): seq<Point>
  {
    [(a, c), (a, d), (b, d), (b, c)]
  }

  /** Corners i and j of the offset rectangle span all four. */
  predicate Spans(i: int, j: int, a: real, b: real, c: real, d: real)
    requires 0 <= i < 4 && 0 <= j < 4
  {
    var w := Offs(a, b, c, d);
    forall k :: 0 <= k < 4 ==> Between(w[i], w[j], w[k])
  }

  /** Every cross product among the corners of [a, b] x [c, d], as a
      combination of the four products of a corner coordinate with the
      width b - a or the height d - c. */
  lemma CrossTable(a: real, b: real, c: real, d: real)
    ensures var (w, x, y) := (Offs(a, b, c, d), b - a, d - c);
      Cr(w[0], w[1]) == a * y && Cr(w[1], w[2]) == -(d * x) &&
      Cr(w[2], w[3]) == -(b * y) && Cr(w[3], w[0]) == c * x &&
      Cr(w[0], w[2]) == a * y - c * x && Cr(w[1], w[3]) == -(a * y) - d * x &&
      forall i, j :: 0 <= i < 4 && 0 <= j < 4 ==> Cr(w[i], w[j]) == -Cr(w[j], w[i])
  {
  }

  lemma Sign(x: real, y: real)
    requires 0.0 <= y
    ensures 0.0 <= x ==> 0.0 <= x * y
    ensures x <= 0.0 ==> x * y <= 0.0
  {
  }

  /** The signs of those four products follow from the signs of a, b,
      c and d. */
  lemma Signs(a: real, b: real, c: real, d: real)
    requires a <= b && c <= d
    ensures var (x, y) := (b - a, d - c);
      (0.0 <= a ==> 0.0 <= a * y) && (a <= 0.0 ==> a * y <= 0.0) &&
      (0.0 <= b ==> 0.0 <= b * y) && (b <= 0.0 ==> b * y <= 0.0) &&
      (0.0 <= c ==> 0.0 <= c * x) && (c <= 0.0 ==> c * x <= 0.0) &&
      (0.0 <= d ==> 0.0 <= d * x) && (d <= 0.0 ==> d * x <= 0.0)
  {
    Sign(a, d - c);
    Sign(b, d - c);
    Sign(c, b - a);
    Sign(d, b - a);
  }

  // One lemma per region around the rectangle, given by the signs of
  // a, b (the x offsets of its sides) and c, d (the y offsets).

  lemma SpansLowerLeft(a: real, b: real, c: real, d: real)
    requires 0.0 < a <= b && 0.0 < c <= d
    ensures Spans(1, 3, a, b, c, d)
  {
    CrossTable(a, b, c, d);
    Signs(a, b, c, d);
  }

  lemma SpansUpperLeft(a: real, b: real, c: real, d: real)
    requires 0.0 < a <= b && c <= d < 0.0
    ensures Spans(0, 2, a, b, c, d)
  {
    CrossTable(a, b, c, d);
    Signs(a, b, c, d);
  }

  lemma SpansLeft(a: real, b: real, c: real, d: real)
    requires 0.0 < a <= b && c <= 0.0 <= d
    ensures Spans(0, 1, a, b, c, d)
  {
    CrossTable(a, b, c, d);
    Signs(a, b, c, d);
  }

  lemma SpansLowerRight(a: real, b: real, c: real, d: real)
    requires a <= b < 0.0 && 0.0 < c <= d
    ensures Spans(0, 2, a, b, c, d)
  {
    CrossTable(a, b, c, d);
    Signs(a, b, c, d);
  }

  lemma SpansUpperRight(a: real, b: real, c: real, d: real)
    requires a <= b < 0.0 && c <= d < 0.0
    ensures Spans(1, 3, a, b, c, d)
  {
    CrossTable(a, b, c, d);
    Signs(a, b, c, d);
  }

  lemma SpansRight(a: real, b: real, c: real, d: real)
    requires a <= b < 0.0 && c <= 0.0 <= d
    ensures Spans(2, 3, a, b, c, d)
  {
    CrossTable(a, b, c, d);
    Signs(a, b, c, d);
  }

  lemma SpansBelow(a: real, b: real, c: real, d: real)
    requires a <= 0.0 <= b && 0.0 < c <= d
    ensures Spans(0, 3, a, b, c, d)
  {
    CrossTable(a, b, c, d);
    Signs(a, b, c, d);
  }

  lemma SpansAbove(a: real, b: real, c: real, d: real)
    requires a <= 0.0 <= b && c <= d < 0.0
    ensures Spans(1, 2, a, b, c, d)
  {
    CrossTable(a, b, c, d);
    Signs(a, b, c, d);
  }

  /** For a shrunk rectangle that is not inverted, the pair chosen for a
      point outside it spans the rectangle: every corner lies in the angle
      at the point between the two chosen corners, so a direction drawn
      between them points at the rectangle. */
  lemma CornerPairSpansRectangle(p: Point, rect: Rect)
    requires MinX(rect) <= MaxX(rect) && MinY(rect) <= MaxY(rect)
    requires !InShrunk(rect, p)
    ensures var (v1, v2) := CornerPair(p, rect).value;
      forall k :: 0 <= k < 4 ==> InAngle(p, v1, v2, Corners(rect)[k])
  {
    var a, b := MinX(rect) - p.0, MaxX(rect) - p.0;
    var c, d := MinY(rect) - p.1, MaxY(rect) - p.1;
    var v, w := Corners(rect), Offs(a, b, c, d);
    assert forall k :: 0 <= k < 4 ==> Rel(p, v[k]) == w[k];
    if p.0 < MinX(rect) {
      if p.1 < MinY(rect) {
        SpansLowerLeft(a, b, c, d);
      } else if p.1 > MaxY(rect) {
        SpansUpperLeft(a, b, c, d);
      } else {
        SpansLeft(a, b, c, d);
      }
    } else if p.0 > MaxX(rect) {
      if p.1 < MinY(rect) {
        SpansLowerRight(a, b, c, d);
      } else if p.1 > MaxY(rect) {
        SpansUpperRight(a, b, c, d);
      } else {
        SpansRight(a, b, c, d);
      }
    } else {
      if p.1 < MinY(rect) {
        SpansBelow(a, b, c, d);
      } else {
        SpansAbove(a, b, c, d);
      }
    }
  }
}
