# bouncing_balls in Dafny

bouncing_balls generates synthetic "bouncing balls" video datasets. Balls
bounce inside a box in a Box2D world, and sometimes pass behind a
rectangular occlusion. Each frame is rendered, and one array file is saved
per sequence. The repository holds two implementations:

- **The Python one:**
  - two simulators, the older `BouncingBalls` and `EnvironmentSimulator`;
  - the renderers of render.py;
  - the spawn geometry of utility_functions.py;
  - the dataset loop of generate_data.py.
- **The C++ one:**
  - `bounce::Simulator`, `bounce::VideoRenderer`, `bounce::NpyWriter`;
  - the generator `bounce::BouncingBalls`;
  - Box2D's `b2Iterator`.

Each file below models one part:

| file | what it models |
|---|---|
| world.dfy | The Box2D world, as the renderers and simulators see it: a sequence of body records in Box2D's list order. A new body goes to the head of the list. Box2D's `world.Step` is a function passed to each simulator. |
| render.dfy | render.py |
| cpp_video_renderer.dfy | The C++ `VideoRenderer`: the flat row-major byte buffer, `putpixel_`, `fill_line_`, `draw_circle_`, `get_frame`, and both versions of `get_shape_vertexes_`. |
| py_simulation.dfy | What the two Python simulators share: the bodies they create, the metadata entry, the calls on the writer, and the step count of `run_simulation`. |
| environment_simulator.dfy, legacy_simulator.dfy | The two Python simulators, as classes whose methods update the world, the metadata list and the writer's call log. |
| cpp_simulator.dfy | The C++ `Simulator` class. |
| npy_writer.dfy | The `NpyWriter` class, whose `close` stacks the buffered frames into one array. |
| spawn_geometry.dfy | The three copies of `random_pos_outside_rectangle`, and the corner-pair choice of `random_trajectory_through_rectangle`. |
| generate_data.dfy | The Python dataset generator. |
| cpp_bouncing_balls.dfy | The C++ dataset generator. |
| b2_iterator.dfy | `b2Iterator`, over nodes linked by `next`. |
| common.dfy, wrappers.dfy | Numeric helpers (truncation, C++ division, the `uint32_t` to `int32_t` cast), the `Failure` kinds, and `Option`/`Result`. |

Random draws come in as parameters in [0, 1), indexed by sequence and
ball. The pygame clock comes in as the list of readings it would report.
The file system comes in as the facts the generator reads from it. Files
written are kept as a log: the writer's calls in Python, and (path, array)
pairs in C++.

## Model

| member | source | states |
|---|---|---|
| Render.ScreenWorldRoundTrip | bouncing_balls/render.py:101-105 | For an integer pixel point p, `to_screen_frame(to_world_frame(p)) == p`. |
| Render.WorldScreenWithinOnePixel | bouncing_balls/render.py:86-105 | For any world point, screen then world lands within one pixel of it on each axis. |
| Render.CenterOfMass | bouncing_balls/render.py:20-24 | No result for an empty list. Otherwise the arithmetic mean of the points, accumulated by the loop. |
| Render.CentroidInBox | bouncing_balls/render.py:20-24 | The centre of mass of points inside a box lies inside that box. |
| Render.ClampRange | bouncing_balls/render.py:29-40 | On an axis of m ≥ 1 the clamped index lies in [0, m), and an index already there is unchanged. On an empty axis (m ≤ 0) both ifs leave m − 1, which is −1 for the source's 0. |
| Render.SliceBound | bouncing_balls/render.py:42 | numpy's reading of a slice bound on an axis of n ≥ 0 lies in [0, n], and a bound already in [0, n] is kept. |
| Render.DrawHorizontalLine | bouncing_balls/render.py:27-42 | Clamps the row and both ends, then assigns `image[y, x_begin:x_end+1]` as numpy reads it. It raises IndexError exactly when the clamped row, counted from the end when negative, is no row of the plane; with max_y = 0 the row is −1. Otherwise it sets to 1.0 exactly that row's cells in the clipped slice, which is empty when max_x = 0. Every other cell keeps its value. |
| Render.DrawLines | bouncing_balls/render.py:45-51 | Draws the lines from j on in order. It raises IndexError iff the row of one of them fails; the lines after the first failing one are not drawn. It sets exactly the cells of the lines drawn, and nothing else. |
| Render.SymmetryPoints | bouncing_balls/render.py:45-51 | Draws the four lines in call order: rows y0±y over x0−x..x0+x, then rows y0±x over x0−y..x0+y. It raises IndexError iff one of their rows fails, and stops there. It sets exactly the cells of the lines drawn, and nothing else. |
| Render.PlaneLineCovers | bouncing_balls/render.py:27-42 | On plot_circle's plane with at least one row, no line raises, and the numpy reading of a line is the clamped span x_begin..x_end inclusive. |
| Render.PlaneSymmetryCovers | bouncing_balls/render.py:45-58 | On such a plane symmetry_points never raises, and it covers exactly the four clamped spans of the offset. |
| Render.PlotCircle | bouncing_balls/render.py:54-69 | It raises IndexError iff the plane has no rows (the first span's row is −1). Otherwise the loop terminates and sets exactly the cells covered by the spans of every offset in `CircleOffsets(radius)`, and nothing else. |
| Render.MidpointOffsetsBounds | bouncing_balls/render.py:60-68 | The offsets after (x, y) take x+1, x+2, … in turn, with y between 0 and its start value and x never beyond the radius. |
| Render.MidpointOffsetsOutside | bouncing_balls/render.py:57-67 | The integer 4·d the loop tracks keeps every visited offset on or outside the midpoint circle: 4x² + (2y+1)² ≥ 4r². |
| Render.CircleOffsetsProperties | bouncing_balls/render.py:54-69 | Offset k has x = k, 0 ≤ y ≤ r, x ≤ r, and lies on or outside the midpoint circle. |
| Render.CircleInsideSquare | bouncing_balls/render.py:54-69 | When the circle's bounding square is on the canvas, every marked cell lies in the (2r+1)×(2r+1) square around the centre. |
| Render.CircleExtremesMarked | bouncing_balls/render.py:54-69 | For such a centre, (x0±r, y0), (x0, y0±r) and the centre itself are marked. |
| Render.FirstOffsetExtremes | bouncing_balls/render.py:45-58 | The first offset (0, r) alone covers the centre and the four axis extremes when the bounding square is on the plane. |
| Render.ZeroWidthCircleBlank | bouncing_balls/render.py:27-69 | On a plane of width 0 every span is an empty slice, so no cell is marked, whatever the offsets. |
| Render.ZeroWidthFixturesBlank | bouncing_balls/render.py:148-160 | On such a plane no fixture of a body paints anything. |
| Render.ZeroWidthFrameBlank | bouncing_balls/render.py:141-162 | So a channels-first renderer of width 0 paints nothing: get_frame returns its (1, h, 0) zero image. |
| Render.PlotFixture | bouncing_balls/render.py:148-160 | One pass of the fixture loop: a circle is plotted about the body's screen position, other shapes draw nothing. It raises IndexError iff the fixture is a circle and there is no plane 0 with rows. |
| Render.PlotBody | bouncing_balls/render.py:145-160 | One pass of the body loop: an invisible body draws nothing. A visible body's circles are all plotted. It raises IndexError iff the body is visible with a circle and there is no plane 0 with rows. |
| Render.VideoRenderer.constructor | bouncing_balls/render.py:122-133 | Stores the width, the height and the channel ordering. |
| Render.VideoRenderer.GetFrame | bouncing_balls/render.py:141-162 | A negative width or height raises ValueError, as `np.zeros` does. IndexError is raised exactly when some visible body has a circle and there is no plane 0 with rows: height 0, or width 0 with channels last. Otherwise it returns a fresh image of shape (1, h, w) for channels-first, else (h, w, 1). A cell of plane 0 is 1.0 iff some circle of a visible body, drawn by plot_circle at the body's screen position, covers it. Every other cell is 0. |
| Render.SingleBallFrame | bouncing_balls/render.py:141-162 | In a frame of one visible ball away from the edges, the centre and the four axis extremes are painted. Nothing is painted outside the ball's bounding square. |
| Render.CentroidVideoRenderer.constructor | bouncing_balls/render.py:171-173 | Stores the size, with downsampling 0 and no canvas. |
| Render.CentroidVideoRenderer.ComputeDownsamplingFactor | bouncing_balls/render.py:204-212 | The factor is the constant 1/8, whatever the screen size. |
| Render.CentroidVideoRenderer.FitInScreen | bouncing_balls/render.py:214-224 | Clamps into [0, int(h/8)) × [0, int(w/8)) and leaves an in-range cell unchanged. |
| Render.CentroidVideoRenderer.Reset | bouncing_balls/render.py:230-234 | Does nothing while downsampling is 0. Otherwise it allocates a fresh zero canvas of int(h/8) × int(w/8). |
| Render.CentroidVideoRenderer.MarkOf | bouncing_balls/render.py:190-200 | Gives the cell one fixture marks. For a circle it is the body position; for a polygon or an edge, the centroid of the world vertices; a chain marks nothing. |
| Render.CentroidVideoRenderer.MarkFixtures | bouncing_balls/render.py:187-200 | Sets to 255 exactly the cells the body's fixtures mark. Every other cell keeps its value. |
| Render.CentroidVideoRenderer.GetFrame | bouncing_balls/render.py:176-202 | Fixes downsampling at 1/8 and returns a fresh canvas of int(h/8) × int(w/8), also kept as `screen`. A cell is 255 iff a fixture of a visible body marks it, and 0 otherwise. |
| Render.CircleMarksDownsampledPixel | bouncing_balls/render.py:226-228 | A circle at pixel (px, py) marks cell (py div 8, px div 8), clamped to the last row and column. |
| Render.FixtureEntry | bouncing_balls/render.py:256-266 | One fixture contributes no entries or exactly four. |
| Render.BodyEntriesLength | bouncing_balls/render.py:251-267 | The entries of a world number exactly 4 × the count of circle and polygon fixtures of its visible bodies. |
| Render.PositionAndVelocityExtractor.constructor | bouncing_balls/render.py:239-242 | Stores the size, with an empty vector. |
| Render.PositionAndVelocityExtractor.Reset | bouncing_balls/render.py:271-272 | The vector becomes zeros of the same length. |
| Render.PositionAndVelocityExtractor.EntryOf | bouncing_balls/render.py:258-266 | Gives the four entries [px, py, vx, vy] for a circle or polygon fixture, and none for other shapes. |
| Render.PositionAndVelocityExtractor.WriteFixture | bouncing_balls/render.py:265-267 | Writes one fixture's entries at the next free slot iff they fit. When they do not fit, the vector is left full and unchanged. |
| Render.PositionAndVelocityExtractor.WriteBody | bouncing_balls/render.py:254-267 | After one body, the vector holds the entries so far followed by zeros. On overflow it holds the first n of them. |
| Render.PositionAndVelocityExtractor.WriteBodies | bouncing_balls/render.py:251-267 | The same for all bodies, in body order. |
| Render.PositionAndVelocityExtractor.GetFrame | bouncing_balls/render.py:244-269 | An empty world raises ValueError (numpy's negative size). Otherwise the call succeeds iff the entries fit in 4 × (bodies − 1) slots, and returns the entries in body order padded with zeros. When they do not fit it raises ValueError, leaving the vector filled up to its length. |
| Render.ReportedWithinBodies | bouncing_balls/render.py:249-250 | With at least one invisible body and at most one reported fixture per body, at most bodies − 1 objects are reported. |
| Render.ExtractorSucceeds | bouncing_balls/render.py:248-269 | Under those conditions the entries always fit in the 4 × (bodies − 1) slots. |
| CppRender.ConversionsInverse | bouncing_balls/cpp/src/video_renderer.cpp:21-39 | With PPM = 1, pixels↔metres and screen↔world are mutual inverses in both orders. |
| CppRender.RowMajorInRange | bouncing_balls/bouncing_balls_cpp/include/video_renderer.hpp:86-91 | An on-screen (x, y) has its index y·W + x inside the buffer. |
| CppRender.RowMajorInjective | bouncing_balls/bouncing_balls_cpp/include/video_renderer.hpp:86-91 | Distinct on-screen points have distinct indexes, so a put_pixel changes at most one byte. |
| CppRender.PaintMarks | bouncing_balls/cpp/src/video_renderer.cpp:100-107 | A single put_pixel sets byte i to 0xFF iff i is the on-screen index of the point. Any other byte keeps its value. |
| CppRender.PaintAllMarks | bouncing_balls/cpp/src/video_renderer.cpp:100-107 | After a run of put_pixels, byte i is 0xFF iff one of those points is on screen at i. Any other byte keeps its value. |
| CppRender.BresenhamOffsetsBounds | bouncing_balls/cpp/src/video_renderer.cpp:99-119 | The loop terminates (x − y decreases), and every offset it visits has 0 ≤ y ≤ x ≤ radius − 1. |
| CppRender.BresenhamOffsetsRing | bouncing_balls/cpp/src/video_renderer.cpp:99-119 | Every visited offset lies on the discrete ring of the radius. |
| CppRender.RingStateStep | bouncing_balls/cpp/src/video_renderer.cpp:109-118 | One update of x, y, dx, dy and err keeps the relation between them that places (x, y) on the ring. |
| CppRender.CircleOffsetsProperties | bouncing_balls/cpp/src/video_renderer.cpp:93-119 | A radius ≤ 0 draws nothing. Otherwise the first offset is (r−1, 0), and every offset has 0 ≤ y ≤ x ≤ r−1 and lies on the ring. |
| CppRender.OctantPointOffsets | bouncing_balls/cpp/src/video_renderer.cpp:100-107 | Each of the 8 points of one offset is (x0±x, y0±y) or (x0±y, y0±x). |
| CppRender.CircleWithinRadius | bouncing_balls/cpp/src/video_renderer.cpp:93-107 | Every marked pixel lies within Chebyshev distance r−1 of the centre, and within Euclidean distance r. |
| CppRender.CircleAxisPoints | bouncing_balls/cpp/src/video_renderer.cpp:93-100 | The four axis points at distance r−1 are marked whenever they are on screen. |
| CppRender.FillSpanInRow | bouncing_balls/bouncing_balls_cpp/include/video_renderer.hpp:96-105 | fill_line_ touches only bytes of row y, and none in its early-return cases. |
| CppRender.FillLineMissesLastColumn | bouncing_balls/bouncing_balls_cpp/include/video_renderer.hpp:101-105 | As written, a span reaching the right edge does not set the last column. The inclusive fill does. |
| CppRender.FillSpanInclusiveExact | bouncing_balls/bouncing_balls_cpp/include/video_renderer.hpp:99-105 | The corrected fill sets pixel (cx, cy) iff cy == y and x_begin ≤ cx ≤ x_end. |
| CppRender.VideoRenderer.constructor | bouncing_balls/cpp/src/video_renderer.cpp:12-19 | Takes (screen_width, screen_height, ordering) in that order. The image shape is {h, w, 1} for channels-last, else {1, h, w}. |
| CppRender.VideoRenderer.PutPixel | bouncing_balls/bouncing_balls_cpp/include/video_renderer.hpp:86-91 | The buffer afterwards is the old buffer with byte y·W + x set to 0xFF iff (x, y) is on screen. |
| CppRender.VideoRenderer.FillLine | bouncing_balls/bouncing_balls_cpp/include/video_renderer.hpp:93-106 | As written: sets to 0xFF exactly the half-open clipped span [x_begin, x_end) of row y, and nothing on an early return. Every other byte keeps its value. |
| CppRender.VideoRenderer.FillLineInclusive | bouncing_balls/bouncing_balls_cpp/include/video_renderer.hpp:93-106 | Corrected: sets to 0xFF exactly the clipped columns x_begin..x_end of row y, both included. |
| CppRender.VideoRenderer.OctantPixels | bouncing_balls/cpp/src/video_renderer.cpp:100-107 | The 8 put_pixels of one iteration set exactly the on-screen points among the 8 symmetric points. |
| CppRender.VideoRenderer.DrawCircle | bouncing_balls/cpp/src/video_renderer.cpp:89-120 | Sets to 0xFF exactly the on-screen symmetric points of every Bresenham offset, about the truncated centre. Nothing else changes. |
| CppRender.VideoRenderer.DrawFixtures | bouncing_balls/cpp/src/video_renderer.cpp:52-73 | Fails iff the visible body has a polygon or edge fixture. Otherwise it draws exactly the body's circles, using the radius from its BodyData. |
| CppRender.VideoRenderer.GetFrame | bouncing_balls/cpp/src/video_renderer.cpp:42-77 | Throws NotImplemented iff a visible body has a polygon or edge. Otherwise the frame has the image shape and W·H bytes, and a byte is 0xFF iff a visible body's circle marks it, 0 otherwise. Invisible bodies are skipped. |
| CppRender.VideoRenderer.PolygonVertexes | bouncing_balls/cpp/include/video_renderer.hpp:45-57 | Returns one screen point per vertex, in vertex order, each mapping back to that vertex's world point. |
| CppRender.VideoRenderer.EdgeVertexes | bouncing_balls/bouncing_balls_cpp/include/video_renderer.hpp:61-68 | Returns exactly (vertex0, vertex1) in the screen frame. |
| CppRender.VideoRenderer.EdgeVertexesAsWritten | bouncing_balls/cpp/include/video_renderer.hpp:59-67 | As written: two points, the first built from vertex0's x and vertex1's y. |
| CppRender.VideoRenderer.EdgeVertexesDiffer | bouncing_balls/cpp/include/video_renderer.hpp:59-67 | The as-written result equals the correct one iff the two vertices have the same y. |
| Spawn.BandY | bouncing_balls/utility_functions.py:91-94 | The y drawn in the band branch lies at or above rect.y − 3, or strictly below rect.y + rect.h + 3. |
| Spawn.PastRect | bouncing_balls/utility_functions.py:93-94 | Shifting a y past the rectangle never lands it inside the grown y-range. |
| Spawn.RandomPosOutsideRectangle | bouncing_balls/utility_functions.py:79-97 | AssertionError iff a screen dimension is ≤ 0. Otherwise the point is never inside the rectangle grown by the tolerance (3). |
| Spawn.BandYOnScreen | bouncing_balls/utility_functions.py:91-94 | In the band branch, y lies in [0, H) whenever H − rect.h − 6 > 0. |
| Spawn.RandomPosValue | bouncing_balls/utility_functions.py:89-96 | x = u1·W. y comes from the band when x is inside the rectangle's grown x-range, and is u2·H otherwise. |
| Spawn.RandomPosOnScreen | bouncing_balls/utility_functions.py:89-96 | x lies in [0, W). y lies in [0, H) outside the band, and also in the band when H − rect.h − 6 > 0. |
| Spawn.RandomPosInBand | bouncing_balls/utility_functions.py:90-94 | When x falls in the band, the point is (x, BandY) and lies on screen under the same condition. |
| Spawn.RandomPosOffBand | bouncing_balls/utility_functions.py:95-96 | Otherwise the point is (u1·W, u2·H), inside [0, W) × [0, H). |
| Spawn.BandYAtEmptyInterval | bouncing_balls/utility_functions.py:91-94 | When H − rect.h − 6 == 0 and rect.y < 3, the band y is H itself, one row past the screen. |
| Spawn.LocalRandomPosOutsideRectangle | bouncing_balls/generate_data.py:95-107 | The fixed 64×48 copy never returns a point inside the grown rectangle. |
| Spawn.LocalMatchesGeneral | bouncing_balls/generate_data.py:95-107 | The fixed-screen copy equals the general one at 64×48. |
| Spawn.CppRandomPosOutsideRectangle | bouncing_balls/cpp/src/bouncing_balls.cpp:105-124 | AssertionError iff a dimension is ≤ 0. When the as-written line 112 test holds, y is outside the grown y-range. |
| Spawn.CppAlwaysDrawsFromBand | bouncing_balls/cpp/src/bouncing_balls.cpp:112-117 | Whenever rect.x + rect.w + 3 > 1, the C++ point is (u1·W, BandY): y always comes from the band, and the point is never inside the grown rectangle. |
| Spawn.CppDiffersFromPython | bouncing_balls/cpp/src/bouncing_balls.cpp:112 | For the occlusion (22, 19, 20, 10) on 64×48 with draws (0, 0.5), Python gives (0, 24) and C++ gives (0, 16). |
| Spawn.CornerPair | bouncing_balls/utility_functions.py:31-56 | No pair iff the point is in the rectangle shrunk by 10 px. Otherwise both corners of the pair are corners of the shrunk rectangle. |
| Spawn.OcclusionAlwaysHasPair | bouncing_balls/generate_data.py:47-48 | For the 10-px-high occlusion the shrunk y-range is empty, so every point gets a pair. |
| Spawn.CornerPairSpansRectangle | bouncing_balls/utility_functions.py:31-56 | From any point outside the shrunk rectangle, all four of its corners lie in the closed angle between the chosen pair. The cone the angle is drawn from therefore covers the rectangle. |
| PySim.ScreenBoxProperties | bouncing_balls/environment_simulator.py:80-94 | The bounding box is static, invisible and named "world_bounding_box". Its four edges form a closed loop through the screen images of the four screen corners. It adds nothing to the metadata. |
| PySim.CircleVelocityMatchesScreen | bouncing_balls/environment_simulator.py:137-151 | Because add_circle negates vy, moving the body by its world velocity lands on the world image of the screen point moved by the screen velocity. |
| PySim.RandPos | bouncing_balls/environment_simulator.py:76-77 | `get_rand_pos` lies in [0, W) × [0, H) for draws in [0, 1). |
| PySim.LineJoinsEnds | bouncing_balls/environment_simulator.py:114-123 | A line is one inactive, invisible, static edge between the world images of p1 and p2, and adds nothing to the metadata. |
| PySim.OcclusionCoversRectangle | bouncing_balls/environment_simulator.py:127-134 | The occlusion is static, inactive and visible (the BodyData default). It is one 4-vertex polygon whose vertices map to the four screen corners of the rectangle. |
| PySim.OcclusionNotReported | bouncing_balls/environment_simulator.py:127-134 | Adding an occlusion leaves the metadata entry unchanged. |
| PySim.BallsCoordinates | bouncing_balls/environment_simulator.py:206-217 | The loop collects the screen centres of the circle fixtures of the visible bodies, in body and fixture order. |
| PySim.AddedCircleReported | bouncing_balls/environment_simulator.py:137-151 | After add_circle at pixel (px, py), the next metadata entry starts with (px, py). |
| PySim.MetadataEntrySound | bouncing_balls/environment_simulator.py:206-217 | Every coordinate in an entry is the screen position of some visible body with a circle fixture. |
| PySim.MetadataEntryAppend | bouncing_balls/environment_simulator.py:206-217 | The entry of a concatenated body list is the concatenation of the entries. |
| PySim.StepCount | bouncing_balls/environment_simulator.py:180-184 | The number of steps run_simulation takes reaches time_s·1000, and one step fewer would not. |
| PySim.StepsOfWholeSeconds | bouncing_balls/environment_simulator.py:70-73 | At fps frames per second, a run of s whole seconds takes exactly fps·s steps. |
| PySim.StepCountIsFirst | bouncing_balls/environment_simulator.py:183-184 | The loop guard `elapsed < max` holds exactly for the first StepCount steps. |
| EnvSim.EnvironmentSimulator.constructor | bouncing_balls/environment_simulator.py:33-55 | fps 60 with step 1/60, nothing saved, empty metadata, and a world holding only the bounding box. |
| EnvSim.EnvironmentSimulator.SetFps | bouncing_balls/environment_simulator.py:70-73 | The fps getter returns the value set. The time step becomes 1/fps, and fps 0 raises ZeroDivisionError with the step unchanged. |
| EnvSim.EnvironmentSimulator.EnableBoundingBox | bouncing_balls/environment_simulator.py:97-98 | Sets `active` on the bounding box, the last body, and on nothing else. |
| EnvSim.EnvironmentSimulator.SuppressOutput | bouncing_balls/environment_simulator.py:101-103 | The renderer's visibility becomes the negation of the flag. |
| EnvSim.EnvironmentSimulator.SaveTo | bouncing_balls/environment_simulator.py:106-111 | Turns saving on. The writer receives set_frame_rate(fps), set_resolution(width, height), then open(path). |
| EnvSim.EnvironmentSimulator.AddLine | bouncing_balls/environment_simulator.py:114-123 | Prepends exactly the line body. |
| EnvSim.EnvironmentSimulator.AddRectangularOcclusion | bouncing_balls/environment_simulator.py:127-134 | Prepends exactly the occlusion body. |
| EnvSim.EnvironmentSimulator.AddCircle | bouncing_balls/environment_simulator.py:137-151 | Prepends exactly one circle body: dynamic, visible, at to_world_frame(pos), with velocity (vx, −vy). |
| EnvSim.EnvironmentSimulator.AddRandCircle | bouncing_balls/environment_simulator.py:154-157 | Prepends a circle at get_rand_pos(). |
| EnvSim.EnvironmentSimulator.CollectMetadata | bouncing_balls/environment_simulator.py:206-217 | Appends one entry: the metadata of the current world. |
| EnvSim.EnvironmentSimulator.Step | bouncing_balls/environment_simulator.py:160-177 | Writes one frame of the world before the step iff saving. Appends one entry of that world iff collecting metadata. Advances the world by one physics step, and returns 1000·time_step ms. |
| EnvSim.EnvironmentSimulator.RunSimulation | bouncing_balls/environment_simulator.py:180-187 | Performs exactly StepCount steps, with one frame and one metadata entry per step from the successive worlds, then closes the writer iff saving. |
| EnvSim.EnvironmentSimulator.Reset | bouncing_balls/environment_simulator.py:190-198 | The world becomes only the bounding box, and the metadata becomes empty. The writer is closed iff saving, and saving stays on. |
| EnvSim.EnvironmentSimulator.Quit | bouncing_balls/environment_simulator.py:201-204 | Closes the writer iff saving. |
| Legacy.ElapsedAtLeast | bouncing_balls/bouncing_balls.py:151-153 | n clock readings of at least 1 ms each add up to at least n ms. |
| Legacy.ClockSteps | bouncing_balls/bouncing_balls.py:159-163 | With a visible renderer, the number of steps whose clock readings first reach the time. |
| Legacy.ClockStepsIsFirst | bouncing_balls/bouncing_balls.py:159-163 | The loop guard holds exactly for the first ClockSteps steps. |
| Legacy.ElapsedGrows | bouncing_balls/bouncing_balls.py:151-156 | Each successful step adds exactly the length it returns to the elapsed time. |
| Legacy.Progress | bouncing_balls/bouncing_balls.py:159-163 | While the guard holds, another step is due. A failing step is the last one; a successful one advances the elapsed time by its length. |
| Legacy.RunStepsIsFirst | bouncing_balls/bouncing_balls.py:159-163 | The guard holds exactly for the first RunSteps steps, whatever the renderer's visibility. |
| Legacy.BouncingBalls.constructor | bouncing_balls/bouncing_balls.py:27-49 | fps 60, nothing saved, empty metadata, and a world holding only the bounding box. |
| Legacy.BouncingBalls.SetFps | bouncing_balls/bouncing_balls.py:60-62 | Stores fps and sets the time step to 1/fps. fps 0 raises ZeroDivisionError with the step unchanged. |
| Legacy.BouncingBalls.EnableBoundingBox | bouncing_balls/bouncing_balls.py:84-85 | Sets `active` on the bounding box only. |
| Legacy.BouncingBalls.SuppressOutput | bouncing_balls/bouncing_balls.py:88-90 | The renderer's visibility becomes the negation of the flag. |
| Legacy.BouncingBalls.SaveTo | bouncing_balls/bouncing_balls.py:93-98 | Turns saving on. The writer receives frame rate, resolution (width, height), then open(path). |
| Legacy.BouncingBalls.AddLine | bouncing_balls/bouncing_balls.py:101-110 | Prepends exactly the line body. |
| Legacy.BouncingBalls.AddRectangularOcclusion | bouncing_balls/bouncing_balls.py:113-120 | Prepends exactly the inactive, visible occlusion polygon. |
| Legacy.BouncingBalls.AddCircle | bouncing_balls/bouncing_balls.py:123-130 | Prepends one visible circle with the y velocity negated. |
| Legacy.BouncingBalls.AddRandCircle | bouncing_balls/bouncing_balls.py:133-136 | Prepends a circle at get_rand_pos(). |
| Legacy.BouncingBalls.CollectMetadata | bouncing_balls/bouncing_balls.py:185-196 | Appends the metadata entry of the current world. |
| Legacy.BouncingBalls.Step | bouncing_balls/bouncing_balls.py:139-156 | Writes one frame iff saving, appends one entry iff collecting metadata, then steps the world. It returns the clock reading for a visible renderer and 1000·time_step for an invisible one. A renderer without `is_visible` raises AttributeError after the work is done. |
| Legacy.BouncingBalls.RunSimulation | bouncing_balls/bouncing_balls.py:159-166 | Performs exactly RunSteps steps with their frames and entries, then closes the writer iff saving. With no `is_visible` attribute, the first step raises AttributeError and the writer stays open. |
| Legacy.BouncingBalls.RunLoop | bouncing_balls/bouncing_balls.py:160-163 | The loop alone: RunSteps steps, and the error of a renderer without `is_visible`. |
| Legacy.BouncingBalls.Reset | bouncing_balls/bouncing_balls.py:169-177 | Only the bounding box remains, the metadata becomes empty, and the writer is closed iff saving. |
| Legacy.BouncingBalls.Quit | bouncing_balls/bouncing_balls.py:180-183 | Closes the writer iff saving. |
| CppSim.ChainBoxCorners | bouncing_balls/cpp/src/simulator.cpp:59-86 | The bounding box is invisible, active and static: one closed chain through the world images of the four screen corners. It never makes a frame fail. |
| CppSim.LineEndsInWorldFrame | bouncing_balls/cpp/src/simulator.cpp:107-129 | The line's edge joins the world images of p1 and p2. Adding it leaves whether a frame fails unchanged. |
| CppSim.OcclusionBoxSwapped | bouncing_balls/cpp/src/simulator.cpp:132-153 | The occlusion polygon spans [−h, h] × [−w, w], a box swapped and not halved, with (h, w) one of its vertices. As a visible polygon it makes every later frame fail. |
| CppSim.CircleVelocityNotNegated | bouncing_balls/cpp/src/simulator.cpp:156-171 | The C++ circle has the Python circle's position and vx, but the opposite vy. It is visible and drawable. |
| CppSim.TimeStepMs | bouncing_balls/cpp/src/simulator.cpp:50-53 | No step for fps 0 (division by zero). Otherwise 1000 divided by fps after its `int32_t` conversion, truncating. |
| CppSim.TimeStepBounds | bouncing_balls/cpp/src/simulator.cpp:50-53 | For fps ≤ 1000 the step q satisfies q·fps ≤ 1000 < (q+1)·fps. Between 1000 and 2³¹ it is 0. From 2³¹ on it is between −1000 and 0. |
| CppSim.LargestFpsWraps | bouncing_balls/cpp/src/simulator.cpp:52 | fps 2³² − 1 gives a step of −1000 ms. |
| CppSim.StepCountMs | bouncing_balls/cpp/src/simulator.cpp:203-207 | The number of whole-ms steps that first reaches the time: n·step ≥ max, and (n−1)·step < max. |
| CppSim.StepCountIsCeil | bouncing_balls/cpp/src/simulator.cpp:203-207 | That count is ceil(1000·time_s / step). |
| CppSim.StepCountMsIsFirst | bouncing_balls/cpp/src/simulator.cpp:206-207 | The loop guard holds exactly for the first StepCountMs steps. |
| CppSim.CleanSteps | bouncing_balls/cpp/src/simulator.cpp:181-191 | The steps before the first world with an undrawable body. Every world before it draws; the one at it, if within the run, does not. |
| CppSim.CleanStepsNext | bouncing_balls/cpp/src/simulator.cpp:181-191 | Step k is clean iff its world draws. |
| CppSim.Simulator.constructor | bouncing_balls/cpp/src/simulator.cpp:32-43 | fps 60 with a 16 ms step, not saving, no writer, only the chain box, and one stored BodyData for it. |
| CppSim.Simulator.SetFps | bouncing_balls/cpp/src/simulator.cpp:50-53 | get_fps returns the value set. fps 0 is a division by zero and keeps the step. Otherwise the step is TimeStepMs(fps). |
| CppSim.Simulator.SaveTo | bouncing_balls/cpp/src/simulator.cpp:98-104 | Saving goes on with this writer. The writer gets the fps after its `uint32_t` to `int32_t` conversion (so 2³² − 1 is stored as −1), the resolution (width, height) in the order get_resolution returns it, and the opened path with an empty buffer. |
| CppSim.Simulator.AddBody | bouncing_balls/cpp/src/simulator.cpp:256-259 | Prepends the body and appends its BodyData to the storage. |
| CppSim.Simulator.AddLine | bouncing_balls/cpp/src/simulator.cpp:107-129 | Prepends the line and stores an invisible "line" BodyData. |
| CppSim.Simulator.AddRectangularOcclusion | bouncing_balls/cpp/src/simulator.cpp:132-153 | Prepends the occlusion and stores a visible "rectangular_occlusion" BodyData. |
| CppSim.Simulator.AddCircle | bouncing_balls/cpp/src/simulator.cpp:156-171 | Prepends the circle and stores a visible "circle" BodyData. |
| CppSim.Simulator.GetRandPosPx | bouncing_balls/cpp/src/simulator.cpp:55-57 | The random position lies on the screen. |
| CppSim.Simulator.AddRandCircle | bouncing_balls/cpp/src/simulator.cpp:174-178 | Prepends a circle at that position. |
| CppSim.Simulator.Step | bouncing_balls/cpp/src/simulator.cpp:181-200 | Throws NotImplemented iff the world has a visible polygon or edge, changing nothing. Otherwise it pushes the frame iff saving and advances Box2D by `time_step_.count()`, a number of milliseconds. It returns the step. |
| CppSim.Simulator.CloseIfSaving | bouncing_balls/cpp/src/simulator.cpp:208-209 | Closes the writer iff saving. |
| CppSim.Simulator.RunSimulation | bouncing_balls/cpp/src/simulator.cpp:203-210 | Runs the StepCountMs steps, or stops at the first that throws. It pushes one frame per step taken while saving. It closes the writer iff saving and no step threw. |
| CppSim.Simulator.RunLoop | bouncing_balls/cpp/src/simulator.cpp:204-207 | The loop alone: the world after the clean steps, their frames, and NotImplemented iff a step threw. |
| CppSim.Simulator.Reset | bouncing_balls/cpp/src/simulator.cpp:213-223 | Only the chain box remains. fps goes back to 60 with a 16 ms step. The writer is closed iff saving. The BodyData storage keeps every old entry and gains the box's. |
| CppSim.Simulator.Quit | bouncing_balls/cpp/src/simulator.cpp:225-229 | Closes the writer iff saving. |
| NpyWriterModel.StackFrames | bouncing_balls/cpp/src/npy_writer.cpp:41-63 | The stacked array has shape [n] ++ the first frame's shape and n·size bytes. Block k holds frame k's first `size` bytes, in write order. |
| NpyWriterModel.NpyWriter.constructor | bouncing_balls/cpp/src/npy_writer.cpp:7 | fps 25, resolution (0, 0), empty buffer, nothing saved. |
| NpyWriterModel.NpyWriter.SetFps | bouncing_balls/cpp/src/npy_writer.cpp:13-18 | get_fps returns the value set, and nothing else changes. |
| NpyWriterModel.NpyWriter.SetResolution | bouncing_balls/cpp/src/npy_writer.cpp:21-28 | get_resolution returns (height, width) as given, and nothing else changes. |
| NpyWriterModel.NpyWriter.Open | bouncing_balls/cpp/src/npy_writer.cpp:35-39 | Empties the buffer, records the path, and returns true. |
| NpyWriterModel.NpyWriter.Write | bouncing_balls/cpp/src/npy_writer.cpp:74-77 | Appends exactly one frame at the end and returns true. |
| NpyWriterModel.NpyWriter.Push | bouncing_balls/cpp/src/npy_writer.cpp:30-33 | `operator<<` appends exactly one frame at the end. |
| NpyWriterModel.NpyWriter.Close | bouncing_balls/cpp/src/npy_writer.cpp:41-72 | On an empty buffer it returns true and saves nothing, leaving the path. Otherwise it saves StackFrames of the buffer to the path, then empties the buffer and the path. |
| NpyWriterModel.NpyWriter.Dispose | bouncing_balls/cpp/src/npy_writer.cpp:9-11 | The destructor closes, so pending frames are saved and the buffer ends empty. |
| NpyWriterModel.CopyFrames | bouncing_balls/cpp/src/npy_writer.cpp:58-63 | The copy loop fills exactly the data of StackFrames. |
| NpyWriterModel.CopyFrame | bouncing_balls/cpp/src/npy_writer.cpp:62 | `std::copy` writes the frame's first `size` bytes at `pos`, behind the bytes already written. |
| GenerateData.MakeConfig | bouncing_balls/generate_data.py:26-33 | Copies every field. A missing data_dir becomes "data". |
| GenerateData.SampleCount | bouncing_balls/generate_data.py:110-120 | ValueError iff the split is neither "train" nor "test". Train gives `sequences`; test gives `sequences // 10`. |
| GenerateData.PathJoin | bouncing_balls/generate_data.py:113-115 | `os.path.join`: an absolute second part replaces the first. Otherwise the result starts with the first part and ends with the second. |
| GenerateData.NatToString | bouncing_balls/generate_data.py:130 | `str(i)`: decimal digits with no leading zero, whose value is i. |
| GenerateData.NatToStringInjective | bouncing_balls/generate_data.py:130 | `str(i) == str(j)` iff i == j. |
| GenerateData.NumberedFilesDistinct | bouncing_balls/generate_data.py:130 | file_name + str(i) + ".npy" has that prefix and suffix, and two such names are equal iff their indexes are. |
| GenerateData.FileNamesDistinct | bouncing_balls/generate_data.py:113-130 | Sample i goes to join(dataset_dir, "bouncing_balls_") + str(i) + ".npy", and distinct samples go to distinct files. |
| GenerateData.SampleWorldShape | bouncing_balls/generate_data.py:132-144 | A sample's world is the bounding box, then, with occlusion, the box (22, 19, 20, 10), then `balls` circles added after it. |
| GenerateData.OccludedBallsStartOutside | bouncing_balls/generate_data.py:132-138 | With occlusion, every ball starts at a point outside the grown occlusion rectangle. |
| GenerateData.SampleLogShape | bouncing_balls/generate_data.py:129-149 | One sample's writer log is the header calls, open(file of sample i), exactly `sequence_len` frames, and one close from the reset. |
| GenerateData.SamplesLogPrefix | bouncing_balls/generate_data.py:129-149 | Samples are written in index order: the log of the first i samples, then sample i, is a prefix of the whole log. |
| GenerateData.BindRandCircleKeyword | bouncing_balls/generate_data.py:144 | `add_rand_circle` accepts the keywords `mean_vel` and `radius` (defaults 5000 and 5) and raises TypeError on any other. |
| GenerateData.Line144RaisesTypeError | bouncing_balls/generate_data.py:144 | As written, the keyword `max_vel` raises TypeError, and `mean_vel` binds. |
| GenerateData.NewVideoRenderer | bouncing_balls/generate_data.py:123 | `VideoRenderer(...)` raises TypeError unless it gets its three arguments. |
| GenerateData.Line123RaisesTypeError | bouncing_balls/generate_data.py:123 | As written, the two-argument call raises TypeError, and with the channel ordering added the renderer is built. |
| GenerateData.AddBodies | bouncing_balls/generate_data.py:132-144 | Corrected: line 144 passes `mean_vel` (see Findings). The loops leave the world of SampleWorld: the occlusion, then the balls. |
| GenerateData.GenerateSample | bouncing_balls/generate_data.py:130-149 | One sample appends exactly SampleLog to the writer log and leaves the simulator idle, with only the bounding box. |
| GenerateData.PrepareSample | bouncing_balls/generate_data.py:130-144 | save_to, then the bodies: the world is SampleWorld and the log gains the header. |
| GenerateData.StepTimes | bouncing_balls/generate_data.py:146-147 | n steps give the n-th world and one frame per step, in order. |
| GenerateData.GenerateDataset | bouncing_balls/generate_data.py:110-149 | Corrected: the renderer is built with a channel ordering (see Findings). ValueError with nothing written for a bad split. Otherwise the log of the SampleCount samples, in order. |
| GenerateData.SkipGeneration | bouncing_balls/generate_data.py:186-190 | Skips iff data_dir exists and the train and test directories hold exactly `sequences` and `sequences // 10` files. listdir of a missing directory raises FileNotFoundError. |
| GenerateData.GenerateAll | bouncing_balls/generate_data.py:177-199 | On a skip it writes nothing. On a listdir error it raises that error. Otherwise it writes the train dataset, then the test dataset. |
| CppGen.MakeConfig | bouncing_balls/cpp/src/bouncing_balls.cpp:134-151 | Copies every field, replacing an empty data_dir by "data". |
| CppGen.DefaultConfig | include/bouncing_balls.hpp:40-43 | The defaults: data_dir "data", no ball counts, dof 2, 48×64, channels-last. |
| CppGen.Choice | bouncing_balls/cpp/src/bouncing_balls.cpp:205 | `int(u · size)` is a valid index for u in [0, 1) and a non-empty list. |
| CppGen.BallsInListed | bouncing_balls/cpp/src/bouncing_balls.cpp:205-206 | The ball count chosen is one of the configured counts. |
| CppGen.CppBall | bouncing_balls/cpp/src/bouncing_balls.cpp:207-224 | One ball fails with AssertionError iff there is occlusion and a zero screen dimension. It adds a body iff occlusion is on or dof is 1 or 2. |
| CppGen.BallsFromShape | bouncing_balls/cpp/src/bouncing_balls.cpp:209-224 | The ball loop fails iff a ball fails. Otherwise it adds j bodies in front of the world, or none when the configuration adds no balls. |
| CppGen.SampleStartShape | bouncing_balls/cpp/src/bouncing_balls.cpp:204-226 | setup_environment_ adds one occlusion, when enabled, and then the chosen number of balls in front of the world. It fails exactly as the balls do. |
| CppGen.BallsFromDrawable | bouncing_balls/cpp/src/bouncing_balls.cpp:207-224 | Adding balls never changes whether a frame fails. |
| CppGen.SampleStartDrawable | bouncing_balls/cpp/src/bouncing_balls.cpp:204-226 | A sequence's start world makes frames fail iff occlusion is on. |
| CppGen.DrawableRunsComplete | bouncing_balls/cpp/src/bouncing_balls.cpp:188-190 | From a drawable world, with shapes kept by Box2D, all `sequence_len` steps succeed. |
| CppGen.UndrawableRunsStop | bouncing_balls/cpp/src/bouncing_balls.cpp:188-190 | From an undrawable world, the first step already throws. |
| CppGen.SequenceFilesDistinct | bouncing_balls/cpp/src/bouncing_balls.cpp:184-185 | Sequence i goes to dataset_dir/"bouncing_balls_" + i + ".npy", and distinct sequences go to distinct files. |
| CppGen.WriterAfterRunsSaves | bouncing_balls/cpp/src/bouncing_balls.cpp:183-195 | After k completed sequences, the saved files are those of the k runs, in order, and the buffer is empty. |
| CppGen.Generator.constructor | bouncing_balls/cpp/src/bouncing_balls.cpp:161-167 | Stores the config and the occlusion {22, 19, 20, 10}. Builds the renderer as `VideoRenderer(screen_height, screen_width, ordering)`, so it is screen_height wide, and a fresh empty writer. |
| CppGen.Generator.FrameShape | bouncing_balls/cpp/src/bouncing_balls.cpp:163-165 | With that renderer a channels-last frame has shape [screen_width, screen_height, 1] and W·H bytes. |
| CppGen.Generator.WriterAfterSaves | bouncing_balls/cpp/src/bouncing_balls.cpp:183-195 | After k successful sequences, the writer has saved exactly their frames to their files, in order. |
| CppGen.Generator.OcclusionDecides | bouncing_balls/cpp/src/bouncing_balls.cpp:178-201 | Without occlusion a sequence runs all its steps and yields their frames. With occlusion (and sequence_len > 0) its first step throws and no frame is pushed. |
| CppGen.Generator.Generate | bouncing_balls/cpp/src/bouncing_balls.cpp:170-201 | Sequences run in index order. If none fails, the writer has saved every sequence. Otherwise the error is that of the first failing sequence, with that sequence's frames and file left open and only the earlier ones saved. |
| CppGen.Generator.NextSequence | bouncing_balls/cpp/src/bouncing_balls.cpp:183-195 | One iteration of the sequence loop: it fails iff sequence i fails, and otherwise extends the saved files by sequence i. |
| CppGen.Generator.GenerateSequence | bouncing_balls/cpp/src/bouncing_balls.cpp:184-194 | save_to, setup, steps and reset for one sequence. The error is that of its run. On success it saves its frames to its file. |
| CppGen.Generator.RunSequence | bouncing_balls/cpp/src/bouncing_balls.cpp:188-194 | The steps then the reset. It pushes the frames of the clean steps, throws NotImplemented iff a step throws, and closes (saving) only when none threw. |
| CppGen.Generator.CloseSequence | bouncing_balls/cpp/src/bouncing_balls.cpp:194 | `reset` closes the writer and leaves the simulator idle. |
| CppGen.Generator.PrepareSequence | bouncing_balls/cpp/src/bouncing_balls.cpp:184-187 | The writer is opened on the sequence's file. The error is the setup's, and on success the world is the sequence's start world. |
| CppGen.Generator.SetupEnvironment | bouncing_balls/cpp/src/bouncing_balls.cpp:204-226 | The world becomes SampleStart on success. On an AssertionError only the occlusion has been added. One BodyData is stored per body added. |
| CppGen.Generator.AddBall | bouncing_balls/cpp/src/bouncing_balls.cpp:209-224 | One iteration of the ball loop extends the world by ball b, or fails leaving the world unchanged. |
| CppGen.Generator.StepSequence | bouncing_balls/cpp/src/bouncing_balls.cpp:188-190 | `sequence_len` steps, or up to the first that throws. It pushes the frames of the clean steps and leaves the path and the saved files unchanged. |
| B2Iter.Iterator.constructor | include/b2Iterator.hpp:8-9 | The iterator starts at the given element. |
| B2Iter.Iterator.Increment | include/b2Iterator.hpp:11-15 | `++` moves to GetNext() from a non-null element and stays at null. |
| B2Iter.Begin | include/b2Iterator.hpp:30-33 | `begin(obj)` is positioned at obj. |
| B2Iter.End | include/b2Iterator.hpp:35-38 | `end(obj)` is positioned at null, whatever obj is. |
| B2Iter.NotEqual | include/b2Iterator.hpp:40-43 | Two iterators differ iff their elements differ. |
| B2Iter.ListDistinct | include/b2Iterator.hpp:11-15 | A null-terminated list holds no node twice. |
| B2Iter.RangeFor | include/b2Iterator.hpp:30-43 | A range-for over a null-terminated list terminates, having visited exactly the list's nodes once each, in GetNext order. |
| Common.TruncDiv | bouncing_balls/cpp/src/simulator.cpp:52 | C++ integer division: it equals Euclidean division for non-negative operands, and q·b + remainder == a. |
| Common.Int32OfUint32 | bouncing_balls/cpp/src/simulator.cpp:52 | The `int32_t` value of a `uint32_t`: in range, and congruent to it mod 2³². |

## The code as written

The model follows the code, including these behaviours:

- **The Python `add_circle` negates vy; the C++ one does not.**
  - CppSim.CircleVelocityNotNegated states the difference.
- **The C++ `time_step_` is a whole number of milliseconds, `1000 / fps`.**
  - `step` passes `time_step_.count()` to `world->Step` as Box2D seconds.
  - An fps above 2³¹ is read as a negative `int32_t` and gives a negative step.
- **The C++ occlusion is swapped and visible.**
  - `SetAsBox(height_m, width_m)` is swapped and not halved.
  - The occlusion is a visible polygon, so the C++ `get_frame` throws NotImplemented on every frame once it exists.
  - The C++ generator with occlusion therefore fails on the first step of its first sequence, leaving that file unsaved.
- **The Python `get_frame` on a zero-size screen.** With max_x = 0 both ends of a span clamp to −1, so `image[y, -1:0]` is an empty slice and nothing is drawn. With max_y = 0 the row clamps to −1, which is no row of an empty plane, so the first circle raises IndexError. A screen with no visible circle returns its zero image.
- **`body_data_storage_.empty()` in `reset` clears nothing**, so the storage only grows.
- **The C++ renderer's arguments are swapped.** The generator builds its `VideoRenderer(screen_height, screen_width, …)`, so the renderer is screen_height wide and screen_width high.
- **Every C++ ball has radius 5.** Each one takes the default `BodyData` radius of 5, and the config's `balls_radius` is never used.
- **The C++ position test at line 112 is chained.**
  - `rect[0] - tol < x < rect[0] + rect[2] + tol` compares a `bool` with the right end.
  - For the generator's rectangle, y is therefore always drawn from the band: Spawn.CppAlwaysDrawsFromBand.
  - The point still avoids the grown rectangle, but the positions it produces differ from Python's: Spawn.CppDiffersFromPython.
- **The band y can fall off the screen.** With H − rect.h − 6 equal to 0 and rect.y < 3, the band y is H, one row past the screen: Spawn.BandYAtEmptyInterval.
  - The band y is on screen only when that interval is strictly positive.
- **Only the C++ conversion is exact.** The C++ `meters_to_pixels` does not truncate, while Python's `int()` does.
  - The C++ conversions are exact inverses.
  - The Python ones are inverses on integer pixels, and within one pixel elsewhere.
- **`BouncingBalls.step` does not return the nominal time step.** It returns the pygame clock's reading when the renderer is visible. With no `is_visible` attribute it raises AttributeError, after the frame, the metadata entry and the physics step.
- **The corner pair is missing for a whole region, not just a line.** No corner pair is bound for any point of the closed rectangle shrunk by 10 px. This is not only for points on the rectangle's extended edges. For the 10-px-high occlusion the shrunk rectangle is empty, so every point has a pair.
- **There is no validation split.** generate_data.py produces a train split and a test split only. It has no workers, no partition and no metadata file. The model covers the two splits the code produces.

## Left out

- Box2D itself:
  - `world.Step` (integration, collision) is a function passed to each simulator.
  - Where a proof needs more, it states the assumption as a predicate: KeepsBodies (the step keeps the body count), or KeepsShapes (the step keeps every body's fixtures and visibility).
  - `b2World::CreateBody` is modelled as prepending to the body list.
- Random draws:
  - `random()`, `np.random.normal`, `get_rand_vel` and the C++ mt19937 helpers of common_types.cpp are passed in as draws.
  - The velocity a ball is given is a parameter.
- The angle sampling of `random_trajectory_through_rectangle` (acos, cos, sin) and `distance` (sqrt): only the corner-pair choice is modelled.
- Floating point: Python floats and C++ `float` are idealised as reals in time steps, positions and velocities.
- The file system:
  - `os.mkdir`, `os.listdir` and `fs::create_directory`, `check_generated_data`, and `cnpy::npy_save`;
  - a saved file is a (path, array) record;
  - the facts `generate_data` reads from disk are parameters.
- The Python writer (`BufferedBinaryWriter`) is not part of this model. The calls made on it are logged instead.
- pygame, matplotlib and cv2:
  - the clock's throttling is its list of readings;
  - display and `print` are left out.
- `renderer.reset()` in the Python simulators' `reset` is not modelled, since the renderer is a frame function there. The renderers' own `Reset` is modelled.
- PySim.BallsCoordinates: the renderer is assumed to convert positions as the base `Renderer.to_screen_frame` does. That holds for `Renderer`, `VideoRenderer` (the one generate_data.py passes) and `PositionAndVelocityExtractor`. A `CentroidVideoRenderer` overrides the conversion (render.py:226-228) with swapped, downsampled coordinates, which `_collect_metadata` would record instead; the model does not capture that.
- EnvSim.EnvironmentSimulator.CollectMetadata: the same assumption about the renderer's conversion; environment_simulator.py:214 calls the renderer's own `to_screen_frame`.
- Legacy.BouncingBalls.CollectMetadata: the same assumption; bouncing_balls.py:194 calls the renderer's own `to_screen_frame`.
- EnvSim.EnvironmentSimulator.Step: the frame function is assumed not to raise. A `VideoRenderer` on a screen without drawing rows holding a visible circle (IndexError), or a `PositionAndVelocityExtractor` on an empty world (ValueError), would end `step` before the write, the metadata and the physics step.
- Legacy.BouncingBalls.Step: the same assumption that `get_frame` does not raise.
- CppSim.Simulator.SetFps: `1000 / int32_t(fps)` with fps 0 is an integer division by zero, undefined behaviour in C++ (a trap on common targets). The model returns ZeroDivisionError and keeps the old step.
- CppSim.TimeStepMs: None for fps 0 stands for that same undefined division.
- The `__enter__`/`__exit__` context manager is modelled as an explicit `Quit`.
- C++ `enable_bounding_box` (Box2D's `SetAwake`) and `suppress_output` are left out. Their bodies touch no modelled state. The C++ metadata code is commented out in the source.
- The argparse `__main__` block, the commented-out `generate_autoencoder_dataset`, the pybind bindings, setup.py, example.py and main.cpp.
- Integer widths: the two `uint32_t` fps to `int32_t` conversions are modelled, in `set_fps` (simulator.cpp:52) and in `save_to` (simulator.cpp:101). Pixel arithmetic is unbounded.
- CppSim.Simulator.SaveTo: the renderer's `uint32_t` width and height are passed to the writer's `int32_t` `set_resolution` unconverted, since the model's screen sizes are unbounded naturals. In the source a width or height of 2³¹ or more would be stored wrapped; the model stores it as is.
- NpyWriterModel.NpyWriter.Close: requires every buffered frame to hold at least as many bytes as the first one. Otherwise `std::copy` reads past a frame, which is undefined behaviour.
- NpyWriterModel.NpyWriter.Dispose: requires the same of the buffered frames, since the destructor calls `close`.
- CppGen.Generator.Generate: requires a non-empty `balls` list, since indexing an empty vector is undefined behaviour.
- CppGen.Generator.NextSequence: requires a non-empty `balls` list, for the same reason.
- CppGen.Generator.GenerateSequence: requires a non-empty `balls` list, for the same reason.
- CppGen.Generator.PrepareSequence: requires a non-empty `balls` list, for the same reason.
- CppGen.Generator.SetupEnvironment: requires a non-empty `balls` list, for the same reason.
- CppGen.Generator.SampleRunFails: requires a non-empty `balls` list, for the same reason.
- CppGen.Generator.SampleRunSteps: requires a non-empty `balls` list, for the same reason.
- CppGen.CppBall: a failed C++ `assert` is modelled as Err(AssertionError). In the program it aborts the process, or, built with NDEBUG, it is compiled out and the code goes on.
- Spawn.CppRandomPosOutsideRectangle: the same for its `assert` on the screen dimensions.
- CppRender.VideoRenderer.FillLine: requires a valid `std::fill` range, clipped x_begin ≤ clipped x_end, whenever no early return happens.
- Render.CentroidVideoRenderer.GetFrame: requires a screen of at least 8×8 and no polygon without vertices. Below 8 pixels the canvas has no cells for `_fit_in_screen` to clamp into.
- Render.PositionAndVelocityExtractor.GetFrame: requires that no polygon is without vertices, whose centroid would be a division by zero.
- CppSim.Simulator.RunSimulation: requires a positive step or no time to run. Otherwise the loop never ends.
- CppSim.Simulator.RunLoop: requires a positive step or no time to run, for the same reason.
- EnvSim.EnvironmentSimulator.RunSimulation: requires a positive step or no time to run, for the same reason.
- Legacy.BouncingBalls.RunSimulation: requires the run to end: an invisible renderer with a positive step, or a visible one whose clock readings are at least 1 ms.
- Legacy.BouncingBalls.RunLoop: requires the run to end, in the same way.

## Findings

| source | as written | input that shows it | evidently intended | confidence | as-written member | corrected member |
|---|---|---|---|---|---|---|
| bouncing_balls/bouncing_balls_cpp/include/video_renderer.hpp:105 | `std::fill(line + x_begin, line + x_end, …)` leaves out column x_end, which it had just clamped to width − 1 | a 4-pixel-wide screen, y = 0, x_begin = 0, x_end = 3: columns 0..2 are set, column 3 is not | the clipped span x_begin..x_end, both ends included. `fill_line_` is declared (video_renderer.hpp:81) and defined (:93) but called nowhere, so no frame changes | medium, not executed | CppRender.FillLineMissesLastColumn | CppRender.FillSpanInclusiveExact |
| bouncing_balls/cpp/include/video_renderer.hpp:65 | the edge's first screen point is built from vertex0's x and vertex1's y | any edge whose two vertices have different y | (vertex0, vertex1), as the other header has it. Box2D's `b2EdgeShape::Set` stores the endpoints in m_vertex1 and m_vertex2, and m_vertex0 is a ghost vertex, so neither pair is the edge's endpoints. No frame changes, since no edge is drawn | high, not executed | CppRender.VideoRenderer.EdgeVertexesDiffer | CppRender.VideoRenderer.EdgeVertexes |
| bouncing_balls/generate_data.py:144 | `add_rand_circle(max_vel=…)`, a keyword the method does not have, so TypeError | occlusion off, dof 2, balls ≥ 1, sequences ≥ 1 | `mean_vel=config.mean_vel` | high, not executed | GenerateData.Line144RaisesTypeError | GenerateData.AddBodies |
| bouncing_balls/generate_data.py:123 | `VideoRenderer(width, height)` without the `channel_ordering` that render.py:122 requires, so TypeError before the first sample | any split name "train" or "test" | a renderer built with a channel ordering | high, not executed | GenerateData.Line123RaisesTypeError | GenerateData.GenerateDataset |
