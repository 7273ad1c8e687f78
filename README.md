# learning_opengl — a verified model of the scene geometry and the mouse handler

This project models the computational core of a small PyOpenGL learning
program. The program has two parts that a Dafny model can describe.

- **The cube scene** (`main.py`). The unit cube's eight corners are turned by
  an angle about the y axis and then about the x axis, using 3×3 rotation
  matrices. The cloud is then shifted along z so that its highest corner
  sits at depth 0. The result is drawn as six quads picked out of a
  24-entry index table, inside the largest square viewport centred in the
  window.
- **The click-drawing handler** (`handle_inputs.py`). A mouse position in
  window pixels is converted into the world rectangle [-5, 5] × [-5, 5].
  Every left-button press adds that point to a global click history and
  redraws the history as one line strip over the whole window. A
  right-button release clears the screen.

In the program as written, `display` draws only the fixed set of lines of
`draw_lines` (main.py:228-233), and the call that registers the mouse
callback is commented out (main.py:60). The cube scene and the click handler
are modelled as written, although neither is wired into the running
program.

The model is split into modules:

- `Consts` holds the configuration constants.
- `Rotation` holds vectors, angles as (cosine, sine) pairs, matrices, and the
  two rotations.
- `Cube` holds the corner, colour and index tables.
- `Pipeline` holds the turn-then-recentre transform.
- `Viewport` holds the viewport computations.
- `WorldCoordinates` holds the pixel-to-world conversion.
- `MouseInput` holds the mouse callback: a pure specification `Respond`, and
  the class `ClickHistory`, whose `coordinates` field is the click history
  that the callback updates in place.

How the model represents the source:

- An angle is given by its cosine and sine (`Angle(c, s)`). `IsUnit` states
  c² + s² = 1, which holds for every angle the program computes.
  `IsQuarterPi` describes the 45° angle the program uses, c = s > 0, without
  naming √2.
- Reals stand for the program's floats.
- Python's floor division `//` in the viewport centring is applied only to
  a non-negative slack and a positive divisor. There it coincides with
  Dafny's `/`.
- Python's true division `/` in the world conversion is real division.
- The window size that the source reads from GLUT is a parameter of every
  operation that needs it.

## Model

| member | source | states |
|---|---|---|
| Consts.WorldWidth | consts.py:10-11 | the world rectangle's width is positive and spans exactly from its minimum to its maximum x |
| Consts.WorldHeight | consts.py:12-13 | the world rectangle's height is positive and spans exactly from its minimum to its maximum y |
| Consts.WorldSquare | consts.py:10-13 | the world rectangle is a 10 by 10 square |
| Consts.WorldSymmetric | consts.py:10-13 | the world rectangle is centred on the origin |
| Consts.InitialWindowValid | consts.py:7-8 | the initial window is a positive square |
| Consts.WorldBoundsOrdered | consts.py:10-13 | each axis of the world rectangle runs from a smaller minimum to a larger maximum |
| Rotation.Negate | main.py:87-104 | negating an angle keeps its cosine, negates its sine and keeps it on the unit circle |
| Rotation.MatrixXProducts | main.py:89-93 | both products of the x-axis matrix with its transpose are diag(1, c² + s², c² + s²), and its determinant is c² + s², for any c and s |
| Rotation.MatrixYProducts | main.py:98-103 | both products of the y-axis matrix with its transpose are diag(c² + s², 1, c² + s²), and its determinant is c² + s², for any c and s |
| Rotation.MatrixXIsRotation | main.py:89-93 | for a unit angle the x-axis matrix is orthogonal in both orders and has determinant 1 |
| Rotation.MatrixYIsRotation | main.py:98-103 | for a unit angle the y-axis matrix is orthogonal in both orders and has determinant 1 |
| Rotation.NegatedMatrixIsTranspose | main.py:87-104 | the matrix of the negated angle is the transpose of the original, on both axes |
| Rotation.RotateXKeepsAxisAndLength | main.py:87-94 | turning about x keeps the x coordinate and, for a unit angle, the length |
| Rotation.RotateYKeepsAxisAndLength | main.py:97-104 | turning about y keeps the y coordinate and, for a unit angle, the length |
| Rotation.RotateXThenBack | main.py:87-94 | turning about x by an angle and then by its negation returns the original vector |
| Rotation.RotateYThenBack | main.py:97-104 | turning about y by an angle and then by its negation returns the original vector |
| Rotation.RotateByZeroIsIdentity | main.py:87-104 | turning by angle 0 about either axis changes nothing |
| Rotation.RotationsPreserveDifferences | main.py:87-104 | both rotations are linear: they map the difference of two points to the difference of their images |
| Rotation.RotationsPreserveDistance | main.py:87-104 | for a unit angle both rotations keep the distance between any two points |
| Rotation.RotateX | main.py:87-94 | the turn about x, as the matrix of `rotate_vertex_around_x` applied to the point; it has no contract of its own, and its properties are the rows of RotateXKeepsAxisAndLength, RotateXThenBack, RotationsPreserveDifferences, RotationsPreserveDistance and RotationsPreserveDot |
| Rotation.RotateY | main.py:97-104 | the turn about y, as the matrix of `rotate_vertex_around_y` applied to the point; it has no contract of its own, and its properties are the rows of RotateYKeepsAxisAndLength, RotateYThenBack, RotationsPreserveDifferences, RotationsPreserveDistance and RotationsPreserveDot |
| Rotation.MatrixX | main.py:89-93 | the x-axis matrix, row by row; it has no contract of its own, and its properties are the rows of MatrixXProducts, MatrixXIsRotation, NegatedMatrixIsTranspose and MatrixXTurnsYTowardsZ |
| Rotation.MatrixY | main.py:99-103 | the y-axis matrix, row by row; it has no contract of its own, and its properties are the rows of MatrixYProducts, MatrixYIsRotation, NegatedMatrixIsTranspose and MatrixYTurnsZTowardsX |
| Rotation.Apply | main.py:94 | `np.dot` of a matrix and a vector; it has no contract of its own, and its property is the row of ApplyOfProduct |
| Rotation.MatrixXTurnsYTowardsZ | main.py:89-93 | the x-axis matrix sends the y axis to (0, c, s), so it turns y towards z by the angle |
| Rotation.MatrixYTurnsZTowardsX | main.py:99-103 | the y-axis matrix sends the z axis to (s, 0, c), so it turns z towards x by the angle |
| Rotation.ApplyOfProduct | main.py:94 | applying the product of two matrices to a vector is applying the right factor and then the left |
| Rotation.RotationsPreserveDot | main.py:87-104 | for a unit angle both turns keep the dot product of any two vectors |
| Rotation.RotationOrderMatters | main.py:141-143 | turning (1, 0, 0) about y then x gives the same point as x then y exactly when the sine is 0, so the order of the two turns matters |
| Cube.VerticesEnumerateCorners | main.py:120-129 | the i-th point of the corner table is (bit 1 of i, bit 0 of i, bit 2 of i) |
| Cube.VerticesAreDistinctCorners | main.py:120-129 | the eight table points are pairwise distinct corners of the unit cube |
| Cube.ColorsMatchVertices | main.py:130-139 | one colour per corner: red for the corners on the plane x = 0, blue for those on x = 1 |
| Cube.IndexTableWellFormed | main.py:151-159 | the index table holds 24 = 6 × 4 entries, each a valid corner index |
| Cube.Quad | main.py:151-159 | each quad is four valid corner indices |
| Cube.QuadCorners | main.py:149-159 | the corners of a quad are the points its indices select, in order |
| Cube.QuadsAreTheSixFaces | main.py:120-159 | each quad has four distinct corners that are exactly the corners on one face plane; the six planes are distinct, with offsets 0 or 1 |
| Cube.QuadsWindOutward | main.py:151-158 | every quad turns counter-clockwise seen from outside the cube: at each of its four corners, the cross product of the side coming in and the side going out is the outward unit normal of its face |
| Cube.QuadsFollowEdges | main.py:151-159 | each quad's corners are listed so that consecutive corners, cyclically, differ in exactly one coordinate |
| Cube.QuadSideIsEdge | main.py:151-159 | every side of every quad joins two corners along one cube edge |
| Pipeline.MaxZ | main.py:144 | the result bounds every point's z coordinate and is the z coordinate of some point |
| Pipeline.MaxZIsTheAttainedBound | main.py:144 | any attained upper bound on the z coordinates is the maximum |
| Pipeline.RotateAllY | main.py:141 | the result has one point per input point, each turned about y |
| Pipeline.RotateAllX | main.py:143 | the result has one point per input point, each turned about x |
| Pipeline.Recentre | main.py:144-145 | each point is shifted down along z by the largest z coordinate |
| Pipeline.RecentreProperties | main.py:144-145 | recentring keeps x and y, leaves every z ≤ 0, and makes the new maximum z exactly 0 |
| Pipeline.RecentreKeepsDifferences | main.py:144-145 | recentring keeps the difference between any two points |
| Pipeline.Rotated | main.py:141-143 | each point is turned about y first and then about x |
| Pipeline.Transform | main.py:141-145 | the transform keeps the number of points, and the transformed cloud lies at z ≤ 0 with maximum z exactly 0 |
| Pipeline.TransformPointwise | main.py:141-145 | each transformed point is its turned image moved down by the turned cloud's maximum z |
| Pipeline.RotatedIsOneMatrix | main.py:141-143 | the two comprehensions together turn each point by the single matrix MatrixX · MatrixY |
| Pipeline.TransformIsRigid | main.py:141-145 | for unit angles the transform keeps the distance between every two points |
| Pipeline.CubeEdgeHasUnitLength | main.py:120-129 | two cube corners that differ in one coordinate are at distance 1 |
| Pipeline.QuadSideHasUnitLength | main.py:120-159 | every side of every quad of the corner table, from a corner to the next one round the quad, has length 1 |
| Pipeline.TransformedQuadSidesHaveUnitLength | main.py:141-159 | for unit angles, a quad side of length 1 in the input still has length 1 after the transform, so the drawn cube is not deformed |
| Pipeline.CubeQuadSidesHaveUnitLength | main.py:120-159 | for all unit angles, every side of every quad of the drawn cube has length 1 |
| Pipeline.TransformKeepsPlaneOffsets | main.py:141-145 | for unit angles, a point's offset along a direction e before the transform is its offset along e turned the same way after it, plus a shift that is the same for every point |
| Pipeline.TransformedQuadIsPlanar | main.py:141-159 | for unit angles, a quad whose four corners lie on one plane with a unit normal still has its four corners on one plane after the transform, with the turned normal, again of unit length |
| Pipeline.CubeQuadsArePlanar | main.py:120-159 | for all unit angles, each quad of the drawn cube is flat: its four corners have one offset along the turned normal of its face, and that normal has unit length |
| Pipeline.CubeWithoutTurn | main.py:120-145 | with both angles 0 the cube comes out moved down by 1 along z |
| Pipeline.RotatedAtQuarterPi | main.py:141-143 | a point turned 45° about y and then 45° about x lands at (c(x + z), c·y − (z − x)/2, c·y + (z − x)/2) |
| Pipeline.QuarterPiDepthBound | main.py:141-144 | at 45° the turned image of any cube corner has height at most c + 1/2 |
| Pipeline.QuarterPiHighestCorner | main.py:141-144 | at 45° corner (0, 1, 1) reaches height c + 1/2 |
| Pipeline.CornersAtQuarterPi | main.py:120-145 | for eight cube corners with (0, 1, 1) at index 5 and (1, 1, 1) at index 7, as in the corner table, the drawn scene has corner (0, 1, 1) at depth 0 and corner (1, 1, 1) at (2c, c, −1/2) |
| Pipeline.CubeAtQuarterPi | main.py:120-145 | at 45° about both axes, the angle main.py uses, the drawn scene has corner (0, 1, 1) at depth 0 and corner (1, 1, 1) at (2c, c, −1/2) |
| Cube.HighAndTopCorners | main.py:120-129 | the corner table has eight entries, with (0, 1, 1) at index 5 and (1, 1, 1) at index 7 |
| Pipeline.CubeScene | main.py:120-145 | the drawn scene has one transformed point per corner, eight in all |
| Pipeline.CornersMaxDepth | main.py:144 | at 45° the maximum z of the turned cube is c + 1/2 |
| Viewport.CentredSquare | main.py:108-112 | the viewport is a square whose side is the shorter window side; it lies inside the window, touches the window's border on the shorter axis, and its two margins on each axis differ by 0 or 1 |
| Viewport.CentringIsUnique | main.py:108-112 | any square offset whose margins differ by at most one, the far margin not smaller, is the one computed |
| Viewport.CentredSquareOfPositiveWindow | main.py:108-112 | a positive window gets a positive square, and a square window is used whole |
| Viewport.FullWindow | handle_inputs.py:87-92 | the left-click viewport starts at the origin and covers the window exactly |
| WorldCoordinates.ToWorld | handle_inputs.py:20-42 | a pixel that lies within the window on an axis goes to a world point within the world rectangle on that axis |
| WorldCoordinates.CornersToCorners | handle_inputs.py:20-42 | the four window corners go to the four world corners, with the y axis flipped |
| WorldCoordinates.InWindowIffInWorld | handle_inputs.py:36-39 | a pixel lies inside the window exactly when its world point lies inside the world rectangle |
| WorldCoordinates.ToWorldMonotone | handle_inputs.py:36-39 | moving right raises the world x; moving down the window lowers the world y (both directions of each) |
| WorldCoordinates.ToScreenUndoesToWorld | handle_inputs.py:20-42 | converting a pixel to the world and back returns the pixel |
| WorldCoordinates.ToWorldInjective | handle_inputs.py:20-42 | distinct pixels map to distinct world points |
| MouseInput.Clicked | handle_inputs.py:79 | the point of a click inside the window lies in the world rectangle |
| MouseInput.Respond | handle_inputs.py:60-110 | a left press adds exactly the clicked world point to the end of the history and draws the whole new history as a strip over the full window; a right release clears the screen; every other event draws nothing; only a left press changes the history |
| MouseInput.RunAppendsClicks | handle_inputs.py:17-94 | after any sequence of events the history is the starting history followed by the world points of the left presses, in order |
| MouseInput.ClicksAreTheLeftDowns | handle_inputs.py:82-94 | a point is in the history exactly when some left press was on it |
| MouseInput.ClickHistory.constructor | handle_inputs.py:17 | the click history starts empty |
| MouseInput.ClickHistory.Mouse | handle_inputs.py:60-110 | the callback updates the history and draws exactly as `Respond` describes |
| MouseInput.ClickHistory.OnLeftDown | handle_inputs.py:82-103 | a left press appends the point and draws a strip over the full window with every remembered point, in order |
| MouseInput.ClickHistory.Replay | handle_inputs.py:96-103 | the line strip's vertices are the remembered points, in order |

## Left out

- The OpenGL and GLUT calls are not modelled. This covers window creation,
  callbacks, the projection set-up, glFlush, the drawing calls, and the
  `gl_draw` context manager. The model keeps only the values those calls
  receive.
- `math.cos` and `math.sin` are not modelled. An angle is its (cosine, sine)
  pair, and the 45° angle is described by c = s > 0 with c² + s² = 1.
- Floating point and the `np.float32` conversion are not modelled. All
  arithmetic is exact over the reals.
- Pipeline.MaxZ requires at least one point, which matches Python: `max`
  of an empty list raises. The only caller passes eight points.
- WorldCoordinates.ToWorld requires a positive window size. With a zero size
  the source fails with a division error.
- MouseInput.ClickHistory.Mouse requires a positive window size for the
  same reason: the source converts the position before it branches on the
  button.
- The GLUT codes for the left and right buttons and for press and release
  (0, 2, 0, 1) are GLUT's standard values. The source files do not define
  them.
- `set_random_draw_color` is left out because it draws from a random
  source and only sets a GL colour.
- `keyboard` is left out because it only places a bitmap character using
  GL calls.
- `display_quads`, `display_bitmap`, `display_pixmap`, `copy_area`,
  `hexagon_display_list`, `draw_lines`, `display`, `print_gl_error`,
  `init`, `init_glut` and `main` are left out. They have no geometry to
  verify, only graphics-API plumbing, trigonometry, randomness and
  framebuffer reads:
  - `hexagon_display_list` places six points with `cos` and `sin` in a loop
    (main.py:196-200);
  - `display_pixmap` picks a random colour (main.py:178);
  - `copy_area` reads the framebuffer back (main.py:186);
  - `print_gl_error` branches on the result of `glGetError`
    (main.py:239-243);
  - the rest are fixed sequences of GL and GLUT calls.
- The global `PROVIDED_COORDINATES` list is the `coordinates` field of one
  `ClickHistory` object. Aliasing of the module-level global is not
  modelled.
