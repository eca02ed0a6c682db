# Rotating cube renderer, modelled in Dafny

This project models the core of a small renderer that turns a rotating cube
into a text protocol of drawing commands. Floating-point arithmetic is
replaced by exact `real` arithmetic throughout. The model covers three parts.

- **Geometry and visibility** (`src/models.py`):
  - points with componentwise arithmetic;
  - undirected edges, with their equality and hash;
  - polygons, with cyclic edges, barycenter and oriented normal;
  - the cube, with its vertex, edge and face tables, rotation, and its
    transparent and back-face-culled drawing. Culled drawing uses a hash set
    so that an edge shared by two faces is drawn only once.
- **The frame writer** (`src/rendering.py`): `AnimationMaker`, a buffer of
  drawables and an output sink. `add`, `commit`, `delay`, `clear` and `end`
  become pure functions on a writer value. The sink is the sequence of
  protocol records written to it (`point`, `line`, `delay`, `clrscr`,
  `end`), together with flags for whether the writer owns it and whether it
  is still open.
- **The rotation builder** (`src/utils.py`): Rodrigues' formula, with
  `cos θ` and `sin θ` taken as reals `c` and `s`.

Modules, one per concern:

| file | module | contents |
|---|---|---|
| results.dfy | Results | `Option` and `Result` |
| vectors.dfy | Vectors | points, dot and cross products |
| matrices.dfy | Matrices | 3x3 matrices |
| realalgebra.dfy | RealAlgebra | scalar identities behind the rotation proofs |
| rotation.dfy | Rotation | the rotation builder |
| protocol.dfy | Protocol | protocol records and draw options |
| shapes.dfy | Shapes | points, edges and polygons as drawables |
| cube.dfy | CubeModel | the cube |
| animation.dfy | Animation | the frame writer |

Values the model does not compute are parameters:

- Square roots: the length of the rotation axis is a parameter `len`. The
  predicate `IsAxisLength` says that dividing the axis by `len` gives a unit
  vector. The normal's length at `src/models.py:101` is a positive parameter
  too. Visibility reads only the sign of a dot product, so the model proves
  that dividing by it changes nothing.
- Python's float hash is a parameter `h: real -> bv64`. Hash values are
  XORed as 64-bit vectors. `hash()` then replaces a result of -1 by -2
  (`Shapes.PyHash`), so a point or edge hash is the XOR except in that one
  case.
- The printed form of the writer's bound method `delay` is an opaque string.

Where the code departs from its evident intent, the model follows the
code:

- Normalising a zero rotation axis divides zero by zero
  (`src/utils.py:10`). The model makes a non-zero axis a precondition.
- `commit` does not empty the buffer (`src/rendering.py:55-59`), although
  the animation loop adds the cube again before every commit
  (`src/main.py:35-40`). See Findings.
- The `delay` record prints the bound method `self.delay`
  (`src/rendering.py:63`), not the configured `AnimationConfig.delay`,
  which the command line documents as the delay between frames in seconds
  (`src/main.py:19`). See Findings.
- After `end`, only a sink the writer opened itself is closed
  (`src/rendering.py:70-72`), so only then do later writes fail. A sink the
  caller passed in stays open and usable.
- `Point.draw` skips a point with `z == focus` in both projection modes. In
  perspective mode its record has no line break.
- `Edge.draw` has no such guard. Drawing an edge in perspective mode with an
  endpoint at `z == focus` divides by zero. The model makes that a
  precondition (`EdgeProjectable`), not a skip.
- A degenerate face, whose three first vertices are collinear, has a zero
  normal. `Polygon.get_normal_vector` computes NaN for it, so its visibility test is false.
  The model's dot product is zero, and its test is false too.

## Model

| member | source | states |
|---|---|---|
| Vectors.AddSubInverse | src/models.py:18-22 | point subtraction undoes point addition, and adding a difference back restores the point |
| Vectors.SubZeroIffEqual | src/models.py:21-22 | the difference of two points is the origin exactly when the points are equal |
| Vectors.ScaleZero | src/models.py:27-28 | scaling gives the origin exactly when the factor is zero or the point is the origin |
| Vectors.Div | src/models.py:24-25 | dividing by a non-zero k gives the point that, scaled by k, is the original |
| Vectors.DotSignUnderPositiveDiv | src/models.py:101 | dividing a vector by a positive length never changes the sign of a dot product with it |
| Rotation.UnitAxis | src/utils.py:10 | the normalised axis has unit squared length, and scaling it by the axis length gives the axis back |
| Rotation.ZeroAxisHasNoLength | src/utils.py:10 | the zero axis has no length that normalises it, so the builder cannot take it |
| Rotation.RodriguesEntriesDetermine | src/utils.py:11-27 | nine entry equations (three diagonal entries, three symmetric and three antisymmetric off-diagonal parts) hold for a matrix exactly when it is the matrix the builder writes out |
| Rotation.RotationMatrix | src/utils.py:9-27 | for an admissible axis length the matrix has diagonal c + (1−c)·uᵢ², off-diagonal pairs summing to 2(1−c)·uᵢuⱼ and differing by 2s·uₖ with the code's signs, u being the normalised axis |
| Rotation.ZeroAngleIsIdentity | src/utils.py:11-27 | at angle zero (c = 1, s = 0) the matrix is the identity, for every admissible axis |
| Rotation.UnitAxisIsFixed | src/utils.py:11-27 | the matrix maps the normalised axis to itself |
| Rotation.AxisIsFixed | src/utils.py:9-27 | the matrix maps the axis as given, before normalisation, to itself |
| Rotation.NegatedSineIsTranspose | src/utils.py:13-25 | negating the sine gives the transposed matrix |
| Rotation.RotationIsOrthogonal | src/utils.py:11-27 | with c² + s² = 1 the transpose times the matrix is the identity |
| Rotation.RotationInverseIsTranspose | src/utils.py:11-27 | with c² + s² = 1 the matrix times its transpose is the identity, so the transpose is the inverse |
| Rotation.RotationPreservesLength | src/utils.py:11-27 | with c² + s² = 1 the matrix preserves the squared length of every vector |
| Shapes.SameEdge | src/models.py:67-69 | two edges compare equal exactly when they are equal or one is the other reversed |
| Shapes.PyHash | src/models.py:33-34 | `hash()` never returns -1: it keeps every value except -1, which becomes -2 |
| Shapes.PointHash | src/models.py:33-34 | a point hash is never -1, and is the XOR of the three coordinate hashes whenever that XOR is not -1 |
| Shapes.EdgeHash | src/models.py:71-72 | an edge hash is never -1 and does not depend on the order of the endpoints |
| Shapes.SameEdgeIffSameEnds | src/models.py:67-69 | two edges compare equal exactly when their endpoint multisets are equal |
| Shapes.SameEdgeEquivalence | src/models.py:67-69 | edge equality is reflexive, symmetric and transitive, and a reversed edge equals the original |
| Shapes.SameEdgeSameHash | src/models.py:71-72 | equal edges have equal hashes, whatever the float hash is, and reversing an edge keeps its hash |
| Shapes.Project | src/models.py:48-49 | the projected point lies on the image plane z = 0 and on the line through the eye (0, 0, focus) and the point |
| Shapes.ProjectionAlongRay | src/models.py:48-49 | every point on the line through the eye and p, other than the eye, projects to the same image as p |
| Shapes.ProjectionFixesImagePlane | src/models.py:48-49 | a point already on the image plane projects to itself |
| Shapes.PointRecords | src/models.py:51-59 | a point writes nothing exactly when z == focus, and otherwise one `point` record. The record has the point's x and y in orthographic mode and its projection in perspective mode; it ends the line only in orthographic mode |
| Shapes.EdgeRecord | src/models.py:74-81 | an edge writes one `line` record from its first endpoint to its second: the endpoints' x and y in orthographic mode, their projections in perspective mode |
| Shapes.SameEdgeSameSegment | src/models.py:74-81 | two equal edges draw the same segment, possibly traversed in the other direction |
| Shapes.PolygonEdges | src/models.py:88-90 | a polygon has one edge per vertex; edge i starts at vertex i and ends where edge (i+1) mod n starts |
| Shapes.PolygonEdgesClose | src/models.py:88-90 | the last edge ends at vertex 0, and every other edge ends at the next vertex |
| Shapes.PolygonRecords | src/models.py:92-94 | a polygon writes the records of its edges, one per vertex, in edge order |
| Shapes.Barycenter | src/models.py:108-112 | the barycenter times the vertex count is the sum of the vertices |
| Shapes.SumTranslated | src/models.py:109-111 | translating every vertex by d adds n·d to the running sum |
| Shapes.BarycenterTranslated | src/models.py:108-112 | translating a polygon translates its barycenter by the same vector |
| Shapes.NormalVector | src/models.py:96-106 | the oriented normal is the cross product of the two sides at vertex 1 or its negation. With a reference point it never points back toward the reference from vertex 1. It is left as it is when no reference is given or its dot product is already non-negative |
| Shapes.NormalPerpendicular | src/models.py:97-99 | the normal is perpendicular to both sides at vertex 1 |
| Shapes.NormalisationKeepsDirection | src/models.py:96-106 | the normal divided by its length is the model's normal divided by that length, and makes a dot product of the same sign with every vector |
| Shapes.OppositeOrientedNormals | src/models.py:104-105 | two polygons with opposite raw normals, symmetric about the reference point, end with opposite oriented normals |
| CubeModel.NewCube | src/models.py:117-132 | a new cube has exactly the labels 1..8, keeps its length and centre, and vertex k minus the centre is the octant offset of label k |
| CubeModel.NewCubeGeometry | src/models.py:122-148 | in a new cube every table edge has squared length l², and distinct labels sit at distinct points when l ≠ 0 |
| CubeModel.TablesUseLabels | src/models.py:134-158 | the edge table has 12 pairs and the face table 6 quads, all of valid labels |
| CubeModel.Edges | src/models.py:134-148 | a cube has 12 edges, each joining the vertices its table pair names |
| CubeModel.Faces | src/models.py:150-158 | a cube has 6 faces of 4 vertices, each made of the vertices its table row names |
| CubeModel.SideEdge | src/models.py:134-158 | every side of every face is one of the 12 edge-table pairs, in one direction or the other |
| CubeModel.FaceSidesAreCubeEdges | src/models.py:134-158 | every side of every face compares equal to one of the cube's 12 edges |
| CubeModel.EachEdgeInTwoFaces | src/models.py:134-158 | each of the 12 cube edges is a side of exactly two faces, and the lemma names which two |
| CubeModel.Rotate | src/models.py:160-164 | `Cube.rotate` keeps the labels and the length and maps the centre and every vertex through the builder's matrix |
| CubeModel.RotateKeepsCentreOnAxis | src/models.py:160-164 | a cube whose centre lies on the rotation axis keeps its centre |
| CubeModel.RotateBy | src/models.py:160-164 | rotating keeps the label set and the length, and maps the centre and every vertex through the matrix |
| CubeModel.RotateByComposes | src/models.py:160-164 | rotating by a and then by b is rotating once by the product b·a |
| CubeModel.ZeroAngleKeepsCube | src/models.py:160-164 | rotating by angle zero about any admissible axis leaves the cube unchanged |
| CubeModel.QuarterTurnMatrix | src/utils.py:9-27 | the builder at c = 0, s = 1 about the z axis gives the quarter-turn matrix |
| CubeModel.FourQuarterTurns | src/models.py:160-164 | four quarter turns bring the cube back to itself |
| CubeModel.RotationKeepsDistances | src/models.py:160-164 | a rotation with c² + s² = 1 keeps every distance between vertices, and from each vertex to the centre |
| CubeModel.NewCubeIsShaped | src/models.py:117-132 | a new cube is its centre plus the untransformed offsets |
| CubeModel.RotateKeepsShape | src/models.py:160-164 | after a rotation by m, a cube shaped by a matrix is shaped by m times it: centre and offsets move together |
| CubeModel.LineOfSight | src/models.py:175 | in perspective mode the line of sight runs from the barycenter to the eye; in orthographic mode it is the z axis |
| CubeModel.FaceVisible | src/models.py:173-176 | a face is drawn exactly when the line of sight makes a positive dot product with the raw normal if that normal makes a non-negative dot product with the vector from the centre to vertex 1, and a negative one otherwise |
| CubeModel.OpaqueEdges | src/models.py:171-182 | the edges the face loop draws hold no two equal edges |
| CubeModel.VisibilityIgnoresNormalisation | src/models.py:173-176 | the visibility test with the normal divided by its length decides as the test without the division |
| CubeModel.Visibility | src/models.py:172-176 | one visibility flag per face, set exactly when the line of sight makes a positive dot product with the oriented normal |
| CubeModel.ShownSidesMembership | src/models.py:172-178 | an edge is among the sides the face loop visits exactly when it is a side of some visible face |
| CubeModel.HashLookupIsEdgeEquality | src/models.py:179 | the hash-set lookup finds an edge exactly when an equal edge was added, whatever the float hash is |
| CubeModel.DrawnAfter | src/models.py:171-182 | the drawn edges hold no two equal edges, hold an edge equal to every edge visited, and come only from the visited edges |
| CubeModel.DrawnAfterIsFirstOccurrences | src/models.py:177-182 | the hash-set loop draws exactly the first visited edge of each equality class, in the order and the direction in which it was visited |
| CubeModel.DrawnAfterGrows | src/models.py:178-182 | visiting more edges only extends what was drawn; earlier drawn edges stay, in order |
| CubeModel.DrawnAfterKeepsOrder | src/models.py:178-182 | the drawn edges appear in the order they were visited |
| CubeModel.OpaqueDrawsEachEdgeOnce | src/models.py:171-182 | an opaque cube draws no edge twice, in either direction |
| CubeModel.OpaqueDrawsVisibleSides | src/models.py:172-182 | every side of every visible face is drawn, possibly reversed |
| CubeModel.OpaqueDrawsOnlyVisibleSides | src/models.py:172-182 | every drawn edge is a side of a visible face |
| CubeModel.OpaqueKeepsFaceOrder | src/models.py:172-182 | the drawn edges follow the face-table order and the side order within a face, and are exactly the first occurrence of each edge among the sides of the visible faces, so a shared edge is drawn in the direction of the first visible face that has it |
| CubeModel.OpaqueDrawsAtMostTwelve | src/models.py:166-182 | an opaque cube draws at most 12 edges |
| CubeModel.OpaqueEdgesDrawable | src/models.py:176-181 | when the vertices of the visible faces can be projected, so can every drawn edge |
| CubeModel.CubeRecords | src/models.py:166-182 | transparent: 12 `line` records, one per table edge in table order. Opaque: one `line` record per drawn edge, in drawing order |
| CubeModel.DrawSide | src/models.py:178-182 | one side is drawn and added to the set exactly when no equal edge is in the hash set |
| CubeModel.DrawSides | src/models.py:177-182 | the inner loop over a face's sides draws what the edge-at-a-time model draws |
| CubeModel.DrawOpaque | src/models.py:171-182 | the face loop with its hash set writes one `line` record per drawn edge |
| CubeModel.DrawCube | src/models.py:166-182 | `Cube.draw`, loops and hash set included, writes exactly the records of the functional model in both modes |
| CubeModel.OppositeNormals | src/models.py:150-158 | in every built-then-rotated cube, each pair of opposite faces has opposite oriented normals |
| CubeModel.OppositeFacesOrthographic | src/models.py:172-176 | in orthographic mode two opposite faces are never both drawn, and exactly one is drawn unless they are seen edge-on |
| CubeModel.ThreeFacesVisible | src/models.py:172-176 | in orthographic mode, with no face seen edge-on, exactly three faces are drawn |
| Animation.ItemRecords | src/rendering.py:56-57 | an item writes only `point` and `line` records: at most one for a point (none exactly in the plane of the eye), one for an edge, one per vertex for a polygon, twelve for a transparent cube |
| Animation.ItemsRecords | src/rendering.py:56-57 | the buffered items together write only `point` and `line` records |
| Animation.ItemsRecordsEmpty | src/rendering.py:56-57 | the buffer writes nothing exactly when every item in it writes nothing |
| Animation.ItemsRecordsAppend | src/rendering.py:56-57 | drawing a concatenation of buffered items draws the two parts one after the other |
| Animation.FrameOfAppended | src/rendering.py:52-57 | an item added to the buffer is drawn after everything buffered before it |
| Animation.RecordsIgnoreSink | src/rendering.py:56-57 | the records an item draws do not depend on which sink the draw options name |
| Animation.New | src/rendering.py:42-50 | the writer owns its sink exactly when the options named none. It then opens the named file; otherwise it uses the given sink. The options then name that sink, which is open, buffer and output are empty, and the printed text of `delay` is the one given |
| Animation.Add | src/rendering.py:52-53 | the item goes at the end of the buffer, earlier items stay, and nothing else changes |
| Animation.Delay | src/rendering.py:61-63 | on an open sink the result is the writer with one `delay` record appended, carrying the printed text of the bound method, and every other field unchanged; on a closed one the write fails |
| Animation.Clear | src/rendering.py:65-66 | on an open sink exactly one `clrscr` record is appended; on a closed one the write fails |
| Animation.Commit | src/rendering.py:55-59 | on an open sink: the records of the buffered items in buffer order, then `delay`, then `clrscr`; the buffer is kept |
| Animation.End | src/rendering.py:68-72 | on an open sink `end` is appended. An owned sink is then closed and removed from the options; a caller's sink stays open and named; every other field is unchanged. On a closed sink the write fails |
| Animation.OperationsKeepConsistent | src/rendering.py:42-72 | every successful operation keeps the writer consistent: the options name the sink exactly while it is open, and a caller's sink stays open |
| Animation.EndOwnedThenEverythingFails | src/rendering.py:68-72 | after `end` on an owned sink, `delay`, `clear` and `end` fail on the closed sink. A later `commit` fails with no sink if the frame draws anything, and on the closed sink otherwise |
| Animation.EndCallerSinkStaysOpen | src/rendering.py:68-72 | after `end` on a caller's sink the options are unchanged, and later writes succeed |
| Animation.AddAll | src/rendering.py:52-53 | adding items one at a time puts them at the end of the buffer in order and changes nothing else |
| Animation.FirstFrame | src/rendering.py:42-59 | a fresh writer given items one `add` at a time writes, at its first commit, exactly their records in order, then `delay` and `clrscr` |
| Animation.CommittedWriter | src/rendering.py:55-59 | a successful commit changes only the output, which gains the frame, `delay` and `clrscr`, and the writer stays consistent |
| Animation.CommitRedrawsEarlierItems | src/rendering.py:55-59 | as written, the frame after a commit and one `add` redraws every earlier item before the new one |
| Animation.DelayIgnoresConfiguredDelay | src/rendering.py:61-63 | as written, two writers that differ only in their configured delay write identical `delay` records |
| Animation.DelayFrame | src/rendering.py:61-63 | the intended `delay`: on an open sink the writer with one `delay` record of the configured seconds appended and every other field unchanged |
| Animation.DelayFrameCarriesConfiguredDelay | src/rendering.py:61-63 | the intended `delay` record carries the configured delay, so writers write different records exactly when their delays differ |
| Animation.CommitFrame | src/rendering.py:55-59 | the intended `commit`: the writer with the frame, the intended `delay` and `clrscr` appended and an empty buffer, every other field unchanged; the writer stays consistent |
| Animation.FramesDrawOnlyNewItems | src/rendering.py:55-59 | with the intended `commit`, each frame draws exactly the items added since the previous frame |

## Left out

- `src/main.py` and `src/rotating_cube.py` are not part of this model. The
  first is command-line plumbing whose calls do not match the final
  signatures. The second is an earlier version that duplicates the core.
- `RotationAnimationConfig` (`src/rendering.py:33-37`) is read by nothing in
  the repository: the command line passes its own arguments.
  `AnimationConfig.n_iterations` is carried but never read.
- The values of `cos`, `sin` and `np.sqrt`: angles enter as `c`, `s` and
  lengths as parameters. `c² + s² = 1` is assumed only where a lemma needs it.
- Floating-point rounding: all arithmetic is exact. The hash-set argument
  needs only that equal edges hash equally, not how Python hashes floats.
- Text formatting of the records, `open`/`close` of files, and numpy array
  conversions (`src/models.py:36-46`): the sink is a sequence of records.
- `Point.length` (`src/models.py:36-37`): a square root that nothing in the
  core calls. Point division and scaling (`src/models.py:24-28`) are
  `Vectors.Div` and `Vectors.Scale`.
- Object aliasing: Python buffers references, so a cube rotated after `add`
  is drawn in its new pose. The model buffers values, so the two differ
  because `commit` keeps the buffer. In the loop of `src/main.py:35-40` (add,
  commit, rotate, repeated), the program's k-th frame draws the same cube
  object k times, each time in its current pose. The model's k-th frame
  (`Animation.CommitRedrawsEarlierItems`) draws the k poses added so far,
  one per earlier frame. With the intended `Animation.CommitFrame` the
  buffer is emptied and the two agree.
- Output written before an exception: an operation that fails has no
  partial output in the model.
- A sink the caller closes behind the writer's back is not modelled.
- Polygons too small for their operations. `Shapes.Barycenter` requires at
  least one vertex, and `Shapes.RawNormal` and `Shapes.NormalVector` require
  at least three. The Python code would raise a ZeroDivisionError
  (`src/models.py:108-112`) or an IndexError (`src/models.py:97`) there.
  Those error paths are not modelled; the cube's faces always have four
  vertices, so the core never reaches them.
- The constructor's default argument. `AnimationMaker.__init__` defaults
  `config` to the class `AnimationConfig` itself, not an instance
  (`src/rendering.py:42`). That class has no default `draw_config`
  (`src/rendering.py:26-30`), so a writer built with no argument fails with
  an attribute error before anything is opened. `Animation.New` always takes
  a configuration, so this error path is not modelled.
- Shared, mutable draw options. The constructor stores the sink it opens into
  the caller's own `DrawConfig` (`src/rendering.py:44`), and `end` sets it
  back to `None` (`src/rendering.py:72`). A second writer built from the same
  options before `end` therefore writes into the first writer's file without
  owning it. The model copies the options into each writer, so writers never
  share them.
- Two handles on the sink. `commit` draws through the options' `output`
  (`src/rendering.py:57`), while `delay`, `clear` and `end` write through the
  handle captured at construction (`src/rendering.py:62-69`). A caller who
  reassigns `output` splits the frame records from their `delay` and
  `clrscr`. The model has one sink per writer, and `Animation.Consistent`
  assumes the options name it.
- CubeModel.OppositeFacesOrthographic: the statement that exactly one face
  of each opposite pair is drawn is proved only for orthographic mode. In
  perspective mode the line of sight differs per face.

## Findings

| source | as written | input that shows it | evidently intended | confidence | as-written member | corrected member |
|---|---|---|---|---|---|---|
| src/rendering.py:61-63 | the `delay` parameter line prints the bound method `self.delay` | any writer: the written text does not depend on the configured delay, so delays 0.03 and 0.5 give the same `delay` record for the same writer | the configured frame delay `self._config.delay` in seconds | high; not executed | Animation.DelayIgnoresConfiguredDelay | Animation.DelayFrameCarriesConfiguredDelay |
| src/rendering.py:55-59 | `commit` never empties the buffer | `add(cube)`, `commit()`, `cube.rotate(...)`, `add(cube)`, `commit()`: the second frame draws the cube twice; in the program both copies are the same object, so both show its current pose | each frame draws the items added since the previous frame; callers add the cube again every frame | medium; not executed | Animation.CommitRedrawsEarlierItems | Animation.FramesDrawOnlyNewItems |

The main model keeps the code's behaviour (`Animation.Delay`,
`Animation.Commit`). The intended versions are `Animation.DelayFrame` and
`Animation.CommitFrame`, and the two lemmas in the last column are proved
about them.
