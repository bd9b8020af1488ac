# Koch snowflake construction

A model of the class `KochSnowFlake` from `DrawKochSnowflake.py`. The class
builds a Koch snowflake as a list of plane points:

- `__init__(xc, yc, xv, yv)` takes a centroid M and one vertex A. It finds
  the other two vertices B and C of the equilateral triangle by rotating
  A − M by +120 and −120 degrees about M.
- `splitSegment(s1, s2)` turns a segment into the four points p1, p2, p3, s2.
  p1 and p3 cut the segment into thirds, and p2 is the apex of an
  equilateral triangle erected on p1-p3. The computation goes through the
  segment's slope-intercept form. It snaps slopes below 1e-5 in magnitude
  to horizontal and slopes above 1e6 to vertical. It builds the
  perpendicular through the midpoint and places p2 on it, √3 times an
  offset of p1 from the midpoint.
- `generateSide(v1, v2, level)` expands one side recursively.

The model has three modules:

- `Geometry` holds points, vectors and rotations.
- `Subdivision` holds `splitSegment`: the line kinds, the snapping and
  the three-way case split.
- `Snowflake` holds the class `KochSnowflake`, with the mutable fields
  `M`, `VertexA`, `VertexB` and `VertexC`, which the constructor fills in.
  It also holds the method `GenerateSide`, proved equal to the function
  `Side`.

Coordinates are exact reals. `math.sqrt(3)` is a parameter `s3`. Every
property that needs it assumes `IsSqrt3(s3)`, meaning `s3 > 0` and
`s3 * s3 == 3`. The class stores that value as its `sqrt3` field.

The main results:

- **Exact segments.** Some segments are left alone by the snapping: the
  vertical ones, the horizontal ones, and those whose slope lies inside
  the thresholds. On those, `splitSegment` computes the Koch generator
  exactly. p1 and p3 are at 1/3 and 2/3 of the way. p1, p2, p3 is
  equilateral with sides a third of the segment. p2 lies on the
  perpendicular bisector, at the altitude distance, on the right of the
  direction of travel.
- **Snapped segments.** On a segment that is snapped, the four points are
  given by the case lemma of its branch.
- **The triangle.** Its vertices are equidistant from M, follow each other
  by 120-degree turns, average to M, and form an equilateral triangle.
- **Depth 1.** On each side of the triangle that snapping leaves alone,
  the sign conventions put the bump outside the triangle: its apex is M
  mirrored through the side's midpoint. This is the "furthest from M"
  placement that the docstring of `splitSegment` asks for, even though the
  code never compares distances. On a side whose slope is snapped, the
  apex lies elsewhere.

Facts about the code worth knowing:

- **Vertex order.** B is A turned 120° counter-clockwise about M. So for
  centroid (0, 0) and vertex (0, 20), B = (−10√3, −10) and
  C = (10√3, −10). See `ScenarioTriangle`.
- **Side length.** A side at depth n ≥ 1 has 2·(3ⁿ − 1) points, where a
  Koch curve would have 4ⁿ. See the Findings below.
- **Coincident endpoints.** s1 = s2 takes the vertical branch and returns
  p1 = p2 = p3 = s2. The model is total in the same way.

## Model

| member | source | states |
|---|---|---|
| Snowflake.KochSnowflake.constructor | DrawKochSnowflake.py:10-28 | M and VertexA are the given points; B and C are A turned about M by +120 and −120 degrees; all three are at the same distance from M |
| Snowflake.TriangleEquidistant | DrawKochSnowflake.py:17-28 | the three vertices are equidistant from the centroid |
| Snowflake.TriangleRotationOrder | DrawKochSnowflake.py:20-28 | A→B, B→C and C→A are each a 120-degree counter-clockwise turn about M |
| Snowflake.TriangleCentroid | DrawKochSnowflake.py:13-28 | M is the average of A, B and C |
| Snowflake.TriangleEquilateral | DrawKochSnowflake.py:20-28 | every side's squared length is 3 times the squared circumradius, so the triangle is equilateral |
| Geometry.Rotate120Length | DrawKochSnowflake.py:23-28 | both rotation matrices keep vector length |
| Geometry.Rotate120Twice | DrawKochSnowflake.py:23-28 | the clockwise matrix is the square of the counter-clockwise one, and the two are inverses |
| Snowflake.ScenarioTriangle | DrawKochSnowflake.py:10-28 | centroid (0,0), vertex (0,20) gives B = (−10√3, −10), C = (10√3, −10) |
| Subdivision.SegmentLine | DrawKochSnowflake.py:39-55 | a segment with x1 == x2 always gets a vertical line |
| Subdivision.SegmentLineSnapping | DrawKochSnowflake.py:39-55 | Horizontal exactly when the segment is not vertical and \|m\| < 1e-5, with intercept y2; Vertical exactly when x1 == x2 or \|m\| > 1e6; a kept slope has intercept y2 − m·x2 |
| Subdivision.SlopedIffUnsnapped | DrawKochSnowflake.py:41-55 | the slope is kept exactly when the segment is not vertical and 1e-5 ≤ \|m\| ≤ 1e6, and then it is the true slope |
| Subdivision.Perpendicular | DrawKochSnowflake.py:60-69 | the perpendicular line passes through the midpoint pa |
| Subdivision.SplitSegment | DrawKochSnowflake.py:30-98 | four points ending with s2; p1 and p3 on the (snapped) segment line; p2 on the perpendicular through pa |
| Subdivision.VerticalSplit | DrawKochSnowflake.py:53-90 | vertical branch: p1, p3 at thirds of the ordinate at s1's abscissa; p2 level with pa, offset √3·dy/6 |
| Subdivision.HorizontalSplit | DrawKochSnowflake.py:45-86 | horizontal branch: p1, p3 at thirds of the abscissa at s2's height; p2 straight below or above pa by √3·dx/6 |
| Subdivision.TrisectOnSlopedLine | DrawKochSnowflake.py:72-75 | on a kept slope, p1 and p3 are the points 1/3 and 2/3 of the way from s1 to s2 |
| Subdivision.ApexOnSlopedPerpendicular | DrawKochSnowflake.py:67-94 | on a kept slope, p2 is pa plus √3/6 times the segment turned a quarter turn clockwise |
| Subdivision.SlopedSplit | DrawKochSnowflake.py:41-98 | general branch: thirds exact, p2 on the line of slope −1/m through pa, on the right of travel |
| Subdivision.ApexOnPerpendicular | DrawKochSnowflake.py:60-96 | in each branch p2 is on the perpendicular through pa |
| Subdivision.ExactSplitIsReference | DrawKochSnowflake.py:30-98 | on every segment snapping leaves alone, the result is the reference Koch bump |
| Subdivision.ReferenceThirds | DrawKochSnowflake.py:31-33 | the reference trisection cuts the segment into three equal parts |
| Subdivision.ReferenceApexPlacement | DrawKochSnowflake.py:33-36 | the reference apex is on the perpendicular bisector, on the right of s1→s2 |
| Subdivision.ReferenceEquilateral | DrawKochSnowflake.py:31-34 | p1, p2, p3 is equilateral with sides a third of the segment; p2 is at the altitude distance from pa |
| Subdivision.ExactSplitGeometry | DrawKochSnowflake.py:30-98 | for exact segments, `splitSegment` itself has all the properties above |
| Snowflake.FirstLevelApexMirrorsCentroid | DrawKochSnowflake.py:34-37 | on each exact side of the triangle, the depth-1 apex is M mirrored through the side's midpoint (outside the triangle) |
| Snowflake.ScenarioVertical | DrawKochSnowflake.py:53-98 | (0,0)-(0,9) splits into (0,3), (1.5√3, 4.5), (0,6), (0,9) |
| Snowflake.ScenarioFirstSide | DrawKochSnowflake.py:110-111 | side A-B of the (0,0)/(0,20) triangle at depth 1 has p1 = (−10√3/3, 10), apex (−10√3, 10) and p3 = (−20√3/3, 0) |
| Snowflake.KochSnowflake.GenerateSide | DrawKochSnowflake.py:100-115 | the list built by the appends is exactly `Side` of the same arguments |
| Snowflake.Side | DrawKochSnowflake.py:105-115 | the side is never empty and ends at v2 |
| Snowflake.SideShallow | DrawKochSnowflake.py:110-113 | depth ≤ 0 gives [v2]; depth 1 gives one split |
| Snowflake.SidePrefix | DrawKochSnowflake.py:105-111 | from depth 1 on, the side starts with the four points of splitting v1-v2 |
| Snowflake.SideLength | DrawKochSnowflake.py:105-113 | the length depends only on the depth: 1, 4, then 4 + 3·(previous) |
| Snowflake.SideCountClosedForm | DrawKochSnowflake.py:105-113 | from depth 1 on, a side has 2·(3ⁿ − 1) points |
| Snowflake.SideCountBelowPowerOfFour | DrawKochSnowflake.py:105-113 | the count equals 4ⁿ at depths 1 and 2, and is below 4ⁿ from depth 3 on |
| Snowflake.SideReachesEndEarly | DrawKochSnowflake.py:105-109 | as written, from depth 2 on, the fourth point is already v2 and more points follow |
| Snowflake.SideDoesNotRefine | DrawKochSnowflake.py:105-111 | as written, depth 2 does not refine depth 1 whenever p1 ≠ v2 |
| Snowflake.KochSide | DrawKochSnowflake.py:105-109 | the corrected four-way expansion is never empty and ends at v2 |
| Snowflake.KochSideFirstLevel | DrawKochSnowflake.py:110-111 | the corrected expansion at depth 1 is one split |
| Snowflake.KochSideRefines | DrawKochSnowflake.py:105-109 | each corrected depth keeps every point of the previous depth, in order, every fourth point |
| Snowflake.KochSideLength | DrawKochSnowflake.py:105-109 | the corrected expansion has 4ⁿ points |

## Left out

- `TestSnowflake` (lines 119-173) is left out. It does argument parsing,
  turtle graphics and the main loop, which are all I/O. The starting-vertex
  move and the drawing of the three sides are not modelled.
- Floating-point rounding and `math.sqrt(3)` are left out. Arithmetic is
  exact, and √3 is the parameter `s3`. So the snapping thresholds are
  compared exactly, and no rounding error is bounded.
- Joining the three sides into one outline is not modelled. The source
  does it only inline in `TestSnowflake`, which draws the sides one after
  another (lines 157-167).
- Subdivision.SplitSegment: on a segment whose slope is snapped but not
  exactly 0 or vertical, the points are only described by
  Subdivision.HorizontalSplit and Subdivision.VerticalSplit. No bound is
  proved on how far they stray from the true trisection.
- The model states no strict sign facts about squared distances, such as
  "DistSq(p, q) > 0 for p ≠ q". It works with identities between squared
  lengths instead.

## Findings

| source | as written | input that shows it | evidently intended | confidence | as-written member | corrected member |
|---|---|---|---|---|---|---|
| DrawKochSnowflake.py:105-109 | at depth > 1 the list starts with the four split points p1, p2, p3, v2. Only p1-p2, p2-p3 and p3-v2 are then expanded. The piece v1-p1 stays straight, and the drawn path reaches v2 and then doubles back | segment (0,0)-(0,9) at level 2: point 3 is (0,9) while depth 1 starts at (0,3); a side has 2·(3ⁿ − 1) points, so 52 at level 3 | expand all four pieces v1-p1, p1-p2, p2-p3, p3-v2 and emit only their points. This gives 4ⁿ points, each depth refining the previous one | high, not executed | Snowflake.SideDoesNotRefine | Snowflake.KochSideRefines |

`Snowflake.KochSnowflake.GenerateSide` and `Snowflake.Side` model
`generateSide` as written. `Snowflake.KochSide` is the corrected
definition. `Snowflake.KochSideLength` and `Snowflake.KochSideRefines`
prove the intended properties about it. `Snowflake.ScenarioVertical` shows
that the segment (0,0)-(0,9) meets the premise of
`Snowflake.SideDoesNotRefine`.
