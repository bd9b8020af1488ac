/** The unit step of the snowflake: `KochSnowFlake.splitSegment`, which
    turns a segment s1-s2 into the four points p1, p2, p3, s2 of a
    triangular bump on its middle third. */
module Subdivision {
  import opened Geometry

  /** Slopes below this magnitude are snapped to horizontal. */
  const ZeroSlope: real := 0.00001
  /** Slopes above this magnitude are snapped to vertical. */
  const VerticalSlope: real := 1000000.0

  type NonZero = r: real | r != 0.0 witness 1.0

  /** The line of a segment. The source keeps a slope `m` that is `None`
      for a vertical line, and an intercept `b`: `Vertical` is `m is None`,
      `Horizontal(b)` is `m == 0`, and `Sloped(m, b)` is any other slope,
      which is never zero. */
  datatype LineKind = Vertical | Horizontal(b: real) | Sloped(m: NonZero, b: real)

  /** The height of a non-vertical line at abscissa `x`: `m * x + b`. */
  function At(k: LineKind, x: real): real
    requires !k.Vertical?
  {
    match k
    case Horizontal(b) => b
    case Sloped(m, b) => m * x + b
  }

  /** `p` lies on line `k`; a vertical line is the one at abscissa `x0`. */
  predicate OnLine(k: LineKind, x0: real, p: Point) {
    if k.Vertical? then p.x == x0 else p.y == At(k, p.x)
  }

  function Slope(s1: Point, s2: Point): real
    requires s1.x != s2.x
  {
    (s2.y - s1.y) / (s2.x - s1.x)
  }

  /** The segment's line, with near-zero slopes snapped to horizontal
      (through `s2.y`) and very steep slopes snapped to vertical. */
  function SegmentLine(s1: Point, s2: Point): (k: LineKind)
    ensures s1.x == s2.x ==> k.Vertical?
  {
    if s2.x != s1.x then
      var m := Slope(s1, s2);
      if Abs(m) < ZeroSlope then Horizontal(s2.y)
      else if Abs(m) > VerticalSlope then Vertical
      else Sloped(m, s2.y - m * s2.x)
    else
      Vertical
  }

  /** The segment's slope is kept as it is: the segment is not vertical and
      its slope is inside the snapping thresholds. */
  predicate Unsnapped(s1: Point, s2: Point) {
    s1.x != s2.x && ZeroSlope <= Abs(Slope(s1, s2)) <= VerticalSlope
  }

  function Midpoint(s1: Point, s2: Point): Point {
    Point((s2.x + s1.x) / 2.0, (s2.y + s1.y) / 2.0)
  }

  /** The line through `pa` perpendicular to a line of kind `k`. */
  function Perpendicular(k: LineKind, pa: Point): (perp: LineKind)
    ensures OnLine(perp, pa.x, pa)
  {
    match k
    case Vertical => Horizontal(pa.y)
    case Horizontal(_) => Vertical
    case Sloped(m, _) =>
      var ma: NonZero := -1.0 / m;
      Sloped(ma, pa.y - ma * pa.x)
  }

  /** The two inner points p1, p3: a third and two thirds of the way along
      the segment's abscissa, or along its ordinate when it is vertical. */
  function Trisect(k: LineKind, s1: Point, s2: Point): (Point, Point) {
    if k.Vertical? then
      var len := (s2.y - s1.y) / 3.0;
      var p1 := Point(s1.x, s1.y + len);
      (p1, Point(s1.x, p1.y + len))
    else
      var len := (s2.x - s1.x) / 3.0;
      var p1 := Point(s1.x + len, At(k, s1.x + len));
      (p1, Point(p1.x + len, At(k, p1.x + len)))
  }

  /** The bump's apex p2 on the perpendicular `perp` through `pa`, moved
      away from `pa` by sqrt(3) times an offset of `p1` from `pa`. */
  function Apex(s3: real, perp: LineKind, pa: Point, p1: Point): Point {
    var deltaY := pa.y - p1.y;
    if perp.Vertical? then
      Point(pa.x, pa.y - s3 * (pa.x - p1.x))
    else
      var x := pa.x + s3 * deltaY;
      Point(x, At(perp, x))
  }

  /** `splitSegment(s1, s2)`: the list p1, p2, p3, s2. */
  function SplitSegment(s3: real, s1: Point, s2: Point): (r: seq<Point>)
    ensures |r| == 4 && r[3] == s2
    ensures OnLine(SegmentLine(s1, s2), s1.x, r[0])
    ensures OnLine(SegmentLine(s1, s2), s1.x, r[2])
    ensures OnLine(Perpendicular(SegmentLine(s1, s2), Midpoint(s1, s2)), Midpoint(s1, s2).x, r[1])
  {
    var k := SegmentLine(s1, s2);
    var pa := Midpoint(s1, s2);
    var perp := Perpendicular(k, pa);
    var (p1, p3) := Trisect(k, s1, s2);
    var p2 := Apex(s3, perp, pa, p1);
    [p1, p2, p3, s2]
  }

  /** The segment's slope survives snapping exactly when the line is
      `Sloped`, and then with that very slope. */
  lemma SlopedIffUnsnapped(s1: Point, s2: Point)
    ensures SegmentLine(s1, s2).Sloped? <==> Unsnapped(s1, s2)
    ensures SegmentLine(s1, s2).Sloped? ==> SegmentLine(s1, s2).m == Slope(s1, s2)
  {
  }

  /** The three outcomes of snapping: a slope below the lower threshold
      gives the horizontal line through s2, a vertical segment or a slope
      above the upper threshold gives a vertical line, and a kept slope
      gives the line through s2 with that slope. */
  lemma SegmentLineSnapping(s1: Point, s2: Point)
    ensures SegmentLine(s1, s2).Horizontal? <==> s1.x != s2.x && Abs(Slope(s1, s2)) < ZeroSlope
    ensures SegmentLine(s1, s2).Horizontal? ==> SegmentLine(s1, s2).b == s2.y
    ensures SegmentLine(s1, s2).Vertical? <==> s1.x == s2.x || Abs(Slope(s1, s2)) > VerticalSlope
    ensures SegmentLine(s1, s2).Sloped? ==> SegmentLine(s1, s2).b == s2.y - Slope(s1, s2) * s2.x
  {
  }

  /** Vertical case (the source's `m is None`, which includes `x1 == x2`):
      p1 and p3 keep the abscissa of s1 and divide the ordinate in thirds;
      the apex is level with the midpoint. */
  lemma VerticalSplit(s3: real, s1: Point, s2: Point)
    requires SegmentLine(s1, s2).Vertical?
    ensures var r := SplitSegment(s3, s1, s2);
      && r[0] == Point(s1.x, s1.y + (s2.y - s1.y) / 3.0)
      && r[2] == Point(s1.x, s1.y + 2.0 * (s2.y - s1.y) / 3.0)
      && r[1] == Point(Midpoint(s1, s2).x + s3 * (s2.y - s1.y) / 6.0, Midpoint(s1, s2).y)
  {
  }

  /** Horizontal case (`|m| < 1e-5`): p1 and p3 take the height of s2 and
      divide the abscissa in thirds; the apex is straight above or below
      the midpoint. */
  lemma HorizontalSplit(s3: real, s1: Point, s2: Point)
    requires SegmentLine(s1, s2).Horizontal?
    ensures var r := SplitSegment(s3, s1, s2);
      && r[0] == Point(s1.x + (s2.x - s1.x) / 3.0, s2.y)
      && r[2] == Point(s1.x + 2.0 * (s2.x - s1.x) / 3.0, s2.y)
      && r[1] == Point(Midpoint(s1, s2).x, Midpoint(s1, s2).y - s3 * (s2.x - s1.x) / 6.0)
  {
  }

  /** The slope times the run is the rise. */
  lemma SlopeTimesRun(s1: Point, s2: Point)
    requires s1.x != s2.x
    ensures Slope(s1, s2) * (s2.x - s1.x) == s2.y - s1.y
  {
  }

  /** On a line through s1 and s2 that is not vertical, the trisection
      points are a third and two thirds of the way from s1 to s2. */
  lemma TrisectOnSlopedLine(m: NonZero, b: real, s1: Point, s2: Point)
    requires m * (s2.x - s1.x) == s2.y - s1.y
    requires b == s2.y - m * s2.x
    ensures Trisect(Sloped(m, b), s1, s2) == (Lerp(s1, s2, 1.0 / 3.0), Lerp(s1, s2, 2.0 / 3.0))
  {
    var len := (s2.x - s1.x) / 3.0;
    assert m * (s1.x + len) + b == s1.y + (s2.y - s1.y) / 3.0;
    assert m * (s1.x + len + len) + b == s1.y + 2.0 * (s2.y - s1.y) / 3.0;
    var t := Trisect(Sloped(m, b), s1, s2);
    assert t.0 == Point(s1.x + len, m * (s1.x + len) + b);
    assert t.1 == Point(s1.x + len + len, m * (s1.x + len + len) + b);
    assert t.0 == Lerp(s1, s2, 1.0 / 3.0);
    assert t.1 == Lerp(s1, s2, 2.0 / 3.0);
  }

  /** On the perpendicular of a sloped line, the apex is the midpoint moved
      by sqrt(3)/6 times the segment turned a quarter turn clockwise. */
  lemma ApexOnSlopedPerpendicular(s3: real, m: NonZero, s1: Point, s2: Point, p1: Point)
    requires m * (s2.x - s1.x) == s2.y - s1.y
    requires Midpoint(s1, s2).y - p1.y == (s2.y - s1.y) / 6.0
    ensures var pa := Midpoint(s1, s2);
      Apex(s3, Perpendicular(Sloped(m, 0.0), pa), pa, p1)
        == Add(pa, Scale(s3 / 6.0, TurnRight(Sub(s2, s1))))
  {
    var pa := Midpoint(s1, s2);
    var dx, dy := s2.x - s1.x, s2.y - s1.y;
    var ma: NonZero := -1.0 / m;
    assert ma * m == -1.0;
    // ma * (s3 * dy) == -(s3 * dx), using dy == m * dx and ma * m == -1
    MulEq(dy, m * dx, ma * s3);
    MulEq(ma * m, -1.0, s3 * dx);
    assert ma * (s3 * dy) == -(s3 * dx);
    var x := pa.x + s3 * (dy / 6.0);
    assert ma * x + (pa.y - ma * pa.x) == pa.y - s3 * dx / 6.0;
  }

  /** General case (slope kept): p1 and p3 are exactly the points a third
      and two thirds of the way from s1 to s2, and the apex lies on the
      perpendicular through the midpoint, a quarter turn clockwise from
      the direction of travel. */
  lemma SlopedSplit(s3: real, s1: Point, s2: Point)
    requires SegmentLine(s1, s2).Sloped?
    ensures var r, pa, m := SplitSegment(s3, s1, s2), Midpoint(s1, s2), SegmentLine(s1, s2).m;
      && r[0] == Lerp(s1, s2, 1.0 / 3.0)
      && r[2] == Lerp(s1, s2, 2.0 / 3.0)
      && r[1].y - pa.y == (-1.0 / m) * (r[1].x - pa.x)
      && r[1] == Add(pa, Scale(s3 / 6.0, TurnRight(Sub(s2, s1))))
  {
    var k := SegmentLine(s1, s2);
    var m := k.m;
    SlopeTimesRun(s1, s2);
    TrisectOnSlopedLine(m, k.b, s1, s2);
    var p1 := Lerp(s1, s2, 1.0 / 3.0);
    var pa := Midpoint(s1, s2);
    assert pa.y - p1.y == (s2.y - s1.y) / 6.0;
    ApexOnSlopedPerpendicular(s3, m, s1, s2, p1);
    assert Perpendicular(k, pa) == Perpendicular(Sloped(m, 0.0), pa);
  }

  /** The bump the construction aims at, over exact arithmetic: the
      points a third and two thirds of the way from s1 to s2, and between
      them the apex of an equilateral triangle on the middle third, on the
      right of the direction of travel. */
  function ReferenceBump(s3: real, s1: Point, s2: Point): seq<Point> {
    [ Lerp(s1, s2, 1.0 / 3.0),
      Add(Midpoint(s1, s2), Scale(s3 / 6.0, TurnRight(Sub(s2, s1)))),
      Lerp(s1, s2, 2.0 / 3.0),
      s2 ]
  }

  /** The segments for which snapping changes nothing: vertical,
      horizontal, or with a slope inside the thresholds. */
  predicate Exact(s1: Point, s2: Point) {
    s1.x == s2.x || s1.y == s2.y || SegmentLine(s1, s2).Sloped?
  }

  /** On every segment that snapping leaves alone, `splitSegment` computes
      the reference bump. */
  lemma ExactSplitIsReference(s3: real, s1: Point, s2: Point)
    requires Exact(s1, s2)
    ensures SplitSegment(s3, s1, s2) == ReferenceBump(s3, s1, s2)
  {
    var r, e := SplitSegment(s3, s1, s2), ReferenceBump(s3, s1, s2);
    if s1.x == s2.x {
      VerticalSplit(s3, s1, s2);
    } else if s1.y == s2.y {
      assert Slope(s1, s2) == 0.0;
      HorizontalSplit(s3, s1, s2);
    } else {
      SlopedSplit(s3, s1, s2);
    }
    assert r[0] == e[0] && r[1] == e[1] && r[2] == e[2] && r[3] == e[3];
  }

  /** The reference trisection points cut the segment into three parts of
      equal length. */
  lemma ReferenceThirds(s3: real, s1: Point, s2: Point)
    ensures var e, d := ReferenceBump(s3, s1, s2), DistSq(s1, s2);
      && DistSq(s1, e[0]) == d / 9.0
      && DistSq(e[0], e[2]) == d / 9.0
      && DistSq(e[2], s2) == d / 9.0
  {
  }

  /** The reference apex is on the perpendicular bisector of the segment,
      and on its right: the cross product of the direction of travel with
      the apex's offset from s1 is minus sqrt(3)/6 times the squared
      length. */
  lemma ReferenceApexPlacement(s3: real, s1: Point, s2: Point)
    ensures var e, pa, d := ReferenceBump(s3, s1, s2), Midpoint(s1, s2), Sub(s2, s1);
      && Dot(Sub(e[1], pa), d) == 0.0
      && Cross(d, Sub(e[1], s1)) == -(s3 / 6.0) * DistSq(s1, s2)
  {
  }

  /** With s3 the square root of 3, the reference apex is at the altitude
      of an equilateral triangle on the middle third, and that triangle is
      equilateral with sides a third of the segment. */
  lemma ReferenceEquilateral(s3: real, s1: Point, s2: Point)
    requires IsSqrt3(s3)
    ensures var e, pa, d := ReferenceBump(s3, s1, s2), Midpoint(s1, s2), DistSq(s1, s2);
      && DistSq(e[1], pa) == 3.0 * DistSq(pa, e[0])
      && DistSq(e[0], e[1]) == d / 9.0
      && DistSq(e[1], e[2]) == d / 9.0
      && DistSq(e[0], e[2]) == d / 9.0
  {
    var dx, dy := s2.x - s1.x, s2.y - s1.y;
    MulEq(s3 * s3, 3.0, dx * dx + dy * dy);
  }

  /** In every branch the apex is on the perpendicular through the
      midpoint: level with it for a vertical segment, straight above or
      below it for a horizontal one, and on the line of slope -1/m through
      it otherwise. */
  lemma ApexOnPerpendicular(s3: real, s1: Point, s2: Point)
    ensures var k, r, pa := SegmentLine(s1, s2), SplitSegment(s3, s1, s2), Midpoint(s1, s2);
      && (k.Vertical? ==> r[1].y == pa.y)
      && (k.Horizontal? ==> r[1].x == pa.x)
      && (k.Sloped? ==> r[1].y - pa.y == (-1.0 / k.m) * (r[1].x - pa.x))
  {
    var k := SegmentLine(s1, s2);
    if k.Sloped? {
      SlopedSplit(s3, s1, s2);
    }
  }

  /** On every segment that snapping leaves alone (vertical, horizontal,
      or with a slope inside the thresholds) the four points are those of
      the Koch generator: p1 and p3 cut the segment into thirds, and p1,
      p2, p3 form an equilateral triangle on the middle third with its
      apex at the altitude distance from the midpoint, on the right of the
      direction of travel. */
  lemma ExactSplitGeometry(s3: real, s1: Point, s2: Point)
    requires IsSqrt3(s3)
    requires Exact(s1, s2)
    ensures var r, pa, d := SplitSegment(s3, s1, s2), Midpoint(s1, s2), DistSq(s1, s2);
      && DistSq(s1, r[0]) == d / 9.0
      && DistSq(r[0], r[2]) == d / 9.0
      && DistSq(r[2], s2) == d / 9.0
      && DistSq(r[0], r[1]) == d / 9.0
      && DistSq(r[1], r[2]) == d / 9.0
      && DistSq(r[1], pa) == 3.0 * DistSq(pa, r[0])
      && Dot(Sub(r[1], pa), Sub(s2, s1)) == 0.0
      && Cross(Sub(s2, s1), Sub(r[1], s1)) == -(s3 / 6.0) * d
  {
    ExactSplitIsReference(s3, s1, s2);
    ReferenceThirds(s3, s1, s2);
    ReferenceApexPlacement(s3, s1, s2);
    ReferenceEquilateral(s3, s1, s2);
  }
}
