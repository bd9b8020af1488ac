/** The class `KochSnowFlake`: the starting triangle built from a centroid
    and one vertex, and `generateSide`, which expands one side of it. */
module Snowflake {
  import opened Geometry
  import opened Subdivision

  /** The other two vertices of the triangle with centroid `m` and vertex
      `a`: `a` turned about `m` by 120 degrees counter-clockwise, then
      clockwise. */
  function TriangleVertices(s3: real, m: Point, a: Point): (Point, Point) {
    (Add(Rotate120(s3, Sub(a, m)), m), Add(RotateMinus120(s3, Sub(a, m)), m))
  }

  /** The points of one side at recursion depth `level`, as `generateSide`
      returns them: the four points of `splitSegment`, then the expansions
      of p1-p2, p2-p3 and p3-v2 one level down. The piece v1-p1 is never
      expanded. */
  function Side(s3: real, v1: Point, v2: Point, level: int): (r: seq<Point>)
    ensures |r| >= 1 && r[|r| - 1] == v2
    decreases level
  {
    if level > 1 then
      var p := SplitSegment(s3, v1, v2);
      p + Side(s3, p[0], p[1], level - 1) + Side(s3, p[1], p[2], level - 1)
        + Side(s3, p[2], v2, level - 1)
    else if level == 1 then
      SplitSegment(s3, v1, v2)
    else
      [v2]
  }

  /** The number of points of a side: 1 at depth 0 or below, 4 at depth 1,
      and 4 + 3 * (count one level down) deeper. */
  function SideCount(level: int): nat
    decreases level
  {
    if level <= 0 then 1 else if level == 1 then 4 else 4 + 3 * SideCount(level - 1)
  }

  function Pow(b: nat, n: nat): nat {
    if n == 0 then 1 else b * Pow(b, n - 1)
  }

  /** The object built by `KochSnowFlake(xc, yc, xv, yv)`. */
  class KochSnowflake {
    /** The value the source takes from `math.sqrt(3)`. */
    const sqrt3: real
    var M: Point
    var VertexA: Point
    var VertexB: Point
    var VertexC: Point

    /** Shifts the vertex so that the centroid is at the origin, rotates
        it by 120 degrees each way and shifts the results back. */
    constructor (xc: real, yc: real, xv: real, yv: real, s3: real)
      requires IsSqrt3(s3)
      ensures sqrt3 == s3
      ensures M == Point(xc, yc) && VertexA == Point(xv, yv)
      ensures (VertexB, VertexC) == TriangleVertices(s3, M, VertexA)
      ensures DistSq(VertexB, M) == DistSq(VertexA, M) == DistSq(VertexC, M)
    {
      sqrt3 := s3;
      M := Point(xc, yc);
      VertexA := Point(xv, yv);
      var x1 := xv - xc;
      var y1 := yv - yc;
      var sin120 := s3 / 2.0;
      var cos120 := -0.5;
      VertexB := Point(cos120 * x1 - sin120 * y1 + xc, sin120 * x1 + cos120 * y1 + yc);
      VertexC := Point(cos120 * x1 + sin120 * y1 + xc, -sin120 * x1 + cos120 * y1 + yc);
      new;
      var u := Sub(VertexA, M);
      assert u == Point(x1, y1);
      assert VertexB == Add(Rotate120(s3, u), M);
      assert VertexC == Add(RotateMinus120(s3, u), M);
      TriangleEquidistant(s3, M, VertexA);
    }

    /** `generateSide(vertex1, vertex2, level)`: builds the list by
        appending to the result of `splitSegment`, reading its first three
        points back after each append. */
    method GenerateSide(vertex1: Point, vertex2: Point, level: int) returns (points: seq<Point>)
      ensures points == Side(sqrt3, vertex1, vertex2, level)
      decreases level
    {
      if level > 1 {
        points := SplitSegment(sqrt3, vertex1, vertex2);
        var more := GenerateSide(points[0], points[1], level - 1);
        points := points + more;
        more := GenerateSide(points[1], points[2], level - 1);
        points := points + more;
        more := GenerateSide(points[2], vertex2, level - 1);
        points := points + more;
      } else if level == 1 {
        points := SplitSegment(sqrt3, vertex1, vertex2);
      } else {
        points := [vertex2];
      }
    }
  }

  /** The three vertices are at the same distance from the centroid. */
  lemma TriangleEquidistant(s3: real, m: Point, a: Point)
    requires IsSqrt3(s3)
    ensures var (b, c) := TriangleVertices(s3, m, a);
      DistSq(b, m) == DistSq(a, m) == DistSq(c, m)
  {
    var u := Sub(a, m);
    Rotate120Length(s3, u);
  }

  /** The vertices follow each other by turns of 120 degrees about the
      centroid: A to B, B to C and C back to A. */
  lemma TriangleRotationOrder(s3: real, m: Point, a: Point)
    requires IsSqrt3(s3)
    ensures var (b, c) := TriangleVertices(s3, m, a);
      && Sub(b, m) == Rotate120(s3, Sub(a, m))
      && Sub(c, m) == Rotate120(s3, Sub(b, m))
      && Sub(a, m) == Rotate120(s3, Sub(c, m))
  {
    var u := Sub(a, m);
    var (b, c) := TriangleVertices(s3, m, a);
    assert Sub(b, m) == Rotate120(s3, u);
    assert Sub(c, m) == RotateMinus120(s3, u);
    Rotate120Twice(s3, u);
  }

  /** The centroid is the average of the three vertices. */
  lemma TriangleCentroid(s3: real, m: Point, a: Point)
    ensures var (b, c) := TriangleVertices(s3, m, a);
      Add(Add(a, b), c) == Scale(3.0, m)
  {
  }

  /** All three sides have the same length: the square of each is three
      times the squared distance from the centroid to a vertex. */
  lemma TriangleEquilateral(s3: real, m: Point, a: Point)
    requires IsSqrt3(s3)
    ensures var (b, c) := TriangleVertices(s3, m, a);
      && DistSq(a, b) == 3.0 * DistSq(a, m)
      && DistSq(b, c) == 3.0 * DistSq(a, m)
      && DistSq(c, a) == 3.0 * DistSq(a, m)
  {
    var (b, c) := TriangleVertices(s3, m, a);
    var x, y := a.x - m.x, a.y - m.y;
    MulEq(s3 * s3, 3.0, x * x + y * y);
  }

  /** For a side a-b of a triangle centred at `m` (b being a turned by 120
      degrees counter-clockwise about `m`), the reference apex is the
      mirror image of the centroid through the side's midpoint. */
  lemma ReferenceApexMirrorsCentroid(s3: real, m: Point, u: Point)
    requires IsSqrt3(s3)
    ensures var a, b := Add(u, m), Add(Rotate120(s3, u), m);
      ReferenceBump(s3, a, b)[1] == Sub(Scale(2.0, Midpoint(a, b)), m)
  {
    MulEq(s3 * s3, 3.0, u.x);
    MulEq(s3 * s3, 3.0, u.y);
  }

  /** At depth 1 the sign conventions put every bump outside the triangle:
      on each side that snapping leaves alone, the apex is the mirror
      image of the centroid through the side's midpoint. */
  lemma FirstLevelApexMirrorsCentroid(s3: real, m: Point, a: Point)
    requires IsSqrt3(s3)
    ensures var (b, c) := TriangleVertices(s3, m, a);
      && (Exact(a, b) ==> SplitSegment(s3, a, b)[1] == Sub(Scale(2.0, Midpoint(a, b)), m))
      && (Exact(b, c) ==> SplitSegment(s3, b, c)[1] == Sub(Scale(2.0, Midpoint(b, c)), m))
      && (Exact(c, a) ==> SplitSegment(s3, c, a)[1] == Sub(Scale(2.0, Midpoint(c, a)), m))
  {
    var (b, c) := TriangleVertices(s3, m, a);
    TriangleRotationOrder(s3, m, a);
    var ua, ub, uc := Sub(a, m), Sub(b, m), Sub(c, m);
    assert a == Add(ua, m) && b == Add(ub, m) && c == Add(uc, m);
    ReferenceApexMirrorsCentroid(s3, m, ua);
    ReferenceApexMirrorsCentroid(s3, m, ub);
    ReferenceApexMirrorsCentroid(s3, m, uc);
    if Exact(a, b) {
      ExactSplitIsReference(s3, a, b);
    }
    if Exact(b, c) {
      ExactSplitIsReference(s3, b, c);
    }
    if Exact(c, a) {
      ExactSplitIsReference(s3, c, a);
    }
  }

  /** Depth 0 or below gives just the end vertex; depth 1 gives the four
      points of one split. */
  lemma SideShallow(s3: real, v1: Point, v2: Point, level: int)
    ensures level <= 0 ==> Side(s3, v1, v2, level) == [v2]
    ensures level == 1 ==> Side(s3, v1, v2, level) == SplitSegment(s3, v1, v2)
  {
  }

  /** The appends only add to the end: at every depth from 1 on, the side
      starts with the four points of splitting v1-v2. */
  lemma SidePrefix(s3: real, v1: Point, v2: Point, level: int)
    requires level >= 1
    ensures |Side(s3, v1, v2, level)| >= 4
    ensures Side(s3, v1, v2, level)[..4] == SplitSegment(s3, v1, v2)
  {
  }

  /** The length of a side depends on the depth alone. */
  lemma {:induction false} SideLength(s3: real, v1: Point, v2: Point, level: int)
    ensures |Side(s3, v1, v2, level)| == SideCount(level)
    decreases level
  {
    if level > 1 {
      var p := SplitSegment(s3, v1, v2);
      SideLength(s3, p[0], p[1], level - 1);
      SideLength(s3, p[1], p[2], level - 1);
      SideLength(s3, p[2], v2, level - 1);
    }
  }

  /** The recurrence solved: from depth 1 on a side has 2 * (3^level - 1)
      points. */
  lemma {:induction false} SideCountClosedForm(level: nat)
    requires level >= 1
    ensures Pow(3, level) >= 1
    ensures SideCount(level) == 2 * (Pow(3, level) - 1)
  {
    if level > 1 {
      SideCountClosedForm(level - 1);
    }
  }

  /** The count agrees with 4^level at depths 1 and 2 only, and is smaller
      from depth 3 on. */
  lemma {:induction false} SideCountBelowPowerOfFour(level: nat)
    requires level >= 1
    ensures level <= 2 ==> SideCount(level) == Pow(4, level)
    ensures level >= 3 ==> SideCount(level) < Pow(4, level)
  {
    if level > 1 {
      SideCountBelowPowerOfFour(level - 1);
      assert Pow(4, level - 1) >= 4 by {
        PowAtLeastBase(4, level - 1);
      }
    }
  }

  lemma {:induction false} PowAtLeastBase(b: nat, n: nat)
    requires b >= 1 && n >= 1
    ensures Pow(b, n) >= b
  {
    if n > 1 {
      PowAtLeastBase(b, n - 1);
    }
  }

  /** Centroid (0, 0) and vertex (0, 20): the other vertices are
      (-10 * sqrt(3), -10) and (10 * sqrt(3), -10). */
  lemma ScenarioTriangle(s3: real)
    requires IsSqrt3(s3)
    ensures TriangleVertices(s3, Point(0.0, 0.0), Point(0.0, 20.0))
      == (Point(-10.0 * s3, -10.0), Point(10.0 * s3, -10.0))
  {
    var a, m := Point(0.0, 20.0), Point(0.0, 0.0);
    var (b, c) := TriangleVertices(s3, m, a);
    assert b == Point(-10.0 * s3, -10.0);
    assert c == Point(10.0 * s3, -10.0);
  }

  /** The vertical segment (0, 0)-(0, 9): trisection points (0, 3) and
      (0, 6), apex sqrt(3) * 1.5 to the right of the midpoint (0, 4.5). */
  lemma ScenarioVertical(s3: real)
    ensures SplitSegment(s3, Point(0.0, 0.0), Point(0.0, 9.0))
      == [Point(0.0, 3.0), Point(1.5 * s3, 4.5), Point(0.0, 6.0), Point(0.0, 9.0)]
  {
    VerticalSplit(s3, Point(0.0, 0.0), Point(0.0, 9.0));
  }

  /** Side A-B of that triangle at depth 1: its slope is sqrt(3), which
      is kept, so p1 and p3 are at a third and two thirds of the way and
      the apex is the centroid mirrored through the side's midpoint,
      (-10 * sqrt(3), 10). */
  lemma ScenarioFirstSide(s3: real)
    requires IsSqrt3(s3)
    ensures var a, b := Point(0.0, 20.0), Point(-10.0 * s3, -10.0);
      && Side(s3, a, b, 1)[0] == Point(-10.0 * s3 / 3.0, 10.0)
      && Side(s3, a, b, 1)[1] == Point(-10.0 * s3, 10.0)
      && Side(s3, a, b, 1)[2] == Point(-20.0 * s3 / 3.0, 0.0)
  {
    var a, m := Point(0.0, 20.0), Point(0.0, 0.0);
    var (b, c) := TriangleVertices(s3, m, a);
    assert b == Point(-10.0 * s3, -10.0);
    assert 1.0 < s3 < 2.0 by {
      if s3 <= 1.0 {
        MulLe(s3, 1.0);
      } else if s3 >= 2.0 {
        MulGe(s3, 2.0);
      }
    }
    MulEq(s3 * s3, 3.0, 10.0);
    assert Slope(a, b) == s3 by {
      assert (-10.0 * s3) * s3 == -30.0;
    }
    assert Exact(a, b);
    FirstLevelApexMirrorsCentroid(s3, m, a);
    ExactSplitIsReference(s3, a, b);
  }

  lemma MulLe(r: real, k: real)
    requires 0.0 < r <= k
    ensures r * r <= k * k
  {
  }

  lemma MulGe(r: real, k: real)
    requires 0.0 < k <= r
    ensures r * r >= k * k
  {
  }

  /** The four-way recursion `generateSide` evidently aims at: every piece
      of the split, v1-p1 included, is expanded one level down, and the
      split's own points are not emitted separately. */
  function KochSide(s3: real, v1: Point, v2: Point, level: int): (r: seq<Point>)
    ensures |r| >= 1 && r[|r| - 1] == v2
    decreases level
  {
    if level <= 0 then
      [v2]
    else
      var p := SplitSegment(s3, v1, v2);
      KochSide(s3, v1, p[0], level - 1) + KochSide(s3, p[0], p[1], level - 1)
        + KochSide(s3, p[1], p[2], level - 1) + KochSide(s3, p[2], v2, level - 1)
  }

  /** `fine` is `coarse` with every segment of the path (the first one
      starting at the implicit start vertex) replaced by four: each point
      of `coarse` is every fourth point of `fine`. */
  predicate Refines(fine: seq<Point>, coarse: seq<Point>) {
    && |fine| == 4 * |coarse|
    && forall i :: 0 <= i < |coarse| ==> fine[4 * i + 3] == coarse[i]
  }

  lemma RefinesConcat(f1: seq<Point>, c1: seq<Point>, f2: seq<Point>, c2: seq<Point>)
    requires Refines(f1, c1) && Refines(f2, c2)
    ensures Refines(f1 + f2, c1 + c2)
  {
    forall i | 0 <= i < |c1 + c2|
      ensures (f1 + f2)[4 * i + 3] == (c1 + c2)[i]
    {
      if i < |c1| {
        assert (f1 + f2)[4 * i + 3] == f1[4 * i + 3];
      } else {
        var j := i - |c1|;
        assert (f1 + f2)[4 * i + 3] == f2[4 * j + 3];
      }
    }
  }

  /** The four-way recursion at depth 1 is one split. */
  lemma KochSideFirstLevel(s3: real, v1: Point, v2: Point)
    ensures KochSide(s3, v1, v2, 1) == SplitSegment(s3, v1, v2)
  {
  }

  /** Each depth of the four-way recursion refines the one before it: the
      path only gains points, and keeps every point it had, in order. */
  lemma {:induction false} KochSideRefines(s3: real, v1: Point, v2: Point, level: nat)
    ensures Refines(KochSide(s3, v1, v2, level + 1), KochSide(s3, v1, v2, level))
    decreases level
  {
    if level > 0 {
      var p := SplitSegment(s3, v1, v2);
      KochSideRefines(s3, v1, p[0], level - 1);
      KochSideRefines(s3, p[0], p[1], level - 1);
      KochSideRefines(s3, p[1], p[2], level - 1);
      KochSideRefines(s3, p[2], v2, level - 1);
      var a1, a0 := KochSide(s3, v1, p[0], level), KochSide(s3, v1, p[0], level - 1);
      var b1, b0 := KochSide(s3, p[0], p[1], level), KochSide(s3, p[0], p[1], level - 1);
      var c1, c0 := KochSide(s3, p[1], p[2], level), KochSide(s3, p[1], p[2], level - 1);
      var d1, d0 := KochSide(s3, p[2], v2, level), KochSide(s3, p[2], v2, level - 1);
      RefinesConcat(a1, a0, b1, b0);
      RefinesConcat(a1 + b1, a0 + b0, c1, c0);
      RefinesConcat(a1 + b1 + c1, a0 + b0 + c0, d1, d0);
    }
  }

  /** The four-way recursion gives 4^level points per side. */
  lemma {:induction false} KochSideLength(s3: real, v1: Point, v2: Point, level: nat)
    ensures |KochSide(s3, v1, v2, level)| == Pow(4, level)
    decreases level
  {
    if level > 0 {
      KochSideLength(s3, v1, v2, level - 1);
      KochSideRefines(s3, v1, v2, level - 1);
    }
  }

  /** As written, from depth 2 on the side reaches its end vertex v2 at
      its fourth point and then goes on: the path doubles back over the
      side instead of ending there. */
  lemma SideReachesEndEarly(s3: real, v1: Point, v2: Point, level: int)
    requires level >= 2
    ensures |Side(s3, v1, v2, level)| > 4 && Side(s3, v1, v2, level)[3] == v2
  {
    SidePrefix(s3, v1, v2, level);
    SideLength(s3, v1, v2, level);
  }

  /** As written, depth 2 does not refine depth 1 on any segment whose
      first trisection point differs from its end: the fourth point at
      depth 2 is v2, where depth 1 starts at p1. */
  lemma SideDoesNotRefine(s3: real, v1: Point, v2: Point)
    requires SplitSegment(s3, v1, v2)[0] != v2
    ensures !Refines(Side(s3, v1, v2, 2), Side(s3, v1, v2, 1))
  {
    SideReachesEndEarly(s3, v1, v2, 2);
    SideShallow(s3, v1, v2, 1);
  }
}
