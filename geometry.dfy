/** Exact plane geometry the snowflake construction is stated over.
    Coordinates are exact reals; the program's floating-point rounding
    is not modelled. */
module Geometry {

  /** A point (or a vector) of the plane: the source's `(x, y)` tuples. */
  datatype Point = Point(x: real, y: real)

  /** `s3` stands for `math.sqrt(3)`: the positive real whose square is 3. */
  predicate IsSqrt3(s3: real) {
    s3 > 0.0 && s3 * s3 == 3.0
  }

  function Abs(r: real): (a: real)
    ensures a >= 0.0 && (a == r || a == -r)
  {
    if r < 0.0 then -r else r
  }

  function Add(p: Point, q: Point): Point {
    Point(p.x + q.x, p.y + q.y)
  }

  function Sub(p: Point, q: Point): Point {
    Point(p.x - q.x, p.y - q.y)
  }

  function Scale(k: real, p: Point): Point {
    Point(k * p.x, k * p.y)
  }

  function Dot(p: Point, q: Point): real {
    p.x * q.x + p.y * q.y
  }

  /** z-component of the cross product: positive when `q` lies to the
      left of `p`, negative when it lies to the right. */
  function Cross(p: Point, q: Point): real {
    p.x * q.y - p.y * q.x
  }

  /** Squared Euclidean distance. */
  function DistSq(p: Point, q: Point): real {
    (p.x - q.x) * (p.x - q.x) + (p.y - q.y) * (p.y - q.y)
  }

  /** Multiplying equals by the same factor gives equals; stated on plain
      variables so that callers can rewrite inside nonlinear terms. */
  lemma MulEq(u: real, v: real, w: real)
    requires u == v
    ensures u * w == v * w
  {
  }

  /** The point a fraction `t` of the way from `p` to `q`. */
  function Lerp(p: Point, q: Point, t: real): Point {
    Add(p, Scale(t, Sub(q, p)))
  }

  /** The vector `v` turned a quarter turn clockwise. */
  function TurnRight(v: Point): Point {
    Point(v.y, -v.x)
  }

  /** Rotation of `v` by the angle whose cosine is `c` and sine is `s`
      (counter-clockwise for `s > 0`). */
  function Rotate(v: Point, c: real, s: real): Point {
    Point(c * v.x - s * v.y, s * v.x + c * v.y)
  }

  /** Rotation by 120 degrees counter-clockwise: cos 120 = -1/2 and
      sin 120 = sqrt(3)/2. */
  function Rotate120(s3: real, v: Point): Point {
    Rotate(v, -0.5, s3 / 2.0)
  }

  /** Rotation by 120 degrees clockwise. */
  function RotateMinus120(s3: real, v: Point): Point {
    Rotate(v, -0.5, -(s3 / 2.0))
  }

  /** Rotation by 120 degrees keeps the length of a vector. */
  lemma Rotate120Length(s3: real, v: Point)
    requires IsSqrt3(s3)
    ensures DistSq(Rotate120(s3, v), Point(0.0, 0.0)) == DistSq(v, Point(0.0, 0.0))
    ensures DistSq(RotateMinus120(s3, v), Point(0.0, 0.0)) == DistSq(v, Point(0.0, 0.0))
  {
    var h := s3 / 2.0;
    assert h * h == 0.75 by {
      assert h * h == (s3 * s3) / 4.0;
    }
    var x, y := v.x, v.y;
    calc {
      (-0.5 * x - h * y) * (-0.5 * x - h * y) + (h * x + -0.5 * y) * (h * x + -0.5 * y);
      0.25 * x * x + h * h * y * y + h * h * x * x + 0.25 * y * y;
      { assert h * h * y * y == 0.75 * y * y; assert h * h * x * x == 0.75 * x * x; }
      x * x + y * y;
    }
    calc {
      (-0.5 * x + h * y) * (-0.5 * x + h * y) + (-h * x + -0.5 * y) * (-h * x + -0.5 * y);
      0.25 * x * x + h * h * y * y + h * h * x * x + 0.25 * y * y;
      { assert h * h * y * y == 0.75 * y * y; assert h * h * x * x == 0.75 * x * x; }
      x * x + y * y;
    }
  }

  /** Turning twice by 120 degrees is turning once by -120 degrees, so
      three turns bring a vector back to itself. */
  lemma Rotate120Twice(s3: real, v: Point)
    requires IsSqrt3(s3)
    ensures Rotate120(s3, Rotate120(s3, v)) == RotateMinus120(s3, v)
    ensures Rotate120(s3, RotateMinus120(s3, v)) == v
  {
    var h := s3 / 2.0;
    assert h * h == 0.75 by {
      assert h * h == (s3 * s3) / 4.0;
    }
    var x, y := v.x, v.y;
    var w := Rotate120(s3, v);
    assert w.x == -0.5 * x - h * y && w.y == h * x - 0.5 * y;
    calc {
      -0.5 * w.x - h * w.y;
      0.25 * x + 0.5 * h * y - h * h * x + 0.5 * h * y;
      -0.5 * x + h * y;
    }
    calc {
      h * w.x - 0.5 * w.y;
      -0.5 * h * x - h * h * y - 0.5 * h * x + 0.25 * y;
      -h * x - 0.5 * y;
    }
    var u := RotateMinus120(s3, v);
    assert u.x == -0.5 * x + h * y && u.y == -h * x - 0.5 * y;
    calc {
      -0.5 * u.x - h * u.y;
      0.25 * x - 0.5 * h * y + h * h * x + 0.5 * h * y;
      x;
    }
    calc {
      h * u.x - 0.5 * u.y;
      -0.5 * h * x + h * h * y + 0.5 * h * x + 0.25 * y;
      y;
    }
  }
}
