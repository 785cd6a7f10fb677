/**
 * The three area formulas of the triangle-area slideshow and its
 * triangle-inequality test, over exact reals.
 *
 * The slideshow keeps three independent descriptions of "a triangle": a
 * base/height pair, three side lengths and three draggable vertices.  Each
 * has its own formula here and none is derived from another; the lemmas at
 * the end of this module and of module Measurements relate them.
 */
module Geometry {

  /** A point of the 0..100 drawing plane. */
  datatype Point = Point(x: real, y: real)

  /** The names of the three draggable corners. */
  datatype Vertex = A | B | C

  /** The draggable triangle: one point per corner name. */
  datatype Triangle = Triangle(a: Point, b: Point, c: Point)
  {
    /** The point stored under corner `v`. */
    function Get(v: Vertex): Point
    {
      match v
      case A => a
      case B => b
      case C => c
    }

    /** The triangle with corner `v` moved to `p`: the object spread `{...prev, [v]: p}`. */
    function With(v: Vertex, p: Point): (t: Triangle)
      ensures t.Get(v) == p
      ensures forall w :: w != v ==> t.Get(w) == Get(w)
    {
      match v
      case A => Triangle(p, b, c)
      case B => Triangle(a, p, c)
      case C => Triangle(a, b, p)
    }
  }

  function Abs(r: real): (m: real)
    ensures m >= 0.0
    ensures m == r || m == -r
  {
    if r < 0.0 then -r else r
  }

  /** `r` is what `Math.sqrt(x)` returns for a non-negative `x`. */
  predicate IsRoot(x: real, r: real)
  {
    r >= 0.0 && r * r == x
  }

  lemma {:induction false} RootUnique(x: real, r: real, s: real)
    requires IsRoot(x, r) && IsRoot(x, s)
    ensures r == s
  {
    if r < s {
      SquareStrictlyMonotone(r, s);
    } else if s < r {
      SquareStrictlyMonotone(s, r);
    }
  }

  lemma {:induction false} SquareStrictlyMonotone(r: real, s: real)
    requires 0.0 <= r < s
    ensures r * r < s * s
  {
    var rr, rs, ss := r * r, r * s, s * s;
    assert rr <= rs;
    assert rs < ss;
  }

  /** A root is positive exactly when its square is. */
  lemma {:induction false} RootPositive(x: real, r: real)
    requires IsRoot(x, r)
    ensures r > 0.0 <==> x > 0.0
  {
    if r > 0.0 {
      SquareStrictlyMonotone(0.0, r);
    }
  }

  // ---------------------------------------------------------------------
  // Base and height
  // ---------------------------------------------------------------------

  /** `calculateBasicArea`: half of base times height. */
  function BasicArea(base: real, height: real): (area: real)
    ensures base > 0.0 && height > 0.0 ==> area > 0.0
    ensures area + area == base * height
  {
    base * height / 2.0
  }

  /** With the slider ranges (base 1..20, height 1..15) the area lies in 0.5..150. */
  lemma BasicAreaOnSliders(base: real, height: real)
    requires 1.0 <= base <= 20.0 && 1.0 <= height <= 15.0
    ensures 0.5 <= BasicArea(base, height) <= 150.0
  {
    assert base * height <= 20.0 * height <= 300.0;
    assert base * height >= 1.0 * height >= 1.0;
  }

  /** The worked example of the basic formula: base 12, height 8. */
  lemma BasicAreaExample()
    ensures BasicArea(12.0, 8.0) == 48.0
  {
  }

  // ---------------------------------------------------------------------
  // Heron's formula and the triangle inequality
  // ---------------------------------------------------------------------

  /** The inline "Triangle exists" test: all three strict triangle inequalities. */
  predicate IsValidTriangle(a: real, b: real, c: real)
    ensures IsValidTriangle(a, b, c) ==> a > 0.0 && b > 0.0 && c > 0.0
  {
    a + b > c && b + c > a && a + c > b
  }

  /** The semi-perimeter `s`. */
  function SemiPerimeter(a: real, b: real, c: real): (s: real)
    ensures s + s == a + b + c
  {
    (a + b + c) / 2.0
  }

  /** The argument that `calculateHeronArea` passes to `Math.sqrt`. */
  function Radicand(a: real, b: real, c: real): real
  {
    var s := SemiPerimeter(a, b, c);
    s * (s - a) * (s - b) * (s - c)
  }

  /**
   * `calculateHeronArea`.  `Math.sqrt` of a negative radicand is NaN, which
   * `calculateHeronArea` replaces by 0; of a non-negative one it is `root`.
   */
  function HeronArea(a: real, b: real, c: real, root: real): (area: real)
    requires Radicand(a, b, c) >= 0.0 ==> IsRoot(Radicand(a, b, c), root)
    ensures area >= 0.0
    ensures area * area == (if Radicand(a, b, c) < 0.0 then 0.0 else Radicand(a, b, c))
    ensures a > 0.0 && b > 0.0 && c > 0.0 ==> (area > 0.0 <==> IsValidTriangle(a, b, c))
  {
    assert a > 0.0 && b > 0.0 && c > 0.0 ==> (Radicand(a, b, c) > 0.0 <==> IsValidTriangle(a, b, c)) by {
      if a > 0.0 && b > 0.0 && c > 0.0 {
        HeronRadicandSign(a, b, c);
      }
    }
    assert Radicand(a, b, c) >= 0.0 ==> (root > 0.0 <==> Radicand(a, b, c) > 0.0) by {
      if Radicand(a, b, c) >= 0.0 {
        RootPositive(Radicand(a, b, c), root);
      }
    }
    if Radicand(a, b, c) < 0.0 then 0.0 else root
  }

  /** The radicand times 16 is the product of the four "sum minus side" factors. */
  lemma {:induction false} RadicandFactors(a: real, b: real, c: real)
    ensures 16.0 * Radicand(a, b, c) == (a + b + c) * ((b + c - a) * (a + c - b) * (a + b - c))
  {
    var s := SemiPerimeter(a, b, c);
    assert 2.0 * s == a + b + c;
    assert 2.0 * (s - a) == b + c - a;
    assert 2.0 * (s - b) == a + c - b;
    assert 2.0 * (s - c) == a + b - c;
    calc {
      16.0 * Radicand(a, b, c);
      (2.0 * s) * (2.0 * (s - a)) * (2.0 * (s - b)) * (2.0 * (s - c));
      (a + b + c) * ((b + c - a) * (a + c - b) * (a + b - c));
    }
  }

  /** Of the three "sum of two minus the third" factors, at most one is negative for positive sides. */
  lemma {:induction false} AtMostOneNegative(a: real, b: real, c: real)
    requires a > 0.0 && b > 0.0 && c > 0.0
    ensures !(b + c - a < 0.0 && a + c - b < 0.0)
    ensures !(b + c - a < 0.0 && a + b - c < 0.0)
    ensures !(a + c - b < 0.0 && a + b - c < 0.0)
  {
  }

  /**
   * For positive sides, the radicand of Heron's formula is strictly positive
   * exactly when the three strict triangle inequalities hold, and is never
   * positive otherwise.
   */
  lemma {:induction false} HeronRadicandSign(a: real, b: real, c: real)
    requires a > 0.0 && b > 0.0 && c > 0.0
    ensures Radicand(a, b, c) > 0.0 <==> IsValidTriangle(a, b, c)
  {
    RadicandFactors(a, b, c);
    AtMostOneNegative(a, b, c);
    var p, q, r := b + c - a, a + c - b, a + b - c;
    var sum := a + b + c;
    assert sum > 0.0;
    assert 16.0 * Radicand(a, b, c) == sum * (p * q * r);
    if IsValidTriangle(a, b, c) {
      assert p > 0.0 && q > 0.0 && r > 0.0;
      assert p * q > 0.0;
      assert p * q * r > 0.0;
      assert sum * (p * q * r) > 0.0;
    } else {
      // exactly one factor is non-positive and the other two are positive
      // or zero, so the product is not positive
      assert p * q * r <= 0.0 by {
        if p <= 0.0 {
          assert q >= 0.0 && r >= 0.0;
          assert q * r >= 0.0;
          assert p * (q * r) <= 0.0;
        } else if q <= 0.0 {
          assert r >= 0.0;
          assert p * q <= 0.0;
          assert (p * q) * r <= 0.0;
        } else {
          assert r <= 0.0;
          assert p * q > 0.0;
          assert (p * q) * r <= 0.0;
        }
      }
      assert sum * (p * q * r) <= 0.0;
    }
  }

  /** For positive sides that break the triangle inequality, Heron's area is exactly 0. */
  lemma HeronAreaInvalidIsZero(a: real, b: real, c: real, root: real)
    requires a > 0.0 && b > 0.0 && c > 0.0 && !IsValidTriangle(a, b, c)
    requires Radicand(a, b, c) >= 0.0 ==> IsRoot(Radicand(a, b, c), root)
    ensures HeronArea(a, b, c, root) == 0.0
  {
  }

  /** The triangle-inequality test does not depend on the order of the sides. */
  lemma ValidTriangleSymmetric(a: real, b: real, c: real)
    ensures IsValidTriangle(a, b, c) == IsValidTriangle(b, a, c)
    ensures IsValidTriangle(a, b, c) == IsValidTriangle(a, c, b)
    ensures IsValidTriangle(a, b, c) == IsValidTriangle(c, b, a)
    ensures IsValidTriangle(a, b, c) == IsValidTriangle(b, c, a)
  {
  }

  /** The worked example with sides 3, 4, 5: radicand 36 and area 6. */
  lemma HeronExample345()
    ensures Radicand(3.0, 4.0, 5.0) == 36.0 && HeronArea(3.0, 4.0, 5.0, 6.0) == 6.0
  {
  }

  /** The worked example with sides 5, 12, 13: radicand 900 and area 30. */
  lemma HeronExample51213()
    ensures Radicand(5.0, 12.0, 13.0) == 900.0 && HeronArea(5.0, 12.0, 13.0, 30.0) == 30.0
  {
  }

  /** The worked example with sides 6, 8, 10: radicand 576 and area 24. */
  lemma HeronExample6810()
    ensures Radicand(6.0, 8.0, 10.0) == 576.0 && HeronArea(6.0, 8.0, 10.0, 24.0) == 24.0
  {
  }

  /** Sides 1, 1, 10 fail the test: the radicand is negative and the area shown is 0. */
  lemma HeronInvalidExample(root: real)
    ensures !IsValidTriangle(1.0, 1.0, 10.0)
    ensures Radicand(1.0, 1.0, 10.0) < 0.0
    ensures HeronArea(1.0, 1.0, 10.0, root) == 0.0
  {
  }

  // ---------------------------------------------------------------------
  // Area from coordinates
  // ---------------------------------------------------------------------

  /** The presentation divides the coordinate area by this factor. */
  const DisplayScale: real := 10.0

  /** Twice the signed area: `A.x(B.y - C.y) + B.x(C.y - A.y) + C.x(A.y - B.y)`. */
  function SignedDoubleArea(p: Point, q: Point, r: Point): real
  {
    p.x * (q.y - r.y) + q.x * (r.y - p.y) + r.x * (p.y - q.y)
  }

  /** The unscaled shoelace area `|…| / 2`. */
  function ShoelaceArea(t: Triangle): (area: real)
    ensures area >= 0.0
  {
    Abs(SignedDoubleArea(t.a, t.b, t.c) / 2.0)
  }

  /** `calculateVertexArea`: the shoelace area divided by the display scale. */
  function VertexArea(t: Triangle): (area: real)
    ensures area >= 0.0
    ensures area * DisplayScale == ShoelaceArea(t)
  {
    ShoelaceArea(t) / DisplayScale
  }

  /** The signed area is kept by a rotation of the vertices and negated by a swap. */
  lemma SignedDoubleAreaOrientation(p: Point, q: Point, r: Point)
    ensures SignedDoubleArea(q, r, p) == SignedDoubleArea(p, q, r)
    ensures SignedDoubleArea(q, p, r) == -SignedDoubleArea(p, q, r)
  {
  }

  /** The coordinate area does not depend on which corner is called A, B or C. */
  lemma {:induction false} VertexAreaPermutation(t: Triangle)
    ensures var Tri := (p, q, r) => VertexArea(Triangle(p, q, r));
      && Tri(t.a, t.c, t.b) == VertexArea(t)
      && Tri(t.b, t.a, t.c) == VertexArea(t)
      && Tri(t.b, t.c, t.a) == VertexArea(t)
      && Tri(t.c, t.a, t.b) == VertexArea(t)
      && Tri(t.c, t.b, t.a) == VertexArea(t)
  {
    var p, q, r := t.a, t.b, t.c;
    SignedDoubleAreaOrientation(p, q, r);
    SignedDoubleAreaOrientation(q, r, p);
    SignedDoubleAreaOrientation(r, p, q);
    SignedDoubleAreaOrientation(p, r, q);
  }

  /** Moving all three vertices by the same offset leaves the area unchanged. */
  lemma SignedDoubleAreaTranslation(p: Point, q: Point, r: Point, dx: real, dy: real)
    ensures var Move := (u: Point) => Point(u.x + dx, u.y + dy);
      SignedDoubleArea(Move(p), Move(q), Move(r)) == SignedDoubleArea(p, q, r)
  {
  }

  /** A third vertex on the line through the first two gives area 0. */
  lemma {:induction false} CollinearAreaZero(p: Point, q: Point, k: real)
    ensures VertexArea(Triangle(p, q, Point(p.x + k * (q.x - p.x), p.y + k * (q.y - p.y)))) == 0.0
  {
    var r := Point(p.x + k * (q.x - p.x), p.y + k * (q.y - p.y));
    calc {
      SignedDoubleArea(p, q, r);
      p.x * (q.y - r.y) + q.x * (r.y - p.y) + r.x * (p.y - q.y);
      p.x * ((q.y - p.y) - k * (q.y - p.y)) + q.x * (k * (q.y - p.y)) + (p.x + k * (q.x - p.x)) * (p.y - q.y);
      (1.0 - k) * p.x * (q.y - p.y) + k * q.x * (q.y - p.y) - (p.x + k * (q.x - p.x)) * (q.y - p.y);
      ((1.0 - k) * p.x + k * q.x - p.x - k * (q.x - p.x)) * (q.y - p.y);
      0.0 * (q.y - p.y);
    }
  }

  /**
   * A triangle whose base runs along the x axis from the origin has the
   * base-times-height area, wherever its apex lies on the height line.
   */
  lemma {:induction false} ShoelaceAgreesWithBasicArea(base: real, height: real, apexX: real)
    requires base >= 0.0 && height >= 0.0
    ensures ShoelaceArea(Triangle(Point(0.0, 0.0), Point(base, 0.0), Point(apexX, height))) == BasicArea(base, height)
  {
    var d := SignedDoubleArea(Point(0.0, 0.0), Point(base, 0.0), Point(apexX, height));
    assert d == base * height;
    assert base * height >= 0.0;
  }

  /** The coordinate challenge A(2,1), B(6,1), C(4,5): unscaled area 8. */
  lemma VertexAreaChallengeExample()
    ensures ShoelaceArea(Triangle(Point(2.0, 1.0), Point(6.0, 1.0), Point(4.0, 5.0))) == 8.0
  {
  }

  /** The coordinate problem A(0,0), B(4,0), C(2,3): unscaled area 6. */
  lemma VertexAreaProblemExample()
    ensures ShoelaceArea(Triangle(Point(0.0, 0.0), Point(4.0, 0.0), Point(2.0, 3.0))) == 6.0
  {
  }
}
