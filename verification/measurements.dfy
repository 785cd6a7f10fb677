/**
 * The "Triangle Properties" panel of the interactive explorer: the three side
 * lengths of the draggable triangle, its perimeter and its type.
 *
 * A side length is `Math.sqrt` of a squared distance; the model carries the
 * three lengths in a `Sides` value and `IsSidesOf` ties them to the vertices.
 */
module Measurements {
  import opened Geometry

  /** `(q.x - p.x) ** 2 + (q.y - p.y) ** 2`, the radicand of a side length. */
  function DistSq(p: Point, q: Point): real
  {
    (q.x - p.x) * (q.x - p.x) + (q.y - p.y) * (q.y - p.y)
  }

  lemma {:induction false} SquareNonNegative(r: real)
    ensures r * r >= 0.0
    ensures r * r == 0.0 ==> r == 0.0
  {
    if r > 0.0 {
      SquareStrictlyMonotone(0.0, r);
    } else if r < 0.0 {
      SquareStrictlyMonotone(0.0, -r);
      assert (-r) * (-r) == r * r;
    }
  }

  /** A squared distance is never negative, and is 0 exactly between equal points. */
  lemma {:induction false} DistSqZero(p: Point, q: Point)
    ensures DistSq(p, q) >= 0.0
    ensures DistSq(p, q) == 0.0 <==> p == q
  {
    var dx, dy := q.x - p.x, q.y - p.y;
    SquareNonNegative(dx);
    SquareNonNegative(dy);
    var sx, sy := dx * dx, dy * dy;
    assert DistSq(p, q) == sx + sy;
    if DistSq(p, q) == 0.0 {
      assert sx == 0.0 && sy == 0.0;
      assert dx == 0.0 && dy == 0.0;
      assert p == Point(q.x, q.y);
    }
  }

  /** The side lengths AB, BC and CA, in the order the panel lists them. */
  datatype Sides = Sides(ab: real, bc: real, ca: real)

  /** `s` holds the square roots of the three squared distances of `t`. */
  predicate IsSidesOf(t: Triangle, s: Sides)
  {
    && IsRoot(DistSq(t.a, t.b), s.ab)
    && IsRoot(DistSq(t.b, t.c), s.bc)
    && IsRoot(DistSq(t.c, t.a), s.ca)
  }

  /**
   * The perimeter `sideAB + sideBC + sideCA`.  It is never negative, and it
   * is 0 exactly when the three vertices coincide.
   */
  function Perimeter(t: Triangle, s: Sides): (p: real)
    requires IsSidesOf(t, s)
    ensures p >= 0.0
    ensures p >= s.ab && p >= s.bc && p >= s.ca
    ensures p == 0.0 <==> t.a == t.b && t.b == t.c
  {
    DistSqZero(t.a, t.b);
    DistSqZero(t.b, t.c);
    DistSqZero(t.c, t.a);
    RootPositive(DistSq(t.a, t.b), s.ab);
    RootPositive(DistSq(t.b, t.c), s.bc);
    RootPositive(DistSq(t.c, t.a), s.ca);
    s.ab + s.bc + s.ca
  }

  // ---------------------------------------------------------------------
  // Classification
  // ---------------------------------------------------------------------

  datatype Kind = Equilateral | Isosceles | Scalene

  /** Two lengths count as equal when they differ by less than this. */
  const Tolerance: real := 2.0

  predicate Near(x: real, y: real)
    ensures x == y ==> Near(x, y)
  {
    Abs(x - y) < Tolerance
  }

  /** Nearness does not depend on which length is named first. */
  lemma NearSymmetric(x: real, y: real)
    ensures Near(x, y) <==> Near(y, x)
  {
  }

  /** How many of the three pairs (AB,BC), (BC,CA), (CA,AB) are near each other. */
  function NearPairs(s: Sides): (n: nat)
    ensures n <= 3
  {
    (if Near(s.ab, s.bc) then 1 else 0)
    + (if Near(s.bc, s.ca) then 1 else 0)
    + (if Near(s.ca, s.ab) then 1 else 0)
  }

  /**
   * The type shown on the panel.  Equilateral is tested first and compares
   * only AB with BC and BC with CA; Isosceles then accepts any near pair.
   */
  function Classify(s: Sides): (k: Kind)
    ensures k == Scalene <==> NearPairs(s) == 0
    ensures k == Equilateral ==> NearPairs(s) >= 2
    ensures k == Isosceles ==> 1 <= NearPairs(s) <= 2
    ensures NearPairs(s) == 3 ==> k == Equilateral
  {
    if Near(s.ab, s.bc) && Near(s.bc, s.ca) then Equilateral
    else if Near(s.ab, s.bc) || Near(s.bc, s.ca) || Near(s.ca, s.ab) then Isosceles
    else Scalene
  }

  /**
   * The precedence of the two tests: Equilateral exactly when AB is near BC
   * and BC is near CA; Isosceles exactly when that fails and some pair is near.
   */
  lemma ClassifyPrecedence(s: Sides)
    ensures Classify(s) == Equilateral <==> Near(s.ab, s.bc) && Near(s.bc, s.ca)
    ensures Classify(s) == Isosceles <==>
      !(Near(s.ab, s.bc) && Near(s.bc, s.ca)) && (Near(s.ab, s.bc) || Near(s.bc, s.ca) || Near(s.ca, s.ab))
  {
  }

  /** Whether a triangle is scalene does not depend on how its sides are named. */
  lemma ScaleneSymmetric(s: Sides)
    ensures Classify(s) == Scalene <==> Classify(Sides(s.bc, s.ca, s.ab)) == Scalene
    ensures Classify(s) == Scalene <==> Classify(Sides(s.ab, s.ca, s.bc)) == Scalene
  {
  }

  /** Sides that are exactly equal are always classified Equilateral. */
  lemma ExactlyEquilateral(x: real)
    ensures Classify(Sides(x, x, x)) == Equilateral
  {
  }

  /** Two exactly equal sides are never classified Scalene. */
  lemma ExactlyIsoscelesNotScalene(x: real, y: real)
    ensures Classify(Sides(x, x, y)) != Scalene
    ensures Classify(Sides(x, y, x)) != Scalene
    ensures Classify(Sides(y, x, x)) != Scalene
  {
  }

  /**
   * Because CA is not compared with AB, an Equilateral triangle may have CA
   * and AB up to (but not including) twice the tolerance apart, and some do
   * differ by more than the tolerance.
   */
  lemma EquilateralSpread(s: Sides)
    requires Classify(s) == Equilateral
    ensures Abs(s.ca - s.ab) < 2.0 * Tolerance
  {
  }

  lemma EquilateralWithFarPair()
    ensures var s := Sides(10.0, 11.9, 13.8);
      Classify(s) == Equilateral && !Near(s.ca, s.ab) && IsValidTriangle(s.ab, s.bc, s.ca)
  {
  }

  // ---------------------------------------------------------------------
  // Heron's formula on the vertices' side lengths equals the coordinate area
  // ---------------------------------------------------------------------

  /** 16 times the radicand, with its four factors grouped in two pairs. */
  lemma {:induction false} RadicandAsPairs(a: real, b: real, c: real)
    ensures 16.0 * Radicand(a, b, c) == ((a + b + c) * (a + c - b)) * ((b + c - a) * (a + b - c))
  {
    RadicandFactors(a, b, c);
    var f1, f2, f3, f4 := a + b + c, b + c - a, a + c - b, a + b - c;
    assert f1 * (f2 * f3 * f4) == (f1 * f3) * (f2 * f4);
  }

  /** Each pair of factors is a difference of squares. */
  lemma FactorPairs(a: real, b: real, c: real)
    ensures (a + b + c) * (a + c - b) == (a * a + c * c - b * b) + 2.0 * (a * c)
    ensures (b + c - a) * (a + b - c) == 2.0 * (a * c) - (a * a + c * c - b * b)
  {
  }

  lemma ProductOfPairs(m: real, x: real)
    ensures (x + 2.0 * m) * (2.0 * m - x) == 4.0 * (m * m) - x * x
  {
  }

  lemma SquareOfProduct(a: real, c: real)
    ensures (a * c) * (a * c) == (a * a) * (c * c)
  {
  }

  /**
   * Heron's radicand in terms of the squared sides `sa`, `sb`, `sc` of
   * `a`, `b`, `c`, with `b` singled out.
   */
  lemma {:induction false} RadicandBySquares(a: real, b: real, c: real, sa: real, sb: real, sc: real)
    requires sa == a * a && sb == b * b && sc == c * c
    ensures 16.0 * Radicand(a, b, c) == 4.0 * sa * sc - (sa + sc - sb) * (sa + sc - sb)
  {
    RadicandAsPairs(a, b, c);
    FactorPairs(a, b, c);
    var m, x := a * c, sa + sc - sb;
    ProductOfPairs(m, x);
    SquareOfProduct(a, c);
    assert 16.0 * Radicand(a, b, c) == 4.0 * (m * m) - x * x;
    assert 4.0 * (m * m) == 4.0 * sa * sc;
  }

  /** Lagrange's identity in two dimensions. */
  lemma LagrangeIdentity(ux: real, uy: real, vx: real, vy: real)
    ensures (ux * ux + uy * uy) * (vx * vx + vy * vy) - (ux * vx + uy * vy) * (ux * vx + uy * vy)
         == (ux * vy - uy * vx) * (ux * vy - uy * vx)
  {
  }

  /**
   * The squared-sides form of Heron's radicand for the triangle with corners
   * 0, u and v is a multiple of the square of the cross product of u and v.
   */
  lemma {:induction false} HeronInCoordinates(ux: real, uy: real, vx: real, vy: real,
                                               su: real, sv: real, sw: real, cross: real)
    requires su == ux * ux + uy * uy
    requires sv == vx * vx + vy * vy
    requires sw == (vx - ux) * (vx - ux) + (vy - uy) * (vy - uy)
    requires cross == ux * vy - uy * vx
    ensures 4.0 * su * sv - (su + sv - sw) * (su + sv - sw) == 4.0 * (cross * cross)
  {
    var dot := ux * vx + uy * vy;
    assert su + sv - sw == 2.0 * dot;
    LagrangeIdentity(ux, uy, vx, vy);
    calc {
      4.0 * su * sv - (su + sv - sw) * (su + sv - sw);
      4.0 * su * sv - (2.0 * dot) * (2.0 * dot);
      4.0 * (su * sv - dot * dot);
    }
  }

  /** The squared side lengths of `t`, in the edge vectors u = B - A and v = C - A. */
  lemma {:induction false} SidesInEdgeVectors(t: Triangle, s: Sides)
    requires IsSidesOf(t, s)
    ensures var ux, uy, vx, vy := t.b.x - t.a.x, t.b.y - t.a.y, t.c.x - t.a.x, t.c.y - t.a.y;
      && s.ab * s.ab == ux * ux + uy * uy
      && s.ca * s.ca == vx * vx + vy * vy
      && s.bc * s.bc == (vx - ux) * (vx - ux) + (vy - uy) * (vy - uy)
  {
    var vx, vy := t.c.x - t.a.x, t.c.y - t.a.y;
    assert (t.a.x - t.c.x) * (t.a.x - t.c.x) == vx * vx;
    assert (t.a.y - t.c.y) * (t.a.y - t.c.y) == vy * vy;
  }

  /** Four times the squared coordinate area is the squared cross product of the edge vectors. */
  lemma {:induction false} ShoelaceSquared(t: Triangle)
    ensures var cross := (t.b.x - t.a.x) * (t.c.y - t.a.y) - (t.b.y - t.a.y) * (t.c.x - t.a.x);
      4.0 * (ShoelaceArea(t) * ShoelaceArea(t)) == cross * cross
  {
    SignedDoubleAreaTranslation(t.a, t.b, t.c, -t.a.x, -t.a.y);
    var d := SignedDoubleArea(t.a, t.b, t.c);
    var h := ShoelaceArea(t);
    assert h == d / 2.0 || h == -(d / 2.0);
    assert h * h == (d * d) / 4.0;
  }

  /**
   * The squared area of Heron's formula on the side lengths of the draggable
   * triangle equals the squared (unscaled) coordinate area.
   */
  lemma {:induction false} RadicandIsSquaredShoelace(t: Triangle, s: Sides)
    requires IsSidesOf(t, s)
    ensures Radicand(s.ab, s.bc, s.ca) == ShoelaceArea(t) * ShoelaceArea(t)
  {
    var ux, uy := t.b.x - t.a.x, t.b.y - t.a.y;
    var vx, vy := t.c.x - t.a.x, t.c.y - t.a.y;
    var su, sv, sw := s.ab * s.ab, s.ca * s.ca, s.bc * s.bc;
    var cross := ux * vy - uy * vx;
    SidesInEdgeVectors(t, s);
    RadicandBySquares(s.ab, s.bc, s.ca, su, sw, sv);
    HeronInCoordinates(ux, uy, vx, vy, su, sv, sw, cross);
    ShoelaceSquared(t);
  }

  /**
   * Heron's formula applied to the side lengths of the draggable triangle
   * gives exactly its unscaled coordinate area.
   */
  lemma {:induction false} HeronAgreesWithShoelace(t: Triangle, s: Sides, root: real)
    requires IsSidesOf(t, s)
    requires IsRoot(Radicand(s.ab, s.bc, s.ca), root)
    ensures HeronArea(s.ab, s.bc, s.ca, root) == ShoelaceArea(t)
  {
    RadicandIsSquaredShoelace(t, s);
    var h := ShoelaceArea(t);
    assert IsRoot(Radicand(s.ab, s.bc, s.ca), h);
    RootUnique(Radicand(s.ab, s.bc, s.ca), root, h);
  }

  /** The squared distance does not depend on the direction it is measured in. */
  lemma {:induction false} DistSqSymmetric(p: Point, q: Point)
    ensures DistSq(p, q) == DistSq(q, p)
  {
    var dx, dy := q.x - p.x, q.y - p.y;
    assert (p.x - q.x) * (p.x - q.x) == dx * dx;
    assert (p.y - q.y) * (p.y - q.y) == dy * dy;
  }

  /**
   * When two vertices coincide (a drag can clamp two of them to the same
   * corner of the canvas), one side is 0 and the other two are equal, so the
   * test fails, and the coordinate area is 0.
   */
  lemma {:induction false} CoincidentVerticesDegenerate(t: Triangle, s: Sides)
    requires IsSidesOf(t, s)
    requires t.a == t.b || t.b == t.c || t.c == t.a
    ensures !IsValidTriangle(s.ab, s.bc, s.ca)
    ensures VertexArea(t) == 0.0
  {
    if t.a == t.b {
      RootUnique(0.0, s.ab, 0.0);
      DistSqSymmetric(t.c, t.a);
      RootUnique(DistSq(t.b, t.c), s.bc, s.ca);
    } else if t.b == t.c {
      RootUnique(0.0, s.bc, 0.0);
      DistSqSymmetric(t.a, t.b);
      RootUnique(DistSq(t.c, t.a), s.ca, s.ab);
    } else {
      RootUnique(0.0, s.ca, 0.0);
      DistSqSymmetric(t.b, t.c);
      RootUnique(DistSq(t.a, t.b), s.ab, s.bc);
    }
  }

  /**
   * For every three vertices, the side lengths pass the
   * triangle-inequality test exactly when the vertices are not collinear,
   * that is, when the displayed coordinate area is positive.
   */
  lemma {:induction false} SidesValidIffPositiveArea(t: Triangle, s: Sides)
    requires IsSidesOf(t, s)
    ensures IsValidTriangle(s.ab, s.bc, s.ca) <==> VertexArea(t) > 0.0
  {
    if t.a == t.b || t.b == t.c || t.c == t.a {
      CoincidentVerticesDegenerate(t, s);
      return;
    }
    DistSqZero(t.a, t.b);
    DistSqZero(t.b, t.c);
    DistSqZero(t.c, t.a);
    RootPositive(DistSq(t.a, t.b), s.ab);
    RootPositive(DistSq(t.b, t.c), s.bc);
    RootPositive(DistSq(t.c, t.a), s.ca);
    HeronRadicandSign(s.ab, s.bc, s.ca);
    RadicandIsSquaredShoelace(t, s);
    var h := ShoelaceArea(t);
    SquareNonNegative(h);
    if h > 0.0 {
      SquareStrictlyMonotone(0.0, h);
    }
    assert Radicand(s.ab, s.bc, s.ca) > 0.0 <==> h > 0.0;
  }
}
