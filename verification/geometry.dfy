/** Plane geometry shared by the hit tests and the spawn-placement test.

    Coordinates are exact reals. The game compares a Euclidean distance
    (computed with a square root) against a reach; here the comparison is
    made on squared distances, and `WithinMatchesDistance` shows that the
    two agree for every pair of centres.
 */
module Geometry {

  /** Absolute value of a real. */
  function Abs(v: real): (r: real)
    ensures r >= 0.0
    ensures r == v || r == -v
  {
    if v < 0.0 then -v else v
  }

  /** The square of `v`. The product is given a name so that the solver
      treats it as one term instead of mixing it into other products. */
  function Sq(v: real): (s: real)
  {
    v * v
  }

  /** Square of the distance between the centres (x1, y1) and (x2, y2). */
  function DistSq(x1: real, y1: real, x2: real, y2: real): (d: real)
    ensures d >= 0.0
  {
    Sq(x1 - x2) + Sq(y1 - y2)
  }

  /** The two centres are strictly closer than `reach`, stated on squares:
      a distance is never negative, so it can only be below a positive reach. */
  predicate Within(x1: real, y1: real, x2: real, y2: real, reach: real)
  {
    0.0 < reach && DistSq(x1, y1, x2, y2) < Sq(reach)
  }

  /** Squaring is strictly increasing on the non-negative reals. */
  lemma SquareLess(a: real, b: real)
    requires 0.0 <= a < b
    ensures Sq(a) < Sq(b)
  {
    assert Sq(a) <= a * b;
    assert a * b < Sq(b);
  }

  /** Comparing |v| with a positive bound `c` is comparing their squares. */
  lemma SquareBounds(v: real, c: real)
    requires 0.0 < c
    ensures Abs(v) < c ==> Sq(v) < Sq(c)
    ensures c <= Abs(v) ==> Sq(c) <= Sq(v)
  {
    assert Sq(v) == Sq(Abs(v));
    if Abs(v) < c {
      SquareLess(Abs(v), c);
    } else if c < Abs(v) {
      SquareLess(c, Abs(v));
    }
  }

  /** The circle of radius `reach` lies between two boxes: a point inside it
      is closer than `reach` on each axis, and a point closer than `inner` on
      both axes is inside it when the square of side 2 * `inner` fits. */
  lemma WithinBetweenBoxes(x1: real, y1: real, x2: real, y2: real, reach: real, inner: real)
    requires 0.0 < inner && 0.0 < reach
    requires Sq(inner) + Sq(inner) < Sq(reach)
    ensures Within(x1, y1, x2, y2, reach) ==> Abs(x1 - x2) < reach && Abs(y1 - y2) < reach
    ensures Abs(x1 - x2) < inner && Abs(y1 - y2) < inner ==> Within(x1, y1, x2, y2, reach)
  {
    SquareBounds(x1 - x2, reach);
    SquareBounds(y1 - y2, reach);
    SquareBounds(x1 - x2, inner);
    SquareBounds(y1 - y2, inner);
  }

  /** For any non-negative `d` whose square is the squared distance (that is,
      `d` is the Euclidean distance), `Within` holds exactly when `d < reach`. */
  lemma WithinMatchesDistance(x1: real, y1: real, x2: real, y2: real, reach: real, d: real)
    requires 0.0 <= d
    requires Sq(d) == DistSq(x1, y1, x2, y2)
    ensures Within(x1, y1, x2, y2, reach) <==> d < reach
  {
    if d < reach {
      SquareLess(d, reach);
    } else if 0.0 < reach {
      if reach < d {
        SquareLess(reach, d);
      }
    }
  }

  /** The test does not depend on which centre comes first. */
  lemma WithinSymmetric(x1: real, y1: real, x2: real, y2: real, reach: real)
    ensures Within(x1, y1, x2, y2, reach) <==> Within(x2, y2, x1, y1, reach)
  {
    assert Sq(x1 - x2) == Sq(x2 - x1);
    assert Sq(y1 - y2) == Sq(y2 - y1);
  }
}
