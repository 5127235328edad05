/** Geometry helpers shared by the slicer, clipper, offsetter and path
    generator (src/STL/Methods.py). Points and vectors are the source's
    Python lists of floats, here sequences of exact reals. */
module Methods {
  import opened Wrappers

  type Vec = seq<real>

  /** Default tolerance of `checkSimilarTuples`. */
  const SimilarTol: real := 0.01

  function Abs(x: real): real {
    if x < 0.0 then -x else x
  }

  /** `x` lies between `a` and `b`, endpoints included, in either order. */
  predicate Between(x: real, a: real, b: real) {
    (a <= x <= b) || (b <= x <= a)
  }

  // ---------------------------------------------------------------------
  // checkSimilarTuples
  // ---------------------------------------------------------------------

  /** Sum of the absolute coordinate differences, accumulated left to right. */
  function AbsDiffSum(a: Vec, b: Vec): real
    requires |a| == |b|
  {
    if |a| == 0 then 0.0
    else AbsDiffSum(a[..|a| - 1], b[..|b| - 1]) + Abs(a[|a| - 1] - b[|b| - 1])
  }

  /** The tolerance test of `checkSimilarTuples`: identical lists are always
      similar; lists of different length never are; otherwise the summed
      absolute difference must not exceed `tol`. */
  predicate Similar(a: Vec, b: Vec, tol: real) {
    a == b || (|a| == |b| && AbsDiffSum(a, b) <= tol)
  }

  method CheckSimilarTuples(t1: Vec, t2: Vec, tol: real) returns (r: bool)
    ensures r == Similar(t1, t2, tol)
  {
    if t1 == t2 {
      return true;
    }
    if |t1| != |t2| {
      return false;
    }
    var err := 0.0;
    for i := 0 to |t1|
      invariant err == AbsDiffSum(t1[..i], t2[..i])
    {
      assert t1[..i + 1][..i] == t1[..i] && t2[..i + 1][..i] == t2[..i];
      err := err + Abs(t1[i] - t2[i]);
    }
    assert t1[..|t1|] == t1 && t2[..|t2|] == t2;
    return err <= tol;
  }

  lemma SimilarReflexive(a: Vec, tol: real)
    ensures Similar(a, a, tol)
  {
  }

  lemma SimilarLengthMismatch(a: Vec, b: Vec, tol: real)
    requires |a| != |b|
    ensures !Similar(a, b, tol)
  {
  }

  lemma {:induction false} AbsDiffSumNonNegative(a: Vec, b: Vec)
    requires |a| == |b|
    ensures AbsDiffSum(a, b) >= 0.0
  {
    if |a| > 0 {
      AbsDiffSumNonNegative(a[..|a| - 1], b[..|b| - 1]);
    }
  }

  lemma {:induction false} AbsDiffSumSymmetric(a: Vec, b: Vec)
    requires |a| == |b|
    ensures AbsDiffSum(a, b) == AbsDiffSum(b, a)
  {
    if |a| > 0 {
      AbsDiffSumSymmetric(a[..|a| - 1], b[..|b| - 1]);
    }
  }

  lemma {:induction false} AbsDiffSumZero(a: Vec, b: Vec)
    requires |a| == |b|
    ensures AbsDiffSum(a, b) == 0.0 <==> a == b
  {
    if |a| > 0 {
      AbsDiffSumZero(a[..|a| - 1], b[..|b| - 1]);
      AbsDiffSumNonNegative(a[..|a| - 1], b[..|b| - 1]);
      if AbsDiffSum(a, b) == 0.0 {
        assert a == a[..|a| - 1] + [a[|a| - 1]];
        assert b == b[..|b| - 1] + [b[|b| - 1]];
      }
    }
  }

  /** Similarity is symmetric, and with a zero tolerance it is plain equality. */
  lemma SimilarSymmetric(a: Vec, b: Vec, tol: real)
    ensures Similar(a, b, tol) == Similar(b, a, tol)
  {
    if |a| == |b| {
      AbsDiffSumSymmetric(a, b);
    }
  }

  lemma SimilarZeroTolIsEquality(a: Vec, b: Vec)
    ensures Similar(a, b, 0.0) <==> a == b
  {
    if |a| == |b| {
      AbsDiffSumZero(a, b);
      AbsDiffSumNonNegative(a, b);
    }
  }

  // ---------------------------------------------------------------------
  // lineIntersectsDatum, interpolateZ
  // ---------------------------------------------------------------------

  /** Whether the segment p1-p2 meets the plane z = zDatum: either endpoint
      within `tol` of the plane, or the plane between the two endpoint
      heights. */
  function LineIntersectsDatum(p1: Vec, p2: Vec, zDatum: real, tol: real): (r: bool)
    requires |p1| >= 3 && |p2| >= 3
    ensures r <==> (Abs(p1[2] - zDatum) <= tol || Abs(p2[2] - zDatum) <= tol
                    || p2[2] <= zDatum <= p1[2] || p1[2] < zDatum <= p2[2])
    ensures tol >= 0.0 ==> (r <==> (Abs(p1[2] - zDatum) <= tol || Abs(p2[2] - zDatum) <= tol
                                    || Between(zDatum, p1[2], p2[2])))
  {
    if Abs(p1[2] - zDatum) <= tol then true
    else if Abs(p2[2] - zDatum) <= tol then true
    else if p1[2] >= zDatum then p2[2] <= zDatum
    else p2[2] >= zDatum
  }

  /** q lies on the line through p1 and p2 (collinear in the xz and yz planes). */
  predicate OnLine(p1: Vec, p2: Vec, q: Vec)
    requires |p1| >= 3 && |p2| >= 3 && |q| >= 3
  {
    && (q[0] - p1[0]) * (p2[2] - p1[2]) == (q[2] - p1[2]) * (p2[0] - p1[0])
    && (q[1] - p1[1]) * (p2[2] - p1[2]) == (q[2] - p1[2]) * (p2[1] - p1[1])
  }

  /** The point of the line p1-p2 at height zDatum; None when the segment's
      rise is within `tol` of zero. No check that the point lies within the
      segment. */
  function InterpolateZ(p1: Vec, p2: Vec, zDatum: real, tol: real): (r: Option<Vec>)
    requires |p1| >= 3 && |p2| >= |p1| && tol >= 0.0
    ensures r.None? <==> Abs(p2[2] - p1[2]) <= tol
    ensures r.Some? ==> |r.value| == 3 && r.value[2] == zDatum && OnLine(p1, p2, r.value)
  {
    var m0, m1, m2 := p2[0] - p1[0], p2[1] - p1[1], p2[2] - p1[2];
    if Abs(m2) <= tol then None
    else
      var t := (zDatum - p1[2]) / m2;
      InterpolatedOnLine(p1, p2, zDatum, m0, m1, m2, t);
      var q := [p1[0] + t * m0, p1[1] + t * m1, zDatum];
      Some(q)
  }

  lemma InterpolatedOnLine(p1: Vec, p2: Vec, zDatum: real, m0: real, m1: real, m2: real, t: real)
    requires |p1| >= 3 && |p2| >= 3
    requires m0 == p2[0] - p1[0] && m1 == p2[1] - p1[1] && m2 == p2[2] - p1[2] && m2 != 0.0
    requires t == (zDatum - p1[2]) / m2
    ensures OnLine(p1, p2, [p1[0] + t * m0, p1[1] + t * m1, zDatum])
  {
    var q := [p1[0] + t * m0, p1[1] + t * m1, zDatum];
    assert zDatum - p1[2] == t * m2;
    assert (q[0] - p1[0]) * m2 == t * m0 * m2;
    assert (q[1] - p1[1]) * m2 == t * m1 * m2;
  }

  /** When the plane lies between the endpoint heights, the interpolated
      point lies between the endpoints in x and y as well. */
  lemma InterpolateZWithinSegment(p1: Vec, p2: Vec, zDatum: real, tol: real)
    requires |p1| >= 3 && |p2| >= |p1| && tol >= 0.0
    requires Between(zDatum, p1[2], p2[2])
    requires InterpolateZ(p1, p2, zDatum, tol).Some?
    ensures var q := InterpolateZ(p1, p2, zDatum, tol).value;
            Between(q[0], p1[0], p2[0]) && Between(q[1], p1[1], p2[1])
  {
    var m2 := p2[2] - p1[2];
    assert m2 != 0.0;
    var t := (zDatum - p1[2]) / m2;
    assert t * m2 == zDatum - p1[2];
    UnitRatio(zDatum - p1[2], m2, t);
    TimesUnitBetween(t, p1[0], p2[0]);
    TimesUnitBetween(t, p1[1], p2[1]);
  }

  lemma UnitRatio(x: real, m: real, t: real)
    requires m != 0.0 && t * m == x && Between(x, 0.0, m)
    ensures 0.0 <= t <= 1.0
  {
    if m > 0.0 {
      if t < 0.0 { MulPos(-t, m); }
      if t > 1.0 { MulPos(t - 1.0, m); }
    } else {
      if t < 0.0 { MulPos(-t, -m); }
      if t > 1.0 { MulPos(t - 1.0, -m); }
    }
  }

  lemma MulPos(x: real, y: real)
    requires x > 0.0 && y > 0.0
    ensures x * y > 0.0
  {
  }

  lemma MulNonNeg(x: real, y: real)
    requires x >= 0.0 && y >= 0.0
    ensures x * y >= 0.0
  {
  }

  lemma TimesUnitBetween(t: real, a: real, b: real)
    requires 0.0 <= t <= 1.0
    ensures Between(a + t * (b - a), a, b)
  {
    if a <= b {
      MulNonNeg(t, b - a);
      MulNonNeg(1.0 - t, b - a);
      assert (1.0 - t) * (b - a) == (b - a) - t * (b - a);
    } else {
      MulNonNeg(t, a - b);
      MulNonNeg(1.0 - t, a - b);
      assert (1.0 - t) * (a - b) == (a - b) - t * (a - b);
      assert t * (b - a) == -(t * (a - b));
    }
  }

  /** Cancelling a non-zero factor. */
  lemma MulCancel(x: real, y: real, a: real)
    requires a != 0.0 && x * a == y * a
    ensures x == y
  {
    assert (x - y) * a == 0.0;
    if x != y {
      if (x - y > 0.0) == (a > 0.0) {
        if a > 0.0 { MulPos(x - y, a); } else { MulPos(y - x, -a); }
      } else {
        if a > 0.0 { MulPos(y - x, a); } else { MulPos(x - y, -a); }
      }
    }
  }

  /** Multiplying by a positive factor keeps the order. */
  lemma MulLe(x: real, y: real, a: real)
    requires x <= y && a > 0.0
    ensures x * a <= y * a
  {
  }

  lemma MulLt(x: real, y: real, a: real)
    requires x < y && a > 0.0
    ensures x * a < y * a
  {
  }

  /** Dividing out a positive factor keeps the order. */
  lemma MulMonotone(x: real, y: real, a: real)
    requires a > 0.0 && x * a <= y * a
    ensures x <= y
  {
    if x > y {
      MulPos(x - y, a);
    }
  }

  /** The source does not bound the result to the segment: a plane above
      both endpoints still yields a point. */
  lemma InterpolateZExtrapolates()
    ensures InterpolateZ([0.0, 0.0, 0.0], [1.0, 0.0, 1.0], 2.0, 0.00001) == Some([2.0, 0.0, 2.0])
  {
  }

  // ---------------------------------------------------------------------
  // isOutOfBounds
  // ---------------------------------------------------------------------

  /** True when no coordinate lies strictly inside (start, end). */
  method IsOutOfBounds(coords: seq<real>, start: real, end: real) returns (r: bool)
    ensures r <==> forall i :: 0 <= i < |coords| ==> !(start < coords[i] < end)
  {
    for k := 0 to |coords|
      invariant forall i :: 0 <= i < k ==> !(start < coords[i] < end)
    {
      if start < coords[k] && coords[k] < end {
        return false;
      }
    }
    return true;
  }

  // ---------------------------------------------------------------------
  // normalizeVector
  // ---------------------------------------------------------------------

  /** Python's max() of a non-empty list. */
  function SeqMax(v: Vec): (m: real)
    requires |v| > 0
    ensures forall i :: 0 <= i < |v| ==> v[i] <= m
    ensures exists i :: 0 <= i < |v| && v[i] == m
  {
    if |v| == 1 then v[0]
    else
      var rest := SeqMax(v[1..]);
      assert forall i :: 1 <= i < |v| ==> v[i] == v[1..][i - 1];
      if v[0] >= rest then v[0] else rest
  }

  lemma SeqMaxIs(v: Vec, c: real, k: nat)
    requires |v| > 0 && k < |v| && v[k] == c
    requires forall i :: 0 <= i < |v| ==> v[i] <= c
    ensures SeqMax(v) == c
  {
  }

  /** r is v divided entry by entry by a. */
  predicate Scaled(v: Vec, a: real, r: Vec) {
    |r| == |v| && forall i :: 0 <= i < |v| ==> r[i] * a == v[i]
  }

  function ScaleDiv(v: Vec, a: real): (r: Vec)
    requires a != 0.0
    ensures Scaled(v, a, r)
  {
    seq(|v|, i requires 0 <= i < |v| => v[i] / a)
  }

  /** Divides by |max(v)|, the absolute value of the largest entry (not the
      largest absolute value); an all-non-positive vector with maximum 0
      becomes [0, 0, 0]. After a non-zero scaling the largest entry is 1 or
      -1, matching the sign of the original maximum. */
  function NormalizeVector(v: Vec): (r: Vec)
    requires |v| > 0
    ensures SeqMax(v) == 0.0 ==> r == [0.0, 0.0, 0.0]
    ensures SeqMax(v) != 0.0 ==> Scaled(v, Abs(SeqMax(v)), r)
  {
    var a := Abs(SeqMax(v));
    if a == 0.0 then [0.0, 0.0, 0.0] else ScaleDiv(v, a)
  }

  /** The normalised vector's largest entry is 1 or -1, following the sign
      of the original maximum. */
  lemma NormalizeVectorMax(v: Vec)
    requires |v| > 0
    ensures SeqMax(v) > 0.0 ==> SeqMax(NormalizeVector(v)) == 1.0
    ensures SeqMax(v) < 0.0 ==> SeqMax(NormalizeVector(v)) == -1.0
  {
    if SeqMax(v) != 0.0 {
      NormalizedMax(v, Abs(SeqMax(v)), NormalizeVector(v));
    }
  }

  lemma NormalizedMax(v: Vec, a: real, r: Vec)
    requires |v| > 0 && a == Abs(SeqMax(v)) && a != 0.0
    requires Scaled(v, a, r)
    ensures SeqMax(v) > 0.0 ==> SeqMax(r) == 1.0
    ensures SeqMax(v) < 0.0 ==> SeqMax(r) == -1.0
  {
    var m := SeqMax(v);
    var k :| 0 <= k < |v| && v[k] == m;
    var c := if m > 0.0 then 1.0 else -1.0;
    assert c * a == m;
    ScaledBound(v, a, r, c, k);
    SeqMaxIs(r, c, k);
  }

  /** Dividing by a > 0 turns an upper bound c * a, attained at k, into c. */
  lemma ScaledBound(v: Vec, a: real, r: Vec, c: real, k: nat)
    requires a > 0.0 && Scaled(v, a, r) && k < |v|
    requires v[k] == c * a && forall i :: 0 <= i < |v| ==> v[i] <= c * a
    ensures r[k] == c && forall i :: 0 <= i < |v| ==> r[i] <= c
  {
    MulCancel(r[k], c, a);
    forall i | 0 <= i < |v|
      ensures r[i] <= c
    {
      MulMonotone(r[i], c, a);
    }
  }

  // ---------------------------------------------------------------------
  // sumVectors
  // ---------------------------------------------------------------------

  /** All vectors are at least as long as the first one, as `sumVectors`
      indexes every vector up to the first one's length. */
  predicate Summable(vs: seq<Vec>) {
    |vs| > 0 && forall k :: 0 <= k < |vs| ==> |vs[0]| <= |vs[k]|
  }

  /** sum(vector[i] for vector in vectors) */
  function ColumnSum(vs: seq<Vec>, i: nat): real
    requires forall k :: 0 <= k < |vs| ==> i < |vs[k]|
  {
    if |vs| == 0 then 0.0 else ColumnSum(vs[..|vs| - 1], i) + vs[|vs| - 1][i]
  }

  /** Element-wise sum, as long as the first vector. */
  function VectorSum(vs: seq<Vec>): (r: Vec)
    requires Summable(vs)
    ensures |r| == |vs[0]|
  {
    seq(|vs[0]|, i requires 0 <= i < |vs[0]| => ColumnSum(vs, i))
  }

  /** sumVectors: fills the output one coordinate at a time. */
  method SumVectors(vectors: seq<Vec>) returns (out: Vec)
    requires Summable(vectors)
    ensures out == VectorSum(vectors)
  {
    var size := |vectors[0]|;
    out := seq(size, _ => 0.0);
    for i := 0 to size
      invariant |out| == size
      invariant forall k :: 0 <= k < i ==> out[k] == ColumnSum(vectors, k)
    {
      out := out[i := ColumnSum(vectors, i)];
    }
  }

  /** The sum of a single vector is that vector. */
  lemma VectorSumSingle(p: Vec)
    ensures Summable([p]) && VectorSum([p]) == p
  {
    var vs := [p];
    assert vs[..0] == [];
    forall i | 0 <= i < |p|
      ensures VectorSum(vs)[i] == p[i]
    {
      assert ColumnSum(vs, i) == ColumnSum([], i) + p[i];
    }
  }

  /** Summing a point and a displacement adds them coordinate by coordinate. */
  lemma SumTwoVectors(p: Vec, d: Vec)
    requires |p| <= |d|
    ensures Summable([p, d])
    ensures forall i :: 0 <= i < |p| ==> VectorSum([p, d])[i] == p[i] + d[i]
  {
    var vs := [p, d];
    assert vs[..1] == [p] && [p][..0] == [];
    forall i | 0 <= i < |p|
      ensures VectorSum(vs)[i] == p[i] + d[i]
    {
      assert ColumnSum([p], i) == ColumnSum([], i) + p[i];
      assert ColumnSum(vs, i) == ColumnSum([p], i) + d[i];
    }
  }

  /** Column sums of a list with one more vector grow by that vector. */
  lemma {:induction false} ColumnSumLinear(vs: seq<Vec>, ws: seq<Vec>, c: real, i: nat)
    requires |vs| == |ws|
    requires forall k :: 0 <= k < |vs| ==> i < |vs[k]| && i < |ws[k]| && ws[k][i] == c * vs[k][i]
    ensures ColumnSum(ws, i) == c * ColumnSum(vs, i)
  {
    if |vs| > 0 {
      ColumnSumLinear(vs[..|vs| - 1], ws[..|ws| - 1], c, i);
    }
  }

  // ---------------------------------------------------------------------
  // safeAppend
  // ---------------------------------------------------------------------

  predicate HasSimilar(pts: seq<Vec>, p: Vec) {
    exists k :: 0 <= k < |pts| && Similar(pts[k], p, SimilarTol)
  }

  /** Appends `pnt` unless a similar point is already present; afterwards a
      point similar to `pnt` is always present. */
  method SafeAppend(pointsList: seq<Vec>, pnt: Vec) returns (r: seq<Vec>)
    ensures HasSimilar(pointsList, pnt) ==> r == pointsList
    ensures !HasSimilar(pointsList, pnt) ==> r == pointsList + [pnt]
    ensures |r| <= |pointsList| + 1
    ensures HasSimilar(r, pnt)
  {
    for k := 0 to |pointsList|
      invariant forall i :: 0 <= i < k ==> !Similar(pointsList[i], pnt, SimilarTol)
    {
      var similar := CheckSimilarTuples(pointsList[k], pnt, SimilarTol);
      if similar {
        return pointsList;
      }
    }
    r := pointsList + [pnt];
    assert Similar(r[|pointsList|], pnt, SimilarTol);
  }

  // ---------------------------------------------------------------------
  // euclidianDistance
  // ---------------------------------------------------------------------

  /** a times b. Squares are written through it so that the solver treats
      them as a product of two factors (see ProductPositive). */
  function Product(a: real, b: real): real {
    a * b
  }

  function Square(x: real): real {
    Product(x, x)
  }

  lemma ProductPositive(a: real, b: real)
    requires (a > 0.0 && b > 0.0) || (a < 0.0 && b < 0.0)
    ensures Product(a, b) > 0.0
  {
  }

  /** Sum of squared differences over the shorter of the two lengths. */
  function SquaredDistance(p1: Vec, p2: Vec, n: nat): real
    requires n <= |p1| && n <= |p2|
  {
    if n == 0 then 0.0 else SquaredDistance(p1, p2, n - 1) + Square(p2[n - 1] - p1[n - 1])
  }

  function Min(a: int, b: int): int {
    if a <= b then a else b
  }

  /** sqrt is a parameter: the model does not fix how it is computed. */
  function Distance(p1: Vec, p2: Vec, sqrt: real -> real): real {
    sqrt(SquaredDistance(p1, p2, Min(|p1|, |p2|)))
  }

  method EuclidianDistance(p1: Vec, p2: Vec, sqrt: real -> real) returns (r: real)
    ensures r == Distance(p1, p2, sqrt)
  {
    var distance := 0.0;
    var n := Min(|p1|, |p2|);
    for i := 0 to n
      invariant distance == SquaredDistance(p1, p2, i)
    {
      distance := distance + Square(p2[i] - p1[i]);
    }
    return sqrt(distance);
  }

  lemma {:induction false} SquaredDistanceProps(p1: Vec, p2: Vec, n: nat)
    requires n <= |p1| && n <= |p2|
    ensures SquaredDistance(p1, p2, n) >= 0.0
    ensures SquaredDistance(p1, p2, n) == SquaredDistance(p2, p1, n)
    ensures SquaredDistance(p1, p2, n) == 0.0 <==> p1[..n] == p2[..n]
  {
    if n > 0 {
      SquaredDistanceProps(p1, p2, n - 1);
      var d := p2[n - 1] - p1[n - 1];
      SquareFacts(d);
      assert Square(d) == Square(p1[n - 1] - p2[n - 1]) by {
        assert Product(d, d) == Product(-d, -d);
      }
      assert p1[..n] == p1[..n - 1] + [p1[n - 1]];
      assert p2[..n] == p2[..n - 1] + [p2[n - 1]];
      if p1[..n] == p2[..n] {
        assert p1[..n - 1] == p1[..n][..n - 1];
        assert p2[..n - 1] == p2[..n][..n - 1];
      }
    }
  }

  lemma SquareFacts(d: real)
    ensures Square(d) >= 0.0
    ensures d != 0.0 ==> Square(d) > 0.0
    ensures d == 0.0 ==> Square(d) == 0.0
  {
    if d != 0.0 {
      ProductPositive(d, d);
    }
  }

  // ---------------------------------------------------------------------
  // horizontalIntersectsLineSeg, verticalIntersectsLineSeg
  // ---------------------------------------------------------------------

  /** The line y = `y` meets the segment a-b; false for a segment of
      constant y. The test is not symmetric in a and b: when y equals a's
      coordinate and b lies above it, the answer is false. */
  function HorizontalIntersectsLineSeg(y: real, seg: seq<Vec>): (r: bool)
    requires |seg| >= 2 && |seg[0]| >= 2 && |seg[1]| >= 2
    ensures r <==> seg[0][1] != seg[1][1] && (seg[1][1] <= y <= seg[0][1] || seg[0][1] < y <= seg[1][1])
    ensures r ==> Between(y, seg[0][1], seg[1][1])
    ensures seg[0][1] != seg[1][1] && Between(y, seg[0][1], seg[1][1]) && y != seg[0][1] ==> r
  {
    var a := seg[0];
    var b := seg[1];
    if a[1] == b[1] then false
    else if a[1] >= y then b[1] <= y
    else b[1] >= y
  }

  /** The line x = `x` meets the segment a-b; false for a segment of
      constant x. Same asymmetry as the horizontal test. */
  function VerticalIntersectsLineSeg(x: real, seg: seq<Vec>): (r: bool)
    requires |seg| >= 2 && |seg[0]| >= 1 && |seg[1]| >= 1
    ensures r <==> seg[0][0] != seg[1][0] && (seg[1][0] <= x <= seg[0][0] || seg[0][0] < x <= seg[1][0])
    ensures r ==> Between(x, seg[0][0], seg[1][0])
    ensures seg[0][0] != seg[1][0] && Between(x, seg[0][0], seg[1][0]) && x != seg[0][0] ==> r
  {
    var a := seg[0];
    var b := seg[1];
    if a[0] == b[0] then false
    else if a[0] >= x then b[0] <= x
    else b[0] >= x
  }

  /** A scanline through the lower endpoint of a rising segment is missed,
      while the same segment reversed is hit. */
  lemma HorizontalEndpointAsymmetry()
    ensures !HorizontalIntersectsLineSeg(0.0, [[5.0, 0.0], [5.0, 1.0]])
    ensures HorizontalIntersectsLineSeg(0.0, [[5.0, 1.0], [5.0, 0.0]])
  {
  }

  // ---------------------------------------------------------------------
  // orderPoints: lexicographic sort by (x, y, z)
  // ---------------------------------------------------------------------

  /** Lexicographic order on coordinate lists (numpy's sort by fields 0, 1, 2, ...). */
  predicate LexLeq(a: Vec, b: Vec)
    decreases |a|
  {
    |a| == 0 || (|b| > 0 && (a[0] < b[0] || (a[0] == b[0] && LexLeq(a[1..], b[1..]))))
  }

  lemma {:induction false} LexReflexive(a: Vec)
    ensures LexLeq(a, a)
    decreases |a|
  {
    if |a| > 0 {
      LexReflexive(a[1..]);
    }
  }

  lemma {:induction false} LexTotal(a: Vec, b: Vec)
    ensures LexLeq(a, b) || LexLeq(b, a)
    decreases |a|
  {
    if |a| > 0 && |b| > 0 && a[0] == b[0] {
      LexTotal(a[1..], b[1..]);
    }
  }

  lemma {:induction false} LexTransitive(a: Vec, b: Vec, c: Vec)
    requires LexLeq(a, b) && LexLeq(b, c)
    ensures LexLeq(a, c)
    decreases |a|
  {
    if |a| > 0 && a[0] == b[0] && b[0] == c[0] {
      LexTransitive(a[1..], b[1..], c[1..]);
    }
  }

  lemma {:induction false} LexAntisymmetric(a: Vec, b: Vec)
    requires LexLeq(a, b) && LexLeq(b, a)
    ensures a == b
    decreases |a|
  {
    if |a| > 0 {
      LexAntisymmetric(a[1..], b[1..]);
      assert a == [a[0]] + a[1..];
      assert b == [b[0]] + b[1..];
    }
  }

  predicate SortedLex(s: seq<Vec>) {
    forall i, j :: 0 <= i < j < |s| ==> LexLeq(s[i], s[j])
  }

  function InsertLex(x: Vec, s: seq<Vec>): (r: seq<Vec>)
    requires SortedLex(s)
    ensures multiset(r) == multiset(s) + multiset{x}
    ensures SortedLex(r)
  {
    if s == [] then [x]
    else if LexLeq(x, s[0]) then
      BelowHead(x, s);
      [x] + s
    else
      LexTotal(x, s[0]);
      SortedTail(s);
      var rest := InsertLex(x, s[1..]);
      assert s == [s[0]] + s[1..];
      HeadBelowRest(s, x, rest);
      ConsSorted(s[0], rest);
      [s[0]] + rest
  }

  /** Below the head of a sorted list is below all of it. */
  lemma BelowHead(x: Vec, s: seq<Vec>)
    requires SortedLex(s) && |s| > 0 && LexLeq(x, s[0])
    ensures SortedLex([x] + s)
  {
    forall j | 0 < j < |s|
      ensures LexLeq(x, s[j])
    {
      LexTransitive(x, s[0], s[j]);
    }
  }

  lemma HeadBelowRest(s: seq<Vec>, x: Vec, rest: seq<Vec>)
    requires SortedLex(s) && |s| > 0 && LexLeq(s[0], x)
    requires multiset(rest) == multiset(s[1..]) + multiset{x}
    ensures forall j :: 0 <= j < |rest| ==> LexLeq(s[0], rest[j])
  {
    forall j | 0 <= j < |rest|
      ensures LexLeq(s[0], rest[j])
    {
      var e := rest[j];
      assert e in multiset(rest);
      if e != x {
        assert e in multiset(s[1..]);
        var i :| 0 <= i < |s[1..]| && s[1..][i] == e;
        assert s[i + 1] == e;
      }
    }
  }

  lemma ConsSorted(h: Vec, rest: seq<Vec>)
    requires SortedLex(rest)
    requires forall j :: 0 <= j < |rest| ==> LexLeq(h, rest[j])
    ensures SortedLex([h] + rest)
  {
    forall i, j | 0 <= i < j < |rest| + 1
      ensures LexLeq(([h] + rest)[i], ([h] + rest)[j])
    {
      if i > 0 {
        assert ([h] + rest)[i] == rest[i - 1];
      }
      assert ([h] + rest)[j] == rest[j - 1];
    }
  }

  function SortLex(s: seq<Vec>): (r: seq<Vec>)
    ensures multiset(r) == multiset(s)
    ensures SortedLex(r)
  {
    if s == [] then []
    else
      assert s == [s[0]] + s[1..];
      InsertLex(s[0], SortLex(s[1..]))
  }

  /** Every point has the same number of coordinates as the first. */
  predicate Uniform(pts: seq<Vec>) {
    forall k :: 0 <= k < |pts| ==> |pts[k]| == |pts[0]|
  }

  /** None and lists of at most one point come back unchanged; longer lists
      come back as the lexicographically sorted permutation. Points of
      different lengths do not fit the structured array built from the
      first point's length, and `np.array` raises (None). */
  function OrderPoints(points: Option<seq<Vec>>): (r: Option<seq<Vec>>)
    ensures points.None? || |points.value| <= 1 ==> r == points
    ensures points.Some? && !Uniform(points.value) ==> r.None?
    ensures points.Some? && Uniform(points.value) ==>
      r.Some? && multiset(r.value) == multiset(points.value) && SortedLex(r.value)
  {
    match points
    case None => None
    case Some(pts) => if |pts| <= 1 then points else if !Uniform(pts) then None else Some(SortLex(pts))
  }

  lemma SortedTail(s: seq<Vec>)
    requires |s| > 0 && SortedLex(s)
    ensures SortedLex(s[1..])
  {
    forall i, j | 0 <= i < j < |s| - 1
      ensures LexLeq(s[1..][i], s[1..][j])
    {
      assert s[1..][i] == s[i + 1] && s[1..][j] == s[j + 1];
    }
  }

  /** The sorted order is unique: any sorted permutation is the result. */
  lemma {:induction false} SortedPermutationUnique(a: seq<Vec>, b: seq<Vec>)
    requires multiset(a) == multiset(b) && SortedLex(a) && SortedLex(b)
    ensures a == b
    decreases |a|
  {
    if |a| > 0 {
      assert |b| == |multiset(b)| == |multiset(a)| == |a|;
      assert a[0] in multiset(b);
      assert b[0] in multiset(a);
      var i :| 0 <= i < |b| && b[i] == a[0];
      var j :| 0 <= j < |a| && a[j] == b[0];
      LexReflexive(a[0]);
      LexReflexive(b[0]);
      assert LexLeq(b[0], b[i]);
      assert LexLeq(a[0], a[j]);
      LexAntisymmetric(a[0], b[0]);
      assert a == [a[0]] + a[1..];
      assert b == [b[0]] + b[1..];
      assert multiset(a) == multiset{a[0]} + multiset(a[1..]);
      assert multiset(b) == multiset{b[0]} + multiset(b[1..]);
      assert multiset(a[1..]) == multiset(a) - multiset{a[0]};
      assert multiset(b[1..]) == multiset(b) - multiset{b[0]};
      SortedTail(a);
      SortedTail(b);
      SortedPermutationUnique(a[1..], b[1..]);
    }
  }

  // ---------------------------------------------------------------------
  // sortByOrderedSet
  // ---------------------------------------------------------------------

  /** Python's list.index: the first position holding x. */
  function FirstIndex(s: seq<Vec>, x: Vec): (r: nat)
    requires x in s
    ensures r < |s| && s[r] == x && forall j :: 0 <= j < r ==> s[j] != x
  {
    if s[0] == x then 0 else 1 + FirstIndex(s[1..], x)
  }

  /** Every point of `original` is in `toMatch`, at a position within
      `toSort`. */
  predicate Matchable(toSort: seq<Vec>, toMatch: seq<Vec>, original: seq<Vec>) {
    forall k :: 0 <= k < |original| ==> original[k] in toMatch && FirstIndex(toMatch, original[k]) < |toSort|
  }

  /** Entry k of the result is toSort at the first position of original[k]
      in toMatch. None where the source raises: a point missing from
      toMatch (ValueError from `list.index`) or a position past the end of
      toSort (IndexError). */
  method SortByOrderedSet(toSort: seq<Vec>, toMatch: seq<Vec>, original: seq<Vec>)
    returns (out: Option<seq<Vec>>)
    ensures out.Some? <==> Matchable(toSort, toMatch, original)
    ensures out.Some? ==> |out.value| == |original|
    ensures out.Some? ==> forall k :: 0 <= k < |original| ==> out.value[k] == toSort[FirstIndex(toMatch, original[k])]
  {
    var sorted := [];
    for k := 0 to |original|
      invariant |sorted| == k
      invariant forall i :: 0 <= i < k ==> original[i] in toMatch && FirstIndex(toMatch, original[i]) < |toSort|
      invariant forall i :: 0 <= i < k ==> sorted[i] == toSort[FirstIndex(toMatch, original[i])]
    {
      if original[k] !in toMatch {
        return None;
      }
      var index := FirstIndex(toMatch, original[k]);
      if index >= |toSort| {
        return None;
      }
      sorted := sorted + [toSort[index]];
    }
    return Some(sorted);
  }

  // ---------------------------------------------------------------------
  // NormalSign, calculateNormal
  // ---------------------------------------------------------------------

  /** Sign of the x component (horizontal scan) or of the y component. */
  function NormalSign(vector: Vec, isHorizontal: bool): (r: int)
    requires |vector| >= 2
    ensures r == 0 || r == 1 || r == -1
    ensures var a := if isHorizontal then vector[0] else vector[1];
            (r == 0 <==> a == 0.0) && (r == 1 <==> a > 0.0) && (r == -1 <==> a < 0.0)
  {
    var a := if isHorizontal then vector[0] else vector[1];
    if a == 0.0 then 0 else if a > 0.0 then 1 else -1
  }

  function Sub(u: Vec, v: Vec): (r: Vec)
    requires |u| <= |v|
    ensures |r| == |u| && forall i :: 0 <= i < |u| ==> r[i] == u[i] - v[i]
  {
    seq(|u|, i requires 0 <= i < |u| => u[i] - v[i])
  }

  function Dot3(u: Vec, v: Vec): real
    requires |u| >= 3 && |v| >= 3
  {
    u[0] * v[0] + u[1] * v[1] + u[2] * v[2]
  }

  function Cross(u: Vec, v: Vec): (r: Vec)
    requires |u| == 3 && |v| == 3
    ensures |r| == 3 && Dot3(r, u) == 0.0 && Dot3(r, v) == 0.0
  {
    var r := [u[1] * v[2] - u[2] * v[1], u[2] * v[0] - u[0] * v[2], u[0] * v[1] - u[1] * v[0]];
    CrossOrthogonal(u[0], u[1], u[2], v[0], v[1], v[2]);
    r
  }

  lemma CrossOrthogonal(a0: real, a1: real, a2: real, b0: real, b1: real, b2: real)
    ensures (a1 * b2 - a2 * b1) * a0 + (a2 * b0 - a0 * b2) * a1 + (a0 * b1 - a1 * b0) * a2 == 0.0
    ensures (a1 * b2 - a2 * b1) * b0 + (a2 * b0 - a0 * b2) * b1 + (a0 * b1 - a1 * b0) * b2 == 0.0
  {
  }

  lemma ScaledDot3(c: Vec, n: Vec, m: real, w: Vec)
    requires |c| == 3 && |w| >= 3 && m != 0.0 && Scaled(c, m, n)
    requires Dot3(c, w) == 0.0
    ensures Dot3(n, w) == 0.0
  {
    assert Dot3(n, w) * m == (n[0] * m) * w[0] + (n[1] * m) * w[1] + (n[2] * m) * w[2];
    MulCancel(Dot3(n, w), 0.0, m);
  }

  /** Cross product of (q - r) and (q - s), divided by its largest entry
      unless that entry is 0. Either way the result is perpendicular to both
      edge vectors and is a multiple of the cross product. */
  function CalculateNormal(q: Vec, r: Vec, s: Vec): (n: Vec)
    requires |q| == 3 && |r| == 3 && |s| == 3
    ensures |n| == 3
    ensures Dot3(n, Sub(q, r)) == 0.0 && Dot3(n, Sub(q, s)) == 0.0
    ensures var c := Cross(Sub(q, r), Sub(q, s));
            SeqMax(c) == 0.0 ==> n == c
    ensures var c := Cross(Sub(q, r), Sub(q, s));
            SeqMax(c) != 0.0 ==> Scaled(c, SeqMax(c), n)
  {
    var qr := Sub(q, r);
    var qs := Sub(q, s);
    var c := Cross(qr, qs);
    var m := SeqMax(c);
    if m == 0.0 then c
    else
      var n := ScaleDiv(c, m);
      ScaledDot3(c, n, m, qr);
      ScaledDot3(c, n, m, qs);
      n
  }
}
