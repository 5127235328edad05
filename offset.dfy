/** Vertex offsetting of a mesh (src/STL/Offset.py). Every vertex moves
    along a direction built from the normals of the faces that touch it:
    the normals are collected, cleaned of duplicates, weighted through the
    solution of a Gram-matrix system and averaged, then the direction is
    normalised and scaled by the offset.

    Two pieces of the source are not visible and are parameters here:
    `np.linalg.solve` (None stands for LinAlgError) and `cleanDuplicates`,
    which Methods.py does not define. An operation that would end with an
    uncaught exception (IndexError, ValueError) gives None. */
module Offset {
  import opened Wrappers
  import opened Methods
  import opened ReadStl

  /** cleanDuplicates(normals, tol); None stands for its default tolerance. */
  type Cleaner = (seq<Vec>, Option<real>) -> seq<Vec>

  /** np.linalg.solve(matrix, ones(len(matrix))); None stands for LinAlgError. */
  type Solver = seq<seq<real>> -> Option<seq<real>>

  /** Tolerance getOffsetVector passes to cleanDuplicates. */
  const CleanTol: real := 0.2

  // ---------------------------------------------------------------------
  // getConnectedNormals
  // ---------------------------------------------------------------------

  /** Number of vertices that checkSimilarTuples finds similar to `point`. */
  function MatchCount(vs: seq<Vec>, point: Vec): nat {
    if |vs| == 0 then 0
    else MatchCount(vs[..|vs| - 1], point) + (if Similar(vs[|vs| - 1], point, SimilarTol) then 1 else 0)
  }

  /** Some vertex of the face is similar to `point`. */
  predicate Touches(f: Facet, point: Vec) {
    exists j :: 0 <= j < |f.vertices| && Similar(f.vertices[j], point, SimilarTol)
  }

  function Copies(n: nat, x: Vec): (r: seq<Vec>)
    ensures |r| == n && forall i :: 0 <= i < n ==> r[i] == x
  {
    seq(n, _ => x)
  }

  /** The list getConnectedNormals builds before cleaning: each face's
      normal once for every one of its vertices that is similar to `point`
      (the `continue` ends only the current vertex, not the face). */
  function TouchingNormals(faces: seq<Facet>, point: Vec): seq<Vec> {
    if |faces| == 0 then []
    else
      var f := faces[|faces| - 1];
      TouchingNormals(faces[..|faces| - 1], point) + Copies(MatchCount(f.vertices, point), f.normal)
  }

  /** A face contributes its normal exactly when it touches the point. */
  lemma {:induction false} MatchCountPositive(vs: seq<Vec>, point: Vec)
    ensures MatchCount(vs, point) > 0 <==> exists j :: 0 <= j < |vs| && Similar(vs[j], point, SimilarTol)
  {
    if |vs| > 0 {
      var init := vs[..|vs| - 1];
      MatchCountPositive(init, point);
      if MatchCount(init, point) > 0 {
        var j :| 0 <= j < |init| && Similar(init[j], point, SimilarTol);
        assert vs[j] == init[j];
      }
      if exists j :: 0 <= j < |vs| && Similar(vs[j], point, SimilarTol) {
        var j :| 0 <= j < |vs| && Similar(vs[j], point, SimilarTol);
        if j < |vs| - 1 {
          assert init[j] == vs[j];
        }
      }
    }
  }

  /** The raw list holds exactly the normals of the faces touching the
      point: a normal is in it if and only if some face with that normal
      has a vertex similar to the point. */
  lemma {:induction false} TouchingNormalMember(faces: seq<Facet>, point: Vec, n: Vec)
    ensures n in TouchingNormals(faces, point) <==>
      exists k :: 0 <= k < |faces| && faces[k].normal == n && Touches(faces[k], point)
  {
    if |faces| > 0 {
      var init := faces[..|faces| - 1];
      var f := faces[|faces| - 1];
      TouchingNormalMember(init, point, n);
      MatchCountPositive(f.vertices, point);
      var copies := Copies(MatchCount(f.vertices, point), f.normal);
      assert TouchingNormals(faces, point) == TouchingNormals(init, point) + copies;
      if n in TouchingNormals(faces, point) {
        if n in TouchingNormals(init, point) {
          var k :| 0 <= k < |init| && init[k].normal == n && Touches(init[k], point);
          assert faces[k] == init[k];
        } else {
          assert n in copies;
          assert faces[|faces| - 1].normal == n && Touches(faces[|faces| - 1], point);
        }
      }
      if exists k :: 0 <= k < |faces| && faces[k].normal == n && Touches(faces[k], point) {
        var k :| 0 <= k < |faces| && faces[k].normal == n && Touches(faces[k], point);
        if k < |faces| - 1 {
          assert init[k] == faces[k];
        } else {
          assert copies[0] == n;
        }
      }
    }
  }

  /** A face with two vertices at the point contributes its normal twice. */
  lemma DuplicateVertexCountsTwice()
    ensures TouchingNormals([Facet([0.0, 0.0, 1.0], [[0.0, 0.0, 0.0], [0.0, 0.0, 0.0], [1.0, 0.0, 0.0]])], [0.0, 0.0, 0.0])
      == [[0.0, 0.0, 1.0], [0.0, 0.0, 1.0]]
  {
    var p := [0.0, 0.0, 0.0];
    var q := [1.0, 0.0, 0.0];
    var vs := [p, p, q];
    assert AbsDiffSum(q, p) == 1.0 by {
      assert q[..2] == [1.0, 0.0] && p[..2] == [0.0, 0.0];
      assert [1.0, 0.0][..1] == [1.0] && [0.0, 0.0][..1] == [0.0];
      assert [1.0][..0] == [] && [0.0][..0] == [];
    }
    var none: seq<Vec> := [];
    assert q != p by { assert q[0] != p[0]; }
    assert vs[..2] == [p, p] && [p, p][..1] == [p] && [p][..0] == none;
    assert MatchCount([p], p) == 1;
    assert MatchCount([p, p], p) == 2;
    assert MatchCount(vs, p) == 2;
  }

  lemma CopiesStep(n: nat, x: Vec)
    ensures Copies(n + 1, x) == Copies(n, x) + [x]
  {
  }

  /** getConnectedNormals: the touching normals, in face order, passed
      once through cleanDuplicates with its default tolerance. */
  method GetConnectedNormals(stl: Stl, point: Vec, clean: Cleaner) returns (out: seq<Vec>)
    ensures out == clean(TouchingNormals(Snapshot(stl.faces), point), None)
  {
    var faces := stl.faces;
    ghost var input := Snapshot(faces);
    out := [];
    for i := 0 to |faces|
      invariant out == TouchingNormals(input[..i], point)
    {
      var face := faces[i];
      assert input[i] == Facet(face.normal, face.vertices);
      for j := 0 to |face.vertices|
        invariant out == TouchingNormals(input[..i], point) + Copies(MatchCount(face.vertices[..j], point), face.normal)
      {
        assert face.vertices[..j + 1][..j] == face.vertices[..j];
        var similar := CheckSimilarTuples(face.vertices[j], point, SimilarTol);
        if similar {
          CopiesStep(MatchCount(face.vertices[..j], point), face.normal);
          out := out + [face.normal];
        }
      }
      assert face.vertices[..|face.vertices|] == face.vertices;
      assert input[..i + 1][..i] == input[..i];
    }
    assert input[..|faces|] == input;
    out := clean(out, None);
  }

  // ---------------------------------------------------------------------
  // calculateOffsetWeights
  // ---------------------------------------------------------------------

  /** np.dot of two lists of equal length. */
  function Dot(a: Vec, b: Vec): real
    requires |a| == |b|
  {
    if |a| == 0 then 0.0 else Dot(a[..|a| - 1], b[..|b| - 1]) + Product(a[|a| - 1], b[|b| - 1])
  }

  lemma {:induction false} DotSymmetric(a: Vec, b: Vec)
    requires |a| == |b|
    ensures Dot(a, b) == Dot(b, a)
  {
    if |a| > 0 {
      DotSymmetric(a[..|a| - 1], b[..|b| - 1]);
    }
  }

  /** A vector's dot product with itself is a sum of squares: never
      negative, and zero only for the zero vector. */
  lemma {:induction false} DotSelf(a: Vec)
    ensures Dot(a, a) >= 0.0
    ensures Dot(a, a) == 0.0 <==> forall i :: 0 <= i < |a| ==> a[i] == 0.0
  {
    if |a| > 0 {
      var init := a[..|a| - 1];
      DotSelf(init);
      SquareFacts(a[|a| - 1]);
      assert Product(a[|a| - 1], a[|a| - 1]) == Square(a[|a| - 1]);
      if Dot(a, a) == 0.0 {
        forall i | 0 <= i < |a|
          ensures a[i] == 0.0
        {
          if i < |a| - 1 {
            assert a[i] == init[i];
          }
        }
      }
    }
  }

  /** All normals have the length of the first, so every np.dot is defined. */
  predicate SameLength(normals: seq<Vec>) {
    forall i :: 0 <= i < |normals| ==> |normals[i]| == |normals[0]|
  }

  /** The n x n matrix of pairwise dot products. */
  function Gram(normals: seq<Vec>): (m: seq<seq<real>>)
    requires SameLength(normals)
    ensures |m| == |normals| && forall i :: 0 <= i < |m| ==> |m[i]| == |normals|
  {
    seq(|normals|, i requires 0 <= i < |normals| =>
      seq(|normals|, j requires 0 <= j < |normals| => Dot(normals[i], normals[j])))
  }

  /** The Gram matrix is symmetric and its diagonal is non-negative. */
  lemma GramSymmetric(normals: seq<Vec>)
    requires SameLength(normals)
    ensures forall i, j :: 0 <= i < |normals| && 0 <= j < |normals| ==> Gram(normals)[i][j] == Gram(normals)[j][i]
    ensures forall i :: 0 <= i < |normals| ==> Gram(normals)[i][i] >= 0.0
  {
    forall i, j | 0 <= i < |normals| && 0 <= j < |normals|
      ensures Gram(normals)[i][j] == Gram(normals)[j][i]
    {
      DotSymmetric(normals[i], normals[j]);
    }
    forall i | 0 <= i < |normals|
      ensures Gram(normals)[i][i] >= 0.0
    {
      DotSelf(normals[i]);
    }
  }

  /** The two outcomes of calculateOffsetWeights: `[None]` after a
      LinAlgError, or the solved weights. */
  datatype Weights = Singular | Solved(w: seq<real>)

  /** calculateOffsetWeights: a length mismatch makes np.dot raise
      ValueError (None); an empty list gives a 1-D empty array, which
      np.linalg.solve rejects with LinAlgError. */
  function OffsetWeights(normals: seq<Vec>, solve: Solver): Option<Weights> {
    if !SameLength(normals) then None
    else if |normals| == 0 then Some(Singular)
    else match solve(Gram(normals)) {
      case None => Some(Singular)
      case Some(w) => Some(Solved(w))
    }
  }

  /** Builds the matrix row by row, then solves it against a vector of ones. */
  method CalculateOffsetWeights(normals: seq<Vec>, solve: Solver) returns (r: Option<Weights>)
    ensures r == OffsetWeights(normals, solve)
    ensures r.None? <==> !SameLength(normals)
  {
    var n := |normals|;
    var matrix: seq<seq<real>> := [];
    for i := 0 to n
      invariant |matrix| == i
      invariant forall a, b :: 0 <= a < i && 0 <= b < n ==> |normals[a]| == |normals[b]|
      invariant forall a :: 0 <= a < i ==> |matrix[a]| == n
      invariant forall a, b :: 0 <= a < i && 0 <= b < n ==> matrix[a][b] == Dot(normals[a], normals[b])
    {
      var row: seq<real> := [];
      for j := 0 to n
        invariant |row| == j
        invariant forall b :: 0 <= b < j ==> |normals[i]| == |normals[b]| && row[b] == Dot(normals[i], normals[b])
      {
        if |normals[i]| != |normals[j]| {
          return None;
        }
        row := row + [Dot(normals[i], normals[j])];
      }
      matrix := matrix + [row];
    }
    assert SameLength(normals);
    if n == 0 {
      return Some(Singular);
    }
    forall a | 0 <= a < n
      ensures matrix[a] == Gram(normals)[a]
    {
      assert |matrix[a]| == |Gram(normals)[a]|;
    }
    assert matrix == Gram(normals);
    var out := solve(matrix);
    if out.None? {
      return Some(Singular);
    }
    return Some(Solved(out.value));
  }

  // ---------------------------------------------------------------------
  // averageVectors, calculateWeightedVector
  // ---------------------------------------------------------------------

  /** averageVectors: the element-wise sum divided by len(vectors[0]), the
      dimension of the vectors and not their number. An empty list, or a
      later vector shorter than the first, raises IndexError. */
  function AverageVectors(vectors: seq<Vec>): (r: Option<Vec>)
    ensures r.Some? <==> Summable(vectors)
    ensures r.Some? ==> Scaled(VectorSum(vectors), |vectors[0]| as real, r.value)
  {
    if !Summable(vectors) then None
    else
      var l := |vectors[0]|;
      var sum := VectorSum(vectors);
      Some(seq(l, i requires 0 <= i < l => sum[i] / (l as real)))
  }

  /** Three copies of (1, 1) average to (1.5, 1.5): the sum is divided by
      the dimension 2 rather than by the count 3. */
  lemma AverageDividesByDimension()
    ensures AverageVectors([[1.0, 1.0], [1.0, 1.0], [1.0, 1.0]]) == Some([1.5, 1.5])
  {
    var v := [1.0, 1.0];
    var vs := [v, v, v];
    var none: seq<Vec> := [];
    assert vs[..2] == [v, v] && [v, v][..1] == [v] && [v][..0] == none;
    forall c | 0 <= c < 2
      ensures ColumnSum(vs, c) == 3.0
    {
      assert ColumnSum(none, c) == 0.0;
      assert ColumnSum([v], c) == 1.0;
      assert ColumnSum([v, v], c) == 2.0;
    }
    var r := AverageVectors(vs).value;
    assert |r| == 2 && r[0] == 1.5 && r[1] == 1.5;
    assert r == [1.5, 1.5];
  }

  /** Normal i scaled by weight i, as calculateWeightedVector's `temp`. */
  function Weighted(weights: seq<real>, normals: seq<Vec>): seq<Vec>
    requires |normals| <= |weights|
  {
    seq(|normals|, i requires 0 <= i < |normals| =>
      seq(|normals[i]|, j requires 0 <= j < |normals[i]| => normals[i][j] * weights[i]))
  }

  /** calculateWeightedVector: fewer weights than normals raise IndexError. */
  function WeightedVector(weights: seq<real>, normals: seq<Vec>): (r: Option<Vec>)
    ensures r.Some? <==> |normals| <= |weights| && Summable(normals)
  {
    if |weights| < |normals| then None
    else
      var temp := Weighted(weights, normals);
      assert Summable(temp) <==> Summable(normals) by {
        assert forall k :: 0 <= k < |normals| ==> |temp[k]| == |normals[k]|;
      }
      AverageVectors(temp)
  }

  /** With every weight equal to c the weighted vector is c times the
      plain average of the normals. */
  lemma WeightedUniform(weights: seq<real>, normals: seq<Vec>, c: real)
    requires |normals| <= |weights| && Summable(normals)
    requires forall i :: 0 <= i < |weights| ==> weights[i] == c
    ensures WeightedVector(weights, normals).Some? && AverageVectors(normals).Some?
    ensures |WeightedVector(weights, normals).value| == |AverageVectors(normals).value|
    ensures forall j :: 0 <= j < |AverageVectors(normals).value| ==>
      WeightedVector(weights, normals).value[j] == c * AverageVectors(normals).value[j]
  {
    forall j | 0 <= j < |normals[0]|
      ensures WeightedVector(weights, normals).value[j] == c * AverageVectors(normals).value[j]
    {
      WeightedUniformAt(weights, normals, c, j);
    }
  }

  lemma WeightedUniformAt(weights: seq<real>, normals: seq<Vec>, c: real, j: nat)
    requires |normals| <= |weights| && Summable(normals) && j < |normals[0]|
    requires forall i :: 0 <= i < |weights| ==> weights[i] == c
    ensures WeightedVector(weights, normals).Some? && AverageVectors(normals).Some?
    ensures WeightedVector(weights, normals).value[j] == c * AverageVectors(normals).value[j]
  {
    var temp := Weighted(weights, normals);
    var l := |normals[0]|;
    assert |temp[0]| == l;
    var w := AverageVectors(temp).value;
    var a := AverageVectors(normals).value;
    WeightedColumn(weights, normals, c, j);
    AverageEntry(temp, j);
    AverageEntry(normals, j);
    RescaleEntry(w[j], a[j], ColumnSum(normals, j), c, l as real);
  }

  lemma AverageEntry(vs: seq<Vec>, j: nat)
    requires Summable(vs) && j < |vs[0]|
    ensures AverageVectors(vs).Some?
    ensures AverageVectors(vs).value[j] * (|vs[0]| as real) == ColumnSum(vs, j)
  {
    assert Scaled(VectorSum(vs), |vs[0]| as real, AverageVectors(vs).value);
  }

  /** Column j of the uniformly weighted normals sums to c times column j. */
  lemma WeightedColumn(weights: seq<real>, normals: seq<Vec>, c: real, j: nat)
    requires |normals| <= |weights| && Summable(normals) && j < |normals[0]|
    requires forall i :: 0 <= i < |weights| ==> weights[i] == c
    ensures Summable(Weighted(weights, normals))
    ensures ColumnSum(Weighted(weights, normals), j) == c * ColumnSum(normals, j)
  {
    var temp := Weighted(weights, normals);
    forall k | 0 <= k < |normals|
      ensures j < |temp[k]| && temp[k][j] == c * normals[k][j]
    {
    }
    ColumnSumLinear(normals, temp, c, j);
  }

  lemma RescaleEntry(w: real, a: real, s: real, c: real, l: real)
    requires l > 0.0 && w * l == c * s && a * l == s
    ensures w == c * a
  {
    assert (c * a) * l == c * (a * l);
    MulCancel(w, c * a, l);
  }

  // ---------------------------------------------------------------------
  // getOffsetVector, getOffsetDistance
  // ---------------------------------------------------------------------

  /** getOffsetVector on the cleaned normals: the plain sum after a
      singular solve, the weighted vector otherwise. */
  function OffsetVector(normals: seq<Vec>, solve: Solver): Option<Vec> {
    match OffsetWeights(normals, solve) {
      case None => None
      case Some(Singular) => if Summable(normals) then Some(VectorSum(normals)) else None
      case Some(Solved(w)) => WeightedVector(w, normals)
    }
  }

  /** When the solve fails on normals of one length, the offset vector is
      their plain element-wise sum; a single normal is its own offset
      vector then. */
  lemma SingularSumsNormals(normals: seq<Vec>, solve: Solver)
    requires SameLength(normals) && |normals| > 0 && solve(Gram(normals)).None?
    ensures Summable(normals) && OffsetVector(normals, solve) == Some(VectorSum(normals))
    ensures |normals| == 1 ==> OffsetVector(normals, solve) == Some(normals[0])
  {
    if |normals| == 1 {
      VectorSumSingle(normals[0]);
      assert normals == [normals[0]];
    }
  }

  /** When the solve succeeds with enough weights, the offset vector is
      the weighted average; too few weights raise IndexError. */
  lemma SolvedWeighsNormals(normals: seq<Vec>, solve: Solver)
    requires SameLength(normals) && |normals| > 0 && solve(Gram(normals)).Some?
    ensures OffsetVector(normals, solve) == WeightedVector(solve(Gram(normals)).value, normals)
    ensures OffsetVector(normals, solve).Some? <==> |normals| <= |solve(Gram(normals)).value|
  {
  }

  /** getOffsetDistance: normalizeVector(vector) scaled by `offset`; an
      empty vector makes max() raise ValueError. */
  function OffsetDistance(vector: Vec, offset: real): (r: Option<Vec>)
    ensures r.Some? <==> |vector| > 0
    ensures r.Some? && offset == 0.0 ==> forall i :: 0 <= i < |r.value| ==> r.value[i] == 0.0
  {
    if |vector| == 0 then None else Some(ScaleBy(NormalizeVector(vector), offset))
  }

  /** Every entry multiplied by c. */
  function ScaleBy(v: Vec, c: real): (r: Vec)
    ensures |r| == |v|
  {
    seq(|v|, i requires 0 <= i < |v| => v[i] * c)
  }

  /** For a vector whose largest entry is positive the displacement keeps
      the vector's length and its largest entry is exactly the offset. */
  lemma OffsetDistanceReach(vector: Vec, offset: real)
    requires |vector| > 0 && SeqMax(vector) > 0.0 && offset >= 0.0
    ensures OffsetDistance(vector, offset).Some?
    ensures |OffsetDistance(vector, offset).value| == |vector|
    ensures SeqMax(OffsetDistance(vector, offset).value) == offset
  {
    var dir := NormalizeVector(vector);
    var r := OffsetDistance(vector, offset).value;
    NormalizeVectorMax(vector);
    assert |dir| == |vector|;
    var k :| 0 <= k < |dir| && dir[k] == SeqMax(dir);
    ScaledBelow(dir, offset, k);
    SeqMaxIs(r, offset, k);
  }

  /** Scaling a vector whose entries are at most 1, attaining 1 at k, by
      a non-negative factor bounds it by the factor, attained at k. */
  lemma ScaledBelow(dir: Vec, a: real, k: nat)
    requires k < |dir| && dir[k] == 1.0 && a >= 0.0
    requires forall i :: 0 <= i < |dir| ==> dir[i] <= 1.0
    ensures ScaleBy(dir, a)[k] == a && forall i :: 0 <= i < |dir| ==> ScaleBy(dir, a)[i] <= a
  {
    var r := ScaleBy(dir, a);
    forall i | 0 <= i < |r|
      ensures r[i] <= a
    {
      ScaleBelow(dir[i], a);
    }
  }

  lemma ScaleBelow(x: real, a: real)
    requires x <= 1.0 && a >= 0.0
    ensures x * a <= a
  {
    if a > 0.0 {
      MulLe(x, 1.0, a);
    }
  }

  // ---------------------------------------------------------------------
  // getOffsetSTL
  // ---------------------------------------------------------------------

  /** The normals getOffsetVector works on: cleaned in getConnectedNormals
      and again with tolerance 0.2. */
  function CleanedNormals(faces: seq<Facet>, point: Vec, clean: Cleaner): seq<Vec> {
    clean(clean(TouchingNormals(faces, point), None), Some(CleanTol))
  }

  /** The displacement getOffsetDistance computes for `point`. */
  function Displacement(faces: seq<Facet>, point: Vec, offset: real, clean: Cleaner, solve: Solver): Option<Vec> {
    var v := OffsetVector(CleanedNormals(faces, point, clean), solve);
    if v.None? then None else OffsetDistance(v.value, offset)
  }

  /** sumVectors([pnt, dir]): the vertex plus its displacement, as long as
      the vertex; a displacement shorter than the vertex raises IndexError. */
  function MovedVertex(faces: seq<Facet>, pnt: Vec, offset: real, clean: Cleaner, solve: Solver): (r: Option<Vec>)
    ensures r.Some? <==> (Displacement(faces, pnt, offset, clean, solve).Some? && |pnt| <= |Displacement(faces, pnt, offset, clean, solve).value|)
    ensures r.Some? ==> |r.value| == |pnt|
    ensures r.Some? ==>
      forall i :: 0 <= i < |pnt| ==> r.value[i] == pnt[i] + Displacement(faces, pnt, offset, clean, solve).value[i]
  {
    var d := Displacement(faces, pnt, offset, clean, solve);
    if d.None? || |d.value| < |pnt| then None
    else
      SumTwoVectors(pnt, d.value);
      Some(VectorSum([pnt, d.value]))
  }

  /** Applies `f` to every element in order; None as soon as one
      application is None, like a loop that stops at the first exception. */
  function MapAll<T, U>(xs: seq<T>, f: T -> Option<U>): Option<seq<U>> {
    if |xs| == 0 then Some([])
    else
      var init := MapAll(xs[..|xs| - 1], f);
      var last := f(xs[|xs| - 1]);
      if init.None? || last.None? then None else Some(init.value + [last.value])
  }

  /** The mapping succeeds exactly when every application does, and then
      holds their results in order. */
  lemma {:induction false} MapAllAre<T, U>(xs: seq<T>, f: T -> Option<U>)
    ensures MapAll(xs, f).Some? <==> forall j :: 0 <= j < |xs| ==> f(xs[j]).Some?
    ensures MapAll(xs, f).Some? ==> |MapAll(xs, f).value| == |xs|
    ensures MapAll(xs, f).Some? ==> forall j :: 0 <= j < |xs| ==> MapAll(xs, f).value[j] == f(xs[j]).value
  {
    if |xs| > 0 {
      var init := xs[..|xs| - 1];
      MapAllAre(init, f);
      if forall j :: 0 <= j < |xs| ==> f(xs[j]).Some? {
        forall j | 0 <= j < |init|
          ensures f(init[j]).Some?
        {
          assert init[j] == xs[j];
        }
      }
      if MapAll(xs, f).Some? {
        forall j | 0 <= j < |xs|
          ensures f(xs[j]).Some? && MapAll(xs, f).value[j] == f(xs[j]).value
        {
          if j < |init| {
            assert init[j] == xs[j];
          }
        }
      }
    }
  }

  /** The moved vertices of one face. */
  function MovedVertices(faces: seq<Facet>, vs: seq<Vec>, offset: real, clean: Cleaner, solve: Solver): Option<seq<Vec>> {
    MapAll(vs, p => MovedVertex(faces, p, offset, clean, solve))
  }

  /** The offset copy of one facet: same normal, moved vertices. */
  function OffsetFacet(faces: seq<Facet>, f: Facet, offset: real, clean: Cleaner, solve: Solver): Option<Facet> {
    var moved := MovedVertices(faces, f.vertices, offset, clean, solve);
    if moved.None? then None else Some(Facet(f.normal, moved.value))
  }

  /** The offset copies of the facets `fs` of the mesh `faces`. */
  function OffsetFaces(faces: seq<Facet>, fs: seq<Facet>, offset: real, clean: Cleaner, solve: Solver): Option<seq<Facet>> {
    MapAll(fs, f => OffsetFacet(faces, f, offset, clean, solve))
  }

  /** A face's vertices all move exactly when each of them does, and then
      vertex j becomes the j-th moved vertex. */
  lemma MovedVerticesAre(faces: seq<Facet>, vs: seq<Vec>, offset: real, clean: Cleaner, solve: Solver)
    ensures MovedVertices(faces, vs, offset, clean, solve).Some? <==>
      forall j :: 0 <= j < |vs| ==> MovedVertex(faces, vs[j], offset, clean, solve).Some?
    ensures MovedVertices(faces, vs, offset, clean, solve).Some? ==>
      |MovedVertices(faces, vs, offset, clean, solve).value| == |vs|
    ensures MovedVertices(faces, vs, offset, clean, solve).Some? ==>
      forall j :: 0 <= j < |vs| ==>
        MovedVertices(faces, vs, offset, clean, solve).value[j] == MovedVertex(faces, vs[j], offset, clean, solve).value
  {
    MapAllAre(vs, p => MovedVertex(faces, p, offset, clean, solve));
  }

  /** getOffsetSTL keeps the facet list's shape: one facet per input facet,
      in order, with the same normal and as many vertices, each moved by
      its own displacement; and it succeeds exactly when every vertex can
      be moved. */
  lemma OffsetFacesShape(faces: seq<Facet>, fs: seq<Facet>, offset: real, clean: Cleaner, solve: Solver)
    ensures OffsetFaces(faces, fs, offset, clean, solve).Some? <==>
      forall k :: 0 <= k < |fs| ==> MovedVertices(faces, fs[k].vertices, offset, clean, solve).Some?
    ensures OffsetFaces(faces, fs, offset, clean, solve).Some? ==>
      |OffsetFaces(faces, fs, offset, clean, solve).value| == |fs|
    ensures OffsetFaces(faces, fs, offset, clean, solve).Some? ==>
      forall k :: 0 <= k < |fs| ==>
        OffsetFaces(faces, fs, offset, clean, solve).value[k]
          == Facet(fs[k].normal, MovedVertices(faces, fs[k].vertices, offset, clean, solve).value)
  {
    MapAllAre(fs, f => OffsetFacet(faces, f, offset, clean, solve));
  }

  /** An offset of zero leaves every vertex where it was: when it
      succeeds, the offset mesh has the input's facets. */
  lemma ZeroOffsetKeepsFaces(faces: seq<Facet>, fs: seq<Facet>, clean: Cleaner, solve: Solver)
    requires OffsetFaces(faces, fs, 0.0, clean, solve).Some?
    ensures OffsetFaces(faces, fs, 0.0, clean, solve).value == fs
  {
    OffsetFacesShape(faces, fs, 0.0, clean, solve);
    var out := OffsetFaces(faces, fs, 0.0, clean, solve).value;
    forall k | 0 <= k < |fs|
      ensures out[k] == fs[k]
    {
      var vs := fs[k].vertices;
      MovedVerticesAre(faces, vs, 0.0, clean, solve);
      var moved := MovedVertices(faces, vs, 0.0, clean, solve).value;
      forall j | 0 <= j < |vs|
        ensures moved[j] == vs[j]
      {
        ZeroOffsetKeepsVertex(faces, vs[j], clean, solve);
      }
    }
  }

  lemma ZeroOffsetKeepsVertex(faces: seq<Facet>, pnt: Vec, clean: Cleaner, solve: Solver)
    requires MovedVertex(faces, pnt, 0.0, clean, solve).Some?
    ensures MovedVertex(faces, pnt, 0.0, clean, solve).value == pnt
  {
    var d := Displacement(faces, pnt, 0.0, clean, solve).value;
    var r := MovedVertex(faces, pnt, 0.0, clean, solve).value;
    assert forall i :: 0 <= i < |d| ==> d[i] == 0.0;
    assert forall i :: 0 <= i < |pnt| ==> r[i] == pnt[i];
  }

  /** getOffsetVector. */
  method GetOffsetVector(stl: Stl, point: Vec, clean: Cleaner, solve: Solver) returns (r: Option<Vec>)
    ensures r == OffsetVector(CleanedNormals(Snapshot(stl.faces), point, clean), solve)
  {
    var normals := GetConnectedNormals(stl, point, clean);
    normals := clean(normals, Some(CleanTol));
    var weights := CalculateOffsetWeights(normals, solve);
    match weights {
      case None => return None;
      case Some(Singular) =>
        if !Summable(normals) {
          return None;
        }
        var sum := SumVectors(normals);
        return Some(sum);
      case Some(Solved(w)) =>
        return WeightedVector(w, normals);
    }
  }

  /** getOffsetDistance. */
  method GetOffsetDistance(stl: Stl, point: Vec, offset: real, clean: Cleaner, solve: Solver) returns (r: Option<Vec>)
    ensures r == Displacement(Snapshot(stl.faces), point, offset, clean, solve)
  {
    var vector := GetOffsetVector(stl, point, clean, solve);
    if vector.None? {
      return None;
    }
    return OffsetDistance(vector.value, offset);
  }

  /** The inner loop of getOffsetSTL: the face's vertices, each plus its
      displacement. */
  method MoveVertices(stl: Stl, vertices: seq<Vec>, offset: real, clean: Cleaner, solve: Solver) returns (r: Option<seq<Vec>>)
    ensures r == MovedVertices(Snapshot(stl.faces), vertices, offset, clean, solve)
  {
    ghost var faces := Snapshot(stl.faces);
    var outPnts: seq<Vec> := [];
    for j := 0 to |vertices|
      invariant MovedVertices(faces, vertices[..j], offset, clean, solve) == Some(outPnts)
    {
      var moved := MoveVertex(stl, vertices[j], offset, clean, solve);
      if moved.None? {
        MovedVerticesFail(faces, vertices, j, offset, clean, solve);
        return None;
      }
      MovedStep(faces, vertices, j, offset, clean, solve, outPnts);
      outPnts := outPnts + [moved.value];
    }
    assert vertices[..|vertices|] == vertices;
    return Some(outPnts);
  }

  /** One pass of the inner loop: the point's displacement, added to it by
      sumVectors; None when the displacement raises or is too short. */
  method MoveVertex(stl: Stl, pnt: Vec, offset: real, clean: Cleaner, solve: Solver) returns (r: Option<Vec>)
    ensures r == MovedVertex(Snapshot(stl.faces), pnt, offset, clean, solve)
  {
    var dir := GetOffsetDistance(stl, pnt, offset, clean, solve);
    if dir.None? || |dir.value| < |pnt| {
      return None;
    }
    SumTwoVectors(pnt, dir.value);
    var moved := SumVectors([pnt, dir.value]);
    return Some(moved);
  }

  /** Mapping one more element after a successful prefix. */
  lemma MapAllStep<T, U>(xs: seq<T>, f: T -> Option<U>, j: nat, done: seq<U>)
    requires j < |xs| && MapAll(xs[..j], f) == Some(done) && f(xs[j]).Some?
    ensures MapAll(xs[..j + 1], f) == Some(done + [f(xs[j]).value])
  {
    assert xs[..j + 1][..j] == xs[..j];
  }

  lemma MovedStep(faces: seq<Facet>, vs: seq<Vec>, j: nat, offset: real, clean: Cleaner, solve: Solver, done: seq<Vec>)
    requires j < |vs| && MovedVertices(faces, vs[..j], offset, clean, solve) == Some(done)
    requires MovedVertex(faces, vs[j], offset, clean, solve).Some?
    ensures MovedVertices(faces, vs[..j + 1], offset, clean, solve)
      == Some(done + [MovedVertex(faces, vs[j], offset, clean, solve).value])
  {
    MapAllStep(vs, p => MovedVertex(faces, p, offset, clean, solve), j, done);
  }

  lemma OffsetStep(faces: seq<Facet>, fs: seq<Facet>, i: nat, offset: real, clean: Cleaner, solve: Solver, done: seq<Facet>)
    requires i < |fs| && OffsetFaces(faces, fs[..i], offset, clean, solve) == Some(done)
    requires OffsetFacet(faces, fs[i], offset, clean, solve).Some?
    ensures OffsetFaces(faces, fs[..i + 1], offset, clean, solve)
      == Some(done + [OffsetFacet(faces, fs[i], offset, clean, solve).value])
  {
    MapAllStep(fs, f => OffsetFacet(faces, f, offset, clean, solve), i, done);
  }

  /** One vertex that cannot move makes the whole face fail. */
  lemma MovedVerticesFail(faces: seq<Facet>, vs: seq<Vec>, j: nat, offset: real, clean: Cleaner, solve: Solver)
    requires j < |vs| && MovedVertex(faces, vs[j], offset, clean, solve).None?
    ensures MovedVertices(faces, vs, offset, clean, solve).None?
  {
    MovedVerticesAre(faces, vs, offset, clean, solve);
  }

  /** One face that cannot move makes the whole mesh fail. */
  lemma OffsetFacesFail(faces: seq<Facet>, fs: seq<Facet>, k: nat, offset: real, clean: Cleaner, solve: Solver)
    requires k < |fs| && MovedVertices(faces, fs[k].vertices, offset, clean, solve).None?
    ensures OffsetFaces(faces, fs, offset, clean, solve).None?
  {
    OffsetFacesShape(faces, fs, offset, clean, solve);
  }

  /** getOffsetSTL: a new solid with the input's name and file, holding
      the offset copy of every facet; the input is not changed. None when
      some vertex's offset raises. */
  method GetOffsetStl(stl: Stl, offset: real, clean: Cleaner, solve: Solver) returns (r: Option<Stl>)
    ensures r.Some? <==> OffsetFaces(Snapshot(stl.faces), Snapshot(stl.faces), offset, clean, solve).Some?
    ensures r.Some? ==> fresh(r.value) && r.value.name == stl.name && r.value.file == stl.file && r.value.lines.None?
    ensures r.Some? ==>
      Snapshot(r.value.faces) == OffsetFaces(Snapshot(stl.faces), Snapshot(stl.faces), offset, clean, solve).value
  {
    var faces := stl.faces;
    ghost var input := Snapshot(faces);
    var out := stl.EmptyCopy(None);
    ghost var made: seq<Facet> := [];
    for i := 0 to |faces|
      invariant fresh(out) && out.name == stl.name && out.file == stl.file && out.lines.None?
      invariant stl.faces == faces && Snapshot(faces) == input
      invariant OffsetFaces(input, input[..i], offset, clean, solve) == Some(made)
      invariant |out.faces| == |made|
      invariant forall k :: 0 <= k < |made| ==>
        fresh(out.faces[k]) && out.faces[k].normal == made[k].normal && out.faces[k].vertices == made[k].vertices
    {
      var face := faces[i];
      assert input[i] == Facet(face.normal, face.vertices);
      var outPnts := MoveVertices(stl, face.vertices, offset, clean, solve);
      if outPnts.None? {
        OffsetFacesFail(input, input, i, offset, clean, solve);
        return None;
      }
      assert OffsetFacet(input, input[i], offset, clean, solve) == Some(Facet(face.normal, outPnts.value));
      OffsetStep(input, input, i, offset, clean, solve, made);
      var facet := new StlFacet(face.normal, outPnts.value);
      out.faces := out.faces + [facet];
      made := made + [Facet(face.normal, outPnts.value)];
    }
    assert input[..|faces|] == input;
    return Some(out);
  }
}
