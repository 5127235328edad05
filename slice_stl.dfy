/** The slicer's bookkeeping (src/STL/SliceSTL.py): bounding limits, the
    number of layers, which facets each layer plane meets, the edges a facet
    leaves on a plane and the search that strings edges into a loop. */
module SliceStl {
  import opened Wrappers
  import opened Methods
  import opened ReadStl

  /** A segment of a slice outline with the normal of the facet it came from. */
  datatype Edge = Edge(pnt1: Vec, pnt2: Vec, normal: Vec)

  // ---------------------------------------------------------------------
  // Python's ceil and float modulo
  // ---------------------------------------------------------------------

  function Ceil(x: real): (r: int)
    ensures x <= r as real < x + 1.0
  {
    -((-x).Floor)
  }

  /** Python's `x % y` on floats: the remainder takes the sign of `y`. */
  function PyMod(x: real, y: real): real
    requires y != 0.0
  {
    x - Product(y, (x / y).Floor as real)
  }

  /** The remainder is zero exactly when the quotient is a whole number. */
  lemma PyModZero(x: real, y: real)
    requires y != 0.0
    ensures PyMod(x, y) == 0.0 <==> (x / y).Floor as real == x / y
  {
    var f := (x / y).Floor as real;
    assert Product(y, x / y) == x;
    if PyMod(x, y) == 0.0 {
      assert Product(y, f) == Product(y, x / y);
      MulCancel(f, x / y, y);
    }
  }

  lemma DivMonotone(a: real, b: real, d: real)
    requires a <= b && d > 0.0
    ensures a / d <= b / d
  {
    assert (a / d) * d == a && (b / d) * d == b;
    MulMonotone(a / d, b / d, d);
  }

  lemma CeilMonotone(x: real, y: real)
    requires x <= y
    ensures Ceil(x) <= Ceil(y)
  {
  }

  // ---------------------------------------------------------------------
  // findMaxAndMinLimits
  // ---------------------------------------------------------------------

  predicate HasAxes(vs: seq<Vec>) {
    forall k :: 0 <= k < |vs| ==> |vs[k]| >= 3
  }

  /** The running minimum along `axis`, starting from 0 as the source does. */
  function AxisLow(vs: seq<Vec>, axis: nat): real
    requires axis < 3 && HasAxes(vs)
  {
    if |vs| == 0 then 0.0
    else
      var m := AxisLow(vs[..|vs| - 1], axis);
      var c := vs[|vs| - 1][axis];
      if c < m then c else m
  }

  /** The running maximum along `axis`, starting from 0. */
  function AxisHigh(vs: seq<Vec>, axis: nat): real
    requires axis < 3 && HasAxes(vs)
  {
    if |vs| == 0 then 0.0
    else
      var m := AxisHigh(vs[..|vs| - 1], axis);
      var c := vs[|vs| - 1][axis];
      if c > m then c else m
  }

  /** [xmin, xmax, ymin, ymax, zmin, zmax]. */
  function Limits(vs: seq<Vec>): (r: seq<real>)
    requires HasAxes(vs)
    ensures |r| == 6
  {
    [AxisLow(vs, 0), AxisHigh(vs, 0), AxisLow(vs, 1), AxisHigh(vs, 1), AxisLow(vs, 2), AxisHigh(vs, 2)]
  }

  /** Every bound brackets 0 and every vertex coordinate on its axis. */
  lemma {:induction false} LimitsBound(vs: seq<Vec>, axis: nat)
    requires axis < 3 && HasAxes(vs)
    ensures AxisLow(vs, axis) <= 0.0 <= AxisHigh(vs, axis)
    ensures forall k :: 0 <= k < |vs| ==> AxisLow(vs, axis) <= vs[k][axis] <= AxisHigh(vs, axis)
  {
    if |vs| > 0 {
      var init := vs[..|vs| - 1];
      LimitsBound(init, axis);
      assert forall k :: 0 <= k < |vs| - 1 ==> vs[k] == init[k];
    }
  }

  /** A non-zero bound is the coordinate of some vertex. */
  lemma {:induction false} LimitsAttained(vs: seq<Vec>, axis: nat)
    requires axis < 3 && HasAxes(vs)
    ensures AxisLow(vs, axis) != 0.0 ==> exists k :: 0 <= k < |vs| && vs[k][axis] == AxisLow(vs, axis)
    ensures AxisHigh(vs, axis) != 0.0 ==> exists k :: 0 <= k < |vs| && vs[k][axis] == AxisHigh(vs, axis)
  {
    if |vs| > 0 {
      var init := vs[..|vs| - 1];
      LimitsAttained(init, axis);
      assert forall k :: 0 <= k < |vs| - 1 ==> vs[k] == init[k];
    }
  }

  /** findMaxAndMinLimits: the six bounds of the vertices, starting from 0. */
  method FindMaxAndMinLimits(vertices: seq<Vec>) returns (limits: seq<real>)
    requires HasAxes(vertices)
    ensures limits == Limits(vertices)
  {
    limits := [0.0, 0.0, 0.0, 0.0, 0.0, 0.0];
    for k := 0 to |vertices|
      invariant limits == Limits(vertices[..k])
    {
      var vertex := vertices[k];
      ghost var before := vertices[..k];
      for i := 0 to 3
        invariant |limits| == 6
        invariant forall s :: 0 <= s < 6 ==> limits[s] == if s / 2 < i then Extended(before, vertex)[s] else Limits(before)[s]
      {
        if vertex[i] < limits[i * 2] {
          limits := limits[i * 2 := vertex[i]];
        }
        if vertex[i] > limits[i * 2 + 1] {
          limits := limits[i * 2 + 1 := vertex[i]];
        }
      }
      LimitsStep(vertices, k);
    }
    assert vertices[..|vertices|] == vertices;
  }

  /** The running minimum after one more vertex. */
  function Low(vs: seq<Vec>, v: Vec, axis: nat): real
    requires axis < 3 && HasAxes(vs) && |v| >= 3
  {
    var m := AxisLow(vs, axis);
    if v[axis] < m then v[axis] else m
  }

  /** The running maximum after one more vertex. */
  function High(vs: seq<Vec>, v: Vec, axis: nat): real
    requires axis < 3 && HasAxes(vs) && |v| >= 3
  {
    var m := AxisHigh(vs, axis);
    if v[axis] > m then v[axis] else m
  }

  /** The six bounds after one more vertex. */
  function Extended(vs: seq<Vec>, v: Vec): (r: seq<real>)
    requires HasAxes(vs) && |v| >= 3
    ensures |r| == 6
  {
    [Low(vs, v, 0), High(vs, v, 0), Low(vs, v, 1), High(vs, v, 1), Low(vs, v, 2), High(vs, v, 2)]
  }

  lemma LimitsStep(vs: seq<Vec>, k: nat)
    requires HasAxes(vs) && k < |vs|
    ensures Limits(vs[..k + 1]) == Extended(vs[..k], vs[k])
  {
    assert vs[..k + 1][..k] == vs[..k];
  }

  // ---------------------------------------------------------------------
  // Number of slices and the facets of each slice
  // ---------------------------------------------------------------------

  /** addAdditionalSliceOnTop: `max_z % del_z != 0`. */
  predicate AdditionalSliceOnTop(maxZ: real, delZ: real)
    requires delZ != 0.0
  {
    PyMod(maxZ, delZ) != 0.0
  }

  /** findNumOfSlices: ceil of the extent over the layer height, plus one
      when the top is not a whole number of layers above 0. */
  function NumOfSlices(maxZ: real, minZ: real, delZ: real): int
    requires delZ != 0.0
  {
    Ceil((maxZ - minZ) / delZ) + if AdditionalSliceOnTop(maxZ, delZ) then 1 else 0
  }

  /** The extra top slice exists exactly when `max_z` (not the extent) is
      not a whole multiple of the layer height; the count covers the extent. */
  lemma NumOfSlicesIs(maxZ: real, minZ: real, delZ: real)
    requires delZ > 0.0 && minZ <= maxZ
    ensures AdditionalSliceOnTop(maxZ, delZ) <==> (maxZ / delZ).Floor as real != maxZ / delZ
    ensures var base := NumOfSlices(maxZ, minZ, delZ) - if AdditionalSliceOnTop(maxZ, delZ) then 1 else 0;
      0 <= base && (maxZ - minZ) / delZ <= base as real < (maxZ - minZ) / delZ + 1.0
  {
    PyModZero(maxZ, delZ);
    DivMonotone(0.0, maxZ - minZ, delZ);
  }

  /** With min_z = 0 and a height of 10 layers of 0.5 and one extra:
      a 0.3 top needs one layer plus the extra top slice. */
  lemma NumOfSlicesExample()
    ensures NumOfSlices(5.0, 0.0, 0.5) == 10
    ensures NumOfSlices(0.3, 0.0, 0.5) == 2
  {
    PyModZero(5.0, 0.5);
    PyModZero(0.3, 0.5);
  }

  /** Python's min() of a non-empty list. */
  function SeqMin(v: Vec): (m: real)
    requires |v| > 0
    ensures forall i :: 0 <= i < |v| ==> m <= v[i]
    ensures exists i :: 0 <= i < |v| && v[i] == m
  {
    if |v| == 1 then v[0]
    else
      var rest := SeqMin(v[1..]);
      assert forall i :: 1 <= i < |v| ==> v[i] == v[1..][i - 1];
      if v[0] <= rest then v[0] else rest
  }

  /** The slice indices `start .. end-1` for a face whose vertices span
      heights `lo` to `hi`. */
  function CoveredRange(lo: real, hi: real, minZ: real, maxZ: real, delZ: real, additional: bool): (int, int)
    requires delZ != 0.0
  {
    var start := ((lo - minZ) / delZ).Floor;
    var end := Ceil((hi - minZ) / delZ);
    (start, if hi == maxZ && additional then end + 1 else end)
  }

  /** findSlicesCoveredByFace over the face's vertex heights. */
  function SlicesCoveredByFace(z: seq<real>, minZ: real, maxZ: real, delZ: real, additional: bool): (int, int)
    requires |z| > 0 && delZ != 0.0
  {
    CoveredRange(SeqMin(z), SeqMax(z), minZ, maxZ, delZ, additional)
  }

  /** The planes at the range's ends bracket the face: the first plane is
      at or below its lowest vertex and the next one above it; the plane at
      the (unextended) end is at or above its highest vertex and the one
      before it below it. */
  lemma SlicesCoveredBracket(lo: real, hi: real, minZ: real, maxZ: real, delZ: real, additional: bool)
    requires delZ > 0.0
    ensures var start := CoveredRange(lo, hi, minZ, maxZ, delZ, additional).0 as real;
      minZ + start * delZ <= lo < minZ + (start + 1.0) * delZ
    ensures var end := CoveredRange(lo, hi, minZ, maxZ, delZ, additional).1;
      var top := (if hi == maxZ && additional then end - 1 else end) as real;
      minZ + (top - 1.0) * delZ < hi <= minZ + top * delZ
  {
    BracketFloor(lo, minZ, delZ);
    BracketCeil(hi, minZ, delZ);
  }

  lemma BracketFloor(x: real, minZ: real, d: real)
    requires d > 0.0
    ensures var a := ((x - minZ) / d).Floor as real;
      minZ + a * d <= x < minZ + (a + 1.0) * d
  {
    var q := (x - minZ) / d;
    var a := q.Floor as real;
    assert a <= q < a + 1.0;
    assert q * d == x - minZ;
    MulLe(a, q, d);
    MulLt(q, a + 1.0, d);
    assert x < minZ + (a + 1.0) * d;
  }

  lemma BracketCeil(x: real, minZ: real, d: real)
    requires d > 0.0
    ensures var b := Ceil((x - minZ) / d) as real;
      minZ + (b - 1.0) * d < x <= minZ + b * d
  {
    var q := (x - minZ) / d;
    var b := Ceil(q) as real;
    assert q * d == x - minZ;
    MulLt(b - 1.0, q, d);
    MulLe(q, b, d);
  }

  /** For a face between min_z and max_z and a positive layer height, every
      index of the range names one of the first numSlices groups. */
  lemma CoveredIndicesInBounds(lo: real, hi: real, minZ: real, maxZ: real, delZ: real)
    requires delZ > 0.0 && minZ <= lo && hi <= maxZ
    ensures var r := CoveredRange(lo, hi, minZ, maxZ, delZ, AdditionalSliceOnTop(maxZ, delZ));
      0 <= r.0 && r.1 <= NumOfSlices(maxZ, minZ, delZ)
  {
    DivMonotone(0.0, lo - minZ, delZ);
    DivMonotone(hi - minZ, maxZ - minZ, delZ);
    CeilMonotone((hi - minZ) / delZ, (maxZ - minZ) / delZ);
  }

  /** The height coordinates of a facet's vertices. */
  function ZOf(vs: seq<Vec>): (z: seq<real>)
    requires HasAxes(vs)
    ensures |z| == |vs| && forall k :: 0 <= k < |vs| ==> z[k] == vs[k][2]
  {
    seq(|vs|, k requires 0 <= k < |vs| && HasAxes(vs) => vs[k][2])
  }

  /** A facet the slicer can handle: at least one vertex, each with three
      coordinates. */
  predicate SliceableFace(f: StlFacet)
    reads f
  {
    |f.vertices| > 0 && HasAxes(f.vertices)
  }

  predicate Sliceable(faces: seq<StlFacet>)
    reads faces
  {
    forall k :: 0 <= k < |faces| ==> SliceableFace(faces[k])
  }

  /** The height coordinates of every face, face by face. */
  function ZsOf(faces: seq<StlFacet>): (zs: seq<seq<real>>)
    reads faces
    requires Sliceable(faces)
    ensures |zs| == |faces| && forall k :: 0 <= k < |faces| ==> zs[k] == ZOf(faces[k].vertices)
  {
    if |faces| == 0 then [] else ZsOf(faces[..|faces| - 1]) + [ZOf(faces[|faces| - 1].vertices)]
  }

  /** Height lists of faces with at least one vertex each. */
  predicate NonEmpty(zs: seq<seq<real>>) {
    forall k :: 0 <= k < |zs| ==> |zs[k]| > 0
  }

  /** Every height lies between the two bounds. */
  predicate ZWithin(zs: seq<seq<real>>, minZ: real, maxZ: real) {
    forall k, j :: 0 <= k < |zs| && 0 <= j < |zs[k]| ==> minZ <= zs[k][j] <= maxZ
  }

  /** Slice `g` lies in the covered range of a face with heights `z`. */
  predicate InRange(z: seq<real>, g: int, minZ: real, maxZ: real, delZ: real, additional: bool)
    requires |z| > 0 && delZ != 0.0
  {
    var r := SlicesCoveredByFace(z, minZ, maxZ, delZ, additional);
    r.0 <= g < r.1
  }

  /** The first `n` faces bucketed into slice `g`, in face order; `zs[k]`
      are the heights of face k. */
  function GroupOf<T>(faces: seq<T>, zs: seq<seq<real>>, n: nat, g: int, minZ: real, maxZ: real, delZ: real, additional: bool): seq<T>
    requires |zs| == |faces| && NonEmpty(zs) && n <= |faces| && delZ != 0.0
  {
    if n == 0 then []
    else
      GroupOf(faces, zs, n - 1, g, minZ, maxZ, delZ, additional)
        + if InRange(zs[n - 1], g, minZ, maxZ, delZ, additional) then [faces[n - 1]] else []
  }

  /** A face is in group `g` exactly when it is one of the faces and `g`
      is in its covered range. */
  lemma {:induction false} GroupMembership<T>(faces: seq<T>, zs: seq<seq<real>>, n: nat, g: int, x: T, minZ: real, maxZ: real, delZ: real, additional: bool)
    requires |zs| == |faces| && NonEmpty(zs) && n <= |faces| && delZ != 0.0
    ensures x in GroupOf(faces, zs, n, g, minZ, maxZ, delZ, additional)
      <==> exists k :: 0 <= k < n && faces[k] == x && InRange(zs[k], g, minZ, maxZ, delZ, additional)
  {
    if n > 0 {
      var prev := GroupOf(faces, zs, n - 1, g, minZ, maxZ, delZ, additional);
      var hit := InRange(zs[n - 1], g, minZ, maxZ, delZ, additional);
      var last := if hit then [faces[n - 1]] else [];
      assert GroupOf(faces, zs, n, g, minZ, maxZ, delZ, additional) == prev + last;
      GroupMembership(faces, zs, n - 1, g, x, minZ, maxZ, delZ, additional);
      if x in prev + last && x !in prev {
        assert x in last;
        assert 0 <= n - 1 < n && faces[n - 1] == x && hit;
      }
      if exists k :: 0 <= k < n && faces[k] == x && InRange(zs[k], g, minZ, maxZ, delZ, additional) {
        var k :| 0 <= k < n && faces[k] == x && InRange(zs[k], g, minZ, maxZ, delZ, additional);
        if k == n - 1 {
          assert x in last;
        } else {
          assert x in prev;
        }
      }
    }
  }

  /** The covered range of a face between the bounds fits the groups. */
  lemma FaceWithin(zs: seq<seq<real>>, k: nat, minZ: real, maxZ: real, delZ: real)
    requires NonEmpty(zs) && delZ > 0.0 && k < |zs| && ZWithin(zs, minZ, maxZ)
    ensures var r := SlicesCoveredByFace(zs[k], minZ, maxZ, delZ, AdditionalSliceOnTop(maxZ, delZ));
      0 <= r.0 && r.1 <= NumOfSlices(maxZ, minZ, delZ)
  {
    CoveredIndicesInBounds(SeqMin(zs[k]), SeqMax(zs[k]), minZ, maxZ, delZ);
  }

  /** The list at index numSlices (the source allocates numSlices+1) never
      receives a face. */
  lemma LastGroupEmpty<T>(faces: seq<T>, zs: seq<seq<real>>, minZ: real, maxZ: real, delZ: real)
    requires |zs| == |faces| && NonEmpty(zs) && delZ > 0.0 && ZWithin(zs, minZ, maxZ)
    ensures GroupOf(faces, zs, |faces|, NumOfSlices(maxZ, minZ, delZ), minZ, maxZ, delZ, AdditionalSliceOnTop(maxZ, delZ)) == []
  {
    var n := NumOfSlices(maxZ, minZ, delZ);
    var add := AdditionalSliceOnTop(maxZ, delZ);
    var grp := GroupOf(faces, zs, |faces|, n, minZ, maxZ, delZ, add);
    if grp != [] {
      GroupMembership(faces, zs, |faces|, n, grp[0], minZ, maxZ, delZ, add);
      var k :| 0 <= k < |faces| && faces[k] == grp[0] && InRange(zs[k], n, minZ, maxZ, delZ, add);
      FaceWithin(zs, k, minZ, maxZ, delZ);
    }
  }

  /** Vertices of sliceable faces have three coordinates. */
  lemma {:induction false} AllVerticesHaveAxes(faces: seq<StlFacet>)
    requires Sliceable(faces)
    ensures HasAxes(AllVertices(faces))
  {
    if |faces| > 0 {
      AllVerticesHaveAxes(faces[..|faces| - 1]);
    }
  }

  /** The z limits of all vertices bound every face. */
  lemma FacesWithinLimits(faces: seq<StlFacet>)
    requires Sliceable(faces)
    ensures HasAxes(AllVertices(faces)) && NonEmpty(ZsOf(faces))
    ensures ZWithin(ZsOf(faces), Limits(AllVertices(faces))[4], Limits(AllVertices(faces))[5])
  {
    AllVerticesHaveAxes(faces);
    var vs := AllVertices(faces);
    var zs := ZsOf(faces);
    LimitsBound(vs, 2);
    forall k, j | 0 <= k < |zs| && 0 <= j < |zs[k]|
      ensures AxisLow(vs, 2) <= zs[k][j] <= AxisHigh(vs, 2)
    {
      AllVerticesAt(faces, k, j);
    }
  }

  // ---------------------------------------------------------------------
  // Slicer
  // ---------------------------------------------------------------------

  class Slicer {
    var stl: Stl
    var delZ: real
    var maxZ: real
    var minZ: real
    var numSlices: int
    var additionalSliceOnTop: bool
    var facetGroups: seq<seq<StlFacet>>
    /** The height coordinates of each face, as read when slicing began. */
    ghost var heights: seq<seq<real>>

    /** Limits from all vertices, the slice count, then the facet groups. */
    constructor (stl: Stl, layerHeight: real)
      requires layerHeight > 0.0 && Sliceable(stl.faces)
      ensures this.stl == stl && delZ == layerHeight
      ensures HasAxes(old(AllVertices(stl.faces)))
      ensures minZ == old(Limits(AllVertices(stl.faces)))[4] && maxZ == old(Limits(AllVertices(stl.faces)))[5]
      ensures minZ <= 0.0 <= maxZ
      ensures additionalSliceOnTop == AdditionalSliceOnTop(maxZ, delZ)
      ensures numSlices == NumOfSlices(maxZ, minZ, delZ)
      ensures heights == old(ZsOf(stl.faces)) && NonEmpty(heights) && ZWithin(heights, minZ, maxZ)
      ensures |facetGroups| == numSlices + 1
      ensures forall g :: 0 <= g < |facetGroups| ==>
        facetGroups[g] == GroupOf(stl.faces, heights, |stl.faces|, g, minZ, maxZ, delZ, additionalSliceOnTop)
    {
      ghost var zs := ZsOf(stl.faces);
      FacesWithinLimits(stl.faces);
      LimitsBound(AllVertices(stl.faces), 2);
      this.stl := stl;
      delZ := layerHeight;
      var vertices := AllVertices(stl.faces);
      var limits := FindMaxAndMinLimits(vertices);
      maxZ := limits[5];
      minZ := limits[4];
      var add := AdditionalSliceOnTop(limits[5], layerHeight);
      var n := NumOfSlices(limits[5], limits[4], layerHeight);
      additionalSliceOnTop := add;
      numSlices := n;
      heights := zs;
      var groups := BucketFaces(stl.faces, zs, limits[4], limits[5], layerHeight, add, n);
      facetGroups := groups;
      new;
    }

    /** findFacetsAtEachSlice: numSlices+1 lists, each face appended to
        every list its covered range names, faces in order. */
    method FindFacetsAtEachSlice()
      requires Sliceable(stl.faces) && delZ > 0.0 && minZ <= maxZ
      requires heights == ZsOf(stl.faces) && NonEmpty(heights) && ZWithin(heights, minZ, maxZ)
      requires additionalSliceOnTop == AdditionalSliceOnTop(maxZ, delZ)
      requires numSlices == NumOfSlices(maxZ, minZ, delZ)
      modifies this`facetGroups
      ensures |facetGroups| == numSlices + 1
      ensures forall g :: 0 <= g < |facetGroups| ==>
        facetGroups[g] == GroupOf(stl.faces, heights, |stl.faces|, g, minZ, maxZ, delZ, additionalSliceOnTop)
    {
      facetGroups := BucketFaces(stl.faces, heights, minZ, maxZ, delZ, additionalSliceOnTop, numSlices);
    }
  }

  /** The loop of findFacetsAtEachSlice over the faces, on values. */
  method BucketFaces(faces: seq<StlFacet>, ghost zs: seq<seq<real>>, minZ: real, maxZ: real, delZ: real, add: bool, numSlices: int)
    returns (groups: seq<seq<StlFacet>>)
    requires Sliceable(faces) && zs == ZsOf(faces) && delZ > 0.0 && minZ <= maxZ
    requires NonEmpty(zs) && ZWithin(zs, minZ, maxZ)
    requires add == AdditionalSliceOnTop(maxZ, delZ) && numSlices == NumOfSlices(maxZ, minZ, delZ)
    ensures |groups| == numSlices + 1
    ensures forall g :: 0 <= g < |groups| ==> groups[g] == GroupOf(faces, zs, |faces|, g, minZ, maxZ, delZ, add)
  {
    NumOfSlicesIs(maxZ, minZ, delZ);
    groups := seq(numSlices + 1, _ => []);
    for k := 0 to |faces|
      invariant |groups| == numSlices + 1
      invariant forall g :: 0 <= g < |groups| ==> groups[g] == GroupOf(faces, zs, k, g, minZ, maxZ, delZ, add)
    {
      groups := BucketFace(faces, zs, k, groups, minZ, maxZ, delZ, add, numSlices);
    }
  }

  /** One pass of findFacetsAtEachSlice's loop: face k appended to the
      lists of the slices it covers. */
  method BucketFace(faces: seq<StlFacet>, ghost zs: seq<seq<real>>, k: nat, groups: seq<seq<StlFacet>>,
                    minZ: real, maxZ: real, delZ: real, add: bool, numSlices: int)
    returns (out: seq<seq<StlFacet>>)
    requires Sliceable(faces) && zs == ZsOf(faces) && delZ > 0.0 && minZ <= maxZ && k < |faces|
    requires NonEmpty(zs) && ZWithin(zs, minZ, maxZ)
    requires add == AdditionalSliceOnTop(maxZ, delZ) && numSlices == NumOfSlices(maxZ, minZ, delZ)
    requires |groups| == numSlices + 1
    requires forall g :: 0 <= g < |groups| ==> groups[g] == GroupOf(faces, zs, k, g, minZ, maxZ, delZ, add)
    ensures |out| == numSlices + 1
    ensures forall g :: 0 <= g < |out| ==> out[g] == GroupOf(faces, zs, k + 1, g, minZ, maxZ, delZ, add)
  {
    var face := faces[k];
    var z := face.GetZCoordinates();
    assert z == zs[k];
    FaceWithin(zs, k, minZ, maxZ, delZ);
    var r := SlicesCoveredByFace(z, minZ, maxZ, delZ, add);
    out := AppendToRange(groups, face, r.0, r.1);
    GroupStep(faces, zs, k, groups, out, minZ, maxZ, delZ, add);
  }

  /** Appending face k to the lists of its covered range extends the
      groups of the first k faces to those of the first k+1. */
  lemma GroupStep<T>(faces: seq<T>, zs: seq<seq<real>>, k: nat, before: seq<seq<T>>, after: seq<seq<T>>,
                     minZ: real, maxZ: real, delZ: real, add: bool)
    requires |zs| == |faces| && NonEmpty(zs) && k < |faces| && delZ != 0.0
    requires |after| == |before|
    requires forall g :: 0 <= g < |before| ==> before[g] == GroupOf(faces, zs, k, g, minZ, maxZ, delZ, add)
    requires var r := SlicesCoveredByFace(zs[k], minZ, maxZ, delZ, add);
      forall g :: 0 <= g < |before| ==> after[g] == before[g] + if r.0 <= g < r.1 then [faces[k]] else []
    ensures forall g :: 0 <= g < |after| ==> after[g] == GroupOf(faces, zs, k + 1, g, minZ, maxZ, delZ, add)
  {
  }

  /** The inner loop of findFacetsAtEachSlice: `face` appended to the lists
      at indices start .. end-1, the others unchanged. */
  method AppendToRange<T>(groups: seq<seq<T>>, face: T, start: int, end: int) returns (out: seq<seq<T>>)
    requires 0 <= start && end <= |groups|
    ensures |out| == |groups|
    ensures forall g :: 0 <= g < |groups| ==> out[g] == groups[g] + if start <= g < end then [face] else []
  {
    out := groups;
    var index := start;
    while index < end
      invariant start <= index && (start <= end ==> index <= end) && (end < start ==> index == start)
      invariant |out| == |groups|
      invariant forall g :: 0 <= g < |groups| ==> out[g] == groups[g] + if start <= g < index then [face] else []
    {
      out := out[index := out[index] + [face]];
      index := index + 1;
    }
  }

  // ---------------------------------------------------------------------
  // lineIntersectsDatum, interpolateZ (the Slicer's own versions)
  // ---------------------------------------------------------------------

  /** The Slicer's test, without tolerance: a segment going down through
      the plane counts with both endpoints, one going up only with its upper
      endpoint, so a segment rising from a point on the plane is missed. */
  function SlicerLineIntersectsDatum(p1: Vec, p2: Vec, zDatum: real): (r: bool)
    requires |p1| >= 3 && |p2| >= 3
    ensures r <==> (p2[2] <= zDatum <= p1[2] || p1[2] < zDatum <= p2[2])
  {
    if p1[2] >= zDatum then p2[2] <= zDatum
    else p2[2] >= zDatum
  }

  /** A hit always lies between the endpoint heights, and every plane
      between them is hit except the start height of a rising segment. */
  lemma SlicerIntersectsBetween(p1: Vec, p2: Vec, zDatum: real)
    requires |p1| >= 3 && |p2| >= 3
    ensures SlicerLineIntersectsDatum(p1, p2, zDatum) ==> Between(zDatum, p1[2], p2[2])
    ensures Between(zDatum, p1[2], p2[2]) && !(p1[2] == zDatum < p2[2]) ==> SlicerLineIntersectsDatum(p1, p2, zDatum)
  {
  }

  /** The segment from height 0 up to height 1 does not meet the plane at 0. */
  lemma SlicerRisingStartMissed()
    ensures !SlicerLineIntersectsDatum([0.0, 0.0, 0.0], [0.0, 0.0, 1.0], 0.0)
    ensures SlicerLineIntersectsDatum([0.0, 0.0, 1.0], [0.0, 0.0, 0.0], 1.0)
  {
  }

  /** The Slicer's interpolation: a horizontal segment gives its first
      point when it lies on the plane and None otherwise; any other segment
      gives the point of its line at the plane's height. */
  function SlicerInterpolateZ(p1: Vec, p2: Vec, zDatum: real): (r: Option<Vec>)
    requires |p1| >= 3 && |p2| >= |p1|
    ensures p2[2] == p1[2] && p1[2] == zDatum ==> r == Some(p1)
    ensures p2[2] == p1[2] && p1[2] != zDatum ==> r == None
    ensures p2[2] != p1[2] ==> r.Some? && |r.value| == 3 && r.value[2] == zDatum && OnLine(p1, p2, r.value)
  {
    var m0, m1, m2 := p2[0] - p1[0], p2[1] - p1[1], p2[2] - p1[2];
    if m2 == 0.0 then
      if p1[2] == zDatum then Some(p1) else None
    else
      var t := (zDatum - p1[2]) / m2;
      InterpolatedOnLine(p1, p2, zDatum, m0, m1, m2, t);
      Some([p1[0] + t * m0, p1[1] + t * m1, zDatum])
  }

  /** Off the horizontal case the Slicer's interpolation is the shared
      helper's with a zero tolerance. */
  lemma SlicerInterpolateMatches(p1: Vec, p2: Vec, zDatum: real)
    requires |p1| >= 3 && |p2| >= |p1| && p2[2] != p1[2]
    ensures SlicerInterpolateZ(p1, p2, zDatum) == InterpolateZ(p1, p2, zDatum, 0.0)
  {
  }

  // ---------------------------------------------------------------------
  // getEdgesFromFace
  // ---------------------------------------------------------------------

  /** Edges between consecutive intersection points, closed back to the
      first point when there are more than two; None for at most one point.
      The points are given: getIntersectionPointsFromFace is not part of
      this model. */
  method GetEdgesFromFace(coord: seq<Vec>, normal: Vec) returns (r: Option<seq<Edge>>)
    ensures r.None? <==> |coord| <= 1
    ensures |coord| == 2 ==> r == Some([Edge(coord[0], coord[1], normal)])
    ensures |coord| > 2 ==> r.Some? && |r.value| == |coord|
    ensures |coord| > 2 ==> forall i :: 0 <= i < |coord| ==>
      r.value[i] == Edge(coord[i], coord[(i + 1) % |coord|], normal)
    ensures r.Some? ==> forall i :: 0 <= i < |r.value| ==> r.value[i].normal == normal
  {
    if |coord| <= 1 {
      return None;
    }
    var edges: seq<Edge> := [];
    for i := 0 to |coord| - 1
      invariant |edges| == i
      invariant forall k :: 0 <= k < i ==> edges[k] == Edge(coord[k], coord[k + 1], normal)
    {
      edges := edges + [Edge(coord[i], coord[i + 1], normal)];
    }
    if |coord| > 2 {
      edges := edges + [Edge(coord[|coord| - 1], coord[0], normal)];
      forall i | 0 <= i < |coord|
        ensures edges[i] == Edge(coord[i], coord[(i + 1) % |coord|], normal)
      {
        NextIndex(i, |coord|);
      }
    } else {
      assert edges == [Edge(coord[0], coord[1], normal)];
    }
    return Some(edges);
  }

  lemma NextIndex(i: nat, n: nat)
    requires i < n
    ensures (i + 1) % n == if i + 1 < n then i + 1 else 0
  {
  }

  /** The edges of more than two points form a closed chain: each edge ends
      where the next one (cyclically) starts. */
  lemma EdgesFormCycle(coord: seq<Vec>, normal: Vec, edges: seq<Edge>)
    requires |coord| > 2 && |edges| == |coord|
    requires forall i :: 0 <= i < |coord| ==> edges[i] == Edge(coord[i], coord[(i + 1) % |coord|], normal)
    ensures forall i :: 0 <= i < |edges| ==> edges[i].pnt2 == edges[(i + 1) % |edges|].pnt1
  {
  }

  // ---------------------------------------------------------------------
  // findJoiningPoint, stitchEdges
  // ---------------------------------------------------------------------

  /** The first edge at or after `from`, other than edge `curr`, with an
      endpoint similar to `pnt`, paired with its opposite endpoint. Edges are
      told apart by position, as the source compares edge objects by
      identity. */
  function JoinFrom(pnt: Vec, curr: nat, edges: seq<Edge>, from: nat): (r: Option<(Vec, nat)>)
    ensures r.Some? ==> from <= r.value.1 < |edges| && r.value.1 != curr
    decreases |edges| - from
  {
    if from >= |edges| then None
    else if from == curr then JoinFrom(pnt, curr, edges, from + 1)
    else if Similar(pnt, edges[from].pnt1, SimilarTol) then Some((edges[from].pnt2, from))
    else if Similar(pnt, edges[from].pnt2, SimilarTol) then Some((edges[from].pnt1, from))
    else JoinFrom(pnt, curr, edges, from + 1)
  }

  predicate Touches(pnt: Vec, e: Edge) {
    Similar(pnt, e.pnt1, SimilarTol) || Similar(pnt, e.pnt2, SimilarTol)
  }

  /** The join is the first other edge touching `pnt`, and the point
      returned is its far end (pnt2 when pnt1 matches); no join means no
      other edge touches `pnt`. */
  lemma {:induction false} JoinFromIs(pnt: Vec, curr: nat, edges: seq<Edge>, from: nat)
    ensures var r := JoinFrom(pnt, curr, edges, from);
      r.None? <==> forall i :: from <= i < |edges| && i != curr ==> !Touches(pnt, edges[i])
    ensures JoinFrom(pnt, curr, edges, from).Some? ==>
      var (q, j) := JoinFrom(pnt, curr, edges, from).value;
      && Touches(pnt, edges[j])
      && q == (if Similar(pnt, edges[j].pnt1, SimilarTol) then edges[j].pnt2 else edges[j].pnt1)
      && forall i :: from <= i < j && i != curr ==> !Touches(pnt, edges[i])
    decreases |edges| - from
  {
    if from < |edges| && (from == curr || !Touches(pnt, edges[from])) {
      JoinFromIs(pnt, curr, edges, from + 1);
    }
  }

  method FindJoiningPoint(pnt: Vec, curr: nat, edges: seq<Edge>) returns (r: Option<(Vec, nat)>)
    ensures r == JoinFrom(pnt, curr, edges, 0)
  {
    for i := 0 to |edges|
      invariant JoinFrom(pnt, curr, edges, 0) == JoinFrom(pnt, curr, edges, i)
    {
      if i == curr {
        continue;
      }
      if Similar(pnt, edges[i].pnt1, SimilarTol) {
        return Some((edges[i].pnt2, i));
      } else if Similar(pnt, edges[i].pnt2, SimilarTol) {
        return Some((edges[i].pnt1, i));
      }
    }
    return None;
  }

  /** The stitching state after `n` rounds: the points so far, the normals
      so far and the positions of the edges used (edge 0 first); None once a
      lookup has failed, where the source raises on unpacking None. */
  function Stitch(edges: seq<Edge>, n: nat): (r: Option<(seq<Vec>, seq<Vec>, seq<nat>)>)
    requires |edges| > 0
    ensures r.Some? ==> |r.value.0| == n + 1 && |r.value.1| == n && |r.value.2| == n + 1
    ensures r.Some? ==> forall i :: 0 <= i < |r.value.2| ==> r.value.2[i] < |edges|
  {
    if n == 0 then Some(([edges[0].pnt2], [], [0]))
    else match Stitch(edges, n - 1)
      case None => None
      case Some((pts, nrms, used)) =>
        match JoinFrom(pts[n - 1], used[n - 1], edges, 0)
          case None => None
          case Some((q, j)) => Some((pts + [q], nrms + [edges[j].normal], used + [j]))
  }

  /** Every round takes the joining point of the previous point, skipping
      the edge just used, and records that edge's normal. */
  lemma {:induction false} StitchSteps(edges: seq<Edge>, n: nat)
    requires |edges| > 0 && Stitch(edges, n).Some?
    ensures var (pts, nrms, used) := Stitch(edges, n).value;
      && pts[0] == edges[0].pnt2 && used[0] == 0
      && forall i :: 0 <= i < n ==>
        JoinFrom(pts[i], used[i], edges, 0) == Some((pts[i + 1], used[i + 1]))
        && nrms[i] == edges[used[i + 1]].normal
  {
    if n > 0 {
      StitchSteps(edges, n - 1);
    }
  }

  /** Once a lookup fails, every later round fails too. */
  lemma {:induction false} StitchStaysFailed(edges: seq<Edge>, m: nat, n: nat)
    requires |edges| > 0 && m <= n && Stitch(edges, m).None?
    ensures Stitch(edges, n).None?
    decreases n - m
  {
    if m < n {
      StitchStaysFailed(edges, m + 1, n);
    }
  }

  /** stitchEdges: |edges| rounds of findJoiningPoint starting from the
      second point of edge 0; None for no edges (IndexError) or a failed
      lookup. */
  method StitchEdges(edges: seq<Edge>) returns (r: Option<(seq<Vec>, seq<Vec>)>)
    ensures |edges| == 0 ==> r.None?
    ensures |edges| > 0 ==> (r.Some? <==> Stitch(edges, |edges|).Some?)
    ensures r.Some? ==> |edges| > 0 && r.value == (Stitch(edges, |edges|).value.0, Stitch(edges, |edges|).value.1)
  {
    if |edges| == 0 {
      return None;
    }
    var nextEdge := 0;
    var pointsOut := [edges[0].pnt2];
    var normalsOut := [];
    ghost var used: seq<nat> := [0];
    for i := 0 to |edges|
      invariant Stitch(edges, i) == Some((pointsOut, normalsOut, used))
      invariant nextEdge == used[i]
    {
      var next := FindJoiningPoint(pointsOut[i], nextEdge, edges);
      if next.None? {
        StitchStaysFailed(edges, i + 1, |edges|);
        return None;
      }
      var (nextPt, j) := next.value;
      nextEdge := j;
      pointsOut := pointsOut + [nextPt];
      normalsOut := normalsOut + [edges[j].normal];
      used := used + [j];
    }
    return Some((pointsOut, normalsOut));
  }
}
