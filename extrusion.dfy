/** Infill and extruder paths (src/STL/Extrusion.py): the path object, the
    density clamp and infill spacing, the slice height table and its
    tolerant lookup, the scanline starts, segment/scanline intersection,
    the open/close state machine that turns sorted crossings into paths,
    and the bookkeeping `addPath` does on the Extrusion object. */
module Extrusion {
  import opened Wrappers
  import opened Methods
  import opened ReadStl
  import opened SliceStl

  /** Default tolerance of getSliceIndex and findLineSegIntersection. */
  const Tol: real := 0.00001

  /** Side of the square the infill spacing is computed over. */
  const InfillSide: real := 1000.0

  // ---------------------------------------------------------------------
  // Path
  // ---------------------------------------------------------------------

  /** An ordered list of coordinates the extruder head follows. */
  datatype Path = Path(points: seq<Vec>)
  {
    /** calcPathLength: the distances between consecutive points, summed. */
    method CalcPathLength(sqrt: real -> real) returns (distance: real)
      ensures distance == PathLength(points, sqrt)
    {
      distance := 0.0;
      if |points| < 2 {
        return;
      }
      for i := 0 to |points| - 1
        invariant distance == PathLength(points[..i + 1], sqrt)
      {
        var d := EuclidianDistance(points[i], points[i + 1], sqrt);
        assert points[..i + 2][..i + 1] == points[..i + 1];
        distance := distance + d;
      }
      assert points[..|points|] == points;
    }

    /** getXYZ: the x, y and z columns of the points. */
    method GetXYZ() returns (x: seq<real>, y: seq<real>, z: seq<real>)
      requires forall k :: 0 <= k < |points| ==> |points[k]| >= 3
      ensures |x| == |y| == |z| == |points|
      ensures forall k :: 0 <= k < |points| ==> [x[k], y[k], z[k]] == points[k][..3]
    {
      x, y, z := [], [], [];
      for i := 0 to |points|
        invariant |x| == |y| == |z| == i
        invariant forall k :: 0 <= k < i ==> [x[k], y[k], z[k]] == points[k][..3]
      {
        var pnt := points[i];
        x := x + [pnt[0]];
        y := y + [pnt[1]];
        z := z + [pnt[2]];
      }
    }
  }

  /** The summed distance between consecutive points; 0 for fewer than two. */
  function PathLength(points: seq<Vec>, sqrt: real -> real): real {
    if |points| < 2 then 0.0
    else PathLength(points[..|points| - 1], sqrt) + Distance(points[|points| - 2], points[|points| - 1], sqrt)
  }

  /** A two-point path is as long as the distance between its ends. */
  lemma SegmentLength(a: Vec, b: Vec, sqrt: real -> real)
    ensures PathLength([a, b], sqrt) == Distance(a, b, sqrt)
  {
    assert [a, b][..1] == [a];
  }

  /** With a square root that is never negative on non-negative input, no
      path has negative length. */
  lemma {:induction false} PathLengthNonNegative(points: seq<Vec>, sqrt: real -> real)
    requires forall x :: x >= 0.0 ==> sqrt(x) >= 0.0
    ensures PathLength(points, sqrt) >= 0.0
  {
    if |points| >= 2 {
      PathLengthNonNegative(points[..|points| - 1], sqrt);
      var a, b := points[|points| - 2], points[|points| - 1];
      SquaredDistanceProps(a, b, Min(|a|, |b|));
    }
  }

  // ---------------------------------------------------------------------
  // Density and spacing
  // ---------------------------------------------------------------------

  /** The constructor's density: |d| when that is at most 1, else 1. */
  function ClampDensity(d: real): (r: real)
    ensures 0.0 <= r <= 1.0
    ensures Abs(d) <= 1.0 ==> r == Abs(d)
    ensures Abs(d) > 1.0 ==> r == 1.0
  {
    if Abs(d) <= 1.0 then Abs(d) else 1.0
  }

  /** calcInfillData: num_lines = floor(side (1 - sqrt(1 - density)) / h)
      and spacing = round((side - h num_lines) / (num_lines + 1)). None for
      the ZeroDivisionError of a zero layer height or num_lines = -1. */
  function CalcInfillData(layerHeight: real, density: real, side: real, sqrt: real -> real, round: real -> real): (r: Option<real>)
    ensures r.Some? <==> layerHeight != 0.0 && (side * (1.0 - sqrt(1.0 - density)) / layerHeight).Floor != -1
  {
    if layerHeight == 0.0 then None
    else
      var numLines := (side * (1.0 - sqrt(1.0 - density)) / layerHeight).Floor;
      if numLines + 1 == 0 then None
      else Some(round((side - layerHeight * numLines as real) / (numLines + 1) as real))
  }

  /** For a density in [0, 1], a square root that maps [0, 1] into [0, 1]
      and a rounding that keeps signs, the spacing exists and is never
      negative. */
  lemma InfillSpacingNonNegative(layerHeight: real, density: real, side: real, sqrt: real -> real, round: real -> real)
    requires layerHeight > 0.0 && 0.0 <= density <= 1.0 && side > 0.0
    requires 0.0 <= sqrt(1.0 - density) <= 1.0
    requires forall x :: x >= 0.0 ==> round(x) >= 0.0
    ensures var r := CalcInfillData(layerHeight, density, side, sqrt, round); r.Some? && r.value >= 0.0
  {
    var q := side * (1.0 - sqrt(1.0 - density));
    MulNonNeg(side, 1.0 - sqrt(1.0 - density));
    assert 0.0 <= q <= side by {
      MulLe(1.0 - sqrt(1.0 - density), 1.0, side);
    }
    var t := q / layerHeight;
    assert t * layerHeight == q;
    var n := t.Floor;
    assert 0 <= n;
    MulLe(n as real, t, layerHeight);
    assert layerHeight * n as real <= side;
    var raw := (side - layerHeight * n as real) / (n + 1) as real;
    assert raw >= 0.0 by {
      DivNonNeg(side - layerHeight * n as real, (n + 1) as real);
    }
  }

  lemma DivAdd(a: real, b: real, c: real)
    requires c != 0.0
    ensures (a + b) / c == a / c + b / c
  {
  }

  lemma DivNonNeg(a: real, b: real)
    requires a >= 0.0 && b > 0.0
    ensures a / b >= 0.0
  {
  }

  /** Solid infill at a layer height that divides the side leaves no gap
      between lines: the spacing is 0, and the start loops of
      findInfillCoord, which step by it, never end. */
  lemma SolidInfillHasZeroSpacing(sqrt: real -> real, round: real -> real)
    requires sqrt(0.0) == 0.0 && round(0.0) == 0.0
    ensures CalcInfillData(0.25, 1.0, InfillSide, sqrt, round) == Some(0.0)
  {
    assert InfillSide * (1.0 - sqrt(1.0 - 1.0)) / 0.25 == 4000.0;
    assert (4000.0).Floor == 4000;
  }

  // ---------------------------------------------------------------------
  // Scanline starts (findInfillCoord)
  // ---------------------------------------------------------------------

  /** How many of lo, lo + s, lo + 2s, ... are at most hi. */
  function StepCount(lo: real, hi: real, spacing: real): (n: nat)
    requires spacing > 0.0
  {
    if lo > hi then 0
    else
      DivNonNeg(hi - lo, spacing);
      ((hi - lo) / spacing).Floor + 1
  }

  /** One step of `spacing` leaves one value fewer to visit. */
  lemma StepCountNext(lo: real, hi: real, spacing: real)
    requires spacing > 0.0 && lo <= hi
    ensures StepCount(lo + spacing, hi, spacing) == StepCount(lo, hi, spacing) - 1
  {
    var t := (hi - lo) / spacing;
    assert t * spacing == hi - lo;
    if lo + spacing <= hi {
      var u := (hi - (lo + spacing)) / spacing;
      assert u * spacing == hi - lo - spacing;
      assert (t - 1.0) * spacing == t * spacing - spacing;
      MulCancel(u, t - 1.0, spacing);
    } else {
      assert t < 1.0 by {
        if t >= 1.0 {
          MulLe(1.0, t, spacing);
        }
      }
    }
  }

  /** The values a `while v <= hi: ...; v += spacing` loop visits from lo. */
  function Steps(lo: real, hi: real, spacing: real): seq<real>
    requires spacing > 0.0
    decreases StepCount(lo, hi, spacing)
  {
    if lo > hi then []
    else
      StepCountNext(lo, hi, spacing);
      [lo] + Steps(lo + spacing, hi, spacing)
  }

  /** The loop visits StepCount values: the first is lo, each lies in
      [lo, hi], consecutive ones are `spacing` apart, and one more step
      would exceed hi. */
  lemma {:induction false} StepsWithin(lo: real, hi: real, spacing: real)
    requires spacing > 0.0
    ensures var s := Steps(lo, hi, spacing);
      && |s| == StepCount(lo, hi, spacing)
      && (|s| == 0 <==> lo > hi)
      && (|s| > 0 ==> s[0] == lo && s[|s| - 1] + spacing > hi)
      && (forall k :: 0 <= k < |s| ==> lo <= s[k] <= hi)
      && (forall k :: 0 <= k < |s| - 1 ==> s[k + 1] == s[k] + spacing)
    decreases StepCount(lo, hi, spacing)
  {
    if lo <= hi {
      StepCountNext(lo, hi, spacing);
      StepsWithin(lo + spacing, hi, spacing);
      var s := Steps(lo, hi, spacing);
      var rest := Steps(lo + spacing, hi, spacing);
      assert s == [lo] + rest;
      forall k | 0 <= k < |s| - 1
        ensures s[k + 1] == s[k] + spacing
      {
        if k > 0 {
          assert s[k] == rest[k - 1] && s[k + 1] == rest[k];
        }
      }
    }
  }

  /** Horizontal scan starts (x, y) at a fixed x. */
  function AtX(x: real, ys: seq<real>): (r: seq<Vec>)
    ensures |r| == |ys|
  {
    seq(|ys|, k requires 0 <= k < |ys| => [x, ys[k]])
  }

  /** Vertical scan starts (x, y) at a fixed y. */
  function AtY(xs: seq<real>, y: real): (r: seq<Vec>)
    ensures |r| == |xs|
  {
    seq(|xs|, k requires 0 <= k < |xs| => [xs[k], y])
  }

  /** The first loop of findInfillCoord: (x, y) for y from lo while y <= hi. */
  method HorizontalStarts(x: real, lo: real, hi: real, spacing: real) returns (coords: seq<Vec>)
    requires spacing > 0.0
    ensures coords == AtX(x, Steps(lo, hi, spacing))
  {
    coords := [];
    var y := lo;
    ghost var visited: seq<real> := [];
    while y <= hi
      invariant visited + Steps(y, hi, spacing) == Steps(lo, hi, spacing)
      invariant coords == AtX(x, visited)
      decreases StepCount(y, hi, spacing)
    {
      StepCountNext(y, hi, spacing);
      visited := visited + [y];
      coords := coords + [[x, y]];
      y := y + spacing;
    }
  }

  /** The second loop of findInfillCoord: (x, y) for x from lo while x <= hi. */
  method VerticalStarts(lo: real, hi: real, y: real, spacing: real) returns (coords: seq<Vec>)
    requires spacing > 0.0
    ensures coords == AtY(Steps(lo, hi, spacing), y)
  {
    coords := [];
    var x := lo;
    ghost var visited: seq<real> := [];
    while x <= hi
      invariant visited + Steps(x, hi, spacing) == Steps(lo, hi, spacing)
      invariant coords == AtY(visited, y)
      decreases StepCount(x, hi, spacing)
    {
      StepCountNext(x, hi, spacing);
      visited := visited + [x];
      coords := coords + [[x, y]];
      x := x + spacing;
    }
  }

  // ---------------------------------------------------------------------
  // Slice height table and lookup
  // ---------------------------------------------------------------------

  /** The height of layer i: h added i times, which is i * h. */
  function Layer(i: nat, h: real): real {
    if i == 0 then 0.0 else Layer(i - 1, h) + h
  }

  lemma {:induction false} LayerIsProduct(i: nat, h: real)
    ensures Layer(i, h) == i as real * h
  {
    if i > 0 {
      LayerIsProduct(i - 1, h);
      assert (i - 1) as real * h + h == i as real * h;
    }
  }

  /** Each layer lies at least one layer height above every lower one. */
  lemma {:induction false} LayerGap(i: nat, j: nat, h: real)
    requires j < i && h > 0.0
    ensures Layer(i, h) - Layer(j, h) >= h
  {
    if j < i - 1 {
      LayerGap(i - 1, j, h);
    }
  }

  /** z_index: i * h for each slice, the last one replaced by the top of
      the part when the extra top slice exists. */
  function ZIndex(n: nat, h: real, additional: bool, top: real): (r: seq<real>)
    ensures |r| == n
  {
    seq(n, i requires 0 <= i < n => if additional && i == n - 1 then top else Layer(i, h))
  }

  /** The height table setupSlices builds: i times the layer height at
      index i, the top slice moved to the top of the part when there is
      an additional slice. */
  method BuildZIndex(n: nat, h: real, additional: bool, top: real) returns (zs: seq<real>)
    requires additional ==> n > 0
    ensures zs == ZIndex(n, h, additional, top)
  {
    zs := seq(n, i => i as real * h);
    if additional {
      zs := zs[n - 1 := top];
    }
    forall i | 0 <= i < n
      ensures zs[i] == ZIndex(n, h, additional, top)[i]
    {
      LayerIsProduct(i, h);
    }
  }

  /** The outcome of getSliceIndex: a slice index, None, or the IndexError
      of reading the last entry of an empty table. */
  datatype SliceLookup = AtSlice(index: nat) | NoSlice | LookupRaised

  /** The first position whose height is within tol of z. */
  function FirstClose(zs: seq<real>, z: real, tol: real): (r: Option<nat>)
    ensures r.Some? ==> r.value < |zs| && Abs(zs[r.value] - z) < tol
    ensures r.Some? ==> forall j :: 0 <= j < r.value ==> Abs(zs[j] - z) >= tol
    ensures r.None? ==> forall j :: 0 <= j < |zs| ==> Abs(zs[j] - z) >= tol
  {
    if |zs| == 0 then None
    else if Abs(zs[0] - z) < tol then Some(0)
    else
      match FirstClose(zs[1..], z, tol)
      case None => None
      case Some(k) => Some(k + 1)
  }

  /** getSliceIndex over the height table. */
  function SliceIndex(zIndex: seq<real>, layerHeight: real, z: real, tol: real): SliceLookup {
    if z < layerHeight - tol then AtSlice(0)
    else if |zIndex| == 0 then LookupRaised
    else if z > zIndex[|zIndex| - 1] + tol then NoSlice
    else
      match FirstClose(zIndex, z, tol)
      case None => NoSlice
      case Some(i) => AtSlice(i)
  }

  /** Heights below the first layer (less the tolerance) are slice 0; an
      empty table raises; above the last height there is no slice;
      otherwise the answer is the first height within tolerance, or no
      slice when there is none. */
  lemma SliceIndexMeaning(zIndex: seq<real>, layerHeight: real, z: real, tol: real)
    ensures var r := SliceIndex(zIndex, layerHeight, z, tol);
      && (z < layerHeight - tol ==> r == AtSlice(0))
      && (r == LookupRaised <==> z >= layerHeight - tol && |zIndex| == 0)
      && (z >= layerHeight - tol && r.AtSlice? ==>
            && r.index < |zIndex| && Abs(zIndex[r.index] - z) < tol
            && forall j :: 0 <= j < r.index ==> Abs(zIndex[j] - z) >= tol)
      && (z >= layerHeight - tol && |zIndex| > 0 && z <= zIndex[|zIndex| - 1] + tol ==>
            (r == NoSlice <==> forall j :: 0 <= j < |zIndex| ==> Abs(zIndex[j] - z) >= tol))
      && (z >= layerHeight - tol && |zIndex| > 0 && z > zIndex[|zIndex| - 1] + tol ==> r == NoSlice)
  {
  }

  /** FirstClose answers the first position within tolerance. */
  lemma {:induction false} FirstCloseAt(zs: seq<real>, z: real, tol: real, i: nat)
    requires i < |zs| && Abs(zs[i] - z) < tol
    requires forall j :: 0 <= j < i ==> Abs(zs[j] - z) >= tol
    ensures FirstClose(zs, z, tol) == Some(i)
  {
    if i > 0 {
      FirstCloseAt(zs[1..], z, tol, i - 1);
    }
  }

  /** A height in the table, above the first layer, not above the last
      entry and at least the tolerance away from every earlier entry, is
      found at its own position. */
  lemma TableLookup(zs: seq<real>, h: real, z: real, tol: real, i: nat)
    requires 0.0 < tol && i < |zs| && zs[i] == z && z >= h - tol && z <= zs[|zs| - 1] + tol
    requires forall j :: 0 <= j < i ==> Abs(zs[j] - z) >= tol
    ensures SliceIndex(zs, h, z, tol) == AtSlice(i)
  {
    if z >= h - tol {
      FirstCloseAt(zs, z, tol, i);
    }
  }

  /** The lookup finds slice i at the height of layer i: the table and the
      lookup agree whenever the tolerance is below half a layer. */
  lemma SliceIndexOfLayer(n: nat, h: real, additional: bool, top: real, i: nat, tol: real)
    requires h > 0.0 && 0.0 < tol && tol + tol <= h && i < n
    requires additional ==> i < n - 1 && Layer(i, h) <= top + tol
    ensures SliceIndex(ZIndex(n, h, additional, top), h, Layer(i, h), tol) == AtSlice(i)
  {
    var zs := ZIndex(n, h, additional, top);
    var z := Layer(i, h);
    if i > 0 {
      ZIndexAt(n, h, additional, top, i);
      LayerGap(i, 0, h);
      LastNotBelow(n, h, additional, top, i, tol);
      EarlierFar(n, h, additional, top, i, tol);
      TableLookup(zs, h, z, tol, i);
    }
  }

  /** The last entry of the table is not below layer i, less the tolerance. */
  lemma LastNotBelow(n: nat, h: real, additional: bool, top: real, i: nat, tol: real)
    requires h > 0.0 && 0.0 < tol && i < n
    requires additional ==> i < n - 1 && Layer(i, h) <= top + tol
    ensures Layer(i, h) <= ZIndex(n, h, additional, top)[n - 1] + tol
  {
    ZIndexAt(n, h, additional, top, n - 1);
    if !additional && i < n - 1 {
      LayerGap(n - 1, i, h);
    }
  }

  /** Every entry of the table before layer i is a tolerance away from it. */
  lemma EarlierFar(n: nat, h: real, additional: bool, top: real, i: nat, tol: real)
    requires h > 0.0 && 0.0 < tol && tol + tol <= h && i < n
    requires additional ==> i < n - 1
    ensures forall j :: 0 <= j < i ==> Abs(ZIndex(n, h, additional, top)[j] - Layer(i, h)) >= tol
  {
    forall j | 0 <= j < i
      ensures Abs(ZIndex(n, h, additional, top)[j] - Layer(i, h)) >= tol
    {
      ZIndexAt(n, h, additional, top, j);
      LayerFar(i, j, h, tol);
    }
  }

  /** Every entry of the table but a replaced top one is its layer height. */
  lemma ZIndexAt(n: nat, h: real, additional: bool, top: real, j: nat)
    requires j < n
    ensures ZIndex(n, h, additional, top)[j] == if additional && j == n - 1 then top else Layer(j, h)
  {
  }

  /** Two different layers are at least a tolerance apart. */
  lemma LayerFar(i: nat, j: nat, h: real, tol: real)
    requires j < i && h > 0.0 && 0.0 < tol && tol + tol <= h
    ensures Abs(Layer(j, h) - Layer(i, h)) >= tol
  {
    LayerGap(i, j, h);
  }

  // ---------------------------------------------------------------------
  // Segment / scanline intersection
  // ---------------------------------------------------------------------

  /** findLineSegIntersection: where the segment pnt1-pnt2 meets the line
      y = line_c (horizontal scan) or x = line_c (vertical scan). The height
      is pnt1's z, or 0 for a point with more than three entries. */
  function FindLineSegIntersection(pnt1: Vec, pnt2: Vec, lineC: real, isHorizontal: bool, tol: real): (r: Option<Vec>)
    requires |pnt1| >= 3 && |pnt2| >= 2 && tol >= 0.0
    ensures r.Some? ==> |r.value| == 3 && r.value[2] == (if |pnt1| > 3 then 0.0 else pnt1[2])
  {
    var z := if |pnt1| > 3 then 0.0 else pnt1[2];
    var delx := pnt2[0] - pnt1[0];
    if Abs(delx) <= tol then
      if isHorizontal && HorizontalIntersectsLineSeg(lineC, [pnt1, pnt2]) then Some([pnt1[0], lineC, z])
      else None
    else
      var m := (pnt2[1] - pnt1[1]) / delx;
      if isHorizontal then
        if !HorizontalIntersectsLineSeg(lineC, [pnt1, pnt2]) then None
        else
          SlopeNonZero(pnt2[1] - pnt1[1], delx);
          Some([(lineC - pnt1[1]) / m + pnt1[0], lineC, z])
      else if !VerticalIntersectsLineSeg(lineC, [pnt1, pnt2]) then None
      else Some([lineC, m * (lineC - pnt1[0]) + pnt1[1], z])
  }

  /** A horizontal scan finds a crossing exactly when the segment's y
      range holds the line; a vertical scan finds none on a near-vertical
      segment and otherwise exactly when its x range holds the line. The
      crossing lies on the scanline, between the segment's ends. */
  lemma SegmentCrossing(pnt1: Vec, pnt2: Vec, lineC: real, isHorizontal: bool, tol: real)
    requires |pnt1| >= 3 && |pnt2| >= 2 && tol >= 0.0
    ensures var r := FindLineSegIntersection(pnt1, pnt2, lineC, isHorizontal, tol);
      && (isHorizontal ==> (r.Some? <==> HorizontalIntersectsLineSeg(lineC, [pnt1, pnt2])))
      && (isHorizontal && r.Some? ==> r.value[1] == lineC && Between(lineC, pnt1[1], pnt2[1]))
      && (!isHorizontal && Abs(pnt2[0] - pnt1[0]) <= tol ==> r.None?)
      && (!isHorizontal && Abs(pnt2[0] - pnt1[0]) > tol ==> (r.Some? <==> VerticalIntersectsLineSeg(lineC, [pnt1, pnt2])))
      && (!isHorizontal && r.Some? ==> r.value[0] == lineC && Between(lineC, pnt1[0], pnt2[0]))
  {
  }

  lemma SlopeNonZero(dy: real, dx: real)
    requires dy != 0.0 && dx != 0.0
    ensures dy / dx != 0.0
  {
    if dy / dx == 0.0 {
      assert dy == (dy / dx) * dx;
    }
  }

  /** A crossing of a segment that is not near-vertical lies on the line
      through its two ends. */
  lemma IntersectionOnSegmentLine(pnt1: Vec, pnt2: Vec, lineC: real, isHorizontal: bool, tol: real)
    requires |pnt1| >= 3 && |pnt2| >= 2 && tol >= 0.0 && Abs(pnt2[0] - pnt1[0]) > tol
    ensures var r := FindLineSegIntersection(pnt1, pnt2, lineC, isHorizontal, tol);
      r.Some? ==> (r.value[0] - pnt1[0]) * (pnt2[1] - pnt1[1]) == (r.value[1] - pnt1[1]) * (pnt2[0] - pnt1[0])
  {
    var r := FindLineSegIntersection(pnt1, pnt2, lineC, isHorizontal, tol);
    if r.Some? {
      var dx, dy := pnt2[0] - pnt1[0], pnt2[1] - pnt1[1];
      var m := dy / dx;
      assert m * dx == dy;
      if isHorizontal {
        SlopeNonZero(dy, dx);
        var u := (lineC - pnt1[1]) / m;
        assert r.value[0] - pnt1[0] == u;
        assert u * m == lineC - pnt1[1];
        calc {
          u * dy;
          u * (m * dx);
          (u * m) * dx;
          (lineC - pnt1[1]) * dx;
        }
      } else {
        assert r.value[1] - pnt1[1] == m * (lineC - pnt1[0]);
        calc {
          (m * (lineC - pnt1[0])) * dx;
          (m * dx) * (lineC - pnt1[0]);
          dy * (lineC - pnt1[0]);
        }
      }
    }
  }

  // ---------------------------------------------------------------------
  // makePaths
  // ---------------------------------------------------------------------

  /** The path a crossing with sign `dir` closes: only a +1 sign with an
      open start closes one. */
  function Emit(start: Option<Vec>, p: Vec, dir: int): seq<Path> {
    if dir == 1 && start.Some? then [Path([start.value, p])] else []
  }

  /** The open start after a crossing with sign `dir`: a 0 sign keeps it, a
      -1 sign (re-)opens it at the crossing, a +1 sign clears it. */
  function Carry(start: Option<Vec>, p: Vec, dir: int): Option<Vec> {
    if dir == 0 then start else if dir == -1 then Some(p) else None
  }

  /** The state machine of makePaths from position i with open start
      `start`, over the sorted crossings and their paired normals. */
  function SpanPaths(isct: seq<Vec>, normals: seq<Vec>, isHorizontal: bool, i: nat, start: Option<Vec>): seq<Path>
    requires |isct| == |normals| && Planar(normals) && i <= |isct|
    decreases |isct| - i
  {
    if i == |isct| then []
    else
      var dir := NormalSign(normals[i], isHorizontal);
      Emit(start, isct[i], dir) + SpanPaths(isct, normals, isHorizontal, i + 1, Carry(start, isct[i], dir))
  }

  /** The number of +1 signs from position i on. */
  function PlusCount(normals: seq<Vec>, isHorizontal: bool, i: nat): nat
    requires Planar(normals) && i <= |normals|
    decreases |normals| - i
  {
    if i == |normals| then 0
    else (if NormalSign(normals[i], isHorizontal) == 1 then 1 else 0) + PlusCount(normals, isHorizontal, i + 1)
  }

  /** Every path has two points: an open start (a crossing at or after
      position i, or the start carried in) and a crossing after it; there
      are at most as many paths as +1 signs. */
  lemma {:induction false} SpanPathsShape(isct: seq<Vec>, normals: seq<Vec>, isHorizontal: bool, i: nat, start: Option<Vec>)
    requires |isct| == |normals| && Planar(normals) && i <= |isct|
    ensures var r := SpanPaths(isct, normals, isHorizontal, i, start);
      && |r| <= PlusCount(normals, isHorizontal, i)
      && forall t :: 0 <= t < |r| ==>
           && |r[t].points| == 2 && r[t].points[1] in isct
           && (r[t].points[0] in isct || start == Some(r[t].points[0]))
    decreases |isct| - i
  {
    if i < |isct| {
      var dir := NormalSign(normals[i], isHorizontal);
      SpanPathsShape(isct, normals, isHorizontal, i + 1, Carry(start, isct[i], dir));
    }
  }

  /** The normals as makePaths pairs them with the sorted crossings:
      entry k is the normal at the position of original point k in the
      sorted list (sortByOrderedSet(normals, isct, intersection_points)). */
  function Paired(normals: seq<Vec>, isct: seq<Vec>, points: seq<Vec>): (r: seq<Vec>)
    requires forall k :: 0 <= k < |points| ==> points[k] in isct
    requires |isct| <= |normals|
    ensures |r| == |points|
    ensures forall k :: 0 <= k < |points| ==> r[k] in normals
    ensures Planar(normals) ==> Planar(r)
  {
    seq(|points|, k requires 0 <= k < |points| => normals[FirstIndex(isct, points[k])])
  }

  /** A point is in any permutation of a list that holds it. */
  lemma PermutationMembers(points: seq<Vec>, isct: seq<Vec>)
    requires multiset(isct) == multiset(points)
    ensures |isct| == |points|
    ensures forall k :: 0 <= k < |points| ==> points[k] in isct
  {
    assert |isct| == |multiset(isct)| == |multiset(points)| == |points|;
    forall k | 0 <= k < |points|
      ensures points[k] in isct
    {
      assert points[k] in multiset(points);
    }
  }

  /** Three-coordinate points. */
  predicate Triples(points: seq<Vec>) {
    forall k :: 0 <= k < |points| ==> |points[k]| == 3
  }

  /** The crossings sorted by (x, y, z). */
  function Sorted(points: seq<Vec>): (r: seq<Vec>)
    requires Triples(points)
    ensures multiset(r) == multiset(points) && |r| == |points|
    ensures forall k :: 0 <= k < |points| ==> points[k] in r
  {
    var r := OrderPoints(Some(points)).value;
    PermutationMembers(points, r);
    r
  }

  /** makePaths: the paths between the sorted crossings. */
  function MakePathsSpec(points: seq<Vec>, normals: seq<Vec>, isHorizontal: bool): seq<Path>
    requires |points| == |normals| && Triples(points)
    requires Planar(normals)
  {
    var isct := Sorted(points);
    PermutationMembers(points, isct);
    SpanPaths(isct, Paired(normals, isct, points), isHorizontal, 0, None)
  }

  method MakePaths(intersectionPoints: seq<Vec>, normals: seq<Vec>, isHorizontal: bool) returns (paths: seq<Path>)
    requires |intersectionPoints| == |normals| && Triples(intersectionPoints)
    requires Planar(normals)
    ensures paths == MakePathsSpec(intersectionPoints, normals, isHorizontal)
  {
    var isct := Sorted(intersectionPoints);
    PermutationMembers(intersectionPoints, isct);
    var sorted := SortByOrderedSet(normals, isct, intersectionPoints);
    assert Matchable(normals, isct, intersectionPoints);
    assert sorted.value == Paired(normals, isct, intersectionPoints);
    paths := RunSpans(isct, sorted.value, isHorizontal);
  }

  /** The loop of makePaths over the sorted crossings and their normals. */
  method RunSpans(isct: seq<Vec>, normals: seq<Vec>, isHorizontal: bool) returns (paths: seq<Path>)
    requires |isct| == |normals| && Planar(normals)
    ensures paths == SpanPaths(isct, normals, isHorizontal, 0, None)
  {
    paths := [];
    var start: Option<Vec> := None;
    for i := 0 to |isct|
      invariant paths + SpanPaths(isct, normals, isHorizontal, i, start) == SpanPaths(isct, normals, isHorizontal, 0, None)
    {
      var dir := NormalSign(normals[i], isHorizontal);
      ghost var before, open := paths, start;
      if dir == 0 {
        // a crossing along the scanline neither opens nor closes a span
      } else if dir == -1 {
        start := Some(isct[i]);
      } else if dir == 1 {
        if start.Some? {
          paths := paths + [Path([start.value, isct[i]])];
        }
        start := None;
      }
      assert paths == before + Emit(open, isct[i], dir) && start == Carry(open, isct[i], dir);
      SpanStep(isct, normals, isHorizontal, i, open, before, SpanPaths(isct, normals, isHorizontal, 0, None));
    }
  }

  /** One crossing of the state machine: if the paths so far followed by the
      rest from position i make up `total`, so do the paths after crossing i
      followed by the rest from i+1. */
  lemma SpanStep(isct: seq<Vec>, normals: seq<Vec>, isHorizontal: bool, i: nat, start: Option<Vec>,
                 before: seq<Path>, total: seq<Path>)
    requires |isct| == |normals| && Planar(normals) && i < |isct|
    requires before + SpanPaths(isct, normals, isHorizontal, i, start) == total
    ensures var dir := NormalSign(normals[i], isHorizontal);
      (before + Emit(start, isct[i], dir)) + SpanPaths(isct, normals, isHorizontal, i + 1, Carry(start, isct[i], dir)) == total
  {
    var dir := NormalSign(normals[i], isHorizontal);
    var e, rest := Emit(start, isct[i], dir), SpanPaths(isct, normals, isHorizontal, i + 1, Carry(start, isct[i], dir));
    assert SpanPaths(isct, normals, isHorizontal, i, start) == e + rest;
    ConcatAssoc(before, e, rest);
  }

  lemma ConcatAssoc<T>(a: seq<T>, b: seq<T>, c: seq<T>)
    ensures (a + b) + c == a + (b + c)
  {
  }

  /** Every path makePaths returns joins two of the crossings, and there
      are at most as many paths as +1 signs among the paired normals. */
  lemma MakePathsShape(points: seq<Vec>, normals: seq<Vec>, isHorizontal: bool)
    requires |points| == |normals| && Triples(points)
    requires Planar(normals)
    ensures var isct := Sorted(points);
      var r := MakePathsSpec(points, normals, isHorizontal);
      && |r| <= PlusCount(Paired(normals, isct, points), isHorizontal, 0)
      && forall t :: 0 <= t < |r| ==> |r[t].points| == 2 && r[t].points[0] in points && r[t].points[1] in points
  {
    var isct := Sorted(points);
    PermutationMembers(points, isct);
    SpanPathsShape(isct, Paired(normals, isct, points), isHorizontal, 0, None);
    forall x | x in isct
      ensures x in points
    {
      assert x in multiset(isct);
    }
  }

  /** Three crossings b left of c left of a sort to b, c, a. */
  lemma RotationSorted(a: Vec, b: Vec, c: Vec)
    requires |a| == 3 && |b| == 3 && |c| == 3 && b[0] < c[0] < a[0]
    ensures Sorted([a, b, c]) == [b, c, a]
  {
    var want := [b, c, a];
    assert LexLeq(b, c) && LexLeq(c, a) && LexLeq(b, a);
    assert SortedLex(want);
    assert multiset(want) == multiset([a, b, c]) by {
      assert want == [b, c] + [a] && [a, b, c] == [a] + [b, c];
    }
    SortedPermutationUnique(Sorted([a, b, c]), want);
  }

  /** Pairing normals for crossings a, b, c against the order b, c, a. */
  lemma RotationPaired(a: Vec, b: Vec, c: Vec, ns: seq<Vec>)
    requires a != b && a != c && b != c && |ns| == 3
    ensures Paired(ns, [b, c, a], [a, b, c]) == [ns[2], ns[0], ns[1]]
  {
    var isct := [b, c, a];
    assert FirstIndex(isct, a) == 2;
    assert FirstIndex(isct, b) == 0;
    assert FirstIndex(isct, c) == 1;
  }

  /** sortByOrderedSet pairs by the inverse of the sort's permutation. For
      crossings a, b, c with b left of c left of a, the sort gives b, c, a,
      and the normal paired with b is that of c (ns[2]) rather than its own
      (ns[1]); likewise c gets a's and a gets b's. */
  lemma NormalsFollowInversePermutation(a: Vec, b: Vec, c: Vec, ns: seq<Vec>)
    requires |a| == 3 && |b| == 3 && |c| == 3 && b[0] < c[0] < a[0]
    requires |ns| == 3
    ensures Sorted([a, b, c]) == [b, c, a]
    ensures Paired(ns, Sorted([a, b, c]), [a, b, c]) == [ns[2], ns[0], ns[1]]
  {
    RotationSorted(a, b, c);
    assert a != b && a != c && b != c;
    RotationPaired(a, b, c, ns);
  }

  // ---------------------------------------------------------------------
  // getPaths
  // ---------------------------------------------------------------------

  /** The number of segments of the hull outline. */
  function Segments(pnts: seq<Vec>): nat {
    if |pnts| == 0 then 0 else |pnts| - 1
  }

  /** Normals usable by NormalSign. */
  predicate Planar(normals: seq<Vec>) {
    forall k :: 0 <= k < |normals| ==> |normals[k]| >= 2
  }

  /** Outline points with at least three coordinates. */
  predicate Spatial(pnts: seq<Vec>) {
    forall k :: 0 <= k < |pnts| ==> |pnts[k]| >= 3
  }

  /** The scanline crossing of each segment (i, i+1) of the outline, in
      order; the last point is not joined back to the first. */
  function Hits(pnts: seq<Vec>, lineC: real, isHorizontal: bool): (r: seq<Option<Vec>>)
    requires Spatial(pnts)
    ensures |r| == Segments(pnts)
  {
    seq(Segments(pnts), i requires 0 <= i < Segments(pnts) => FindLineSegIntersection(pnts[i], pnts[i + 1], lineC, isHorizontal, Tol))
  }

  /** Every crossing found has three coordinates. */
  predicate HitsAreTriples(hits: seq<Option<Vec>>) {
    forall i :: 0 <= i < |hits| && hits[i].Some? ==> |hits[i].value| == 3
  }

  /** The first n results with a crossing, kept in order, each with the
      normal of its segment. */
  function Collect(hits: seq<Option<Vec>>, normals: seq<Vec>, n: nat): (r: (seq<Vec>, seq<Vec>))
    requires n <= |hits| && n <= |normals| && HitsAreTriples(hits)
    ensures |r.0| == |r.1| && Triples(r.0)
    ensures Planar(normals) ==> Planar(r.1)
  {
    if n == 0 then ([], [])
    else
      var prev := Collect(hits, normals, n - 1);
      match hits[n - 1]
      case None => prev
      case Some(c) => (prev.0 + [c], prev.1 + [normals[n - 1]])
  }

  /** The segments among the first n that have a crossing, in order. */
  function HitIndices(hits: seq<Option<Vec>>, n: nat): seq<nat>
    requires n <= |hits|
  {
    if n == 0 then []
    else HitIndices(hits, n - 1) + if hits[n - 1].Some? then [n - 1] else []
  }

  /** Collected crossing k is the crossing of segment HitIndices[k], one of
      the first n, and carries that segment's normal. */
  lemma {:induction false} CollectFromHits(hits: seq<Option<Vec>>, normals: seq<Vec>, n: nat)
    requires n <= |hits| && n <= |normals| && HitsAreTriples(hits)
    ensures var r := Collect(hits, normals, n);
      var idx := HitIndices(hits, n);
      && |idx| == |r.0|
      && forall k :: 0 <= k < |idx| ==> idx[k] < n && hits[idx[k]] == Some(r.0[k]) && r.1[k] == normals[idx[k]]
  {
    if n > 0 {
      CollectFromHits(hits, normals, n - 1);
    }
  }

  /** Every crossing of the outline lies on the scanline. */
  lemma HitsOnScanline(pnts: seq<Vec>, lineC: real, isHorizontal: bool)
    requires Spatial(pnts)
    ensures var hits := Hits(pnts, lineC, isHorizontal);
      && HitsAreTriples(hits)
      && forall i :: 0 <= i < |hits| && hits[i].Some? ==> hits[i].value[if isHorizontal then 1 else 0] == lineC
  {
    var hits := Hits(pnts, lineC, isHorizontal);
    forall i | 0 <= i < |hits| && hits[i].Some?
      ensures hits[i].value[if isHorizontal then 1 else 0] == lineC
    {
      SegmentCrossing(pnts[i], pnts[i + 1], lineC, isHorizontal, Tol);
    }
  }

  /** getPaths: the paths of one scanline across a hull outline. */
  function PathsOf(pnts: seq<Vec>, normals: seq<Vec>, lineC: real, isHorizontal: bool): seq<Path>
    requires Segments(pnts) <= |normals| && Planar(normals) && Spatial(pnts)
  {
    var hits := Hits(pnts, lineC, isHorizontal);
    HitsOnScanline(pnts, lineC, isHorizontal);
    var c := Collect(hits, normals, |hits|);
    if |c.0| > 1 then MakePathsSpec(c.0, c.1, isHorizontal) else []
  }

  method GetPaths(lineC: real, pnts: seq<Vec>, normals: seq<Vec>, isHorizontal: bool) returns (paths: seq<Path>)
    requires Segments(pnts) <= |normals| && Planar(normals) && Spatial(pnts)
    ensures paths == PathsOf(pnts, normals, lineC, isHorizontal)
  {
    ghost var hits := Hits(pnts, lineC, isHorizontal);
    HitsOnScanline(pnts, lineC, isHorizontal);
    paths := [];
    var iscts: seq<Vec> := [];
    var ns: seq<Vec> := [];
    for i := 0 to Segments(pnts)
      invariant (iscts, ns) == Collect(hits, normals, i)
    {
      var isct := FindLineSegIntersection(pnts[i], pnts[i + 1], lineC, isHorizontal, Tol);
      assert isct == hits[i];
      if isct.Some? {
        iscts := iscts + [isct.value];
        ns := ns + [normals[i]];
      }
    }
    if |iscts| > 1 {
      var more := MakePaths(iscts, ns, isHorizontal);
      paths := paths + more;
    }
  }

  /** Crossings that all lie on a line give paths that lie on it. */
  lemma PathsOnLine(points: seq<Vec>, normals: seq<Vec>, isHorizontal: bool, coord: int, lineC: real)
    requires |points| == |normals| && Triples(points) && Planar(normals) && 0 <= coord < 3
    requires forall k :: 0 <= k < |points| ==> points[k][coord] == lineC
    ensures var r := MakePathsSpec(points, normals, isHorizontal);
      forall t :: 0 <= t < |r| ==>
        && |r[t].points| == 2 && |r[t].points[0]| == 3 && |r[t].points[1]| == 3
        && r[t].points[0][coord] == lineC && r[t].points[1][coord] == lineC
  {
    MakePathsShape(points, normals, isHorizontal);
  }

  /** Collected crossings keep a coordinate every crossing has. */
  lemma CollectOnLine(hits: seq<Option<Vec>>, normals: seq<Vec>, coord: int, lineC: real)
    requires |hits| <= |normals| && HitsAreTriples(hits) && 0 <= coord < 3
    requires forall i :: 0 <= i < |hits| && hits[i].Some? ==> hits[i].value[coord] == lineC
    ensures forall k :: 0 <= k < |Collect(hits, normals, |hits|).0| ==> Collect(hits, normals, |hits|).0[k][coord] == lineC
  {
    CollectFromHits(hits, normals, |hits|);
  }

  /** Both ends of every path of a scanline lie on that scanline. */
  lemma PathsOnScanline(pnts: seq<Vec>, normals: seq<Vec>, lineC: real, isHorizontal: bool)
    requires Segments(pnts) <= |normals| && Planar(normals) && Spatial(pnts)
    ensures var r := PathsOf(pnts, normals, lineC, isHorizontal);
      forall t :: 0 <= t < |r| ==>
        && |r[t].points| == 2 && |r[t].points[0]| == 3 && |r[t].points[1]| == 3
        && r[t].points[0][if isHorizontal then 1 else 0] == lineC
        && r[t].points[1][if isHorizontal then 1 else 0] == lineC
  {
    var hits := Hits(pnts, lineC, isHorizontal);
    var coord := if isHorizontal then 1 else 0;
    HitsOnScanline(pnts, lineC, isHorizontal);
    CollectOnLine(hits, normals, coord, lineC);
    var c := Collect(hits, normals, |hits|);
    if |c.0| > 1 {
      PathsOnLine(c.0, c.1, isHorizontal, coord, lineC);
    }
  }

  // ---------------------------------------------------------------------
  // Print totals
  // ---------------------------------------------------------------------

  /** The summed length of the paths of one slice. */
  function SliceLength(paths: seq<Path>, sqrt: real -> real): real {
    if |paths| == 0 then 0.0 else SliceLength(paths[..|paths| - 1], sqrt) + PathLength(paths[|paths| - 1].points, sqrt)
  }

  /** The summed length of every stored path. */
  function TotalLength(slices: seq<seq<Path>>, sqrt: real -> real): real {
    if |slices| == 0 then 0.0 else TotalLength(slices[..|slices| - 1], sqrt) + SliceLength(slices[|slices| - 1], sqrt)
  }

  /** Appending a path to one slice adds its length to the total. */
  lemma {:induction false} TotalLengthAppend(slices: seq<seq<Path>>, i: nat, p: Path, sqrt: real -> real)
    requires i < |slices|
    ensures TotalLength(slices[i := slices[i] + [p]], sqrt) == TotalLength(slices, sqrt) + PathLength(p.points, sqrt)
  {
    var n := |slices| - 1;
    var updated := slices[i := slices[i] + [p]];
    if i == n {
      assert updated[..n] == slices[..n];
      assert (slices[i] + [p])[..|slices[i]|] == slices[i];
    } else {
      assert updated[..n] == slices[..n][i := slices[i] + [p]];
      TotalLengthAppend(slices[..n], i, p, sqrt);
    }
  }

  /** Adding a path's length and print time to totals that account for
      the stored paths gives totals that account for them with the path. */
  lemma AccountedAppend(slices: seq<seq<Path>>, i: nat, p: Path, sqrt: real -> real, length: real, time: real, speed: real)
    requires i < |slices| && speed != 0.0
    ensures length == TotalLength(slices, sqrt) && time == length / speed ==>
      var added := PathLength(p.points, sqrt);
      && length + added == TotalLength(slices[i := slices[i] + [p]], sqrt)
      && time + added / speed == (length + added) / speed
  {
    TotalLengthAppend(slices, i, p, sqrt);
    DivAdd(length, PathLength(p.points, sqrt), speed);
  }

  /** Slices that hold no path add up to nothing. */
  lemma {:induction false} EmptySlicesLength(slices: seq<seq<Path>>, sqrt: real -> real)
    requires forall i :: 0 <= i < |slices| ==> slices[i] == []
    ensures TotalLength(slices, sqrt) == 0.0
  {
    if |slices| > 0 {
      EmptySlicesLength(slices[..|slices| - 1], sqrt);
    }
  }

  // ---------------------------------------------------------------------
  // Extrusion
  // ---------------------------------------------------------------------

  class Extrusion {
    var stl: Stl
    var innerStl: Stl
    var wallThickness: real
    var layerHeight: real
    var density: real
    var numWalls: int
    const printingSpeed: real := 25.4
    var lengthOfPrint: real
    var timeToPrint: real
    var numSlices: int
    var slices: seq<seq<Path>>
    var zIndex: seq<real>
    var limits: seq<real>
    var horzCoord: seq<Vec>
    var vertCoord: seq<Vec>

    /** The table and the path lists have one entry per slice. */
    predicate Valid()
      reads this
    {
      |slices| == |zIndex|
    }

    /** The totals account for exactly the stored paths. */
    predicate Accounted(sqrt: real -> real)
      reads this
    {
      lengthOfPrint == TotalLength(slices, sqrt) && timeToPrint == lengthOfPrint / printingSpeed
    }

    /** Field set-up and setupSlices; the remaining calls of the
        constructor are not part of this model. */
    constructor (stl: Stl, wallThickness: real, layerHeight: real, infillDensity: real)
      requires layerHeight > 0.0 && Sliceable(stl.faces)
      ensures this.stl == stl && innerStl == stl && this.wallThickness == wallThickness && this.layerHeight == layerHeight
      ensures density == ClampDensity(infillDensity) && numWalls == 1
      ensures lengthOfPrint == 0.0 && timeToPrint == 0.0
      ensures Valid() && |slices| == numSlices && forall i :: 0 <= i < |slices| ==> slices[i] == []
    {
      this.stl := stl;
      innerStl := stl;
      this.wallThickness := wallThickness;
      this.layerHeight := layerHeight;
      density := ClampDensity(infillDensity);
      numWalls := 1;
      lengthOfPrint := 0.0;
      timeToPrint := 0.0;
      numSlices := 0;
      slices := [];
      zIndex := [];
      limits := [];
      horzCoord := [];
      vertCoord := [];
      new;
      SetupSlices();
    }

    /** setupSlices: numSlices empty path lists and the height table. */
    method SetupSlices()
      requires layerHeight > 0.0 && Sliceable(stl.faces)
      modifies this`numSlices, this`slices, this`zIndex
      ensures HasAxes(old(AllVertices(stl.faces)))
      ensures var lim := old(Limits(AllVertices(stl.faces)));
        && numSlices == NumOfSlices(lim[5], lim[4], layerHeight) && numSlices >= 0
        && zIndex == ZIndex(numSlices, layerHeight, AdditionalSliceOnTop(lim[5], layerHeight), lim[5])
      ensures |slices| == numSlices && forall i :: 0 <= i < |slices| ==> slices[i] == []
    {
      var temp := new Slicer(stl, layerHeight);
      NumOfSlicesIs(temp.maxZ, temp.minZ, layerHeight);
      var n := temp.numSlices;
      var h := layerHeight;
      numSlices := n;
      slices := seq(n, _ => []);
      zIndex := BuildZIndex(n, h, temp.additionalSliceOnTop, temp.maxZ);
    }

    /** findInfillCoord over the given limits [xmin, xmax, ymin, ymax, ...]:
        horizontal starts (xmin, y) and vertical starts (x, ymin), y and x
        stepping by the infill spacing from the minimum up to the maximum. */
    method FindInfillCoord(bounds: seq<real>, sqrt: real -> real, round: real -> real)
      requires |bounds| == 6
      requires var sp := CalcInfillData(layerHeight, density, InfillSide, sqrt, round); sp.Some? && sp.value > 0.0
      modifies this`limits, this`horzCoord, this`vertCoord
      ensures limits == bounds
      ensures var sp := CalcInfillData(layerHeight, density, InfillSide, sqrt, round).value;
        && horzCoord == AtX(bounds[0], Steps(bounds[2], bounds[3], sp))
        && vertCoord == AtY(Steps(bounds[0], bounds[1], sp), bounds[2])
    {
      limits := bounds;
      var spacing := CalcInfillData(layerHeight, density, InfillSide, sqrt, round).value;
      horzCoord := HorizontalStarts(bounds[0], bounds[2], bounds[3], spacing);
      vertCoord := VerticalStarts(bounds[0], bounds[1], bounds[2], spacing);
    }

    /** getSliceIndex: the loop over the table with its early return. */
    method GetSliceIndex(z: real, tol: real) returns (r: SliceLookup)
      ensures r == SliceIndex(zIndex, layerHeight, z, tol)
    {
      if z < layerHeight - tol {
        return AtSlice(0);
      }
      if |zIndex| == 0 {
        return LookupRaised;
      }
      if z > zIndex[|zIndex| - 1] + tol {
        return NoSlice;
      }
      for i := 0 to |zIndex|
        invariant forall j :: 0 <= j < i ==> Abs(zIndex[j] - z) >= tol
      {
        if Abs(zIndex[i] - z) < tol {
          return AtSlice(i);
        }
      }
      return NoSlice;
    }

    /** addPath: a path whose first point has no slice changes nothing;
        otherwise it joins that slice and its length and print time are
        added to the totals. `ok` is false where the source raises
        IndexError, and then nothing has changed. */
    method AddPath(path: Path, sqrt: real -> real) returns (ok: bool)
      requires |path.points| > 0 && |path.points[0]| >= 3 && Valid()
      modifies this`slices, this`lengthOfPrint, this`timeToPrint
      ensures Valid()
      ensures old(Accounted(sqrt)) ==> Accounted(sqrt)
      ensures var look := SliceIndex(zIndex, layerHeight, path.points[0][2], Tol);
        && (ok <==> look.NoSlice? || (look.AtSlice? && look.index < |old(slices)|))
        && (ok && look.AtSlice? ==>
              && slices == old(slices)[look.index := old(slices)[look.index] + [path]]
              && lengthOfPrint == old(lengthOfPrint) + PathLength(path.points, sqrt)
              && timeToPrint == old(timeToPrint) + PathLength(path.points, sqrt) / printingSpeed)
        && (!(ok && look.AtSlice?) ==>
              slices == old(slices) && lengthOfPrint == old(lengthOfPrint) && timeToPrint == old(timeToPrint))
    {
      var index := GetSliceIndex(path.points[0][2], Tol);
      match index {
        case LookupRaised =>
          return false;
        case NoSlice =>
          return true;
        case AtSlice(i) =>
          if i >= |slices| {
            return false;
          }
          AppendToSlice(i, path, sqrt);
          return true;
      }
    }

    /** The body of addPath once the slice is known: the path joins slice
        i, and its length and print time are added to the totals. */
    method AppendToSlice(i: nat, path: Path, sqrt: real -> real)
      requires i < |slices| && Valid()
      modifies this`slices, this`lengthOfPrint, this`timeToPrint
      ensures Valid()
      ensures old(Accounted(sqrt)) ==> Accounted(sqrt)
      ensures slices == old(slices)[i := old(slices)[i] + [path]]
      ensures lengthOfPrint == old(lengthOfPrint) + PathLength(path.points, sqrt)
      ensures timeToPrint == old(timeToPrint) + PathLength(path.points, sqrt) / printingSpeed
    {
      AccountedAppend(slices, i, path, sqrt, lengthOfPrint, timeToPrint, printingSpeed);
      slices := slices[i := slices[i] + [path]];
      var length := path.CalcPathLength(sqrt);
      lengthOfPrint := lengthOfPrint + length;
      timeToPrint := timeToPrint + length / printingSpeed;
    }
  }
}
