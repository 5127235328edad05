/** The clipper of src/STL/Clipping.py: every facet of a mesh is tested
    against the window [0, W0] x [0, W1] x [0, W2]. A facet the test calls
    inside is kept unchanged, one wholly beyond a face of the window is
    dropped, and any other facet has its vertices pushed onto the window
    planes one axis at a time (Cohen-Sutherland outcodes in a fourth entry),
    after which the vertices that ended inside are fanned into triangles.
    Python's `round(., 8)` and the unit normalisation of the new normal are
    parameters; the facets come from re-parsing the mesh's lines. */
module Clipping {
  import opened Wrappers
  import opened Methods
  import opened ReadStl

  // ---------------------------------------------------------------------
  // CS: Cohen-Sutherland outcodes
  // ---------------------------------------------------------------------

  /** The two bits of one axis: 1 below 0, else 2 above the window. */
  function AxisCode(c: real, limit: real): int {
    if c < 0.0 then 1 else if c > limit then 2 else 0
  }

  /** The outcode of a point: bits 1/2 for x, 4/8 for y, 16/32 for z. */
  function Code(p: Vec, w: Vec): int
    requires |p| >= 3 && |w| == 3
  {
    AxisCode(p[0], w[0]) + 4 * AxisCode(p[1], w[1]) + 16 * AxisCode(p[2], w[2])
  }

  /** The point lies in the closed window. */
  predicate InBox(p: Vec, w: Vec)
    requires |p| >= 3 && |w| == 3
  {
    0.0 <= p[0] <= w[0] && 0.0 <= p[1] <= w[1] && 0.0 <= p[2] <= w[2]
  }

  /** CS adds the outcode onto the fourth entry in place; the other entries
      are untouched. */
  function CS(p: Vec, w: Vec): (r: Vec)
    requires |p| >= 4 && |w| == 3
    ensures |r| == |p| && r[3] == p[3] + Code(p, w) as real
    ensures forall k :: 0 <= k < |p| && k != 3 ==> r[k] == p[k]
  {
    p[3 := p[3] + Code(p, w) as real]
  }

  /** The six bits decode back to the position of the point against each
      pair of planes: at most one bit per axis is ever set. */
  lemma CodeDecodes(p: Vec, w: Vec)
    requires |p| >= 3 && |w| == 3
    ensures var c := Code(p, w);
      && 0 <= c < 64
      && (c % 4 == 1 <==> p[0] < 0.0) && (c % 4 == 2 <==> 0.0 <= p[0] && p[0] > w[0]) && c % 4 != 3
      && (c / 4 % 4 == 1 <==> p[1] < 0.0) && (c / 4 % 4 == 2 <==> 0.0 <= p[1] && p[1] > w[1]) && c / 4 % 4 != 3
      && (c / 16 == 1 <==> p[2] < 0.0) && (c / 16 == 2 <==> 0.0 <= p[2] && p[2] > w[2]) && c / 16 != 3
  {
    DigitsOf(AxisCode(p[0], w[0]), AxisCode(p[1], w[1]), AxisCode(p[2], w[2]));
  }

  /** Base-4 digits of a three-digit number. */
  lemma DigitsOf(x: int, y: int, z: int)
    requires 0 <= x < 4 && 0 <= y < 4 && 0 <= z < 4
    ensures (x + 4 * y + 16 * z) % 4 == x && (x + 4 * y + 16 * z) / 4 % 4 == y && (x + 4 * y + 16 * z) / 16 == z
  {
  }

  /** Starting from a fourth entry of 0, CS leaves 0 exactly for points in
      the closed window. */
  lemma CodeZeroIffInBox(p: Vec, w: Vec)
    requires |p| >= 3 && |w| == 3
    ensures Code(p, w) == 0 <==> InBox(p, w)
  {
  }

  // ---------------------------------------------------------------------
  // pushPoints
  // ---------------------------------------------------------------------

  /** The plane p0 is pushed toward on its axis: 0 when it is below the
      window, the window size when above, otherwise the side the direction
      m points to. */
  function Plane(c: real, m: real, limit: real): real {
    if c < 0.0 then 0.0
    else if c > limit then limit
    else if m < 0.0 then 0.0
    else limit
  }

  /** `newp + m * d` on the three coordinates. */
  function Step(p: Vec, m: Vec, d: real): (r: Vec)
    requires |p| == 3 && |m| == 3
    ensures |r| == 3
  {
    [p[0] + m[0] * d, p[1] + m[1] * d, p[2] + m[2] * d]
  }

  /** The push parameter d, when the direction has a component on the axis. */
  function PushParameter(p0: Vec, p1: Vec, axis: nat, w: Vec): Option<real>
    requires |p0| >= 3 && |p1| >= 3 && axis < 3 && |w| == 3
  {
    var m := p1[axis] - p0[axis];
    if m != 0.0 then Some((Plane(p0[axis], m, w[axis]) - p0[axis]) / m) else None
  }

  /** The point is moved only when 0 < d <= 1. */
  predicate Moves(p0: Vec, p1: Vec, axis: nat, w: Vec)
    requires |p0| >= 3 && |p1| >= 3 && axis < 3 && |w| == 3
  {
    var d := PushParameter(p0, p1, axis, w);
    d.Some? && 0.0 < d.value <= 1.0
  }

  /** The first three coordinates after the push along `axis`. */
  function Moved(p0: Vec, p1: Vec, axis: nat, w: Vec): (r: Vec)
    requires |p0| == 4 && |p1| == 4 && axis < 3 && |w| == 3
    ensures |r| == 3
  {
    var newp := p0[..3];
    if Moves(p0, p1, axis, w) then Step(newp, Sub(p1[..3], newp), PushParameter(p0, p1, axis, w).value) else newp
  }

  /** pushPoints: a point with code 0 is returned as it is; any other is
      moved along p1 - p0 onto the plane of axis `level % 3` (when the move
      stays within the segment) and returned with a code computed afresh. */
  function PushPoint(p0: Vec, p1: Vec, level: int, w: Vec): (r: Vec)
    requires |p0| == 4 && |p1| == 4 && |w| == 3
    ensures |r| == 4
    ensures p0[3] == 0.0 ==> r == p0
    ensures p0[3] != 0.0 ==> r[3] == Code(r, w) as real
  {
    if p0[3] == 0.0 then p0 else CS(Moved(p0, p1, level % 3, w) + [0.0], w)
  }

  /** A moved point lands on the chosen plane of the push axis. */
  lemma PushOnPlane(p0: Vec, p1: Vec, level: int, w: Vec)
    requires |p0| == 4 && |p1| == 4 && |w| == 3 && p0[3] != 0.0
    requires Moves(p0, p1, level % 3, w)
    ensures var axis := level % 3;
      PushPoint(p0, p1, level, w)[axis] == Plane(p0[axis], p1[axis] - p0[axis], w[axis])
  {
    var axis := level % 3;
    MovedOnPlane(p0, p1, axis, w);
    assert PushPoint(p0, p1, level, w)[axis] == Moved(p0, p1, axis, w)[axis];
  }

  lemma MovedOnPlane(p0: Vec, p1: Vec, axis: nat, w: Vec)
    requires |p0| == 4 && |p1| == 4 && axis < 3 && |w| == 3 && Moves(p0, p1, axis, w)
    ensures Moved(p0, p1, axis, w)[axis] == Plane(p0[axis], p1[axis] - p0[axis], w[axis])
  {
    var m := p1[axis] - p0[axis];
    var target := Plane(p0[axis], m, w[axis]);
    var d := (target - p0[axis]) / m;
    assert Sub(p1[..3], p0[..3])[axis] == m;
    assert Moved(p0, p1, axis, w)[axis] == p0[axis] + m * d;
    DivCancel(p0[axis], m, target);
  }

  lemma DivCancel(c: real, m: real, target: real)
    requires m != 0.0
    ensures c + m * ((target - c) / m) == target
  {
  }

  /** A point that does not move keeps its coordinates. */
  lemma PushStays(p0: Vec, p1: Vec, level: int, w: Vec)
    requires |p0| == 4 && |p1| == 4 && |w| == 3 && p0[3] != 0.0
    requires !Moves(p0, p1, level % 3, w)
    ensures PushPoint(p0, p1, level, w)[..3] == p0[..3]
  {
    assert (p0[..3] + [0.0])[..3] == p0[..3];
  }

  // ---------------------------------------------------------------------
  // uniqueRowOrdered
  // ---------------------------------------------------------------------

  /** The rows with every later duplicate removed. */
  function Dedup(s: seq<Vec>): (r: seq<Vec>)
    ensures |r| <= |s| && (|s| > 0 ==> |r| > 0)
  {
    if |s| == 0 then []
    else
      var d := Dedup(s[..|s| - 1]);
      if s[|s| - 1] in d then d else d + [s[|s| - 1]]
  }

  /** Dedup removes rows but never loses or invents one. */
  lemma {:induction false} DedupMembers(s: seq<Vec>)
    ensures forall x :: x in Dedup(s) <==> x in s
  {
    if |s| > 0 {
      DedupMembers(s[..|s| - 1]);
      assert s == s[..|s| - 1] + [s[|s| - 1]];
    }
  }

  predicate NoDuplicates(s: seq<Vec>) {
    forall i, j :: 0 <= i < j < |s| ==> s[i] != s[j]
  }

  /** The index of the first occurrence of x in s. */
  function FirstAt(s: seq<Vec>, x: Vec): (k: nat)
    requires x in s
    ensures k < |s| && s[k] == x && forall i :: 0 <= i < k ==> s[i] != x
  {
    if s[0] == x then 0 else 1 + FirstAt(s[1..], x)
  }

  /** Dedup keeps one copy of each row, in the order of first occurrence. */
  lemma {:induction false} DedupKeepsFirst(s: seq<Vec>)
    ensures forall x :: x in Dedup(s) <==> x in s
    ensures NoDuplicates(Dedup(s))
    ensures forall i, j :: 0 <= i < j < |Dedup(s)| ==> FirstAt(s, Dedup(s)[i]) < FirstAt(s, Dedup(s)[j])
  {
    if |s| > 0 {
      var init := s[..|s| - 1];
      var x := s[|s| - 1];
      DedupKeepsFirst(init);
      DedupMembers(s);
      assert s == init + [x];
      KeepFirstStep(s, init, x, Dedup(init));
    }
  }

  /** Appending x to a duplicate-free list d of the rows of init, ordered by
      first occurrence, unless it already holds x, keeps both properties
      for init + [x]. */
  lemma KeepFirstStep(s: seq<Vec>, init: seq<Vec>, x: Vec, d: seq<Vec>)
    requires s == init + [x]
    requires forall y :: y in d <==> y in init
    requires NoDuplicates(d)
    requires forall i, j :: 0 <= i < j < |d| ==> FirstAt(init, d[i]) < FirstAt(init, d[j])
    ensures var e := if x in d then d else d + [x];
      && NoDuplicates(e)
      && forall i, j :: 0 <= i < j < |e| ==> FirstAt(s, e[i]) < FirstAt(s, e[j])
  {
    forall y | y in init
      ensures FirstAt(s, y) == FirstAt(init, y)
    {
      FirstAtPrefix(init, [x], y);
    }
    if x !in d {
      FirstAtPrefix(init, [x], x);
      KeepFirstNew(s, init, x, d);
    }
  }

  /** The case of a row not seen before: it goes last, after every row of
      init. */
  lemma KeepFirstNew(s: seq<Vec>, init: seq<Vec>, x: Vec, d: seq<Vec>)
    requires x !in d && x in s && FirstAt(s, x) == |init|
    requires forall y :: y in d <==> y in init
    requires forall y :: y in init ==> y in s && FirstAt(s, y) == FirstAt(init, y) < |init|
    requires NoDuplicates(d)
    requires forall i, j :: 0 <= i < j < |d| ==> FirstAt(init, d[i]) < FirstAt(init, d[j])
    ensures NoDuplicates(d + [x])
    ensures forall i, j :: 0 <= i < j < |d + [x]| ==> FirstAt(s, (d + [x])[i]) < FirstAt(s, (d + [x])[j])
  {
    var e := d + [x];
    forall i, j | 0 <= i < j < |e|
      ensures e[i] != e[j] && FirstAt(s, e[i]) < FirstAt(s, e[j])
    {
      assert e[i] == d[i] && d[i] in init;
      if j < |d| {
        assert e[j] == d[j];
      }
    }
  }

  lemma {:induction false} FirstAtPrefix(a: seq<Vec>, b: seq<Vec>, x: Vec)
    requires x in a || x in b
    ensures x in a ==> FirstAt(a + b, x) == FirstAt(a, x)
    ensures x !in a ==> FirstAt(a + b, x) == |a| + FirstAt(b, x)
  {
    if |a| > 0 && a[0] != x {
      assert (a + b)[1..] == a[1..] + b;
      FirstAtPrefix(a[1..], b, x);
    } else if |a| == 0 {
      assert a + b == b;
    }
  }

  /** uniqueRowOrdered: a list that receives each row not yet in it. */
  method UniqueRowOrdered(arr: seq<Vec>) returns (newArr: seq<Vec>)
    ensures newArr == Dedup(arr)
  {
    newArr := [];
    for k := 0 to |arr|
      invariant newArr == Dedup(arr[..k])
    {
      assert arr[..k + 1][..k] == arr[..k];
      if arr[k] !in newArr {
        newArr := newArr + [arr[k]];
      }
    }
    assert arr[..|arr|] == arr;
  }

  // ---------------------------------------------------------------------
  // The push loop
  // ---------------------------------------------------------------------

  /** Rows of four entries: three coordinates and a code. */
  predicate Rows4(v: seq<Vec>) {
    forall x :: x in v ==> |x| == 4
  }

  /** Some row still carries a non-zero code. */
  predicate AnyCoded(v: seq<Vec>)
    requires Rows4(v)
  {
    exists k :: 0 <= k < |v| && v[k][3] != 0.0
  }

  /** Row `it` replaced by its pushes at `level` (the loop counter divided
      by the row count) toward its two neighbours (row 0's pushes go to the
      end); defined when the row has a successor or is not the first. */
  function Replaced(v: seq<Vec>, it: nat, level: int, w: Vec): (r: seq<Vec>)
    requires Rows4(v) && it < |v| && |w| == 3 && (it > 0 || |v| >= 2)
    ensures Rows4(r) && |r| >= 1
  {
    var n := |v|;
    if it == 0 then v[1..n] + [PushPoint(v[0], v[n - 1], level, w), PushPoint(v[0], v[1], level, w)]
    else if it == n - 1 then v[0..n - 1] + [PushPoint(v[it], v[it - 1], level, w), PushPoint(v[it], v[0], level, w)]
    else v[0..it] + [PushPoint(v[it], v[it - 1], level, w), PushPoint(v[it], v[it + 1], level, w)] + v[it + 1..n]
  }

  /** The vertex list after rewriting row `it`, duplicates removed; None
      for the IndexError of a lone row. */
  function Rewrite(v: seq<Vec>, it: nat, i: nat, w: Vec): (r: Option<seq<Vec>>)
    requires Rows4(v) && it < |v| && |w| == 3
    ensures r.Some? ==> Rows4(r.value) && |r.value| >= 1
  {
    if it == 0 && |v| < 2 then None
    else
      var rows := Replaced(v, it, i / |v|, w);
      DedupMembers(rows);
      Some(Dedup(rows))
  }

  /** One pass of the loop body from counter i: a row with code 0 is
      skipped, a coded row is rewritten (and, for row 0, the counter held
      back so the new row 0 is looked at next). */
  function Advance(v: seq<Vec>, i: nat, w: Vec): (r: Option<(seq<Vec>, nat)>)
    requires Rows4(v) && |v| >= 1 && |w| == 3
    ensures r.Some? ==> Rows4(r.value.0) && |r.value.0| >= 1
  {
    var it := i % |v|;
    if v[it][3] == 0.0 then Some((v, i + 1))
    else
      match Rewrite(v, it, i, w)
      case None => None
      case Some(v') => Some((v', if it == 0 then i else i + 1))
  }

  /** The push loop from counters i and j, with `length` the row count the
      loop condition divides by (the count seen by the previous pass). None
      stands for the IndexError of a single remaining row. */
  function PushRun(v: seq<Vec>, i: nat, j: nat, length: nat, w: Vec): (r: Option<seq<Vec>>)
    requires Rows4(v) && |v| >= 1 && length >= 1 && |w| == 3 && j <= 100
    ensures r.Some? ==> Rows4(r.value)
    decreases 100 - j
  {
    if !(i / length < 3 && j < 100 && AnyCoded(v)) then Some(v)
    else
      match Advance(v, i, w)
      case None => None
      case Some(next) => PushRun(next.0, next.1, j + 1, |v|, w)
  }

  /** The body of the loop of lines 116-136 for counter i: the new vertex
      list and counter, or None for the IndexError of a lone coded row. */
  method PushPass(v: seq<Vec>, i: nat, w: Vec) returns (r: Option<(seq<Vec>, nat)>)
    requires Rows4(v) && |v| >= 1 && |w| == 3
    ensures r == Advance(v, i, w)
  {
    var length := |v|;
    var it := i % length;
    if v[it][3] == 0.0 {
      return Some((v, i + 1));
    }
    if it == 0 && length < 2 {
      return None;
    }
    var rows := ReplaceRow(v, it, i / length, w);
    var unique := UniqueRowOrdered(rows);
    assert Rewrite(v, it, i, w) == Some(unique);
    return Some((unique, if it == 0 then i else i + 1));
  }

  /** Row `it` of the loop body replaced by its two pushes at `level`: row
      0's first push goes toward the last row and the pair moves to the end;
      the last row's second push goes toward row 0. */
  method ReplaceRow(v: seq<Vec>, it: nat, level: nat, w: Vec) returns (rows: seq<Vec>)
    requires Rows4(v) && it < |v| && |w| == 3 && (it > 0 || |v| >= 2)
    ensures rows == Replaced(v, it, level, w)
  {
    var length := |v|;
    var newPoints: seq<Vec>;
    if it == 0 {
      newPoints := [PushPoint(v[0], v[length - 1], level, w), PushPoint(v[0], v[1], level, w)];
      rows := v[1..length] + newPoints;
    } else if it == length - 1 {
      newPoints := [PushPoint(v[it], v[it - 1], level, w), PushPoint(v[it], v[0], level, w)];
      rows := v[0..length - 1] + newPoints;
    } else {
      newPoints := [PushPoint(v[it], v[it - 1], level, w), PushPoint(v[it], v[it + 1], level, w)];
      rows := v[0..it] + newPoints + v[it + 1..length];
    }
  }

  /** The while loop of lines 116-136: at most 100 passes, each rewriting
      one coded row with its pushes toward both neighbours. */
  method PushLoop(verts: seq<Vec>, w: Vec) returns (r: Option<seq<Vec>>)
    requires Rows4(verts) && |verts| >= 3 && |w| == 3
    ensures r == PushRun(verts, 0, 0, 3, w)
  {
    var length := 3;
    var v := verts;
    var i: nat := 0;
    var j := 0;
    while i / length < 3 && j < 100 && AnyCoded(v)
      invariant Rows4(v) && |v| >= 1 && length >= 1 && 0 <= j <= 100
      invariant PushRun(v, i, j, length, w) == PushRun(verts, 0, 0, 3, w)
      decreases 100 - j
    {
      length := |v|;
      var next := PushPass(v, i, w);
      if next.None? {
        return None;
      }
      v, i := next.value.0, next.value.1;
      j := j + 1;
    }
    return Some(v);
  }

  /** Every row carries the code of its own coordinates. */
  predicate Coded(v: seq<Vec>, w: Vec)
    requires |w| == 3
  {
    forall x :: x in v ==> |x| == 4 && x[3] == Code(x, w) as real
  }

  lemma RewriteCoded(v: seq<Vec>, it: nat, i: nat, w: Vec)
    requires Rows4(v) && it < |v| && |w| == 3 && Coded(v, w)
    ensures Rewrite(v, it, i, w).Some? ==> Coded(Rewrite(v, it, i, w).value, w)
  {
    if it > 0 || |v| >= 2 {
      var n := |v|;
      var level := i / n;
      var rows := Replaced(v, it, level, w);
      if it == 0 {
        PushCoded(v[0], v[n - 1], level, w);
        PushCoded(v[0], v[1], level, w);
        CodedSplice(v, 0, 1, PushPoint(v[0], v[n - 1], level, w), PushPoint(v[0], v[1], level, w), w);
      } else if it == n - 1 {
        PushCoded(v[it], v[it - 1], level, w);
        PushCoded(v[it], v[0], level, w);
        CodedSplice(v, n - 1, n, PushPoint(v[it], v[it - 1], level, w), PushPoint(v[it], v[0], level, w), w);
      } else {
        PushCoded(v[it], v[it - 1], level, w);
        PushCoded(v[it], v[it + 1], level, w);
        CodedSplice(v, it, it + 1, PushPoint(v[it], v[it - 1], level, w), PushPoint(v[it], v[it + 1], level, w), w);
      }
      DedupMembers(rows);
    }
  }

  /** A push of a consistently coded row is consistently coded. */
  lemma PushCoded(p0: Vec, p1: Vec, level: int, w: Vec)
    requires |p0| == 4 && |p1| == 4 && |w| == 3 && p0[3] == Code(p0, w) as real
    ensures PushPoint(p0, p1, level, w)[3] == Code(PushPoint(p0, p1, level, w), w) as real
  {
  }

  /** Replacing rows lo .. hi-1 (at an end, or one row in the middle) by
      two coded rows keeps the list coded. */
  lemma CodedSplice(v: seq<Vec>, lo: nat, hi: nat, a: Vec, b: Vec, w: Vec)
    requires lo < hi <= |v| && |w| == 3 && Coded(v, w)
    requires |a| == 4 && a[3] == Code(a, w) as real && |b| == 4 && b[3] == Code(b, w) as real
    ensures Coded(v[0..lo] + [a, b] + v[hi..|v|], w)
    ensures lo == 0 ==> Coded(v[hi..|v|] + [a, b], w)
  {
    forall x | x in v[0..lo] + [a, b] + v[hi..|v|]
      ensures |x| == 4 && x[3] == Code(x, w) as real
    {
      if x in v[0..lo] {
        assert x in v;
      } else if x in v[hi..|v|] {
        assert x in v;
      }
    }
    forall x | x in v[hi..|v|] + [a, b]
      ensures |x| == 4 && x[3] == Code(x, w) as real
    {
      if x in v[hi..|v|] {
        assert x in v;
      }
    }
  }

  /** Pushing keeps every row's code consistent with its coordinates. */
  lemma {:induction false} PushRunCoded(v: seq<Vec>, i: nat, j: nat, length: nat, w: Vec)
    requires Rows4(v) && |v| >= 1 && length >= 1 && |w| == 3 && j <= 100 && Coded(v, w)
    ensures var r := PushRun(v, i, j, length, w); r.Some? ==> Coded(r.value, w)
    decreases 100 - j
  {
    if i / length < 3 && j < 100 && AnyCoded(v) {
      var n := |v|;
      var it := i % n;
      if v[it][3] != 0.0 {
        RewriteCoded(v, it, i, w);
      }
      match Advance(v, i, w)
      case None =>
      case Some(next) => PushRunCoded(next.0, next.1, j + 1, n, w);
    }
  }

  // ---------------------------------------------------------------------
  // Per-facet classification
  // ---------------------------------------------------------------------

  function Max3(a: real, b: real, c: real): real {
    if a >= b && a >= c then a else if b >= c then b else c
  }

  function Min3(a: real, b: real, c: real): real {
    if a <= b && a <= c then a else if b <= c then b else c
  }

  /** The first three vertices hold every coordinate the tests read. */
  predicate Reads3(p: seq<Vec>) {
    |p| >= 3 && |p[0]| >= 3 && |p[1]| >= 3 && |p[2]| >= 3
  }

  /** Every vertex has exactly three coordinates, as a parsed
      `vertex x y z` line gives. */
  predicate ThreeCoordinates(vs: seq<Vec>) {
    forall k :: 0 <= k < |vs| ==> |vs[k]| == 3
  }

  /** The test on lines 96-98 as it evaluates: its lower-bound terms are
      tuples `(0 <= round(...), 8)`, always true, so only the rounded maxima
      of the first three vertices are compared with the window. */
  predicate InsideTest(p: seq<Vec>, w: Vec, round: real -> real)
    requires Reads3(p) && |w| == 3
  {
    forall a :: 0 <= a < 3 ==> round(Max3(p[0][a], p[1][a], p[2][a])) <= w[a]
  }

  /** The test on lines 101-103: the first three vertices are wholly beyond
      one face of the window. */
  predicate OutsideTest(p: seq<Vec>, w: Vec, round: real -> real)
    requires Reads3(p) && |w| == 3
  {
    exists a :: 0 <= a < 3 && (round(Max3(p[0][a], p[1][a], p[2][a])) < 0.0 || round(Min3(p[0][a], p[1][a], p[2][a])) > w[a])
  }

  /** One of the first three vertices lacks coordinate `a`. */
  predicate Short(p: seq<Vec>, a: nat)
    requires |p| >= 3
  {
    |p[0]| <= a || |p[1]| <= a || |p[2]| <= a
  }

  /** The inside test from axis `a` on, evaluated left to right as Python
      does: reading a missing coordinate raises IndexError (None), and the
      first axis whose rounded maximum exceeds the window answers false. */
  function InsideFrom(p: seq<Vec>, w: Vec, round: real -> real, a: nat): Option<bool>
    requires |p| >= 3 && |w| == 3 && a <= 3
    decreases 3 - a
  {
    if a == 3 then Some(true)
    else if Short(p, a) then None
    else if round(Max3(p[0][a], p[1][a], p[2][a])) <= w[a] then InsideFrom(p, w, round, a + 1)
    else Some(false)
  }

  /** The outside test from axis `a` on, evaluated left to right: the
      first axis wholly beyond the window answers true. */
  function OutsideFrom(p: seq<Vec>, w: Vec, round: real -> real, a: nat): Option<bool>
    requires |p| >= 3 && |w| == 3 && a <= 3
    decreases 3 - a
  {
    if a == 3 then Some(false)
    else if Short(p, a) then None
    else if round(Max3(p[0][a], p[1][a], p[2][a])) < 0.0 || round(Min3(p[0][a], p[1][a], p[2][a])) > w[a] then Some(true)
    else OutsideFrom(p, w, round, a + 1)
  }

  /** When the first three vertices hold three coordinates, neither
      evaluation raises and each answers its test. */
  lemma TestsEvaluate(p: seq<Vec>, w: Vec, round: real -> real)
    requires Reads3(p) && |w| == 3
    ensures InsideFrom(p, w, round, 0) == Some(InsideTest(p, w, round))
    ensures OutsideFrom(p, w, round, 0) == Some(OutsideTest(p, w, round))
  {
    if OutsideFrom(p, w, round, 0) == Some(true) {
      var a :| 0 <= a < 3 && OutsideFrom(p, w, round, a) == Some(true) && !Short(p, a)
        && (round(Max3(p[0][a], p[1][a], p[2][a])) < 0.0 || round(Min3(p[0][a], p[1][a], p[2][a])) > w[a]);
    }
  }

  /** Lines 86-92: the first three vertices, each with a 0 appended when the
      first one has fewer than four entries. */
  function Padded(vs: seq<Vec>): (p: seq<Vec>)
    requires |vs| >= 3
    ensures |p| == 3
  {
    if |vs[0]| < 4 then [vs[0] + [0.0], vs[1] + [0.0], vs[2] + [0.0]] else [vs[0], vs[1], vs[2]]
  }

  /** Padding changes none of the coordinates the tests read. */
  lemma PaddedAgrees(vs: seq<Vec>, w: Vec, round: real -> real)
    requires Reads3(vs) && |w| == 3
    ensures Reads3(Padded(vs))
    ensures InsideTest(Padded(vs), w, round) == InsideTest(vs, w, round)
    ensures OutsideTest(Padded(vs), w, round) == OutsideTest(vs, w, round)
  {
    var p := Padded(vs);
    assert forall i, a :: 0 <= i < 3 && 0 <= a < 3 ==> p[i][a] == vs[i][a];
  }

  /** What happens to one facet: kept as it is, dropped, or replaced by the
      polygon of vertices that ended inside. */
  datatype Verdict = KeepFace | DropFace | Polygon(verts: seq<Vec>)

  /** The rows whose code is 0, cut to their three coordinates. */
  function KeptRows(v: seq<Vec>): (r: seq<Vec>)
    requires Rows4(v)
    ensures forall k :: 0 <= k < |r| ==> |r[k]| == 3
  {
    if |v| == 0 then []
    else KeptRows(v[..|v| - 1]) + if v[|v| - 1][3] == 0.0 then [v[|v| - 1][..3]] else []
  }

  /** The verdict on a facet's vertices. Only the first three are tested;
      the rest join the vertex array of the push loop. None where the
      source raises: fewer than three vertices, a coordinate the tests read
      that is missing, a vertex without the fourth entry that CS or the
      zero-code test reads, or a vertex array whose rows are not all of
      four entries (`np.array` of ragged rows, or `vstack` with the pushed
      4-entry rows). */
  function Classify(vs: seq<Vec>, w: Vec, round: real -> real): Option<Verdict>
    requires |w| == 3
  {
    if |vs| < 3 then None
    else
      var p := Padded(vs);
      match InsideFrom(p, w, round, 0)
      case None => None
      case Some(true) => Some(KeepFace)
      case Some(false) =>
        match OutsideFrom(p, w, round, 0)
        case None => None
        case Some(true) => Some(DropFace)
        case Some(false) =>
          if |p[0]| < 4 || |p[1]| < 4 || |p[2]| < 4 then None
          else
            var coded := [CS(p[0], w), CS(p[1], w), CS(p[2], w)];
            if coded[0][3] == 0.0 && coded[1][3] == 0.0 && coded[2][3] == 0.0 then Some(KeepFace)
            else
              var rows := coded + vs[3..];
              if !Rows4(rows) then None
              else
                match PushRun(rows, 0, 0, 3, w)
                case None => None
                case Some(v) => Some(Polygon(KeptRows(v)))
  }

  /** The classification and push loop for one facet's copied vertices. */
  method ClassifyFacet(verts: seq<Vec>, w: Vec, round: real -> real) returns (r: Option<Verdict>)
    requires |w| == 3
    ensures r == Classify(verts, w, round)
  {
    if |verts| < 3 {
      return None;
    }
    var p1, p2, p3 := verts[0], verts[1], verts[2];
    if |p1| < 4 {
      p1, p2, p3 := p1 + [0.0], p2 + [0.0], p3 + [0.0];
    }
    assert [p1, p2, p3] == Padded(verts);
    var inside := InsideFrom([p1, p2, p3], w, round, 0);
    if inside.None? {
      return None;
    } else if inside.value {
      return Some(KeepFace);
    }
    var outside := OutsideFrom([p1, p2, p3], w, round, 0);
    if outside.None? {
      return None;
    } else if outside.value {
      return Some(DropFace);
    }
    if |p1| < 4 || |p2| < 4 || |p3| < 4 {
      return None;
    }
    p1, p2, p3 := CS(p1, w), CS(p2, w), CS(p3, w);
    if p1[3] == 0.0 && p2[3] == 0.0 && p3[3] == 0.0 {
      return Some(KeepFace);
    }
    var vertArray := [p1, p2, p3] + verts[3..];
    if !Rows4(vertArray) {
      return None;
    }
    var pushed := PushLoop(vertArray, w);
    if pushed.None? {
      return None;
    }
    return Some(Polygon(KeptRows(pushed.value)));
  }

  lemma {:induction false} KeptRowsInBox(v: seq<Vec>, w: Vec)
    requires Rows4(v) && |w| == 3 && Coded(v, w)
    ensures forall k :: 0 <= k < |KeptRows(v)| ==> InBox(KeptRows(v)[k], w)
  {
    if |v| > 0 {
      var init := v[..|v| - 1];
      KeptRowsInBox(init, w);
      var last := v[|v| - 1];
      CodeZeroIffInBox(last, w);
    }
  }

  /** Every vertex of a clipped polygon lies in the closed window, for a
      facet whose vertices have three coordinates each. */
  lemma PolygonInBox(vs: seq<Vec>, w: Vec, round: real -> real)
    requires |w| == 3 && ThreeCoordinates(vs)
    ensures var c := Classify(vs, w, round);
      c.Some? && c.value.Polygon? ==> forall k :: 0 <= k < |c.value.verts| ==> InBox(c.value.verts[k], w)
  {
    if |vs| >= 3 {
      var p := Padded(vs);
      var coded := [CS(p[0], w), CS(p[1], w), CS(p[2], w)];
      var rows := coded + vs[3..];
      PolygonRows(vs, w, round);
      if |vs| > 3 {
        RaggedRows(coded, vs[3..]);
      } else if Rows4(rows) {
        assert rows == coded;
        assert Coded(rows, w);
        PushRunCoded(rows, 0, 0, 3, w);
        match PushRun(rows, 0, 0, 3, w)
        case None =>
        case Some(v) => KeptRowsInBox(v, w);
      }
    }
  }

  /** A polygon verdict comes from pushing the coded rows. */
  lemma PolygonRows(vs: seq<Vec>, w: Vec, round: real -> real)
    requires |w| == 3 && |vs| >= 3
    ensures var c := Classify(vs, w, round);
      var p := Padded(vs);
      c.Some? && c.value.Polygon? ==>
        |p[0]| >= 4 && |p[1]| >= 4 && |p[2]| >= 4 &&
        var rows := [CS(p[0], w), CS(p[1], w), CS(p[2], w)] + vs[3..];
        Rows4(rows) && PushRun(rows, 0, 0, 3, w).Some? && c.value.verts == KeptRows(PushRun(rows, 0, 0, 3, w).value)
  {
  }

  lemma RaggedRows(coded: seq<Vec>, rest: seq<Vec>)
    requires |rest| > 0 && |rest[0]| == 3
    ensures !Rows4(coded + rest)
  {
    assert (coded + rest)[|coded|] == rest[0];
  }

  /** A facet whose first three vertices pass the inside test is kept
      whole, however many vertices follow and however many coordinates
      they have. */
  lemma InsideKept(vs: seq<Vec>, w: Vec, round: real -> real)
    requires |w| == 3 && Reads3(vs) && InsideTest(vs, w, round)
    ensures Classify(vs, w, round) == Some(KeepFace)
  {
    PaddedAgrees(vs, w, round);
    TestsEvaluate(Padded(vs), w, round);
  }

  /** The inside test as written keeps a facet that pokes out below 0. */
  lemma InsideIgnoresLowerBounds()
    ensures var vs := [[-1.0, 0.0, 0.0], [0.0, 0.0, 0.0], [0.0, 1.0, 0.0]];
      Classify(vs, [1.0, 1.0, 1.0], x => x) == Some(KeepFace) && !InBox(vs[0], [1.0, 1.0, 1.0])
  {
    var vs := [[-1.0, 0.0, 0.0], [0.0, 0.0, 0.0], [0.0, 1.0, 0.0]];
    assert InsideTest(vs, [1.0, 1.0, 1.0], x => x);
    InsideKept(vs, [1.0, 1.0, 1.0], x => x);
  }

  /** A facet whose first three vertices are wholly beyond one face of the
      window, and not kept by the inside test, is dropped, whatever
      vertices follow. */
  lemma OutsideDropped(vs: seq<Vec>, w: Vec, round: real -> real)
    requires |w| == 3 && Reads3(vs) && !InsideTest(vs, w, round) && OutsideTest(vs, w, round)
    ensures Classify(vs, w, round) == Some(DropFace)
  {
    PaddedAgrees(vs, w, round);
    TestsEvaluate(Padded(vs), w, round);
  }

  /** A facet of more than three 3-coordinate vertices that reaches the
      push loop raises: the padded first three rows have four entries and
      the others three, so the vertex array is ragged. */
  lemma ExtraVerticesFailPush(vs: seq<Vec>, w: Vec, round: real -> real)
    requires |w| == 3 && |vs| > 3 && ThreeCoordinates(vs)
    requires !InsideTest(vs, w, round) && !OutsideTest(vs, w, round)
    requires Code(vs[0], w) != 0 || Code(vs[1], w) != 0 || Code(vs[2], w) != 0
    ensures Classify(vs, w, round).None?
  {
    PaddedAgrees(vs, w, round);
    var p := Padded(vs);
    TestsEvaluate(p, w, round);
    RaggedRows([CS(p[0], w), CS(p[1], w), CS(p[2], w)], vs[3..]);
  }

  // ---------------------------------------------------------------------
  // Fan triangulation
  // ---------------------------------------------------------------------

  /** The triangles of lines 156-158: `len % 3 + 1` of them, each
      (v0, vi, vi+1) with the shared normal. */
  function Fan(vs: seq<Vec>, normal: Vec): (r: seq<Facet>)
    requires |vs| >= 3
    ensures |r| == |vs| % 3 + 1
    ensures forall t :: 0 <= t < |r| ==>
      r[t].normal == normal && r[t].vertices == [vs[0], vs[t + 1], vs[t + 2]]
  {
    seq(|vs| % 3 + 1, t requires 0 <= t < |vs| % 3 + 1 => Facet(normal, [vs[0], vs[t + 1], vs[t + 2]]))
  }

  /** A hexagon is fanned into a single triangle: its last three vertices
      are lost. */
  lemma FanOfHexagon(vs: seq<Vec>, normal: Vec)
    requires |vs| == 6
    ensures |Fan(vs, normal)| == 1 && Fan(vs, normal)[0].vertices == vs[..3]
  {
  }

  /** The new normal: the cross product of QR and QS, normalised by `unit`. */
  function NormalOf(vs: seq<Vec>, unit: Vec -> Vec): Vec
    requires |vs| >= 3 && |vs[0]| == 3 && |vs[1]| == 3 && |vs[2]| == 3
  {
    unit(Cross(Sub(vs[1], vs[0]), Sub(vs[2], vs[0])))
  }

  /** The facets one input facet contributes to the clipped mesh. */
  function ClipFacet(f: Facet, w: Vec, round: real -> real, unit: Vec -> Vec): Option<seq<Facet>>
    requires |w| == 3
  {
    match Classify(f.vertices, w, round)
    case None => None
    case Some(KeepFace) => Some([f])
    case Some(DropFace) => Some([])
    case Some(Polygon(vs)) => Some(if |vs| < 3 then [] else Fan(vs, NormalOf(vs, unit)))
  }

  /** The facets all input facets contribute, in order; None when one of
      them fails. */
  function ClipAll(fs: seq<Facet>, w: Vec, round: real -> real, unit: Vec -> Vec): Option<seq<Facet>>
    requires |w| == 3
  {
    if |fs| == 0 then Some([])
    else
      match ClipAll(fs[..|fs| - 1], w, round, unit)
      case None => None
      case Some(out) =>
        match ClipFacet(fs[|fs| - 1], w, round, unit)
        case None => None
        case Some(more) => Some(out + more)
  }

  /** A triangle whose three vertices lie in the closed window. */
  predicate InWindow(f: Facet, w: Vec)
    requires |w| == 3
  {
    |f.vertices| == 3 && forall k :: 0 <= k < 3 ==> |f.vertices[k]| >= 3 && InBox(f.vertices[k], w)
  }

  /** One facet contributes itself or triangles inside the window. */
  lemma ClipFacetSound(f: Facet, w: Vec, round: real -> real, unit: Vec -> Vec)
    requires |w| == 3 && ThreeCoordinates(f.vertices)
    ensures var r := ClipFacet(f, w, round, unit);
      r.Some? ==> forall t :: 0 <= t < |r.value| ==> r.value[t] == f || InWindow(r.value[t], w)
  {
    match Classify(f.vertices, w, round)
    case None =>
    case Some(KeepFace) =>
    case Some(DropFace) =>
    case Some(Polygon(vs)) =>
      PolygonInBox(f.vertices, w, round);
      if |vs| >= 3 {
        FanInWindow(vs, NormalOf(vs, unit), w);
      }
  }

  /** The fan of a polygon whose vertices lie in the window is made of
      triangles in the window. */
  lemma FanInWindow(vs: seq<Vec>, normal: Vec, w: Vec)
    requires |vs| >= 3 && |w| == 3
    requires forall k :: 0 <= k < |vs| ==> |vs[k]| == 3 && InBox(vs[k], w)
    ensures forall t :: 0 <= t < |Fan(vs, normal)| ==> InWindow(Fan(vs, normal)[t], w)
  {
    var fan := Fan(vs, normal);
    forall t | 0 <= t < |fan|
      ensures InWindow(fan[t], w)
    {
      assert fan[t].vertices == [vs[0], vs[t + 1], vs[t + 2]];
    }
  }

  /** Every facet of `out` is one of `fs` kept whole, or a triangle whose
      vertices all lie in the closed window. */
  predicate KeptOrInWindow(out: seq<Facet>, fs: seq<Facet>, w: Vec)
    requires |w| == 3
  {
    forall t :: 0 <= t < |out| ==> out[t] in fs || InWindow(out[t], w)
  }

  /** Every facet's vertices have three coordinates. */
  predicate AllThreeCoordinates(fs: seq<Facet>) {
    forall k :: 0 <= k < |fs| ==> ThreeCoordinates(fs[k].vertices)
  }

  /** Every output facet is an input facet kept whole, or a new triangle
      whose vertices all lie in the closed window, when the vertices have
      three coordinates each. */
  lemma {:induction false} ClipAllSound(fs: seq<Facet>, w: Vec, round: real -> real, unit: Vec -> Vec)
    requires |w| == 3 && AllThreeCoordinates(fs)
    ensures ClipAll(fs, w, round, unit).Some? ==> KeptOrInWindow(ClipAll(fs, w, round, unit).value, fs, w)
  {
    if |fs| > 0 {
      var init := fs[..|fs| - 1];
      var f := fs[|fs| - 1];
      var out, more := ClipAll(init, w, round, unit), ClipFacet(f, w, round, unit);
      assert AllThreeCoordinates(init) by {
        forall k | 0 <= k < |init|
          ensures ThreeCoordinates(init[k].vertices)
        {
          assert init[k] == fs[k];
        }
      }
      ClipAllSound(init, w, round, unit);
      ClipFacetSound(f, w, round, unit);
      if out.Some? && more.Some? {
        assert fs == init + [f];
        SoundConcat(fs, init, f, out.value, more.value, w);
      }
    }
  }

  /** The facets kept for a prefix followed by those of the last facet. */
  lemma SoundConcat(fs: seq<Facet>, init: seq<Facet>, f: Facet, out: seq<Facet>, more: seq<Facet>, w: Vec)
    requires |w| == 3 && fs == init + [f]
    requires KeptOrInWindow(out, init, w)
    requires forall t :: 0 <= t < |more| ==> more[t] == f || InWindow(more[t], w)
    ensures KeptOrInWindow(out + more, fs, w)
  {
    forall t | 0 <= t < |out + more|
      ensures (out + more)[t] in fs || InWindow((out + more)[t], w)
    {
      if t < |out| {
        assert (out + more)[t] == out[t];
      } else {
        assert (out + more)[t] == more[t - |out|];
      }
    }
  }

  /** ClipAll over one more facet. */
  lemma ClipAllNext(fs: seq<Facet>, k: nat, w: Vec, round: real -> real, unit: Vec -> Vec)
    requires k < |fs| && |w| == 3 && ClipAll(fs[..k], w, round, unit).Some?
    ensures ClipFacet(fs[k], w, round, unit).None? ==> ClipAll(fs[..k + 1], w, round, unit).None?
    ensures ClipFacet(fs[k], w, round, unit).Some? ==>
      ClipAll(fs[..k + 1], w, round, unit) == Some(ClipAll(fs[..k], w, round, unit).value + ClipFacet(fs[k], w, round, unit).value)
  {
    assert fs[..k + 1][..k] == fs[..k];
  }

  /** Once a prefix fails the whole list fails: the source raises out of
      the loop. */
  lemma {:induction false} ClipAllFails(fs: seq<Facet>, k: nat, w: Vec, round: real -> real, unit: Vec -> Vec)
    requires k <= |fs| && |w| == 3 && ClipAll(fs[..k], w, round, unit).None?
    ensures ClipAll(fs, w, round, unit).None?
    decreases |fs|
  {
    if k < |fs| {
      var init := fs[..|fs| - 1];
      assert init[..k] == fs[..k];
      ClipAllFails(init, k, w, round, unit);
    } else {
      assert fs[..k] == fs;
    }
  }

  // ---------------------------------------------------------------------
  // addFace and clipping
  // ---------------------------------------------------------------------

  /** addFace: the first face added makes an empty copy of the original
      holding that face; later ones are appended to the copy in place. */
  method AddFace(og: Stl, cur: Stl, face: StlFacet) returns (next: Stl)
    modifies if cur != og then {cur} else {}
    ensures cur == og ==> fresh(next) && next.name == og.name && next.file == og.file && next.lines.None? && next.faces == [face]
    ensures cur != og ==> next == cur && next.faces == old(cur.faces) + [face]
    ensures cur != og ==> next.name == old(cur.name) && next.file == old(cur.file) && next.lines == old(cur.lines)
  {
    if cur == og {
      next := og.EmptyCopy(Some(face));
    } else {
      cur.faces := cur.faces + [face];
      next := cur;
    }
  }

  /** Lines 85-158 for one facet: the facets it contributes (itself, none,
      or new triangles fanned from the clipped polygon), or None when the
      source raises. */
  method ClipOne(face: StlFacet, w: Vec, round: real -> real, unit: Vec -> Vec) returns (more: Option<seq<StlFacet>>)
    requires |w| == 3
    ensures var spec := ClipFacet(Facet(face.normal, face.vertices), w, round, unit);
      && (more.Some? <==> spec.Some?)
      && (more.Some? ==>
            && |more.value| == |spec.value|
            && forall t :: 0 <= t < |more.value| ==>
                 more.value[t].normal == spec.value[t].normal && more.value[t].vertices == spec.value[t].vertices)
    ensures more.Some? ==> forall t :: 0 <= t < |more.value| ==> more.value[t] == face || fresh(more.value[t])
  {
    var verts := face.CopyVertices();
    var verdict := ClassifyFacet(verts, w, round);
    if verdict.None? {
      return None;
    }
    match verdict.value {
      case KeepFace =>
        return Some([face]);
      case DropFace =>
        return Some([]);
      case Polygon(vs) =>
        if |vs| < 3 {
          return Some([]);
        }
        var normal := NormalOf(vs, unit);
        assert ClipFacet(Facet(face.normal, face.vertices), w, round, unit) == Some(Fan(vs, normal));
        var tris := MakeFan(vs, normal);
        return Some(tris);
    }
  }

  /** Lines 156-158: new facets for the triangles of the fan. */
  method MakeFan(vs: seq<Vec>, normal: Vec) returns (tris: seq<StlFacet>)
    requires |vs| >= 3
    ensures |tris| == |Fan(vs, normal)|
    ensures forall t :: 0 <= t < |tris| ==>
      fresh(tris[t]) && tris[t].normal == Fan(vs, normal)[t].normal && tris[t].vertices == Fan(vs, normal)[t].vertices
  {
    tris := [];
    for t := 1 to |vs| % 3 + 2
      invariant |tris| == t - 1
      invariant forall u :: 0 <= u < |tris| ==>
        fresh(tris[u]) && tris[u].normal == normal && tris[u].vertices == [vs[0], vs[u + 1], vs[u + 2]]
    {
      var f := new StlFacet(normal, [vs[0], vs[t], vs[t + 1]]);
      tris := tris + [f];
    }
  }

  /** Adds the faces one by one with addFace. `out` holds the values of the
      faces added so far (none yet while `cur` is the original). */
  method AddFaces(og: Stl, cur: Stl, faces: seq<StlFacet>, ghost out: seq<Facet>, ghost spec: seq<Facet>) returns (next: Stl)
    requires out == [] ==> cur == og
    requires out != [] ==> cur != og && cur.name == og.name && cur.file == og.file && cur.lines.None? && |cur.faces| == |out|
    requires out != [] ==> forall u :: 0 <= u < |out| ==> cur.faces[u].normal == out[u].normal && cur.faces[u].vertices == out[u].vertices
    requires |faces| == |spec| && forall t :: 0 <= t < |faces| ==> faces[t].normal == spec[t].normal && faces[t].vertices == spec[t].vertices
    modifies if cur != og then {cur} else {}
    ensures out + spec == [] ==> next == og
    ensures out + spec != [] ==> (next == cur || fresh(next)) && next != og && next.name == og.name && next.file == og.file && next.lines.None?
    ensures out + spec != [] ==> |next.faces| == |out + spec| && forall u :: 0 <= u < |out + spec| ==>
      next.faces[u].normal == (out + spec)[u].normal && next.faces[u].vertices == (out + spec)[u].vertices
  {
    next := cur;
    ghost var added := out;
    for t := 0 to |faces|
      invariant added == out + spec[..t]
      invariant added == [] ==> next == og
      invariant added != [] ==> (next == cur || fresh(next)) && next != og && next.name == og.name && next.file == og.file && next.lines.None?
      invariant added != [] ==> |next.faces| == |added| && forall u :: 0 <= u < |added| ==>
        next.faces[u].normal == added[u].normal && next.faces[u].vertices == added[u].vertices
    {
      next := AddFace(og, next, faces[t]);
      assert spec[..t + 1] == spec[..t] + [spec[t]];
      added := added + [spec[t]];
    }
    assert spec[..|faces|] == spec;
  }

  /** The loop of lines 82-158 over the re-parsed facets, whose values are
      `parsed`: None when a facet fails; otherwise the original object when
      nothing was added, or a fresh mesh holding the clipped facets. */
  method ClipFacets(stl: Stl, facets: seq<StlFacet>, ghost parsed: seq<Facet>, w: Vec, round: real -> real, unit: Vec -> Vec)
    returns (r: Option<Stl>)
    requires |w| == 3 && |facets| == |parsed|
    requires forall t :: 0 <= t < |facets| ==> facets[t].normal == parsed[t].normal && facets[t].vertices == parsed[t].vertices
    ensures var out := ClipAll(parsed, w, round, unit);
      && (r.Some? <==> out.Some?)
      && (r.Some? && out.value == [] ==> r.value == stl)
      && (r.Some? && out.value != [] ==>
            && fresh(r.value) && r.value.name == stl.name && r.value.file == stl.file && r.value.lines.None?
            && |r.value.faces| == |out.value|
            && forall u :: 0 <= u < |out.value| ==>
                 r.value.faces[u].normal == out.value[u].normal && r.value.faces[u].vertices == out.value[u].vertices)
  {
    var newStl := stl;
    ghost var out: seq<Facet> := [];
    assert parsed[..0] == [];
    for k := 0 to |facets|
      invariant forall t :: 0 <= t < |facets| ==> facets[t].normal == parsed[t].normal && facets[t].vertices == parsed[t].vertices
      invariant ClipAll(parsed[..k], w, round, unit) == Some(out)
      invariant out == [] ==> newStl == stl
      invariant out != [] ==> fresh(newStl) && newStl.name == stl.name && newStl.file == stl.file && newStl.lines.None? && |newStl.faces| == |out|
      invariant out != [] ==> forall t :: 0 <= t < |out| ==>
        newStl.faces[t].normal == out[t].normal && newStl.faces[t].vertices == out[t].vertices
    {
      assert Facet(facets[k].normal, facets[k].vertices) == parsed[k];
      ClipAllNext(parsed, k, w, round, unit);
      var more := ClipOne(facets[k], w, round, unit);
      if more.None? {
        ClipAllFails(parsed, k + 1, w, round, unit);
        return None;
      }
      ghost var spec := ClipFacet(parsed[k], w, round, unit).value;
      newStl := AddFaces(stl, newStl, more.value, out, spec);
      out := out + spec;
    }
    assert parsed[..|facets|] == parsed;
    return Some(newStl);
  }

  /** clipping: None when the mesh has no lines to re-parse (one made by
      emptyCopy, whose getFacets raises AttributeError), when re-parsing
      fails, or when a facet fails. When no facet is kept the original
      object itself is returned; otherwise a fresh mesh with the same name
      and file, and no lines, holds the clipped facets. */
  method Clip(stl: Stl, windowSize: Vec, parseFloat: string -> Option<real>, round: real -> real, unit: Vec -> Vec)
    returns (r: Option<Stl>)
    requires |windowSize| == 3
    ensures stl.lines.None? ==> r.None?
    ensures stl.lines.Some? ==>
      var lines := stl.lines.value;
      var parsed := ParseFacets(lines, HeaderIndices(lines, |lines|), parseFloat);
      var out := if parsed.Done? then ClipAll(parsed.value, windowSize, round, unit) else None;
      && (r.Some? <==> out.Some?)
      && (r.Some? && out.value == [] ==> r.value == stl)
      && (r.Some? && out.value != [] ==>
            fresh(r.value) && r.value.name == stl.name && r.value.file == stl.file && r.value.lines.None?
            && Snapshot(r.value.faces) == out.value)
  {
    if stl.lines.None? {
      return None;
    }
    var faces := GetFacets(stl.lines.value, parseFloat);
    if !faces.Done? {
      return None;
    }
    ghost var parsed := Snapshot(faces.value);
    r := ClipFacets(stl, faces.value, parsed, windowSize, round, unit);
  }

  /** Clipping the fresh mesh that a clip returns fails: it has no lines,
      so its getFacets raises AttributeError. */
  method ClipTwice(stl: Stl, windowSize: Vec, parseFloat: string -> Option<real>, round: real -> real, unit: Vec -> Vec)
    returns (first: Option<Stl>, second: Option<Stl>)
    requires |windowSize| == 3
    ensures first.Some? && first.value != stl ==> second.None?
  {
    first := Clip(stl, windowSize, parseFloat, round, unit);
    second := None;
    if first.Some? {
      second := Clip(first.value, windowSize, parseFloat, round, unit);
    }
  }
}
