/** The homogeneous transformation state machine of src/STL/Transform.py.
    Points are row vectors [x, y, z, s] multiplied on the left (p' = p · T).
    An operation writes entries of the pending matrix `Tsub`, which is the
    identity between operations; `updateT` composes it into `T`
    (T := T · Tsub), moves the tracked centroid through it and resets it.
    The orientation log records every axis rotation. The trigonometric
    functions are parameters. */
module Transforms {
  import opened Wrappers
  import opened Methods

  /** A 4x4 matrix; `mij` is the entry in row i, column j (numpy's `M[i, j]`). */
  datatype Matrix = M(m00: real, m01: real, m02: real, m03: real,
                      m10: real, m11: real, m12: real, m13: real,
                      m20: real, m21: real, m22: real, m23: real,
                      m30: real, m31: real, m32: real, m33: real)

  function Identity(): Matrix {
    M(1.0, 0.0, 0.0, 0.0,
      0.0, 1.0, 0.0, 0.0,
      0.0, 0.0, 1.0, 0.0,
      0.0, 0.0, 0.0, 1.0)
  }

  /** Column j, top to bottom. */
  function Column(m: Matrix, j: nat): (r: seq<real>)
    requires j < 4
    ensures |r| == 4
  {
    if j == 0 then [m.m00, m.m10, m.m20, m.m30]
    else if j == 1 then [m.m01, m.m11, m.m21, m.m31]
    else if j == 2 then [m.m02, m.m12, m.m22, m.m32]
    else [m.m03, m.m13, m.m23, m.m33]
  }

  /** The matrix product a · b (np.dot). */
  function MatMul(a: Matrix, b: Matrix): Matrix {
    M(a.m00 * b.m00 + a.m01 * b.m10 + a.m02 * b.m20 + a.m03 * b.m30,
      a.m00 * b.m01 + a.m01 * b.m11 + a.m02 * b.m21 + a.m03 * b.m31,
      a.m00 * b.m02 + a.m01 * b.m12 + a.m02 * b.m22 + a.m03 * b.m32,
      a.m00 * b.m03 + a.m01 * b.m13 + a.m02 * b.m23 + a.m03 * b.m33,
      a.m10 * b.m00 + a.m11 * b.m10 + a.m12 * b.m20 + a.m13 * b.m30,
      a.m10 * b.m01 + a.m11 * b.m11 + a.m12 * b.m21 + a.m13 * b.m31,
      a.m10 * b.m02 + a.m11 * b.m12 + a.m12 * b.m22 + a.m13 * b.m32,
      a.m10 * b.m03 + a.m11 * b.m13 + a.m12 * b.m23 + a.m13 * b.m33,
      a.m20 * b.m00 + a.m21 * b.m10 + a.m22 * b.m20 + a.m23 * b.m30,
      a.m20 * b.m01 + a.m21 * b.m11 + a.m22 * b.m21 + a.m23 * b.m31,
      a.m20 * b.m02 + a.m21 * b.m12 + a.m22 * b.m22 + a.m23 * b.m32,
      a.m20 * b.m03 + a.m21 * b.m13 + a.m22 * b.m23 + a.m23 * b.m33,
      a.m30 * b.m00 + a.m31 * b.m10 + a.m32 * b.m20 + a.m33 * b.m30,
      a.m30 * b.m01 + a.m31 * b.m11 + a.m32 * b.m21 + a.m33 * b.m31,
      a.m30 * b.m02 + a.m31 * b.m12 + a.m32 * b.m22 + a.m33 * b.m32,
      a.m30 * b.m03 + a.m31 * b.m13 + a.m32 * b.m23 + a.m33 * b.m33)
  }

  /** The pending matrices composed into T so far, oldest first. */
  datatype Product = Start | Then(prefix: Product, sub: Matrix)

  /** The matrix a history composes to: the identity, then each pending
      matrix multiplied on the right. */
  function Value(h: Product): Matrix {
    match h
    case Start => Identity()
    case Then(prefix, sub) => MatMul(Value(prefix), sub)
  }

  /** The row vector v times m. */
  function RowTimes(v: seq<real>, m: Matrix): (r: seq<real>)
    requires |v| == 4
    ensures |r| == 4
  {
    [v[0] * m.m00 + v[1] * m.m10 + v[2] * m.m20 + v[3] * m.m30,
     v[0] * m.m01 + v[1] * m.m11 + v[2] * m.m21 + v[3] * m.m31,
     v[0] * m.m02 + v[1] * m.m12 + v[2] * m.m22 + v[3] * m.m32,
     v[0] * m.m03 + v[1] * m.m13 + v[2] * m.m23 + v[3] * m.m33]
  }

  /** A position in space. */
  datatype Point = Point(x: real, y: real, z: real)

  const Origin := Point(0.0, 0.0, 0.0)

  /** A three-entry list read as a point. */
  function AsPoint(v: Vec): Point
    requires |v| == 3
  {
    Point(v[0], v[1], v[2])
  }

  /** updateCentroid: [x, y, z, 1] · m cut to its first three entries; the
      fourth entry is dropped, not divided out. */
  function MoveCentroid(c: Point, m: Matrix): Point {
    Point(c.x * m.m00 + c.y * m.m10 + c.z * m.m20 + m.m30,
          c.x * m.m01 + c.y * m.m11 + c.z * m.m21 + m.m31,
          c.x * m.m02 + c.y * m.m12 + c.z * m.m22 + m.m32)
  }

  function Transpose(m: Matrix): Matrix {
    M(m.m00, m.m10, m.m20, m.m30,
      m.m01, m.m11, m.m21, m.m31,
      m.m02, m.m12, m.m22, m.m32,
      m.m03, m.m13, m.m23, m.m33)
  }

  // ---------------------------------------------------------------------
  // The matrices the operations write into Tsub
  // ---------------------------------------------------------------------

  /** translate: row 3 holds the displacement. */
  function Translation(dx: real, dy: real, dz: real): Matrix {
    M(1.0, 0.0, 0.0, 0.0,
      0.0, 1.0, 0.0, 0.0,
      0.0, 0.0, 1.0, 0.0,
      dx, dy, dz, 1.0)
  }

  /** scale: the diagonal. */
  function Scaling(x: real, y: real, z: real, s: real): Matrix {
    M(x, 0.0, 0.0, 0.0,
      0.0, y, 0.0, 0.0,
      0.0, 0.0, z, 0.0,
      0.0, 0.0, 0.0, s)
  }

  /** The rotations about x, y and z, given the sine s and cosine c of the angle. */
  function RotX(s: real, c: real): Matrix {
    M(1.0, 0.0, 0.0, 0.0,
      0.0, c, -s, 0.0,
      0.0, s, c, 0.0,
      0.0, 0.0, 0.0, 1.0)
  }

  function RotY(s: real, c: real): Matrix {
    M(c, 0.0, -s, 0.0,
      0.0, 1.0, 0.0, 0.0,
      s, 0.0, c, 0.0,
      0.0, 0.0, 0.0, 1.0)
  }

  function RotZ(s: real, c: real): Matrix {
    M(c, s, 0.0, 0.0,
      -s, c, 0.0, 0.0,
      0.0, 0.0, 1.0, 0.0,
      0.0, 0.0, 0.0, 1.0)
  }

  function ShearMatrix(b: real, c: real, d: real, f: real, g: real, i: real): Matrix {
    M(1.0, b, c, 0.0,
      d, 1.0, f, 0.0,
      g, i, 1.0, 0.0,
      0.0, 0.0, 0.0, 1.0)
  }

  /** 1 on the diagonal except `v` at position k. */
  function DiagonalWith(k: nat, v: real): Matrix
    requires k < 3
  {
    Scaling(if k == 0 then v else 1.0, if k == 1 then v else 1.0, if k == 2 then v else 1.0, 1.0)
  }

  /** orthographic's `zero_plane`: "x" and "y" name their axis, anything
      else means z. */
  function PlaneIndex(zeroPlane: string): (k: nat)
    ensures k < 3
    ensures k == 0 <==> zeroPlane == "x"
    ensures k == 1 <==> zeroPlane == "y"
  {
    if zeroPlane == "x" then 0 else if zeroPlane == "y" then 1 else 2
  }

  /** m with diagonal entry k set to zero. */
  function ZeroAt(m: Matrix, k: nat): Matrix
    requires k < 3
  {
    if k == 0 then m.(m00 := 0.0) else if k == 1 then m.(m11 := 0.0) else m.(m22 := 0.0)
  }

  function PerspectiveMatrix(p: real, q: real, r: real, s: real): Matrix {
    M(1.0, 0.0, 0.0, p,
      0.0, 1.0, 0.0, q,
      0.0, 0.0, 1.0, r,
      0.0, 0.0, 0.0, s)
  }

  /** The pending matrix of oblique before orthographic zeroes its plane. */
  function ObliqueMatrix(f: real, alpha: real, sin: real -> real, cos: real -> real): Matrix {
    M(1.0, 0.0, 0.0, 0.0,
      0.0, 1.0, 0.0, 0.0,
      -f * cos(alpha), -f * sin(alpha), 1.0, 0.0,
      0.0, 0.0, 0.0, 1.0)
  }

  // ---------------------------------------------------------------------
  // The state and the elementary updates
  // ---------------------------------------------------------------------

  /** One entry of the orientation log: a rotation (theta, phi, psi)
      about the x, y and z axes. */
  datatype Angles = Angles(theta: real, phi: real, psi: real)

  /** What the transform has done: the history of T, the centroid it was
      built with and the orientation log. */
  datatype Pose = Pose(t: Product, start: Point, orientation: seq<Angles>)

  /** The centroid c carried through every pending matrix of h in turn, as
      updateT moves it. */
  function Track(c: Point, h: Product): Point {
    match h
    case Start => c
    case Then(prefix, sub) => MoveCentroid(Track(c, prefix), sub)
  }

  /** The current centroid of a pose. */
  function Centroid(p: Pose): Point {
    Track(p.start, p.t)
  }

  /** updateT with pending matrix `sub`. */
  function Step(p: Pose, sub: Matrix): Pose {
    Pose(Then(p.t, sub), p.start, p.orientation)
  }

  datatype Axis = X | Y | Z

  /** One write-then-updateT of a public operation: a translation, an
      axis rotation (its angle, sine and cosine; logged), a diagonal
      scaling, a shear or a perspective. */
  datatype Op =
    | Shift(dx: real, dy: real, dz: real)
    | Turn(axis: Axis, angle: real, s: real, c: real)
    | Stretch(x: real, y: real, z: real, w: real)
    | Skew(b: real, c: real, d: real, f: real, g: real, i: real)
    | Project(p: real, q: real, r: real, w: real)


  function OpMatrix(op: Op): Matrix {
    match op
    case Shift(dx, dy, dz) => Translation(dx, dy, dz)
    case Turn(X, _, s, c) => RotX(s, c)
    case Turn(Y, _, s, c) => RotY(s, c)
    case Turn(Z, _, s, c) => RotZ(s, c)
    case Stretch(x, y, z, w) => Scaling(x, y, z, w)
    case Skew(b, c, d, f, g, i) => ShearMatrix(b, c, d, f, g, i)
    case Project(p, q, r, w) => PerspectiveMatrix(p, q, r, w)
  }

  /** The log entry of an axis rotation: its angle in the slot of its axis. */
  function LogEntry(axis: Axis, angle: real): Angles {
    match axis
    case X => Angles(angle, 0.0, 0.0)
    case Y => Angles(0.0, angle, 0.0)
    case Z => Angles(0.0, 0.0, angle)
  }

  function Apply(p: Pose, op: Op): Pose {
    var q := if op.Turn? then Pose(p.t, p.start, p.orientation + [LogEntry(op.axis, op.angle)]) else p;
    Step(q, OpMatrix(op))
  }

  /** The rotation by `angle` about `axis`, with the trigonometric functions. */
  function TurnOp(axis: Axis, angle: real, sin: real -> real, cos: real -> real): Op {
    Turn(axis, angle, sin(angle), cos(angle))
  }

  /** reflectOverYZ (k = 0), reflectOverXZ (1), reflectOverXY (2) with
      v = -1; orthographic's projection with v = 0. */
  function AxisStretch(k: nat, v: real): Op
    requires k < 3
  {
    Stretch(if k == 0 then v else 1.0, if k == 1 then v else 1.0, if k == 2 then v else 1.0, 1.0)
  }

  // ---------------------------------------------------------------------
  // The public operations as compositions of updates
  // ---------------------------------------------------------------------

  /** translateToOrigin from centroid c. */
  function ToOrigin(c: Point): Op {
    Shift(-c.x, -c.y, -c.z)
  }

  /** translateToOriginal from centroid c. */
  function ToOriginal(c: Point, orig: Point): Op {
    Shift(-(c.x - orig.x), -(c.y - orig.y), -(c.z - orig.z))
  }

  /** The rotation about one axis that rotate performs only when its angle
      is not zero. */
  function TurnIf(p: Pose, axis: Axis, angle: real, sin: real -> real, cos: real -> real): Pose {
    if angle != 0.0 then Apply(p, TurnOp(axis, angle, sin, cos)) else p
  }

  /** The axis rotations of rotate: x, then y, then z. */
  function AxisTurns(p: Pose, theta: real, phi: real, psi: real, sin: real -> real, cos: real -> real): Pose {
    TurnIf(TurnIf(TurnIf(p, X, theta, sin, cos), Y, phi, sin, cos), Z, psi, sin, cos)
  }

  /** rotate: about axes through (x, y, z), moving there and back only when
      that point is not the origin. */
  function RotateP(p: Pose, theta: real, phi: real, psi: real, x: real, y: real, z: real,
                   sin: real -> real, cos: real -> real): Pose {
    if x != 0.0 || y != 0.0 || z != 0.0 then
      Apply(AxisTurns(Apply(p, Shift(-x, -y, -z)), theta, phi, psi, sin, cos), Shift(x, y, z))
    else
      AxisTurns(p, theta, phi, psi, sin, cos)
  }

  /** rotateInPlace: rotate about the current centroid. */
  function RotateInPlaceP(p: Pose, theta: real, phi: real, psi: real, sin: real -> real, cos: real -> real): Pose {
    RotateP(p, theta, phi, psi, Centroid(p).x, Centroid(p).y, Centroid(p).z, sin, cos)
  }

  /** One pass of rotateToOriginal's loop: the entry undone in place, z,
      then y, then x. */
  function UndoEntry(p: Pose, a: Angles, sin: real -> real, cos: real -> real): Pose {
    var q1 := RotateInPlaceP(p, 0.0, 0.0, -a.psi, sin, cos);
    var q2 := RotateInPlaceP(q1, 0.0, -a.phi, 0.0, sin, cos);
    RotateInPlaceP(q2, -a.theta, 0.0, 0.0, sin, cos)
  }

  /** The loop of rotateToOriginal over the log entries `rs`, last first. */
  function Undo(p: Pose, rs: seq<Angles>, sin: real -> real, cos: real -> real): Pose
    decreases |rs|
  {
    if |rs| == 0 then p
    else Undo(UndoEntry(p, rs[|rs| - 1], sin, cos), rs[..|rs| - 1], sin, cos)
  }

  /** rotateToOriginal: the whole log undone, then emptied. */
  function RotateToOriginalP(p: Pose, sin: real -> real, cos: real -> real): Pose {
    var q := Undo(p, p.orientation, sin, cos);
    Pose(q.t, q.start, [])
  }

  /** rotateToFront: back to the start of the log, then the original
      orientation undone about the origin, z, then y, then x, unless it is
      zero. */
  function RotateToFrontP(p: Pose, orig: Vec, sin: real -> real, cos: real -> real): Pose
    requires |orig| == 3
  {
    FrontTurns(RotateToOriginalP(p, sin, cos), orig, sin, cos)
  }

  /** The second half of rotateToFront: the original orientation undone
      about the origin, z, then y, then x, unless it is zero. */
  function FrontTurns(q: Pose, orig: Vec, sin: real -> real, cos: real -> real): Pose
    requires |orig| == 3
  {
    if orig != [0.0, 0.0, 0.0] then
      Apply(Apply(Apply(q, TurnOp(Z, -orig[2], sin, cos)), TurnOp(Y, -orig[1], sin, cos)), TurnOp(X, -orig[0], sin, cos))
    else q
  }

  /** `op` performed about the current centroid c: to the origin, `op`,
      back by c. */
  function AboutCentroid(p: Pose, op: Op): Pose {
    var c := Centroid(p);
    Apply(Apply(Apply(p, ToOrigin(c)), op), Shift(c.x, c.y, c.z))
  }

  /** doublePoint: with all three distances given, the x one is dropped. */
  function DoublePointOp(p: real, q: real, r: real): Op {
    Project(if p != 0.0 && q != 0.0 && r != 0.0 then 0.0 else p, q, r, 1.0)
  }

  /** reflect's helper transform: it starts at the identity with its
      centroid at `point`, moves it to the origin, undoes the normal's
      rotations, reflects over XY, redoes them and moves back. */
  function PlanePose(point: Point, normal: Vec, sin: real -> real, cos: real -> real): Pose
    requires |normal| == 3
  {
    var q1 := Apply(Pose(Start, point, []), ToOrigin(point));
    var q2 := RotateP(q1, -normal[0], -normal[1], -normal[2], 0.0, 0.0, 0.0, sin, cos);
    var q3 := Apply(q2, AxisStretch(2, -1.0));
    var q4 := RotateP(q3, normal[0], normal[1], normal[2], 0.0, 0.0, 0.0, sin, cos);
    Apply(q4, Shift(point.x, point.y, point.z))
  }

  /** The matrix reflect composes into T. */
  function PlaneMatrix(point: Vec, normal: Vec, sin: real -> real, cos: real -> real): Matrix
    requires |point| == 3 && |normal| == 3
  {
    Value(PlanePose(AsPoint(point), normal, sin, cos).t)
  }

  // ---------------------------------------------------------------------
  // What the operations do to the centroid and the matrix
  // ---------------------------------------------------------------------

  /** A shift moves the centroid by exactly its displacement. */
  lemma ShiftMoves(p: Pose, dx: real, dy: real, dz: real)
    ensures Centroid(Apply(p, Shift(dx, dy, dz))) == Point(Centroid(p).x + dx, Centroid(p).y + dy, Centroid(p).z + dz)
    ensures Apply(p, Shift(dx, dy, dz)).orientation == p.orientation
  {
  }

  /** translateToOrigin reaches the origin; translateToOriginal reaches
      the original centroid. */
  lemma TranslateToTargets(p: Pose, orig: Point)
    ensures Centroid(Apply(p, ToOrigin(Centroid(p)))) == Origin
    ensures Centroid(Apply(p, ToOriginal(Centroid(p), orig))) == orig
  {
  }

  /** Every update but a shift keeps the origin where it is. */
  lemma ApplyFixesOrigin(p: Pose, op: Op)
    requires Centroid(p) == Origin && !op.Shift?
    ensures Centroid(Apply(p, op)) == Origin
  {
  }

  /** The axis rotations keep the origin where it is. */
  lemma AxisTurnsFixOrigin(p: Pose, theta: real, phi: real, psi: real, sin: real -> real, cos: real -> real)
    requires Centroid(p) == Origin
    ensures Centroid(AxisTurns(p, theta, phi, psi, sin, cos)) == Origin
  {
    var p1 := TurnIf(p, X, theta, sin, cos);
    ApplyFixesOrigin(p, TurnOp(X, theta, sin, cos));
    var p2 := TurnIf(p1, Y, phi, sin, cos);
    ApplyFixesOrigin(p1, TurnOp(Y, phi, sin, cos));
    ApplyFixesOrigin(p2, TurnOp(Z, psi, sin, cos));
  }

  /** Rotating about the point where the centroid is leaves it there. */
  lemma RotateAboutCentroidKeeps(p: Pose, theta: real, phi: real, psi: real, sin: real -> real, cos: real -> real)
    ensures Centroid(RotateP(p, theta, phi, psi, Centroid(p).x, Centroid(p).y, Centroid(p).z, sin, cos)) == Centroid(p)
  {
    var c := Centroid(p);
    if c.x != 0.0 || c.y != 0.0 || c.z != 0.0 {
      var q := Apply(p, Shift(-c.x, -c.y, -c.z));
      assert Centroid(q) == Origin;
      AxisTurnsFixOrigin(q, theta, phi, psi, sin, cos);
    } else {
      assert c == Origin;
      AxisTurnsFixOrigin(p, theta, phi, psi, sin, cos);
    }
  }

  /** rotateInPlace leaves the centroid where it is. */
  lemma RotateInPlaceKeepsCentroid(p: Pose, theta: real, phi: real, psi: real, sin: real -> real, cos: real -> real)
    ensures Centroid(RotateInPlaceP(p, theta, phi, psi, sin, cos)) == Centroid(p)
  {
    RotateAboutCentroidKeeps(p, theta, phi, psi, sin, cos);
  }

  /** The first two in-place rotations of an undone entry, z then y. */
  lemma UndoZYKeepsCentroid(p: Pose, a: Angles, sin: real -> real, cos: real -> real)
    ensures Centroid(RotateInPlaceP(RotateInPlaceP(p, 0.0, 0.0, -a.psi, sin, cos), 0.0, -a.phi, 0.0, sin, cos)) == Centroid(p)
  {
    var q1 := RotateInPlaceP(p, 0.0, 0.0, -a.psi, sin, cos);
    RotateInPlaceKeepsCentroid(p, 0.0, 0.0, -a.psi, sin, cos);
    RotateInPlaceKeepsCentroid(q1, 0.0, -a.phi, 0.0, sin, cos);
  }

  lemma UndoEntryKeepsCentroid(p: Pose, a: Angles, sin: real -> real, cos: real -> real)
    ensures Centroid(UndoEntry(p, a, sin, cos)) == Centroid(p)
  {
    var q2 := RotateInPlaceP(RotateInPlaceP(p, 0.0, 0.0, -a.psi, sin, cos), 0.0, -a.phi, 0.0, sin, cos);
    UndoZYKeepsCentroid(p, a, sin, cos);
    RotateInPlaceKeepsCentroid(q2, -a.theta, 0.0, 0.0, sin, cos);
  }

  lemma {:induction false} UndoKeepsCentroid(p: Pose, rs: seq<Angles>, sin: real -> real, cos: real -> real)
    ensures Centroid(Undo(p, rs, sin, cos)) == Centroid(p)
    decreases |rs|
  {
    if |rs| > 0 {
      UndoEntryKeepsCentroid(p, rs[|rs| - 1], sin, cos);
      UndoKeepsCentroid(UndoEntry(p, rs[|rs| - 1], sin, cos), rs[..|rs| - 1], sin, cos);
    }
  }

  /** rotateToOriginal leaves the centroid where it is and empties the log. */
  lemma RotateToOriginalKeepsCentroid(p: Pose, sin: real -> real, cos: real -> real)
    ensures Centroid(RotateToOriginalP(p, sin, cos)) == Centroid(p)
    ensures RotateToOriginalP(p, sin, cos).orientation == []
  {
    UndoKeepsCentroid(p, p.orientation, sin, cos);
  }

  /** scale and singlePointAtOrigin leave the centroid where it is: any
      update that fixes the origin, performed about the centroid. */
  lemma AboutCentroidKeeps(p: Pose, op: Op)
    requires !op.Shift?
    ensures Centroid(AboutCentroid(p, op)) == Centroid(p)
  {
    var c := Centroid(p);
    var q := Apply(p, ToOrigin(c));
    TranslateToTargets(p, c);
    ApplyFixesOrigin(q, op);
  }

  /** A perspective update changes only the last column, which
      updateCentroid drops: the centroid stays. */
  lemma PerspectiveKeepsCentroid(p: Pose, pp: real, q: real, r: real, s: real)
    ensures Centroid(Apply(p, Project(pp, q, r, s))) == Centroid(p)
  {
  }

  /** rotate about the origin keeps the origin where it is. */
  lemma RotateAtOriginFixes(p: Pose, theta: real, phi: real, psi: real, sin: real -> real, cos: real -> real)
    requires Centroid(p) == Origin
    ensures Centroid(RotateP(p, theta, phi, psi, 0.0, 0.0, 0.0, sin, cos)) == Origin
  {
    AxisTurnsFixOrigin(p, theta, phi, psi, sin, cos);
  }

  /** The helper transform of reflect ends with its centroid back at the
      plane's point: the point is fixed by the reflection. */
  lemma PlanePoseKeepsPoint(point: Point, normal: Vec, sin: real -> real, cos: real -> real)
    requires |normal| == 3
    ensures Centroid(PlanePose(point, normal, sin, cos)) == point
  {
    var q0 := Pose(Start, point, []);
    TranslateToTargets(q0, point);
    var q1 := Apply(q0, ToOrigin(point));
    RotateAtOriginFixes(q1, -normal[0], -normal[1], -normal[2], sin, cos);
    var q2 := RotateP(q1, -normal[0], -normal[1], -normal[2], 0.0, 0.0, 0.0, sin, cos);
    ApplyFixesOrigin(q2, AxisStretch(2, -1.0));
    var q3 := Apply(q2, AxisStretch(2, -1.0));
    RotateAtOriginFixes(q3, normal[0], normal[1], normal[2], sin, cos);
    var q4 := RotateP(q3, normal[0], normal[1], normal[2], 0.0, 0.0, 0.0, sin, cos);
    assert Centroid(q4) == Origin;
    ShiftMoves(q4, point.x, point.y, point.z);
  }

  /** doublePoint always leaves at least one vanishing distance zero. */
  lemma DoublePointHasZero(p: real, q: real, r: real)
    ensures var op := DoublePointOp(p, q, r); op.p == 0.0 || op.q == 0.0 || op.r == 0.0
    ensures var op := DoublePointOp(p, q, r); op.q == q && op.r == r && op.w == 1.0
    ensures p == 0.0 || q == 0.0 || r == 0.0 ==> DoublePointOp(p, q, r) == Project(p, q, r, 1.0)
  {
  }

  lemma MatMulIdentity(a: Matrix)
    ensures MatMul(a, Identity()) == a && MatMul(Identity(), a) == a
  {
  }

  /** Reflecting twice across the same axis plane restores the matrix. */
  lemma ReflectionInvolution(a: Matrix, k: nat)
    requires k < 3
    ensures MatMul(MatMul(a, DiagonalWith(k, -1.0)), DiagonalWith(k, -1.0)) == a
  {
    if k == 0 {
      assert DiagonalWith(k, -1.0) == Scaling(-1.0, 1.0, 1.0, 1.0);
    } else if k == 1 {
      assert DiagonalWith(k, -1.0) == Scaling(1.0, -1.0, 1.0, 1.0);
    } else {
      assert DiagonalWith(k, -1.0) == Scaling(1.0, 1.0, -1.0, 1.0);
    }
  }

  /** The orthographic update zeroes column k of T, so every point lands
      on the plane normal to axis k, and keeps every other column. */
  lemma ProjectionFlattens(a: Matrix, k: nat)
    requires k < 3
    ensures Column(MatMul(a, DiagonalWith(k, 0.0)), k) == [0.0, 0.0, 0.0, 0.0]
    ensures forall j | 0 <= j < 4 && j != k :: Column(MatMul(a, DiagonalWith(k, 0.0)), j) == Column(a, j)
  {
    if k == 0 {
      assert DiagonalWith(k, 0.0) == Scaling(0.0, 1.0, 1.0, 1.0);
    } else if k == 1 {
      assert DiagonalWith(k, 0.0) == Scaling(1.0, 0.0, 1.0, 1.0);
    } else {
      assert DiagonalWith(k, 0.0) == Scaling(1.0, 1.0, 0.0, 1.0);
    }
  }

  /** With a zero normal there is nothing to rotate: reflect is the
      reflection over the XY plane performed about the point. */
  lemma PlaneWithZeroNormal(point: Point, normal: Vec, sin: real -> real, cos: real -> real)
    requires |normal| == 3 && normal[0] == 0.0 && normal[1] == 0.0 && normal[2] == 0.0
    ensures PlanePose(point, normal, sin, cos)
         == Apply(Apply(Apply(Pose(Start, point, []), ToOrigin(point)), AxisStretch(2, -1.0)), Shift(point.x, point.y, point.z))
  {
  }
  // ---------------------------------------------------------------------
  // transform, transformNorm
  // ---------------------------------------------------------------------

  /** The row normalisation of transform: a row whose fourth entry s is
      neither 0 nor 1 is divided by s. */
  function Dehomogenize(v: seq<real>): (r: seq<real>)
    requires |v| == 4
    ensures |r| == 4
  {
    var s := v[3];
    if s != 1.0 && s != 0.0 then [v[0] / s, v[1] / s, v[2] / s, v[3] / s] else v
  }

  /** After normalisation the fourth entry is 0 or 1; a divided row is the
      original scaled down by its fourth entry, any other row is untouched. */
  lemma DehomogenizeMeaning(v: seq<real>)
    requires |v| == 4
    ensures Dehomogenize(v)[3] == 0.0 || Dehomogenize(v)[3] == 1.0
    ensures v[3] != 0.0 && v[3] != 1.0 ==> Scaled(v, v[3], Dehomogenize(v))
    ensures v[3] == 0.0 || v[3] == 1.0 ==> Dehomogenize(v) == v
  {
  }

  /** transformNorm with the inverse as a parameter (None stands for
      LinAlgError): [n, 1] · transpose(inv(T)), cut to three entries. A
      normal that is not a 3-vector makes the product raise. */
  function NormalImage(t: Matrix, normal: Vec, inv: Matrix -> Option<Matrix>): (r: Option<Vec>)
    ensures r.Some? ==> |r.value| == 3
  {
    var i := inv(t);
    if |normal| != 3 || i.None? then None
    else Some(RowTimes(normal + [1.0], Transpose(i.value))[..3])
  }

  /** With T the identity and an exact inverse, normals are unchanged. */
  lemma NormalImageIdentity(normal: Vec, inv: Matrix -> Option<Matrix>)
    requires |normal| == 3 && inv(Identity()) == Some(Identity())
    ensures NormalImage(Identity(), normal, inv) == Some(normal)
  {
    var h := normal + [1.0];
    assert h[0] == normal[0] && h[1] == normal[1] && h[2] == normal[2] && h[3] == 1.0;
    var full := RowTimes(h, Transpose(Identity()));
    assert full == [normal[0], normal[1], normal[2], 1.0];
    assert full[..3] == [normal[0], normal[1], normal[2]] == normal;
  }



  // ---------------------------------------------------------------------
  // Orientation: the linear part of T and rotateToOriginal
  // ---------------------------------------------------------------------

  /** A 3x3 matrix; `aij` is the entry in row i, column j. */
  datatype Mat3 = Mat3(a00: real, a01: real, a02: real,
                       a10: real, a11: real, a12: real,
                       a20: real, a21: real, a22: real)

  /** Entry (i, j) of a 3×3 product: row i of the left factor against
      column j of the right one. */
  function RowCol(x0: real, x1: real, x2: real, y0: real, y1: real, y2: real): real {
    x0 * y0 + x1 * y1 + x2 * y2
  }

  function Mul3(a: Mat3, b: Mat3): Mat3 {
    Mat3(RowCol(a.a00, a.a01, a.a02, b.a00, b.a10, b.a20), RowCol(a.a00, a.a01, a.a02, b.a01, b.a11, b.a21), RowCol(a.a00, a.a01, a.a02, b.a02, b.a12, b.a22),
         RowCol(a.a10, a.a11, a.a12, b.a00, b.a10, b.a20), RowCol(a.a10, a.a11, a.a12, b.a01, b.a11, b.a21), RowCol(a.a10, a.a11, a.a12, b.a02, b.a12, b.a22),
         RowCol(a.a20, a.a21, a.a22, b.a00, b.a10, b.a20), RowCol(a.a20, a.a21, a.a22, b.a01, b.a11, b.a21), RowCol(a.a20, a.a21, a.a22, b.a02, b.a12, b.a22))
  }

  const I3 := Mat3(1.0, 0.0, 0.0, 0.0, 1.0, 0.0, 0.0, 0.0, 1.0)

  /** The upper-left 3x3 block of m: how it turns, scales and shears row
      vectors, leaving translation aside. */
  function Block(m: Matrix): Mat3 {
    Mat3(m.m00, m.m01, m.m02, m.m10, m.m11, m.m12, m.m20, m.m21, m.m22)
  }

  /** The last column is zero above the diagonal: the matrix maps points
      to points without a perspective part. */
  predicate Affine(m: Matrix) {
    m.m03 == 0.0 && m.m13 == 0.0 && m.m23 == 0.0
  }

  /** The block of the rotation about `axis` with sine s and cosine c. */
  function AxisRot3(axis: Axis, s: real, c: real): Mat3 {
    match axis
    case X => Mat3(1.0, 0.0, 0.0, 0.0, c, -s, 0.0, s, c)
    case Y => Mat3(c, 0.0, -s, 0.0, 1.0, 0.0, s, 0.0, c)
    case Z => Mat3(c, s, 0.0, -s, c, 0.0, 0.0, 0.0, 1.0)
  }

  /** What TurnIf does to the block: the rotation, or nothing for a zero angle. */
  function TurnBlock(axis: Axis, angle: real, sin: real -> real, cos: real -> real): Mat3 {
    if angle != 0.0 then AxisRot3(axis, sin(angle), cos(angle)) else I3
  }

  /** A log entry read forwards: x, then y, then z. */
  function EntryBlock(a: Angles, sin: real -> real, cos: real -> real): Mat3 {
    Mul3(Mul3(TurnBlock(X, a.theta, sin, cos), TurnBlock(Y, a.phi, sin, cos)), TurnBlock(Z, a.psi, sin, cos))
  }

  /** One pass of rotateToOriginal's loop applied to the block b: the
      rotations about z, y, then x, each by the negated angle. */
  function UndoOn(b: Mat3, a: Angles, sin: real -> real, cos: real -> real): Mat3 {
    Mul3(Mul3(Mul3(b, TurnBlock(Z, -a.psi, sin, cos)), TurnBlock(Y, -a.phi, sin, cos)), TurnBlock(X, -a.theta, sin, cos))
  }

  /** The rotations a log records, oldest first. */
  function LogBlock(rs: seq<Angles>, sin: real -> real, cos: real -> real): Mat3
    decreases |rs|
  {
    if |rs| == 0 then I3 else Mul3(LogBlock(rs[..|rs| - 1], sin, cos), EntryBlock(rs[|rs| - 1], sin, cos))
  }

  /** The loop of rotateToOriginal applied to the block b, last entry first. */
  function Undone(b: Mat3, rs: seq<Angles>, sin: real -> real, cos: real -> real): Mat3
    decreases |rs|
  {
    if |rs| == 0 then b else Undone(UndoOn(b, rs[|rs| - 1], sin, cos), rs[..|rs| - 1], sin, cos)
  }

  /** The laws of sine and cosine the undoing relies on: odd sine, even
      cosine, sin² + cos² = 1, and the values at zero. */
  ghost predicate TrigLaws(sin: real -> real, cos: real -> real) {
    sin(0.0) == 0.0 && cos(0.0) == 1.0 &&
    forall a: real :: sin(-a) == -sin(a) && cos(-a) == cos(a) && sin(a) * sin(a) + cos(a) * cos(a) == 1.0
  }

  /** The updates of a history that only translates and rotates, each
      rotation with the sine and cosine of its angle. */
  predicate Rigid(ops: seq<Op>, sin: real -> real, cos: real -> real) {
    forall k :: 0 <= k < |ops| ==> ops[k].Shift? || (ops[k].Turn? && ops[k].s == sin(ops[k].angle) && ops[k].c == cos(ops[k].angle))
  }

  /** The updates ops applied in order. */
  function Run(p: Pose, ops: seq<Op>): Pose
    decreases |ops|
  {
    if |ops| == 0 then p else Apply(Run(p, ops[..|ops| - 1]), ops[|ops| - 1])
  }

  /** The log entries the rotations among ops write. */
  function LogOf(ops: seq<Op>): seq<Angles>
    decreases |ops|
  {
    if |ops| == 0 then []
    else
      var last := ops[|ops| - 1];
      LogOf(ops[..|ops| - 1]) + (if last.Turn? then [LogEntry(last.axis, last.angle)] else [])
  }

  lemma RowColAssoc(x0: real, x1: real, x2: real, b00: real, b01: real, b02: real, b10: real, b11: real, b12: real,
                    b20: real, b21: real, b22: real, y0: real, y1: real, y2: real)
    ensures RowCol(RowCol(x0, x1, x2, b00, b10, b20), RowCol(x0, x1, x2, b01, b11, b21), RowCol(x0, x1, x2, b02, b12, b22), y0, y1, y2)
         == RowCol(x0, x1, x2, RowCol(b00, b01, b02, y0, y1, y2), RowCol(b10, b11, b12, y0, y1, y2), RowCol(b20, b21, b22, y0, y1, y2))
  {
    assert RowCol(x0, x1, x2, b00, b10, b20) * y0 == x0 * b00 * y0 + x1 * b10 * y0 + x2 * b20 * y0;
    assert RowCol(x0, x1, x2, b01, b11, b21) * y1 == x0 * b01 * y1 + x1 * b11 * y1 + x2 * b21 * y1;
    assert RowCol(x0, x1, x2, b02, b12, b22) * y2 == x0 * b02 * y2 + x1 * b12 * y2 + x2 * b22 * y2;
    assert x0 * RowCol(b00, b01, b02, y0, y1, y2) == x0 * b00 * y0 + x0 * b01 * y1 + x0 * b02 * y2;
    assert x1 * RowCol(b10, b11, b12, y0, y1, y2) == x1 * b10 * y0 + x1 * b11 * y1 + x1 * b12 * y2;
    assert x2 * RowCol(b20, b21, b22, y0, y1, y2) == x2 * b20 * y0 + x2 * b21 * y1 + x2 * b22 * y2;
  }

  lemma Mul3Assoc(a: Mat3, b: Mat3, c: Mat3)
    ensures Mul3(Mul3(a, b), c) == Mul3(a, Mul3(b, c))
  {
    RowColAssoc(a.a00, a.a01, a.a02, b.a00, b.a01, b.a02, b.a10, b.a11, b.a12, b.a20, b.a21, b.a22, c.a00, c.a10, c.a20);
    RowColAssoc(a.a00, a.a01, a.a02, b.a00, b.a01, b.a02, b.a10, b.a11, b.a12, b.a20, b.a21, b.a22, c.a01, c.a11, c.a21);
    RowColAssoc(a.a00, a.a01, a.a02, b.a00, b.a01, b.a02, b.a10, b.a11, b.a12, b.a20, b.a21, b.a22, c.a02, c.a12, c.a22);
    RowColAssoc(a.a10, a.a11, a.a12, b.a00, b.a01, b.a02, b.a10, b.a11, b.a12, b.a20, b.a21, b.a22, c.a00, c.a10, c.a20);
    RowColAssoc(a.a10, a.a11, a.a12, b.a00, b.a01, b.a02, b.a10, b.a11, b.a12, b.a20, b.a21, b.a22, c.a01, c.a11, c.a21);
    RowColAssoc(a.a10, a.a11, a.a12, b.a00, b.a01, b.a02, b.a10, b.a11, b.a12, b.a20, b.a21, b.a22, c.a02, c.a12, c.a22);
    RowColAssoc(a.a20, a.a21, a.a22, b.a00, b.a01, b.a02, b.a10, b.a11, b.a12, b.a20, b.a21, b.a22, c.a00, c.a10, c.a20);
    RowColAssoc(a.a20, a.a21, a.a22, b.a00, b.a01, b.a02, b.a10, b.a11, b.a12, b.a20, b.a21, b.a22, c.a01, c.a11, c.a21);
    RowColAssoc(a.a20, a.a21, a.a22, b.a00, b.a01, b.a02, b.a10, b.a11, b.a12, b.a20, b.a21, b.a22, c.a02, c.a12, c.a22);
  }

  lemma Mul3Identity(a: Mat3)
    ensures Mul3(a, I3) == a && Mul3(I3, a) == a
  {
  }

  /** The block of a product is the product of the blocks when the left
      factor is affine; affine matrices are closed under products. */
  lemma BlockMul(a: Matrix, b: Matrix)
    requires Affine(a)
    ensures Block(MatMul(a, b)) == Mul3(Block(a), Block(b))
    ensures Affine(b) ==> Affine(MatMul(a, b))
  {
    AffineMul(a, b);
    BlockOfProduct(a, b);
  }

  lemma BlockOfProduct(a: Matrix, b: Matrix)
    requires Affine(a)
    ensures Block(MatMul(a, b)) == Mul3(Block(a), Block(b))
  {
    BlockRow0(a, b);
    BlockRow1(a, b);
    BlockRow2(a, b);
  }

  lemma BlockRow0(a: Matrix, b: Matrix)
    requires a.m03 == 0.0
    ensures var l, r := Block(MatMul(a, b)), Mul3(Block(a), Block(b)); l.a00 == r.a00 && l.a01 == r.a01 && l.a02 == r.a02
  {
  }

  lemma BlockRow1(a: Matrix, b: Matrix)
    requires a.m13 == 0.0
    ensures var l, r := Block(MatMul(a, b)), Mul3(Block(a), Block(b)); l.a10 == r.a10 && l.a11 == r.a11 && l.a12 == r.a12
  {
  }

  lemma BlockRow2(a: Matrix, b: Matrix)
    requires a.m23 == 0.0
    ensures var l, r := Block(MatMul(a, b)), Mul3(Block(a), Block(b)); l.a20 == r.a20 && l.a21 == r.a21 && l.a22 == r.a22
  {
  }

  lemma AffineMul(a: Matrix, b: Matrix)
    requires Affine(a)
    ensures Affine(b) ==> Affine(MatMul(a, b))
  {
  }

  /** A rotation followed by the rotation with the sine negated is no
      rotation at all. */
  lemma RotCancel(axis: Axis, s: real, c: real)
    requires s * s + c * c == 1.0
    ensures Mul3(AxisRot3(axis, s, c), AxisRot3(axis, -s, c)) == I3
  {
  }

  lemma TurnCancel(axis: Axis, angle: real, sin: real -> real, cos: real -> real)
    requires TrigLaws(sin, cos)
    ensures Mul3(TurnBlock(axis, angle, sin, cos), TurnBlock(axis, -angle, sin, cos)) == I3
  {
    if angle != 0.0 {
      assert sin(-angle) == -sin(angle) && cos(-angle) == cos(angle);
      assert sin(angle) * sin(angle) + cos(angle) * cos(angle) == 1.0;
      RotCancel(axis, sin(angle), cos(angle));
    } else {
      Mul3Identity(I3);
    }
  }

  /** u · m · m⁻¹ = u. */
  lemma CancelRight(u: Mat3, m: Mat3, mInv: Mat3)
    requires Mul3(m, mInv) == I3
    ensures Mul3(Mul3(u, m), mInv) == u
  {
    Mul3Assoc(u, m, mInv);
    Mul3Identity(u);
  }

  /** Undoing a log entry cancels it. */
  lemma EntryUndoCancel(u: Mat3, a: Angles, sin: real -> real, cos: real -> real)
    requires TrigLaws(sin, cos)
    ensures UndoOn(Mul3(u, EntryBlock(a, sin, cos)), a, sin, cos) == u
  {
    TurnCancel(X, a.theta, sin, cos);
    TurnCancel(Y, a.phi, sin, cos);
    TurnCancel(Z, a.psi, sin, cos);
    ThreeCancel(u, TurnBlock(X, a.theta, sin, cos), TurnBlock(Y, a.phi, sin, cos), TurnBlock(Z, a.psi, sin, cos),
                TurnBlock(X, -a.theta, sin, cos), TurnBlock(Y, -a.phi, sin, cos), TurnBlock(Z, -a.psi, sin, cos));
  }

  /** u · (x y z) · z' · y' · x' = u when each primed factor inverts its partner. */
  lemma ThreeCancel(u: Mat3, x: Mat3, y: Mat3, z: Mat3, x': Mat3, y': Mat3, z': Mat3)
    requires Mul3(x, x') == I3 && Mul3(y, y') == I3 && Mul3(z, z') == I3
    ensures Mul3(Mul3(Mul3(Mul3(u, Mul3(Mul3(x, y), z)), z'), y'), x') == u
  {
    // u (x y) z  z'  =  u (x y)  =  (u x) y,  then  y' and x' cancel in turn
    assert Mul3(Mul3(u, Mul3(Mul3(x, y), z)), z') == Mul3(Mul3(u, x), y) by {
      Mul3Assoc(u, Mul3(x, y), z);
      CancelRight(Mul3(u, Mul3(x, y)), z, z');
      Mul3Assoc(u, x, y);
    }
    CancelRight(Mul3(u, x), y, y');
    CancelRight(u, x, x');
  }

  /** The log entry of a rotation reads back as that rotation. */
  lemma LogEntryBlock(axis: Axis, angle: real, sin: real -> real, cos: real -> real)
    requires TrigLaws(sin, cos)
    ensures EntryBlock(LogEntry(axis, angle), sin, cos) == AxisRot3(axis, sin(angle), cos(angle))
  {
    Mul3Identity(I3);
    Mul3Identity(TurnBlock(axis, angle, sin, cos));
    assert AxisRot3(axis, sin(0.0), cos(0.0)) == I3;
  }

  /** The block an update contributes: nothing for a shift, its rotation
      for a turn. */
  lemma ApplyBlock(p: Pose, op: Op)
    requires Affine(Value(p.t)) && (op.Shift? || op.Turn?)
    ensures Affine(Value(Apply(p, op).t))
    ensures Block(Value(Apply(p, op).t)) == Mul3(Block(Value(p.t)), if op.Shift? then I3 else AxisRot3(op.axis, op.s, op.c))
  {
    BlockMul(Value(p.t), OpMatrix(op));
  }

  lemma TurnIfBlock(p: Pose, axis: Axis, angle: real, sin: real -> real, cos: real -> real)
    requires Affine(Value(p.t))
    ensures Affine(Value(TurnIf(p, axis, angle, sin, cos).t))
    ensures Block(Value(TurnIf(p, axis, angle, sin, cos).t)) == Mul3(Block(Value(p.t)), TurnBlock(axis, angle, sin, cos))
  {
    if angle != 0.0 {
      ApplyBlock(p, TurnOp(axis, angle, sin, cos));
    } else {
      Mul3Identity(Block(Value(p.t)));
    }
  }

  lemma AxisTurnsBlock(p: Pose, theta: real, phi: real, psi: real, sin: real -> real, cos: real -> real)
    requires Affine(Value(p.t))
    ensures Affine(Value(AxisTurns(p, theta, phi, psi, sin, cos).t))
    ensures Block(Value(AxisTurns(p, theta, phi, psi, sin, cos).t))
         == Mul3(Mul3(Mul3(Block(Value(p.t)), TurnBlock(X, theta, sin, cos)), TurnBlock(Y, phi, sin, cos)), TurnBlock(Z, psi, sin, cos))
  {
    var p1 := TurnIf(p, X, theta, sin, cos);
    TurnIfBlock(p, X, theta, sin, cos);
    var p2 := TurnIf(p1, Y, phi, sin, cos);
    TurnIfBlock(p1, Y, phi, sin, cos);
    TurnIfBlock(p2, Z, psi, sin, cos);
  }

  /** rotate turns the block like its axis rotations; the moves to the
      pivot and back do not touch it. */
  lemma RotateBlock(p: Pose, theta: real, phi: real, psi: real, x: real, y: real, z: real, sin: real -> real, cos: real -> real)
    requires Affine(Value(p.t))
    ensures Affine(Value(RotateP(p, theta, phi, psi, x, y, z, sin, cos).t))
    ensures Block(Value(RotateP(p, theta, phi, psi, x, y, z, sin, cos).t))
         == Mul3(Mul3(Mul3(Block(Value(p.t)), TurnBlock(X, theta, sin, cos)), TurnBlock(Y, phi, sin, cos)), TurnBlock(Z, psi, sin, cos))
  {
    if x != 0.0 || y != 0.0 || z != 0.0 {
      var q := Apply(p, Shift(-x, -y, -z));
      ApplyBlock(p, Shift(-x, -y, -z));
      Mul3Identity(Block(Value(p.t)));
      var r := AxisTurns(q, theta, phi, psi, sin, cos);
      AxisTurnsBlock(q, theta, phi, psi, sin, cos);
      ApplyBlock(r, Shift(x, y, z));
      Mul3Identity(Block(Value(r.t)));
    } else {
      AxisTurnsBlock(p, theta, phi, psi, sin, cos);
    }
  }

  /** A rotation about a pivot with only its angle about `axis` set turns
      the block by that rotation alone. */
  lemma OneAxisBlock(p: Pose, axis: Axis, angle: real, c: Point, sin: real -> real, cos: real -> real)
    requires Affine(Value(p.t))
    ensures var q := RotateP(p, if axis == X then angle else 0.0, if axis == Y then angle else 0.0,
                             if axis == Z then angle else 0.0, c.x, c.y, c.z, sin, cos);
            Affine(Value(q.t)) && Block(Value(q.t)) == Mul3(Block(Value(p.t)), TurnBlock(axis, angle, sin, cos))
  {
    var b := Block(Value(p.t));
    RotateBlock(p, if axis == X then angle else 0.0, if axis == Y then angle else 0.0,
                if axis == Z then angle else 0.0, c.x, c.y, c.z, sin, cos);
    Mul3Identity(b);
    Mul3Identity(Mul3(b, TurnBlock(axis, angle, sin, cos)));
  }

  /** rotateInPlace with only its angle about `axis` set turns the block
      by that rotation alone. */
  lemma InPlaceTurnBlock(p: Pose, axis: Axis, angle: real, sin: real -> real, cos: real -> real)
    requires Affine(Value(p.t))
    ensures var q := RotateInPlaceP(p, if axis == X then angle else 0.0, if axis == Y then angle else 0.0,
                                    if axis == Z then angle else 0.0, sin, cos);
            Affine(Value(q.t)) && Block(Value(q.t)) == Mul3(Block(Value(p.t)), TurnBlock(axis, angle, sin, cos))
  {
    OneAxisBlock(p, axis, angle, Centroid(p), sin, cos);
  }

  /** One pass of rotateToOriginal's loop turns the block as UndoOn says. */
  lemma UndoEntryBlock(p: Pose, a: Angles, sin: real -> real, cos: real -> real)
    requires Affine(Value(p.t))
    ensures var q := UndoEntry(p, a, sin, cos);
            Affine(Value(q.t)) && Block(Value(q.t)) == UndoOn(Block(Value(p.t)), a, sin, cos)
  {
    var q1 := RotateInPlaceP(p, 0.0, 0.0, -a.psi, sin, cos);
    var q2 := RotateInPlaceP(q1, 0.0, -a.phi, 0.0, sin, cos);
    InPlaceTurnBlock(p, Z, -a.psi, sin, cos);
    InPlaceTurnBlock(q1, Y, -a.phi, sin, cos);
    InPlaceTurnBlock(q2, X, -a.theta, sin, cos);
  }

  /** The loop of rotateToOriginal turns the block as Undone says. */
  lemma {:induction false} UndoBlockIs(p: Pose, rs: seq<Angles>, sin: real -> real, cos: real -> real)
    requires Affine(Value(p.t))
    ensures Affine(Value(Undo(p, rs, sin, cos).t))
    ensures Block(Value(Undo(p, rs, sin, cos).t)) == Undone(Block(Value(p.t)), rs, sin, cos)
    decreases |rs|
  {
    if |rs| > 0 {
      var q := UndoEntry(p, rs[|rs| - 1], sin, cos);
      UndoEntryBlock(p, rs[|rs| - 1], sin, cos);
      UndoBlockIs(q, rs[..|rs| - 1], sin, cos);
    }
  }

  /** Undoing a whole log cancels it, whatever block it was applied after. */
  lemma {:induction false} LogCancel(b: Mat3, rs: seq<Angles>, sin: real -> real, cos: real -> real)
    requires TrigLaws(sin, cos)
    ensures Undone(Mul3(b, LogBlock(rs, sin, cos)), rs, sin, cos) == b
    decreases |rs|
  {
    if |rs| == 0 {
      Mul3Identity(b);
    } else {
      var last, init := rs[|rs| - 1], rs[..|rs| - 1];
      var l := LogBlock(init, sin, cos);
      Mul3Assoc(b, l, EntryBlock(last, sin, cos));
      EntryUndoCancel(Mul3(b, l), last, sin, cos);
      LogCancel(b, init, sin, cos);
    }
  }

  /** A rigid history turns the block by the rotations it logs. */
  lemma {:induction false} RunBlock(p: Pose, ops: seq<Op>, sin: real -> real, cos: real -> real)
    requires TrigLaws(sin, cos) && Affine(Value(p.t)) && Rigid(ops, sin, cos)
    ensures Run(p, ops).orientation == p.orientation + LogOf(ops)
    ensures Affine(Value(Run(p, ops).t))
    ensures Block(Value(Run(p, ops).t)) == Mul3(Block(Value(p.t)), LogBlock(LogOf(ops), sin, cos))
    decreases |ops|
  {
    if |ops| == 0 {
      Mul3Identity(Block(Value(p.t)));
    } else {
      var init, op := ops[..|ops| - 1], ops[|ops| - 1];
      assert Rigid(init, sin, cos) by {
        forall k | 0 <= k < |init| ensures init[k] == ops[k] { }
      }
      assert op.Shift? || op.Turn? by {
        assert ops[|ops| - 1] == op;
      }
      RunBlock(p, init, sin, cos);
      var q := Run(p, init);
      ApplyBlock(q, op);
      var b, l := Block(Value(p.t)), LogBlock(LogOf(init), sin, cos);
      if op.Turn? {
        assert op.s == sin(op.angle) && op.c == cos(op.angle) by {
          assert ops[|ops| - 1] == op;
        }
        var e := LogEntry(op.axis, op.angle);
        var log := LogOf(init) + [e];
        assert LogOf(ops) == log;
        assert log[..|log| - 1] == LogOf(init) && log[|log| - 1] == e;
        LogEntryBlock(op.axis, op.angle, sin, cos);
        Mul3Assoc(b, l, EntryBlock(e, sin, cos));
      } else {
        assert LogOf(ops) == LogOf(init) + [];
        assert LogOf(init) + [] == LogOf(init);
        Mul3Identity(Mul3(b, l));
      }
    }
  }

  /** rotateToOriginal restores the orientation the log started from: after
      any history of translations and rotations (sines and cosines obeying
      their laws) applied to a pose with an empty log and an affine T, the
      3x3 block of T is back to what it was. */
  lemma RotateToOriginalRestores(p: Pose, ops: seq<Op>, sin: real -> real, cos: real -> real)
    requires TrigLaws(sin, cos) && p.orientation == [] && Affine(Value(p.t)) && Rigid(ops, sin, cos)
    ensures Block(Value(RotateToOriginalP(Run(p, ops), sin, cos).t)) == Block(Value(p.t))
  {
    var q := Run(p, ops);
    RunBlock(p, ops, sin, cos);
    assert q.orientation == LogOf(ops);
    UndoBlockIs(q, q.orientation, sin, cos);
    LogCancel(Block(Value(p.t)), LogOf(ops), sin, cos);
  }


  // ---------------------------------------------------------------------
  // The class
  // ---------------------------------------------------------------------

  class Transform {
    /** T, held as the pending matrices composed into it so far; the
        matrix itself is Value(T). */
    var T: Product
    var Tsub: Matrix
    /** `orig_orientation` and `orig_centroid`: set by the constructor. */
    const origOrientation: Vec
    const origCentroid: Vec
    var currOrientation: seq<Angles>
    var currCentroid: Vec

    function State(): Pose
      reads this
      requires |origCentroid| == 3
    {
      Pose(T, AsPoint(origCentroid), currOrientation)
    }

    /** The shapes every method relies on, and the current centroid as the
        history of T has moved the original one. */
    predicate Sound()
      reads this
    {
      |currCentroid| == 3 && |origOrientation| == 3 && |origCentroid| == 3 &&
      AsPoint(currCentroid) == Centroid(State())
    }

    /** Between operations the pending matrix is the identity. */
    predicate Valid()
      reads this
    {
      Sound() && Tsub == Identity()
    }

    /** T and Tsub start as the identity, the log empty, and the current
        centroid as a copy of the given one. */
    constructor (orientation: Vec, centroid: Vec)
      requires |orientation| == 3 && |centroid| == 3
      ensures Valid()
      ensures T == Start && Value(T) == Identity() && currOrientation == [] && currCentroid == centroid
      ensures origOrientation == orientation && origCentroid == centroid
    {
      T := Start;
      Tsub := Identity();
      origOrientation := orientation;
      currOrientation := [];
      origCentroid := centroid;
      currCentroid := centroid;
    }

    /** updateT: T := T · Tsub, the centroid moves through Tsub, and Tsub
        becomes the identity again. */
    method UpdateT()
      requires Sound()
      modifies this
      ensures Valid()
      ensures State() == Step(old(State()), old(Tsub))
    {
      T := Then(T, Tsub);
      UpdateCentroid(Tsub);
      Tsub := Identity();
    }

    method UpdateCentroid(m: Matrix)
      requires |currCentroid| == 3
      modifies this
      ensures |currCentroid| == 3 && AsPoint(currCentroid) == MoveCentroid(AsPoint(old(currCentroid)), m)
      ensures T == old(T) && Tsub == old(Tsub) && currOrientation == old(currOrientation)
    {
      var temp := currCentroid + [1.0];
      assert temp[0] == currCentroid[0] && temp[1] == currCentroid[1] && temp[2] == currCentroid[2] && temp[3] == 1.0;
      temp := RowTimes(temp, m);
      currCentroid := temp[..3];
    }

    /** updateOrientation: a vector that is not of length 3 raises (false,
        nothing changes); otherwise it is appended to the log. */
    method UpdateOrientation(vector: Vec) returns (ok: bool)
      modifies this
      ensures ok <==> |vector| == 3
      ensures ok ==> currOrientation == old(currOrientation) + [Angles(vector[0], vector[1], vector[2])]
      ensures !ok ==> currOrientation == old(currOrientation)
      ensures T == old(T) && Tsub == old(Tsub) && currCentroid == old(currCentroid)
    {
      if |vector| != 3 {
        return false;
      }
      currOrientation := currOrientation + [Angles(vector[0], vector[1], vector[2])];
      return true;
    }

    /** transform: every row of A times T, then normalised by its fourth
        entry; A itself is a value and is not changed. */
    method TransformPoints(A: seq<seq<real>>) returns (out: seq<seq<real>>)
      requires forall r :: 0 <= r < |A| ==> |A[r]| == 4
      ensures |out| == |A|
      ensures forall r :: 0 <= r < |A| ==> out[r] == Dehomogenize(RowTimes(A[r], Value(T)))
      ensures forall r :: 0 <= r < |A| ==> |out[r]| == 4 && (out[r][3] == 0.0 || out[r][3] == 1.0)
    {
      var t := Value(T);
      out := seq(|A|, r requires 0 <= r < |A| => RowTimes(A[r], t));
      for row := 0 to |out|
        invariant |out| == |A|
        invariant forall r :: 0 <= r < row ==> out[r] == Dehomogenize(RowTimes(A[r], t))
        invariant forall r :: row <= r < |A| ==> out[r] == RowTimes(A[r], t)
      {
        var s := out[row][3];
        if s != 1.0 && s != 0.0 {
          var v := out[row];
          out := out[row := [v[0] / s, v[1] / s, v[2] / s, v[3] / s]];
        }
      }
      forall r | 0 <= r < |A|
        ensures |out[r]| == 4 && (out[r][3] == 0.0 || out[r][3] == 1.0)
      {
        DehomogenizeMeaning(RowTimes(A[r], t));
      }
    }

    /** transformNorm. */
    method TransformNorm(normal: Vec, inv: Matrix -> Option<Matrix>) returns (r: Option<Vec>)
      ensures r == NormalImage(Value(T), normal, inv)
    {
      var i := inv(Value(T));
      if |normal| != 3 || i.None? {
        return None;
      }
      var tNorm := Transpose(i.value);
      var n := normal + [1.0];
      var out := RowTimes(n, tNorm);
      return Some(out[..3]);
    }

    // -------------------------------------------------------------------
    // Rotation
    // -------------------------------------------------------------------

    method RotateAroundX(theta: real, sin: real -> real, cos: real -> real)
      requires Valid()
      modifies this
      ensures Valid() && State() == Apply(old(State()), TurnOp(X, theta, sin, cos))
    {
      Tsub := Tsub.(m11 := cos(theta));
      Tsub := Tsub.(m12 := -sin(theta));
      Tsub := Tsub.(m21 := sin(theta));
      Tsub := Tsub.(m22 := cos(theta));
      assert Tsub == RotX(sin(theta), cos(theta));
      var _ := UpdateOrientation([theta, 0.0, 0.0]);
      assert currOrientation == old(currOrientation) + [LogEntry(X, theta)];
      UpdateT();
    }

    method RotateAroundY(phi: real, sin: real -> real, cos: real -> real)
      requires Valid()
      modifies this
      ensures Valid() && State() == Apply(old(State()), TurnOp(Y, phi, sin, cos))
    {
      Tsub := Tsub.(m00 := cos(phi));
      Tsub := Tsub.(m02 := -sin(phi));
      Tsub := Tsub.(m20 := sin(phi));
      Tsub := Tsub.(m22 := cos(phi));
      assert Tsub == RotY(sin(phi), cos(phi));
      var _ := UpdateOrientation([0.0, phi, 0.0]);
      assert currOrientation == old(currOrientation) + [LogEntry(Y, phi)];
      UpdateT();
    }

    method RotateAroundZ(psi: real, sin: real -> real, cos: real -> real)
      requires Valid()
      modifies this
      ensures Valid() && State() == Apply(old(State()), TurnOp(Z, psi, sin, cos))
    {
      Tsub := Tsub.(m00 := cos(psi));
      Tsub := Tsub.(m01 := sin(psi));
      Tsub := Tsub.(m10 := -sin(psi));
      Tsub := Tsub.(m11 := cos(psi));
      assert Tsub == RotZ(sin(psi), cos(psi));
      var _ := UpdateOrientation([0.0, 0.0, psi]);
      assert currOrientation == old(currOrientation) + [LogEntry(Z, psi)];
      UpdateT();
    }

    /** The body of rotate between its two translations. */
    method TurnAxes(theta: real, phi: real, psi: real, sin: real -> real, cos: real -> real)
      requires Valid()
      modifies this
      ensures Valid() && State() == AxisTurns(old(State()), theta, phi, psi, sin, cos)
    {
      ghost var s1 := State();
      if theta != 0.0 {
        RotateAroundX(theta, sin, cos);
      }
      ghost var s2 := State();
      assert s2 == TurnIf(s1, X, theta, sin, cos);
      if phi != 0.0 {
        RotateAroundY(phi, sin, cos);
      }
      ghost var s3 := State();
      assert s3 == TurnIf(s2, Y, phi, sin, cos);
      if psi != 0.0 {
        RotateAroundZ(psi, sin, cos);
      }
      assert State() == TurnIf(s3, Z, psi, sin, cos);
    }

    method Rotate(theta: real, phi: real, psi: real, x: real, y: real, z: real, sin: real -> real, cos: real -> real)
      requires Valid()
      modifies this
      ensures Valid() && State() == RotateP(old(State()), theta, phi, psi, x, y, z, sin, cos)
    {
      ghost var s0 := State();
      if x != 0.0 || y != 0.0 || z != 0.0 {
        Translate(-x, -y, -z);
        ghost var s1 := State();
        TurnAxes(theta, phi, psi, sin, cos);
        ghost var s2 := State();
        Translate(x, y, z);
        assert State() == Apply(s2, Shift(x, y, z));
        assert s2 == AxisTurns(s1, theta, phi, psi, sin, cos);
        assert s1 == Apply(s0, Shift(-x, -y, -z));
      } else {
        TurnAxes(theta, phi, psi, sin, cos);
      }
    }

    /** rotateInPlace: rotates about axes through the current centroid,
        which stays where it is. */
    method RotateInPlace(theta: real, phi: real, psi: real, sin: real -> real, cos: real -> real)
      requires Valid()
      modifies this
      ensures Valid() && State() == RotateInPlaceP(old(State()), theta, phi, psi, sin, cos)
      ensures Centroid(State()) == Centroid(old(State()))
    {
      RotateInPlaceKeepsCentroid(State(), theta, phi, psi, sin, cos);
      var initCentroid := currCentroid;
      Rotate(theta, phi, psi, initCentroid[0], initCentroid[1], initCentroid[2], sin, cos);
    }

    /** One pass of rotateToOriginal's loop. */
    method UndoRotation(rotation: Angles, sin: real -> real, cos: real -> real)
      requires Valid()
      modifies this
      ensures Valid() && State() == UndoEntry(old(State()), rotation, sin, cos)
    {
      RotateInPlace(0.0, 0.0, -rotation.psi, sin, cos);
      RotateInPlace(0.0, -rotation.phi, 0.0, sin, cos);
      RotateInPlace(-rotation.theta, 0.0, 0.0, sin, cos);
    }

    /** rotateToOriginal: undoes the logged rotations from the last one
        back (the loop visits the entries present when it starts, although
        the calls inside it log new ones), then empties the log. */
    method RotateToOriginal(sin: real -> real, cos: real -> real)
      requires Valid()
      modifies this
      ensures Valid() && State() == RotateToOriginalP(old(State()), sin, cos)
      ensures currOrientation == [] && Centroid(State()) == Centroid(old(State()))
    {
      ghost var start := State();
      RotateToOriginalKeepsCentroid(start, sin, cos);
      var rotations := currOrientation;
      var k := |rotations|;
      assert rotations[..k] == rotations;
      while k > 0
        invariant 0 <= k <= |rotations| && Valid()
        invariant Undo(State(), rotations[..k], sin, cos) == Undo(start, rotations, sin, cos)
        decreases k
      {
        var rotation := rotations[k - 1];
        assert rotations[..k][..k - 1] == rotations[..k - 1];
        UndoRotation(rotation, sin, cos);
        k := k - 1;
      }
      currOrientation := [];
    }

    /** rotateToFront: back to the logged start, then the original
        orientation undone axis by axis (z, y, x) when it is not zero. */
    method RotateToFront(sin: real -> real, cos: real -> real)
      requires Valid()
      modifies this
      ensures Valid() && State() == RotateToFrontP(old(State()), origOrientation, sin, cos)
    {
      RotateToOriginal(sin, cos);
      TurnToFront(sin, cos);
    }

    /** The rotations of rotateToFront after rotateToOriginal. */
    method TurnToFront(sin: real -> real, cos: real -> real)
      requires Valid()
      modifies this
      ensures Valid() && State() == FrontTurns(old(State()), origOrientation, sin, cos)
    {
      if origOrientation != [0.0, 0.0, 0.0] {
        TurnBack(-origOrientation[0], -origOrientation[1], -origOrientation[2], sin, cos);
      }
    }

    /** The rotations of rotateToFront's second half: about z, y, then x. */
    method TurnBack(theta: real, phi: real, psi: real, sin: real -> real, cos: real -> real)
      requires Valid()
      modifies this
      ensures Valid()
      ensures State() == Apply(Apply(Apply(old(State()), TurnOp(Z, psi, sin, cos)), TurnOp(Y, phi, sin, cos)), TurnOp(X, theta, sin, cos))
    {
      RotateAroundZ(psi, sin, cos);
      RotateAroundY(phi, sin, cos);
      RotateAroundX(theta, sin, cos);
    }

    // -------------------------------------------------------------------
    // Translation and scaling
    // -------------------------------------------------------------------

    /** translate: the centroid moves by exactly (delx, dely, delz). */
    method Translate(delx: real, dely: real, delz: real)
      requires Valid()
      modifies this
      ensures Valid() && State() == Apply(old(State()), Shift(delx, dely, delz))
      ensures Centroid(State()) == Point(old(currCentroid)[0] + delx, old(currCentroid)[1] + dely, old(currCentroid)[2] + delz)
    {
      Tsub := Tsub.(m30 := delx);
      Tsub := Tsub.(m31 := dely);
      Tsub := Tsub.(m32 := delz);
      UpdateT();
    }

    method TranslateToOrigin()
      requires Valid()
      modifies this
      ensures Valid() && State() == Apply(old(State()), ToOrigin(Centroid(old(State()))))
      ensures Centroid(State()) == Origin
    {
      Translate(-currCentroid[0], -currCentroid[1], -currCentroid[2]);
    }

    method TranslateToOriginal()
      requires Valid()
      modifies this
      ensures Valid() && State() == Apply(old(State()), ToOriginal(Centroid(old(State())), AsPoint(origCentroid)))
      ensures Centroid(State()) == AsPoint(origCentroid)
    {
      var delx := currCentroid[0] - origCentroid[0];
      var dely := currCentroid[1] - origCentroid[1];
      var delz := currCentroid[2] - origCentroid[2];
      Translate(-delx, -dely, -delz);
    }

    /** scale: about the current centroid, which does not move. */
    method Scale(x: real, y: real, z: real, s: real)
      requires Valid()
      modifies this
      ensures Valid() && State() == AboutCentroid(old(State()), Stretch(x, y, z, s))
      ensures Centroid(State()) == Centroid(old(State()))
    {
      AboutCentroidKeeps(State(), Stretch(x, y, z, s));
      var initCentroid := currCentroid;
      TranslateToOrigin();
      Tsub := Tsub.(m00 := x);
      Tsub := Tsub.(m11 := y);
      Tsub := Tsub.(m22 := z);
      Tsub := Tsub.(m33 := s);
      UpdateT();
      Translate(initCentroid[0], initCentroid[1], initCentroid[2]);
    }

    method ScaleSpecific(x: real, y: real, z: real)
      requires Valid()
      modifies this
      ensures Valid() && State() == AboutCentroid(old(State()), Stretch(x, y, z, 1.0))
    {
      Scale(x, y, z, 1.0);
    }

    /** scaleGlobal: `1/s` raises ZeroDivisionError for s = 0 (false,
        nothing changes). */
    method ScaleGlobal(s: real) returns (ok: bool)
      requires Valid()
      modifies this
      ensures Valid() && (ok <==> s != 0.0)
      ensures ok ==> State() == AboutCentroid(old(State()), Stretch(1.0, 1.0, 1.0, 1.0 / s))
      ensures !ok ==> State() == old(State())
    {
      if s == 0.0 {
        return false;
      }
      Scale(1.0, 1.0, 1.0, 1.0 / s);
      return true;
    }

    // -------------------------------------------------------------------
    // Shear and reflections
    // -------------------------------------------------------------------

    method Shear(b: real, c: real, d: real, f: real, g: real, i: real)
      requires Valid()
      modifies this
      ensures Valid() && State() == Apply(old(State()), Skew(b, c, d, f, g, i))
    {
      Tsub := Tsub.(m01 := b);
      Tsub := Tsub.(m02 := c);
      Tsub := Tsub.(m10 := d);
      Tsub := Tsub.(m12 := f);
      Tsub := Tsub.(m20 := g);
      Tsub := Tsub.(m21 := i);
      UpdateT();
    }

    method ReflectOverXY()
      requires Valid()
      modifies this
      ensures Valid() && State() == Apply(old(State()), AxisStretch(2, -1.0))
    {
      Tsub := Tsub.(m22 := -1.0);
      UpdateT();
    }

    method ReflectOverYZ()
      requires Valid()
      modifies this
      ensures Valid() && State() == Apply(old(State()), AxisStretch(0, -1.0))
    {
      Tsub := Tsub.(m00 := -1.0);
      UpdateT();
    }

    method ReflectOverXZ()
      requires Valid()
      modifies this
      ensures Valid() && State() == Apply(old(State()), AxisStretch(1, -1.0))
    {
      Tsub := Tsub.(m11 := -1.0);
      UpdateT();
    }

    /** reflect: builds a second transform for the plane, whose final T
        becomes the pending matrix. */
    method Reflect(p: Vec, normal: Vec, sin: real -> real, cos: real -> real)
      requires Valid() && |p| == 3 && |normal| == 3
      modifies this
      ensures Valid() && State() == Step(old(State()), PlaneMatrix(p, normal, sin, cos))
    {
      var planeT := PlaneTransform(p, normal, sin, cos);
      Tsub := Value(planeT.T);
      UpdateT();
    }

    /** The second transform reflect builds for the plane through p with
        the given normal. */
    static method PlaneTransform(p: Vec, normal: Vec, sin: real -> real, cos: real -> real) returns (planeT: Transform)
      requires |p| == 3 && |normal| == 3
      ensures fresh(planeT) && planeT.Valid() && planeT.State() == PlanePose(AsPoint(p), normal, sin, cos)
    {
      planeT := new Transform(normal, p);
      planeT.TranslateToOrigin();
      planeT.Rotate(-normal[0], -normal[1], -normal[2], 0.0, 0.0, 0.0, sin, cos);
      planeT.ReflectOverXY();
      planeT.Rotate(normal[0], normal[1], normal[2], 0.0, 0.0, 0.0, sin, cos);
      planeT.Translate(p[0], p[1], p[2]);
    }

    // -------------------------------------------------------------------
    // Projections
    // -------------------------------------------------------------------

    /** orthographic: zeroes the diagonal entry of the projection axis in
        the pending matrix (which oblique has already written to). */
    method Orthographic(zeroPlane: string)
      requires Sound()
      modifies this
      ensures Valid()
      ensures State() == Step(old(State()), ZeroAt(old(Tsub), PlaneIndex(zeroPlane)))
      ensures old(Tsub) == Identity() ==> State() == Apply(old(State()), AxisStretch(PlaneIndex(zeroPlane), 0.0))
    {
      if zeroPlane == "x" {
        Tsub := Tsub.(m00 := 0.0);
      } else if zeroPlane == "y" {
        Tsub := Tsub.(m11 := 0.0);
      } else {
        Tsub := Tsub.(m22 := 0.0);
      }
      UpdateT();
    }

    /** axonometric without its optional printout. */
    method Axonometric(phi: real, theta: real, zeroPlane: string, sin: real -> real, cos: real -> real)
      requires Valid()
      modifies this
      ensures Valid()
      ensures State() == Apply(RotateInPlaceP(RotateInPlaceP(RotateToFrontP(old(State()), origOrientation, sin, cos),
                                                             0.0, phi, 0.0, sin, cos), theta, 0.0, 0.0, sin, cos),
                               AxisStretch(PlaneIndex(zeroPlane), 0.0))
    {
      RotateToFront(sin, cos);
      RotateInPlace(0.0, phi, 0.0, sin, cos);
      RotateInPlace(theta, 0.0, 0.0, sin, cos);
      Orthographic(zeroPlane);
    }

    method Oblique(f: real, alpha: real, zeroPlane: string, sin: real -> real, cos: real -> real)
      requires Valid()
      modifies this
      ensures Valid()
      ensures State() == Step(RotateToFrontP(old(State()), origOrientation, sin, cos),
                              ZeroAt(ObliqueMatrix(f, alpha, sin, cos), PlaneIndex(zeroPlane)))
    {
      RotateToFront(sin, cos);
      Tsub := Tsub.(m20 := -f * cos(alpha));
      Tsub := Tsub.(m21 := -f * sin(alpha));
      Orthographic(zeroPlane);
    }

    /** cabinet: oblique with shortening -1/2. */
    method Cabinet(alpha: real, zeroPlane: string, sin: real -> real, cos: real -> real)
      requires Valid()
      modifies this
      ensures Valid()
      ensures State() == Step(RotateToFrontP(old(State()), origOrientation, sin, cos),
                              ZeroAt(ObliqueMatrix(-0.5, alpha, sin, cos), PlaneIndex(zeroPlane)))
    {
      Oblique(-0.5, alpha, zeroPlane, sin, cos);
    }

    /** perspective: the last column of the pending matrix; the centroid
        does not move. */
    method Perspective(p: real, q: real, r: real, s: real)
      requires Valid()
      modifies this
      ensures Valid() && State() == Apply(old(State()), Project(p, q, r, s))
      ensures Centroid(State()) == Centroid(old(State()))
    {
      Tsub := Tsub.(m03 := p);
      Tsub := Tsub.(m13 := q);
      Tsub := Tsub.(m23 := r);
      Tsub := Tsub.(m33 := s);
      UpdateT();
    }

    /** triplePointAngular: the vanishing distances from the view angles. */
    method TriplePointAngular(theta: real, phi: real, d: real, sin: real -> real, cos: real -> real)
      requires Valid() && d != 0.0
      modifies this
      ensures Valid()
      ensures State() == Apply(old(State()), Project(sin(theta) / d, cos(theta) * sin(phi) / d, cos(theta) * cos(phi) / d, 1.0))
    {
      var p := sin(theta) / d;
      var q := cos(theta) * sin(phi) / d;
      var r := cos(theta) * cos(phi) / d;
      Perspective(p, q, r, 1.0);
    }

    method TriplePoint(p: real, q: real, r: real)
      requires Valid()
      modifies this
      ensures Valid() && State() == Apply(old(State()), Project(p, q, r, 1.0))
    {
      Perspective(p, q, r, 1.0);
    }

    method DoublePoint(p: real, q: real, r: real)
      requires Valid()
      modifies this
      ensures Valid() && State() == Apply(old(State()), DoublePointOp(p, q, r))
    {
      var p' := p;
      if p != 0.0 && q != 0.0 && r != 0.0 {
        p' := 0.0;
      }
      Perspective(p', q, r, 1.0);
    }

    /** singlePoint: `1/d` raises ZeroDivisionError for d = 0 (false,
        nothing changes). */
    method SinglePoint(d: real) returns (ok: bool)
      requires Valid()
      modifies this
      ensures Valid() && (ok <==> d != 0.0)
      ensures ok ==> State() == Apply(old(State()), Project(0.0, 0.0, 1.0 / d, 1.0))
      ensures !ok ==> State() == old(State())
    {
      if d == 0.0 {
        return false;
      }
      Perspective(0.0, 0.0, 1.0 / d, 1.0);
      return true;
    }

    /** singlePointAtOrigin: for d = 0 the exception comes after the move
        to the origin, which stays done. */
    method SinglePointAtOrigin(d: real) returns (ok: bool)
      requires Valid()
      modifies this
      ensures Valid() && (ok <==> d != 0.0)
      ensures ok ==> State() == AboutCentroid(old(State()), Project(0.0, 0.0, 1.0 / d, 1.0))
      ensures ok ==> Centroid(State()) == Centroid(old(State()))
      ensures !ok ==> State() == Apply(old(State()), ToOrigin(Centroid(old(State()))))
    {
      ghost var s0 := State();
      var initCentroid := currCentroid;
      TranslateToOrigin();
      ok := SinglePoint(d);
      if !ok {
        return;
      }
      AboutCentroidKeeps(s0, Project(0.0, 0.0, 1.0 / d, 1.0));
      Translate(initCentroid[0], initCentroid[1], initCentroid[2]);
    }
  }
}
