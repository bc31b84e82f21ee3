/** From body landmarks to the pose contract (landmark_pose.py): anatomical frames, rotations
    relative to the parent joint, and axis-angle vectors. */
module LandmarkPose {
  import opened Prelude
  import R = Reals
  import V = Vectors
  import Q = Quaternions
  import A = AxisAngle
  import F = Frames
  import opened Matrices
  import opened MatrixQuaternion
  import opened HintFrames
  import QA = QuaternionAction

  datatype Side = Left | Right

  /** The names of the canonical landmarks; any other name is ignored. */
  datatype Landmark =
    | Hip(side: Side) | Shoulder(side: Side) | Elbow(side: Side) | Wrist(side: Side)
    | Knee(side: Side) | Ankle(side: Side) | Heel(side: Side) | FootIndex(side: Side)
    | Ear(side: Side) | Mouth(side: Side) | Nose
    | Unknown(text: string)

  /** The required names in the order they are read: left before right, the nose last. */
  function RequiredAt(i: nat): Landmark {
    var s := if i % 2 == 0 then Left else Right;
    if i < 2 then Hip(s) else if i < 4 then Shoulder(s) else if i < 6 then Elbow(s) else if i < 8 then Wrist(s)
    else if i < 10 then Knee(s) else if i < 12 then Ankle(s) else if i < 14 then Heel(s)
    else if i < 16 then FootIndex(s)
    else if i < 18 then Ear(s) else if i < 20 then Mouth(s) else Nose
  }

  const REQUIRED: seq<Landmark> := seq(21, i requires i >= 0 => RequiredAt(i))

  type Points = map<Landmark, V.Vec>

  /** Every canonical landmark has a position. */
  ghost predicate Complete(points: Points) { forall l: Landmark :: !l.Unknown? ==> l in points }

  function Point(landmarks: map<Landmark, seq<real>>, name: Landmark): Result<V.Vec> {
    if name !in landmarks then Err("missing landmark")
    else if |landmarks[name]| != 3 then Err("landmark must contain three finite numbers")
    else Ok(V.FromRow(landmarks[name]))
  }

  /** The positions of the named landmarks; the first bad one raises. */
  function ReadPoints(landmarks: map<Landmark, seq<real>>, names: seq<Landmark>): Result<Points> {
    if names == [] then Ok(map[])
    else
      var first := Point(landmarks, names[0]);
      if first.Err? then Err(first.error)
      else
        var rest := ReadPoints(landmarks, names[1..]);
        if rest.Err? then rest else Ok(rest.value[names[0] := first.value])
  }

  lemma {:induction false} ReadPointsResult(landmarks: map<Landmark, seq<real>>, names: seq<Landmark>)
    ensures var r := ReadPoints(landmarks, names);
      && (r.Ok? <==> forall l <- names :: Point(landmarks, l).Ok?)
      && (r.Ok? ==> forall l: Landmark ::
           (l in r.value <==> l in names) && (l in names ==> r.value[l] == Point(landmarks, l).value))
  {
    hide Point;
    if names != [] {
      ReadPointsResult(landmarks, names[1..]);
      assert forall l: Landmark :: l in names <==> l == names[0] || l in names[1..];
    }
  }

  lemma RequiredIsCanonical(l: Landmark)
    ensures l in REQUIRED <==> !l.Unknown?
  {
    if !l.Unknown? {
      var pair := match l
        case Hip(_) => 0 case Shoulder(_) => 2 case Elbow(_) => 4 case Wrist(_) => 6 case Knee(_) => 8
        case Ankle(_) => 10 case Heel(_) => 12 case FootIndex(_) => 14 case Ear(_) => 16 case Mouth(_) => 18
        case _ => 20;
      var i := if l.Nose? || l.side == Left then pair else pair + 1;
      assert REQUIRED[i] == RequiredAt(i) == l;
    }
  }

  /* ---- the anatomical frames ---- */

  function Midpoint(a: V.Vec, b: V.Vec): V.Vec { V.Times(0.5, V.Plus(a, b)) }

  /** From the hips to the shoulders. */
  function Up(points: Points): V.Vec
    requires Complete(points)
  {
    V.Sub(Midpoint(points[Shoulder(Left)], points[Shoulder(Right)]), Midpoint(points[Hip(Left)], points[Hip(Right)]))
  }

  function PelvisFrame(lib: R.Library, points: Points): Result<Mat>
    requires Complete(points)
  {
    FrameFromXY(lib, V.Sub(points[Hip(Left)], points[Hip(Right)]), Up(points))
  }

  function ChestFrame(lib: R.Library, points: Points): Result<Mat>
    requires Complete(points)
  {
    FrameFromXY(lib, V.Sub(points[Shoulder(Left)], points[Shoulder(Right)]), Up(points))
  }

  function HeadFrame(lib: R.Library, points: Points): Result<Mat>
    requires Complete(points)
  {
    FrameFromXY(lib, V.Sub(points[Ear(Left)], points[Ear(Right)]),
                V.Sub(points[Nose], Midpoint(points[Mouth(Left)], points[Mouth(Right)])))
  }

  function HipFrame(lib: R.Library, points: Points, s: Side): Result<Mat>
    requires Complete(points)
  {
    var pelvis := PelvisFrame(lib, points);
    if pelvis.Err? then pelvis else FrameFromXY(lib, pelvis.value.x, V.Sub(points[Hip(s)], points[Knee(s)]))
  }

  function KneeFrame(lib: R.Library, points: Points, s: Side): Result<Mat>
    requires Complete(points)
  {
    var hip := HipFrame(lib, points, s);
    if hip.Err? then hip else FrameFromXY(lib, hip.value.x, V.Sub(points[Knee(s)], points[Ankle(s)]))
  }

  function AnkleFrame(lib: R.Library, points: Points, s: Side): Result<Mat>
    requires Complete(points)
  {
    var knee := KneeFrame(lib, points, s);
    if knee.Err? then knee else FrameFromXZ(lib, knee.value.x, V.Sub(points[FootIndex(s)], points[Ankle(s)]))
  }

  /** Both arms point along the anatomical left of the body. */
  function Outward(s: Side, v: V.Vec): V.Vec { V.Times(if s == Left then 1.0 else -1.0, v) }

  function ShoulderFrame(lib: R.Library, points: Points, s: Side): Result<Mat>
    requires Complete(points)
  {
    var chest := ChestFrame(lib, points);
    if chest.Err? then chest
      else FrameFromXY(lib, Outward(s, V.Sub(points[Elbow(s)], points[Shoulder(s)])), chest.value.y)
  }

  function ElbowFrame(lib: R.Library, points: Points, s: Side): Result<Mat>
    requires Complete(points)
  {
    var shoulder := ShoulderFrame(lib, points, s);
    if shoulder.Err? then shoulder
      else FrameFromXY(lib, Outward(s, V.Sub(points[Wrist(s)], points[Elbow(s)])), shoulder.value.y)
  }

  const NUM_JOINTS: nat := 22

  /** Paired joints come left before right. */
  function SideOf(j: nat): Side {
    if j == 1 || j == 4 || j == 7 || j == 10 || j == 16 || j == 18 || j == 20 then Left else Right
  }

  /** The frame each joint of the body is given, by its position in the joint table. */
  function FrameOf(lib: R.Library, points: Points, j: nat): Result<Mat>
    requires Complete(points) && j < NUM_JOINTS
  {
    if j == 0 || j == 3 || j == 6 then PelvisFrame(lib, points)
    else if j == 9 || 12 <= j <= 14 then ChestFrame(lib, points)
    else if j == 15 then HeadFrame(lib, points)
    else if j <= 2 then HipFrame(lib, points, SideOf(j))
    else if j <= 5 then KneeFrame(lib, points, SideOf(j))
    else if j <= 11 then AnkleFrame(lib, points, SideOf(j))
    else if j <= 17 then ShoulderFrame(lib, points, SideOf(j))
    else ElbowFrame(lib, points, SideOf(j))
  }

  predicate Stable(lib: R.Library, points: Points)
    requires Complete(points)
  {
    forall j: nat | j < NUM_JOINTS :: FrameOf(lib, points, j).Ok?
  }

  /** The frames of one side, each built on the one before. */
  datatype Limbs = Limbs(hip: Mat, knee: Mat, ankle: Mat, shoulder: Mat, elbow: Mat)

  method SideFrames(lib: R.Library, points: Points, s: Side, pelvis: Mat, chest: Mat) returns (r: Result<Limbs>)
    requires Complete(points) && PelvisFrame(lib, points) == Ok(pelvis) && ChestFrame(lib, points) == Ok(chest)
    ensures r.Ok? <==> AnkleFrame(lib, points, s).Ok? && ElbowFrame(lib, points, s).Ok?
    ensures r.Ok? ==>
      && HipFrame(lib, points, s) == Ok(r.value.hip) && KneeFrame(lib, points, s) == Ok(r.value.knee)
      && AnkleFrame(lib, points, s) == Ok(r.value.ankle)
      && ShoulderFrame(lib, points, s) == Ok(r.value.shoulder) && ElbowFrame(lib, points, s) == Ok(r.value.elbow)
  {
    hide FrameFromXY; hide FrameFromXZ;
    var hip := FrameFromXY(lib, pelvis.x, V.Sub(points[Hip(s)], points[Knee(s)]));
    if hip.Err? { return Err(hip.error); }
    var knee := FrameFromXY(lib, hip.value.x, V.Sub(points[Knee(s)], points[Ankle(s)]));
    if knee.Err? { return Err(knee.error); }
    var ankle := FrameFromXZ(lib, knee.value.x, V.Sub(points[FootIndex(s)], points[Ankle(s)]));
    if ankle.Err? { return Err(ankle.error); }
    var shoulder := FrameFromXY(lib, Outward(s, V.Sub(points[Elbow(s)], points[Shoulder(s)])), chest.y);
    if shoulder.Err? { return Err(shoulder.error); }
    var elbow := FrameFromXY(lib, Outward(s, V.Sub(points[Wrist(s)], points[Elbow(s)])), shoulder.value.y);
    if elbow.Err? { return Err(elbow.error); }
    r := Ok(Limbs(hip.value, knee.value, ankle.value, shoulder.value, elbow.value));
  }

  predicate Trunk(j: nat) { j == 0 || j == 3 || j == 6 || j == 9 || 12 <= j <= 15 }

  /** The side of a limb joint, counted in the order the sides are filled. */
  function Turn(j: nat): nat { if SideOf(j) == Left then 0 else 1 }

  function LimbFrame(l: Limbs, j: nat): Mat {
    if j <= 2 then l.hip else if j <= 5 then l.knee else if j <= 11 then l.ankle
    else if j <= 17 then l.shoulder else l.elbow
  }

  /** The table with the seven joints of one side filled in. */
  function WithSide(frames: map<nat, Mat>, i: nat, l: Limbs): (r: map<nat, Mat>)
    requires i < 2
    ensures forall j: nat :: j in r <==> j in frames || (j < NUM_JOINTS && !Trunk(j) && Turn(j) == i)
    ensures forall j <- r :: r[j] == if j < NUM_JOINTS && !Trunk(j) && Turn(j) == i then LimbFrame(l, j) else frames[j]
  {
    frames[1 + i := l.hip][4 + i := l.knee][7 + i := l.ankle][10 + i := l.ankle]
          [16 + i := l.shoulder][18 + i := l.elbow][20 + i := l.elbow]
  }

  /** The table of frames: filled per side after the trunk, with the same frame for a foot as
      for its ankle and for a wrist as for its elbow.  It raises exactly when some joint has
      no stable frame. */
  method GlobalFrames(lib: R.Library, points: Points) returns (r: Result<map<nat, Mat>>)
    requires Complete(points)
    ensures r.Ok? <==> Stable(lib, points)
    ensures r.Ok? ==> forall j: nat :: j in r.value <==> j < NUM_JOINTS
    ensures r.Ok? ==> forall j: nat | j < NUM_JOINTS :: Ok(r.value[j]) == FrameOf(lib, points, j)
  {
    hide PelvisFrame; hide ChestFrame; hide HeadFrame; hide HipFrame; hide KneeFrame; hide AnkleFrame;
    hide ShoulderFrame; hide ElbowFrame; hide WithSide;
    var pelvis := PelvisFrame(lib, points);
    if pelvis.Err? { assert FrameOf(lib, points, 0).Err?; return Err(pelvis.error); }
    var chest := ChestFrame(lib, points);
    if chest.Err? { assert FrameOf(lib, points, 9).Err?; return Err(chest.error); }
    var head := HeadFrame(lib, points);
    if head.Err? { assert FrameOf(lib, points, 15).Err?; return Err(head.error); }
    var frames: map<nat, Mat> := map[
      0 := pelvis.value, 3 := pelvis.value, 6 := pelvis.value, 9 := chest.value,
      12 := chest.value, 13 := chest.value, 14 := chest.value, 15 := head.value];
    for i := 0 to 2
      invariant forall j: nat :: j in frames <==> j < NUM_JOINTS && (Trunk(j) || Turn(j) < i)
      invariant forall j <- frames :: j < NUM_JOINTS && Ok(frames[j]) == FrameOf(lib, points, j)
    {
      var limbs := SideFrames(lib, points, if i == 0 then Left else Right, pelvis.value, chest.value);
      if limbs.Err? {
        assert FrameOf(lib, points, 7 + i).Err? || FrameOf(lib, points, 18 + i).Err?;
        return Err(limbs.error);
      }
      frames := WithSide(frames, i, limbs.value);
    }
    r := Ok(frames);
  }

  /* ---- what the frames are ---- */

  /** Every frame that is built is a proper rotation. */
  lemma FramesAreRotations(lib: R.Library, points: Points, j: nat)
    requires R.Sound(lib) && Complete(points) && j < NUM_JOINTS && FrameOf(lib, points, j).Ok?
    ensures IsRotation(FrameOf(lib, points, j).value)
  {
    hide R.Sound; hide FrameFromXY; hide FrameFromXZ; hide IsRotation; hide V.Sub; hide Up; hide Midpoint; hide Outward;
    XYRotation(lib); XZRotation(lib);
  }

  lemma XYRotation(lib: R.Library)
    requires R.Sound(lib)
    ensures forall x, y :: FrameFromXY(lib, x, y).Ok? ==> IsRotation(FrameFromXY(lib, x, y).value)
  {
    hide R.Sound; hide FrameFromXY; hide IsRotation;
    forall x, y ensures FrameFromXY(lib, x, y).Ok? ==> IsRotation(FrameFromXY(lib, x, y).value) { FrameXY(lib, x, y); }
  }

  lemma XZRotation(lib: R.Library)
    requires R.Sound(lib)
    ensures forall x, z :: FrameFromXZ(lib, x, z).Ok? ==> IsRotation(FrameFromXZ(lib, x, z).value)
  {
    hide R.Sound; hide FrameFromXZ; hide IsRotation;
    forall x, z ensures FrameFromXZ(lib, x, z).Ok? ==> IsRotation(FrameFromXZ(lib, x, z).value) { FrameXZ(lib, x, z); }
  }

  /** Legs are hinges: hip, knee, ankle and foot keep the lateral axis of the pelvis, so
      their rotations relative to the parent leave that axis alone. */
  lemma LegsHinge(lib: R.Library, points: Points, s: Side)
    requires R.Sound(lib) && Complete(points) && AnkleFrame(lib, points, s).Ok?
    ensures var pelvis, hip := PelvisFrame(lib, points).value, HipFrame(lib, points, s).value;
      var knee, ankle := KneeFrame(lib, points, s).value, AnkleFrame(lib, points, s).value;
      && pelvis.x == hip.x == knee.x == ankle.x
      && TransposeMul(pelvis, hip).x == QA.E1 && TransposeMul(hip, knee).x == QA.E1
           && TransposeMul(knee, ankle).x == QA.E1
  {
    hide R.Sound; hide FrameFromXY; hide FrameFromXZ; hide IsRotation; hide V.Sub; hide Up; hide Midpoint;
    hide TransposeMul;
    XYRotation(lib); XZRotation(lib);
    var pelvis, hip := PelvisFrame(lib, points).value, HipFrame(lib, points, s).value;
    var knee, ankle := KneeFrame(lib, points, s).value, AnkleFrame(lib, points, s).value;
    FirstAxisKept(lib, pelvis, V.Sub(points[Hip(s)], points[Knee(s)]));
    FirstAxisKept(lib, hip, V.Sub(points[Knee(s)], points[Ankle(s)]));
    FirstAxisKept(lib, knee, V.Sub(points[FootIndex(s)], points[Ankle(s)]));
    AlongFirst(pelvis, hip); AlongFirst(hip, knee); AlongFirst(knee, ankle);
  }

  lemma FirstAxisKept(lib: R.Library, m: Mat, hint: V.Vec)
    requires R.Sound(lib) && IsRotation(m)
    ensures FrameFromXY(lib, m.x, hint).Ok? ==> FrameFromXY(lib, m.x, hint).value.x == m.x
    ensures FrameFromXZ(lib, m.x, hint).Ok? ==> FrameFromXZ(lib, m.x, hint).value.x == m.x
  {
    hide R.Sound; hide V.Dot; hide V.Cross; hide UnitVector; hide Reject;
    UnitVectorOfUnit(lib, m.x);
  }

  lemma AlongFirst(a: Mat, b: Mat)
    requires IsRotation(a) && b.x == a.x
    ensures TransposeMul(a, b).x == QA.E1
  {
    hide V.Dot;
    V.DotSymmetric(a.x, a.y);
  }

  /** The unit vector `x` points along `v`. */
  predicate Along(lib: R.Library, x: V.Vec, v: V.Vec) { V.Times(Length(lib, v), x) == v && Length(lib, v) > 0.0 }

  lemma XYAlong(lib: R.Library, xHint: V.Vec, yHint: V.Vec)
    requires R.Sound(lib) && FrameFromXY(lib, xHint, yHint).Ok?
    ensures var m := FrameFromXY(lib, xHint, yHint).value; Along(lib, m.x, xHint) && V.Dot(m.y, yHint) > 0.0
  {
    hide R.Sound; hide FrameFromXY; hide V.Dot; hide V.Times; hide IsRotation;
    FrameXY(lib, xHint, yHint);
  }

  /** The frames follow the body: trunk and head have their first axis along their left-right
      lines, trunk frames their second axis upwards; both arms have theirs along the bone, the
      right one reversed; hip and knee frames have their bone on the side of the second axis,
      ankle frames the foot on the side of the third. */
  lemma FramesFollowBones(lib: R.Library, points: Points, s: Side)
    requires R.Sound(lib) && Complete(points)
    requires HeadFrame(lib, points).Ok? && AnkleFrame(lib, points, s).Ok? && ElbowFrame(lib, points, s).Ok?
    ensures var pelvis, chest, head :=
      PelvisFrame(lib, points).value, ChestFrame(lib, points).value, HeadFrame(lib, points).value;
      && Along(lib, pelvis.x, V.Sub(points[Hip(Left)], points[Hip(Right)])) && V.Dot(pelvis.y, Up(points)) > 0.0
      && Along(lib, chest.x, V.Sub(points[Shoulder(Left)], points[Shoulder(Right)])) && V.Dot(chest.y, Up(points)) > 0.0
      && Along(lib, head.x, V.Sub(points[Ear(Left)], points[Ear(Right)]))
    ensures Along(lib, ShoulderFrame(lib, points, s).value.x, Outward(s, V.Sub(points[Elbow(s)], points[Shoulder(s)])))
    ensures Along(lib, ElbowFrame(lib, points, s).value.x, Outward(s, V.Sub(points[Wrist(s)], points[Elbow(s)])))
    ensures V.Dot(HipFrame(lib, points, s).value.y, V.Sub(points[Hip(s)], points[Knee(s)])) > 0.0
    ensures V.Dot(KneeFrame(lib, points, s).value.y, V.Sub(points[Knee(s)], points[Ankle(s)])) > 0.0
    ensures V.Dot(AnkleFrame(lib, points, s).value.z, V.Sub(points[FootIndex(s)], points[Ankle(s)])) > 0.0
  {
    hide R.Sound; hide FrameFromXY; hide FrameFromXZ; hide V.Dot; hide V.Sub; hide Up; hide Midpoint;
    hide Outward; hide Along; hide IsRotation;
    var pelvis, chest := PelvisFrame(lib, points).value, ChestFrame(lib, points).value;
    var hip, knee, shoulder :=
      HipFrame(lib, points, s).value, KneeFrame(lib, points, s).value, ShoulderFrame(lib, points, s).value;
    XYAlong(lib, V.Sub(points[Hip(Left)], points[Hip(Right)]), Up(points));
    XYAlong(lib, V.Sub(points[Shoulder(Left)], points[Shoulder(Right)]), Up(points));
    XYAlong(lib, V.Sub(points[Ear(Left)], points[Ear(Right)]),
            V.Sub(points[Nose], Midpoint(points[Mouth(Left)], points[Mouth(Right)])));
    XYAlong(lib, pelvis.x, V.Sub(points[Hip(s)], points[Knee(s)]));
    XYAlong(lib, hip.x, V.Sub(points[Knee(s)], points[Ankle(s)]));
    FrameXZ(lib, knee.x, V.Sub(points[FootIndex(s)], points[Ankle(s)]));
    XYAlong(lib, Outward(s, V.Sub(points[Elbow(s)], points[Shoulder(s)])), chest.y);
    XYAlong(lib, Outward(s, V.Sub(points[Wrist(s)], points[Elbow(s)])), shoulder.y);
  }

  /* ---- conversion ---- */

  /** The joint table's parent of a joint. */
  function Parent(j: nat): nat
    requires 0 < j < NUM_JOINTS
    ensures Parent(j) < j
  {
    if j <= 3 then 0 else if j <= 11 then j - 3 else if j <= 14 then 9 else if j <= 17 then j - 3 else j - 2
  }

  /** The rotation of a joint relative to its parent; the pelvis relative to the world. */
  function Relative(lib: R.Library, points: Points, j: nat): Mat
    requires Complete(points) && Stable(lib, points) && j < NUM_JOINTS
  {
    var frame := FrameOf(lib, points, j).value;
    if j == 0 then frame else TransposeMul(FrameOf(lib, points, Parent(j)).value, frame)
  }

  lemma RelativeIsRotation(lib: R.Library, points: Points, j: nat)
    requires R.Sound(lib) && Complete(points) && Stable(lib, points) && j < NUM_JOINTS
    ensures IsRotation(Relative(lib, points, j))
  {
    hide R.Sound; hide FrameOf; hide IsRotation; hide TransposeMul;
    FramesAreRotations(lib, points, j);
    if j > 0 {
      FramesAreRotations(lib, points, Parent(j));
      TransposeMulRotation(FrameOf(lib, points, Parent(j)).value, FrameOf(lib, points, j).value);
    }
  }

  /** The conversion of a rotation matrix never raises. */
  lemma AxisAngleOfRotation(lib: R.Library, m: Mat)
    requires R.Sound(lib) && IsRotation(m)
    ensures MatrixToAxisAngle(lib, m).Ok?
  {
    hide R.Sound; hide IsRotation; hide MatrixToQuaternion; hide A.FromQuaternion; hide Q.Unit;
    MatrixToQuaternionExact(lib, m);
    A.RoundTrip(lib, MatrixToQuaternion(lib, m));
  }

  const STILL := [0.0, 0.0, 0.0]

  function Zeros(n: nat): seq<real> { seq(n, _ => 0.0) }

  /** The payload carries the rotation of every body joint relative to its parent, and
      nothing else. */
  ghost predicate Emitted(lib: R.Library, points: Points, p: F.PosePayload<real>)
    requires Complete(points) && Stable(lib, points)
  {
    && F.WellShaped(p)
    && MatrixToAxisAngle(lib, Relative(lib, points, 0)).Ok?
    && p.globalOrient == V.ToRow(MatrixToAxisAngle(lib, Relative(lib, points, 0)).value)
    && (forall j | 0 < j < NUM_JOINTS ::
          && MatrixToAxisAngle(lib, Relative(lib, points, j)).Ok?
          && p.bodyPose[j - 1] == V.ToRow(MatrixToAxisAngle(lib, Relative(lib, points, j)).value))
    && (forall i | 0 <= i < F.NUM_HAND_JOINTS :: p.leftHandPose[i] == STILL && p.rightHandPose[i] == STILL)
    && p.jawPose == STILL && p.transl == STILL && p.betas == Zeros(F.NUM_BETAS)
         && p.expression == Zeros(F.NUM_EXPRESSION)
  }

  /** Three numbers for every canonical landmark. */
  ghost predicate Readable(landmarks: map<Landmark, seq<real>>) {
    forall l: Landmark :: !l.Unknown? ==> l in landmarks && |landmarks[l]| == 3
  }

  lemma ReadRequired(landmarks: map<Landmark, seq<real>>)
    ensures ReadPoints(landmarks, REQUIRED).Ok? <==> Readable(landmarks)
    ensures Readable(landmarks) ==>
      var points := ReadPoints(landmarks, REQUIRED).value;
      Complete(points) && forall l: Landmark :: !l.Unknown? ==> points[l] == V.FromRow(landmarks[l])
  {
    hide ReadPoints;
    ReadPointsResult(landmarks, REQUIRED);
    forall l: Landmark ensures l in REQUIRED <==> !l.Unknown? { RequiredIsCanonical(l); }
    hide REQUIRED;
  }

  /** Converting landmarks succeeds exactly when all of them can be read and every joint has a
      stable frame, and then emits the relative rotations. */
  method Convert(lib: R.Library, landmarks: map<Landmark, seq<real>>) returns (r: Result<F.PosePayload<real>>)
    requires R.Sound(lib)
    ensures r.Ok? <==>
      var points := ReadPoints(landmarks, REQUIRED);
      Readable(landmarks) && points.Ok? && Complete(points.value) && Stable(lib, points.value)
    ensures r.Ok? ==> Emitted(lib, ReadPoints(landmarks, REQUIRED).value, r.value)
  {
    hide R.Sound; hide FrameOf; hide MatrixToAxisAngle; hide TransposeMul; hide REQUIRED; hide IsRotation;
    ReadRequired(landmarks);
    var points := ReadPoints(landmarks, REQUIRED);
    if points.Err? { return Err(points.error); }
    var globalFrames := GlobalFrames(lib, points.value);
    if globalFrames.Err? { return Err(globalFrames.error); }
    var frames := globalFrames.value;
    var bodyPose: seq<seq<real>> := [];
    for k := 0 to F.NUM_BODY_JOINTS
      invariant |bodyPose| == k && F.Triples(bodyPose)
      invariant forall j | 0 < j <= k ::
        && MatrixToAxisAngle(lib, Relative(lib, points.value, j)).Ok?
        && bodyPose[j - 1] == V.ToRow(MatrixToAxisAngle(lib, Relative(lib, points.value, j)).value)
    {
      var j := k + 1;
      RelativeIsRotation(lib, points.value, j);
      AxisAngleOfRotation(lib, Relative(lib, points.value, j));
      var m := TransposeMul(frames[Parent(j)], frames[j]);
      assert m == Relative(lib, points.value, j);
      var v := MatrixToAxisAngle(lib, m);
      bodyPose := bodyPose + [V.ToRow(v.value)];
    }
    RelativeIsRotation(lib, points.value, 0);
    AxisAngleOfRotation(lib, frames[0]);
    var zeroHand := seq(F.NUM_HAND_JOINTS, _ => STILL);
    r := Ok(F.PosePayload(V.ToRow(MatrixToAxisAngle(lib, frames[0]).value), bodyPose, zeroHand, zeroHand,
                          STILL, Zeros(F.NUM_BETAS), Zeros(F.NUM_EXPRESSION), STILL));
  }

  /* ---- forward kinematics ---- */

  const NO_ROTATION := Mat(QA.E1, QA.E2, QA.E3)

  /** A rotation the axis-angle form can carry: not inside the cut-off, or none at all. */
  predicate Resolved(lib: R.Library, m: Mat) {
    A.HalfSine(lib, A.ShortWay(MatrixToQuaternion(lib, m)).w) >= Q.ZERO_ANGLE || m == NO_ROTATION
  }

  /** The quaternion a receiver reads off the emitted vector of a matrix. */
  function Received(lib: R.Library, m: Mat): Q.Quat
    requires MatrixToAxisAngle(lib, m).Ok?
  {
    A.ToQuaternion(lib, MatrixToAxisAngle(lib, m).value)
  }

  lemma RotationOfIdentity()
    ensures RotationOf(Q.IDENTITY) == NO_ROTATION
  {}

  /** A rotation matrix survives the axis-angle form exactly when it is resolved; otherwise
      it arrives as no rotation. */
  lemma ReceivedExact(lib: R.Library, m: Mat)
    requires R.Sound(lib) && IsRotation(m)
    ensures MatrixToAxisAngle(lib, m).Ok? && Q.Unit(Received(lib, m))
    ensures RotationOf(Received(lib, m)) == m <==> Resolved(lib, m)
    ensures !Resolved(lib, m) ==> Received(lib, m) == Q.IDENTITY
  {
    hide R.Sound; hide IsRotation; hide MatrixToQuaternion; hide A.FromQuaternion; hide Q.Dot; hide Q.Neg;
    hide RotationOf;
    hide A.HalfSine; hide A.ToQuaternion;
    var q := MatrixToQuaternion(lib, m);
    MatrixToQuaternionExact(lib, m);
    A.RoundTrip(lib, q);
    A.ToQuaternionUnit(lib, MatrixToAxisAngle(lib, m).value);
    QA.NegRotation(q);
    RotationOfIdentity();
  }

  /** The orientation a receiver composes for a joint, down the joint tree. */
  function World(lib: R.Library, p: F.PosePayload<real>, j: nat): Q.Quat
    requires F.WellShaped(p) && j < NUM_JOINTS
  {
    if j == 0 then A.ToQuaternion(lib, V.FromRow(p.globalOrient))
    else Q.Mul(World(lib, p, Parent(j)), A.ToQuaternion(lib, V.FromRow(p.bodyPose[j - 1])))
  }

  predicate PathResolved(lib: R.Library, points: Points, j: nat)
    requires Complete(points) && Stable(lib, points) && j < NUM_JOINTS
  {
    Resolved(lib, Relative(lib, points, j)) && (j > 0 ==> PathResolved(lib, points, Parent(j)))
  }

  lemma RowRoundTrip(v: V.Vec)
    ensures V.FromRow(V.ToRow(v)) == v
  {}

  /** Forward kinematics recovers the frames: along any path of the joint tree, composing the
      emitted rotations gives back each joint's global frame. */
  lemma {:induction false} ForwardKinematics(lib: R.Library, points: Points, p: F.PosePayload<real>, j: nat)
    requires R.Sound(lib) && Complete(points) && Stable(lib, points) && Emitted(lib, points, p) && j < NUM_JOINTS
    ensures Q.Unit(World(lib, p, j))
    ensures PathResolved(lib, points, j) ==> RotationOf(World(lib, p, j)) == FrameOf(lib, points, j).value
  {
    hide R.Sound; hide FrameOf; hide IsRotation; hide Q.Unit; hide Q.Mul; hide MatMul; hide TransposeMul;
    hide RotationOf;
    hide Resolved; hide A.ToQuaternion; hide MatrixToAxisAngle;
    var m := Relative(lib, points, j);
    RelativeIsRotation(lib, points, j);
    ReceivedExact(lib, m);
    RowRoundTrip(MatrixToAxisAngle(lib, m).value);
    if j > 0 {
      ForwardKinematics(lib, points, p, Parent(j));
      FramesAreRotations(lib, points, Parent(j));
      Q.UnitMul(World(lib, p, Parent(j)), Received(lib, m));
      QA.RotationOfProduct(World(lib, p, Parent(j)), Received(lib, m));
      MulTransposeMul(FrameOf(lib, points, Parent(j)).value, FrameOf(lib, points, j).value);
    }
  }

  /** Below a recovered parent a joint is recovered exactly when its own rotation is resolved;
      otherwise it keeps the parent's orientation. */
  lemma RecoveredExactly(lib: R.Library, points: Points, p: F.PosePayload<real>, j: nat)
    requires R.Sound(lib) && Complete(points) && Stable(lib, points) && Emitted(lib, points, p) && 0 < j < NUM_JOINTS
    requires PathResolved(lib, points, Parent(j))
    ensures RotationOf(World(lib, p, j)) == FrameOf(lib, points, j).value <==> Resolved(lib, Relative(lib, points, j))
    ensures !Resolved(lib, Relative(lib, points, j)) ==> World(lib, p, j) == World(lib, p, Parent(j))
  {
    hide R.Sound; hide FrameOf; hide IsRotation; hide Q.Unit; hide Q.Mul; hide TransposeMul; hide RotationOf;
    hide Resolved; hide A.ToQuaternion; hide MatrixToAxisAngle; hide PathResolved;
    var m := Relative(lib, points, j);
    RelativeIsRotation(lib, points, j);
    ReceivedExact(lib, m);
    RowRoundTrip(MatrixToAxisAngle(lib, m).value);
    ForwardKinematics(lib, points, p, Parent(j));
    if Resolved(lib, m) {
      UnfoldPath(lib, points, j);
      ForwardKinematics(lib, points, p, j);
    } else {
      Q.MulIdentity(World(lib, p, Parent(j)));
      FramesAreRotations(lib, points, Parent(j));
      TransposeMulSelf(FrameOf(lib, points, Parent(j)).value);
      NoRotationResolved(lib);
    }
  }

  lemma UnfoldPath(lib: R.Library, points: Points, j: nat)
    requires Complete(points) && Stable(lib, points) && 0 < j < NUM_JOINTS
    ensures PathResolved(lib, points, j) <==>
      Resolved(lib, Relative(lib, points, j)) && PathResolved(lib, points, Parent(j))
  {
    hide Resolved;
  }

  lemma NoRotationResolved(lib: R.Library)
    ensures Resolved(lib, NO_ROTATION)
  {}

  lemma TransposeMulSelf(m: Mat)
    requires IsRotation(m)
    ensures TransposeMul(m, m) == NO_ROTATION
  {
    hide V.Dot;
    V.DotSymmetric(m.x, m.y); V.DotSymmetric(m.y, m.z); V.DotSymmetric(m.z, m.x);
  }

  /** The joints that share the frame of their parent: the lower spine, the neck, the collars,
      the feet and the wrists. */
  predicate SharesFrame(j: nat) { j == 3 || j == 6 || 10 <= j <= 14 || j == 20 || j == 21 }

  /** A joint that shares its parent's frame is emitted as exactly no rotation. */
  lemma SharedFramesStayStill(lib: R.Library, points: Points, p: F.PosePayload<real>, j: nat)
    requires R.Sound(lib) && Complete(points) && Stable(lib, points) && Emitted(lib, points, p)
    requires j < NUM_JOINTS && SharesFrame(j)
    ensures p.bodyPose[j - 1] == STILL
  {
    hide R.Sound; hide IsRotation; hide TransposeMul; hide MatrixToAxisAngle;
    hide PelvisFrame; hide ChestFrame; hide AnkleFrame; hide ElbowFrame; hide HeadFrame; hide HipFrame;
    hide KneeFrame; hide ShoulderFrame;
    assert FrameOf(lib, points, j) == FrameOf(lib, points, Parent(j));
    FramesAreRotations(lib, points, j);
    TransposeMulSelf(FrameOf(lib, points, j).value);
    NoRotationIsStill(lib);
    assert V.ToRow(V.ZERO) == STILL;
    assert Relative(lib, points, j) == NO_ROTATION;
  }

  /** The positive-trace branch, with the trace of no rotation. */
  lemma NoRotationQuaternion(lib: R.Library)
    requires lib.sqrt(4.0) == 2.0
    ensures MatrixToQuaternion(lib, NO_ROTATION) == Q.IDENTITY
  {
    hide FromDominantDiagonal;
    assert Trace(NO_ROTATION) == 3.0;
    ZeroOver(4.0);
  }

  lemma ZeroOver(n: real)
    ensures R.Quotient(0.0, n) == 0.0
  {}

  lemma IdentityIsStill(lib: R.Library)
    requires lib.sqrt(1.0) == 1.0 && lib.sqrt(0.0) == 0.0
    ensures A.FromQuaternion(lib, Q.IDENTITY) == Ok(V.ZERO)
  {
    hide Q.Over;
    Q.DotSelf(Q.IDENTITY);
    Q.OverOne(Q.IDENTITY);
    assert A.ShortWay(Q.IDENTITY) == Q.IDENTITY;
    assert A.HalfSine(lib, 1.0) == 0.0;
  }

  lemma NoRotationIsStill(lib: R.Library)
    requires R.Sound(lib)
    ensures MatrixToAxisAngle(lib, NO_ROTATION) == Ok(V.ZERO)
  {
    R.SqrtUnique(lib, 4.0, 2.0);
    R.SqrtUnique(lib, 1.0, 1.0);
    R.SqrtUnique(lib, 0.0, 0.0);
    hide R.Sound; hide MatrixToQuaternion; hide A.FromQuaternion;
    NoRotationQuaternion(lib);
    IdentityIsStill(lib);
  }
}
