/** The body by its anatomy: what each frame is built from, which row of the payload carries which
    joint, and the orientations a receiver composes along the limbs and the spine
    (landmark_pose.py). */
module BodyChains {
  import opened Prelude
  import R = Reals
  import V = Vectors
  import Q = Quaternions
  import A = AxisAngle
  import F = Frames
  import opened Matrices
  import opened MatrixQuaternion
  import opened HintFrames
  import opened LandmarkPose
  import QA = QuaternionAction

  /* ---- the frames ---- */

  /** The rotation with its first axis along one direction and the other direction in the plane of
      its first two axes, on the side of the second: there is only one. */
  predicate FitsXY(lib: R.Library, m: Mat, x: V.Vec, y: V.Vec) {
    && IsRotation(m) && Along(lib, m.x, x)
    && V.Dot(m.y, y) > 0.0 && V.Dot(m.z, y) == 0.0
  }

  predicate FitsXZ(lib: R.Library, m: Mat, x: V.Vec, z: V.Vec) {
    && IsRotation(m) && Along(lib, m.x, x)
    && V.Dot(m.z, z) > 0.0 && V.Dot(m.y, z) == 0.0
  }

  lemma XYFits(lib: R.Library, x: V.Vec, y: V.Vec)
    requires R.Sound(lib) && FrameFromXY(lib, x, y).Ok?
    ensures FitsXY(lib, FrameFromXY(lib, x, y).value, x, y)
  {
    hide R.Sound; hide FrameFromXY; hide V.Dot; hide V.Times; hide IsRotation; hide Length;
    FrameXY(lib, x, y);
  }

  lemma XZFits(lib: R.Library, x: V.Vec, z: V.Vec)
    requires R.Sound(lib) && FrameFromXZ(lib, x, z).Ok?
    ensures FitsXZ(lib, FrameFromXZ(lib, x, z).value, x, z)
  {
    hide R.Sound; hide FrameFromXZ; hide V.Dot; hide V.Times; hide IsRotation; hide Length;
    FrameXZ(lib, x, z);
  }

  /** Two directions define a frame: the first is long enough, and so is what the second has beside
      it. */
  predicate Spans(lib: R.Library, x: V.Vec, y: V.Vec) {
    var length := lib.sqrt(V.Dot(x, x));
    length >= 0.00000001 &&
    var u := V.Over(x, length);
    var beside := V.Sub(y, V.Times(V.Dot(u, y), u));
    lib.sqrt(V.Dot(beside, beside)) >= 0.00000001
  }

  lemma FramesDefined(lib: R.Library, x: V.Vec, y: V.Vec)
    requires R.Sound(lib)
    ensures FrameFromXY(lib, x, y).Ok? <==> Spans(lib, x, y)
    ensures FrameFromXZ(lib, x, y).Ok? <==> Spans(lib, x, y)
  {
    hide R.Sound; hide FrameFromXY; hide FrameFromXZ; hide V.Dot; hide V.Times; hide V.Over; hide V.Sub;
    hide IsRotation;
    FrameXY(lib, x, y);
    FrameXZ(lib, x, y);
  }

  /** Exactly when each frame of trunk and head, and each of a leg or an arm below the one above it,
      is defined. */
  lemma TrunkDefined(lib: R.Library, p: Points)
    requires R.Sound(lib) && Complete(p)
    ensures PelvisFrame(lib, p).Ok? <==> Spans(lib, V.Sub(p[Hip(Left)], p[Hip(Right)]), V.Times(0.5, Spine(p)))
    ensures ChestFrame(lib, p).Ok? <==>
      Spans(lib, V.Sub(p[Shoulder(Left)], p[Shoulder(Right)]), V.Times(0.5, Spine(p)))
    ensures HeadFrame(lib, p).Ok? <==> Spans(lib, V.Sub(p[Ear(Left)], p[Ear(Right)]), V.Times(0.5, Face(p)))
  {
    hide R.Sound; hide FrameFromXY; hide Spans; hide V.Sub; hide V.Times; hide Up; hide Midpoint; hide Spine;
    hide Face;
    Halves(p);
    FramesDefined(lib, V.Sub(p[Hip(Left)], p[Hip(Right)]), Up(p));
    FramesDefined(lib, V.Sub(p[Shoulder(Left)], p[Shoulder(Right)]), Up(p));
    FramesDefined(lib, V.Sub(p[Ear(Left)], p[Ear(Right)]), V.Times(0.5, Face(p)));
  }

  lemma HipDefined(lib: R.Library, p: Points, s: Side, pelvis: Mat)
    requires R.Sound(lib) && Complete(p) && PelvisFrame(lib, p) == Ok(pelvis)
    ensures HipFrame(lib, p, s).Ok? <==> Spans(lib, pelvis.x, V.Sub(p[Hip(s)], p[Knee(s)]))
  {
    hide R.Sound; hide FrameFromXY; hide FrameFromXZ; hide Spans; hide V.Sub; hide PelvisFrame;
    FramesDefined(lib, pelvis.x, V.Sub(p[Hip(s)], p[Knee(s)]));
  }

  lemma KneeDefined(lib: R.Library, p: Points, s: Side, hip: Mat)
    requires R.Sound(lib) && Complete(p) && HipFrame(lib, p, s) == Ok(hip)
    ensures KneeFrame(lib, p, s).Ok? <==> Spans(lib, hip.x, V.Sub(p[Knee(s)], p[Ankle(s)]))
  {
    hide R.Sound; hide FrameFromXY; hide FrameFromXZ; hide Spans; hide V.Sub; hide HipFrame;
    FramesDefined(lib, hip.x, V.Sub(p[Knee(s)], p[Ankle(s)]));
  }

  lemma AnkleDefined(lib: R.Library, p: Points, s: Side, knee: Mat)
    requires R.Sound(lib) && Complete(p) && KneeFrame(lib, p, s) == Ok(knee)
    ensures AnkleFrame(lib, p, s).Ok? <==> Spans(lib, knee.x, V.Sub(p[FootIndex(s)], p[Ankle(s)]))
  {
    hide R.Sound; hide FrameFromXY; hide FrameFromXZ; hide Spans; hide V.Sub; hide KneeFrame;
    FramesDefined(lib, knee.x, V.Sub(p[FootIndex(s)], p[Ankle(s)]));
  }

  lemma ShoulderDefined(lib: R.Library, p: Points, s: Side, chest: Mat)
    requires R.Sound(lib) && Complete(p) && ChestFrame(lib, p) == Ok(chest)
    ensures ShoulderFrame(lib, p, s).Ok? <==> Spans(lib, ToTheLeft(s, p[Shoulder(s)], p[Elbow(s)]), chest.y)
  {
    hide R.Sound; hide FrameFromXY; hide FrameFromXZ; hide Spans; hide V.Sub; hide ChestFrame; hide Outward;
    hide ToTheLeft;
    OutwardIsLeft(s, p[Shoulder(s)], p[Elbow(s)]);
    FramesDefined(lib, ToTheLeft(s, p[Shoulder(s)], p[Elbow(s)]), chest.y);
  }

  lemma ElbowDefined(lib: R.Library, p: Points, s: Side, shoulder: Mat)
    requires R.Sound(lib) && Complete(p) && ShoulderFrame(lib, p, s) == Ok(shoulder)
    ensures ElbowFrame(lib, p, s).Ok? <==> Spans(lib, ToTheLeft(s, p[Elbow(s)], p[Wrist(s)]), shoulder.y)
  {
    hide R.Sound; hide FrameFromXY; hide FrameFromXZ; hide Spans; hide V.Sub; hide ShoulderFrame; hide Outward;
    hide ToTheLeft;
    OutwardIsLeft(s, p[Elbow(s)], p[Wrist(s)]);
    FramesDefined(lib, ToTheLeft(s, p[Elbow(s)], p[Wrist(s)]), shoulder.y);
  }

  /** Without the frame above there is none below. */
  lemma NoneBelow(lib: R.Library, p: Points, s: Side)
    requires Complete(p)
    ensures PelvisFrame(lib, p).Err? ==> HipFrame(lib, p, s).Err?
    ensures HipFrame(lib, p, s).Err? ==> KneeFrame(lib, p, s).Err?
    ensures KneeFrame(lib, p, s).Err? ==> AnkleFrame(lib, p, s).Err?
    ensures ChestFrame(lib, p).Err? ==> ShoulderFrame(lib, p, s).Err?
    ensures ShoulderFrame(lib, p, s).Err? ==> ElbowFrame(lib, p, s).Err?
  {
    hide FrameFromXY; hide FrameFromXZ; hide V.Sub; hide Up; hide Outward;
  }

  /** Stretching the second hint changes nothing. */
  lemma FitsStretched(lib: R.Library, m: Mat, x: V.Vec, k: real, y: V.Vec)
    requires k > 0.0 && FitsXY(lib, m, x, V.Times(k, y))
    ensures FitsXY(lib, m, x, y)
  {
    hide V.Dot; hide V.Times; hide IsRotation; hide Along;
    V.DotSymmetric(m.y, V.Times(k, y)); V.DotSymmetric(m.z, V.Times(k, y));
    V.DotSymmetric(m.y, y); V.DotSymmetric(m.z, y);
    V.DotTimes(k, y, m.y); V.DotTimes(k, y, m.z);
    R.PositiveFactor(k, V.Dot(y, m.y));
    R.ZeroProduct(k, V.Dot(y, m.z));
  }

  /** Twice the way from the middle of the hips to the middle of the shoulders. */
  function Spine(p: Points): V.Vec
    requires Complete(p)
  {
    V.Sub(V.Plus(p[Shoulder(Left)], p[Shoulder(Right)]), V.Plus(p[Hip(Left)], p[Hip(Right)]))
  }

  /** Twice the way from the middle of the mouth to the nose. */
  function Face(p: Points): V.Vec
    requires Complete(p)
  {
    V.Sub(V.Plus(p[Nose], p[Nose]), V.Plus(p[Mouth(Left)], p[Mouth(Right)]))
  }

  lemma Halves(p: Points)
    requires Complete(p)
    ensures Up(p) == V.Times(0.5, Spine(p))
    ensures V.Sub(p[Nose], Midpoint(p[Mouth(Left)], p[Mouth(Right)])) == V.Times(0.5, Face(p))
  {}

  /** Trunk and head: left-right lines and the way up the spine or the face. */
  lemma TrunkFrames(lib: R.Library, p: Points, pelvis: Mat, chest: Mat, head: Mat)
    requires R.Sound(lib) && Complete(p)
    requires PelvisFrame(lib, p) == Ok(pelvis) && ChestFrame(lib, p) == Ok(chest) && HeadFrame(lib, p) == Ok(head)
    ensures FitsXY(lib, pelvis, V.Sub(p[Hip(Left)], p[Hip(Right)]), Spine(p))
    ensures FitsXY(lib, chest, V.Sub(p[Shoulder(Left)], p[Shoulder(Right)]), Spine(p))
    ensures FitsXY(lib, head, V.Sub(p[Ear(Left)], p[Ear(Right)]), Face(p))
  {
    hide R.Sound; hide FrameFromXY; hide FitsXY; hide V.Sub; hide V.Times; hide Up; hide Midpoint; hide Spine;
    hide Face;
    Halves(p);
    XYFits(lib, V.Sub(p[Hip(Left)], p[Hip(Right)]), Up(p));
    XYFits(lib, V.Sub(p[Shoulder(Left)], p[Shoulder(Right)]), Up(p));
    XYFits(lib, V.Sub(p[Ear(Left)], p[Ear(Right)]), V.Sub(p[Nose], Midpoint(p[Mouth(Left)], p[Mouth(Right)])));
    FitsStretched(lib, pelvis, V.Sub(p[Hip(Left)], p[Hip(Right)]), 0.5, Spine(p));
    FitsStretched(lib, chest, V.Sub(p[Shoulder(Left)], p[Shoulder(Right)]), 0.5, Spine(p));
    FitsStretched(lib, head, V.Sub(p[Ear(Left)], p[Ear(Right)]), 0.5, Face(p));
  }

  /** The frames of a leg. */
  datatype Leg = Leg(hip: Mat, knee: Mat, ankle: Mat)

  predicate IsLeg(lib: R.Library, p: Points, s: Side, leg: Leg)
    requires Complete(p)
  {
    HipFrame(lib, p, s) == Ok(leg.hip) && KneeFrame(lib, p, s) == Ok(leg.knee) && AnkleFrame(lib, p, s) == Ok(leg.ankle)
  }

  /** Legs: each frame turns about the first axis of the one above, thigh and shin upwards along
      the second, the foot forwards along the third. */
  lemma LegFrames(lib: R.Library, p: Points, s: Side, pelvis: Mat, leg: Leg)
    requires R.Sound(lib) && Complete(p) && PelvisFrame(lib, p) == Ok(pelvis) && IsLeg(lib, p, s, leg)
    ensures FitsXY(lib, leg.hip, pelvis.x, V.Sub(p[Hip(s)], p[Knee(s)]))
    ensures FitsXY(lib, leg.knee, leg.hip.x, V.Sub(p[Knee(s)], p[Ankle(s)]))
    ensures FitsXZ(lib, leg.ankle, leg.knee.x, V.Sub(p[FootIndex(s)], p[Ankle(s)]))
  {
    hide R.Sound; hide FrameFromXY; hide FrameFromXZ; hide FitsXY; hide FitsXZ; hide V.Sub;
    XYFits(lib, pelvis.x, V.Sub(p[Hip(s)], p[Knee(s)]));
    XYFits(lib, leg.hip.x, V.Sub(p[Knee(s)], p[Ankle(s)]));
    XZFits(lib, leg.knee.x, V.Sub(p[FootIndex(s)], p[Ankle(s)]));
  }

  datatype Arm = Arm(shoulder: Mat, elbow: Mat)

  predicate IsArm(lib: R.Library, p: Points, s: Side, arm: Arm)
    requires Complete(p)
  {
    ShoulderFrame(lib, p, s) == Ok(arm.shoulder) && ElbowFrame(lib, p, s) == Ok(arm.elbow)
  }

  /** The way along an arm bone to the left of the body: outwards on the left, inwards on the
      right. */
  function ToTheLeft(s: Side, inner: V.Vec, outer: V.Vec): V.Vec {
    match s
    case Left => V.Sub(outer, inner)
    case Right => V.Sub(inner, outer)
  }

  lemma OutwardIsLeft(s: Side, inner: V.Vec, outer: V.Vec)
    ensures Outward(s, V.Sub(outer, inner)) == ToTheLeft(s, inner, outer)
  {}

  /** Arms: first axes along the bones, the twist from the second axis of the frame above. */
  lemma ArmFrames(lib: R.Library, p: Points, s: Side, chest: Mat, arm: Arm)
    requires R.Sound(lib) && Complete(p) && ChestFrame(lib, p) == Ok(chest) && IsArm(lib, p, s, arm)
    ensures FitsXY(lib, arm.shoulder, ToTheLeft(s, p[Shoulder(s)], p[Elbow(s)]), chest.y)
    ensures FitsXY(lib, arm.elbow, ToTheLeft(s, p[Elbow(s)], p[Wrist(s)]), arm.shoulder.y)
  {
    hide R.Sound; hide FrameFromXY; hide FitsXY; hide V.Sub; hide Outward;
    hide ToTheLeft;
    OutwardIsLeft(s, p[Shoulder(s)], p[Elbow(s)]);
    OutwardIsLeft(s, p[Elbow(s)], p[Wrist(s)]);
    XYFits(lib, Outward(s, V.Sub(p[Elbow(s)], p[Shoulder(s)])), chest.y);
    XYFits(lib, Outward(s, V.Sub(p[Wrist(s)], p[Elbow(s)])), arm.shoulder.y);
  }

  /** All frames are stable exactly when those at the ends of the five chains are. */
  lemma StableExactly(lib: R.Library, p: Points)
    requires Complete(p)
    ensures Stable(lib, p) <==>
      && HeadFrame(lib, p).Ok?
      && AnkleFrame(lib, p, Left).Ok? && AnkleFrame(lib, p, Right).Ok?
      && ElbowFrame(lib, p, Left).Ok? && ElbowFrame(lib, p, Right).Ok?
  {
    hide FrameFromXY; hide FrameFromXZ; hide V.Sub; hide Up; hide Midpoint; hide Outward;
    if Stable(lib, p) {
      assert FrameOf(lib, p, 15).Ok? && FrameOf(lib, p, 7).Ok? && FrameOf(lib, p, 8).Ok?;
      assert FrameOf(lib, p, 18).Ok? && FrameOf(lib, p, 19).Ok?;
    }
  }

  /* ---- the rows of the payload ---- */

  /** The row carries the rotation from one frame to the next. */
  predicate Carries(lib: R.Library, row: seq<real>, parent: Mat, child: Mat) {
    |row| == 3 && MatrixToAxisAngle(lib, TransposeMul(parent, child)) == Ok(V.FromRow(row))
  }

  lemma RowOf(lib: R.Library, points: Points, p: F.PosePayload<real>, j: nat)
    requires Complete(points) && Stable(lib, points) && Emitted(lib, points, p) && 0 < j < NUM_JOINTS
    ensures Carries(lib, p.bodyPose[j - 1], FrameOf(lib, points, Parent(j)).value, FrameOf(lib, points, j).value)
  {
    hide FrameOf; hide MatrixToAxisAngle; hide TransposeMul;
    RowRoundTrip(MatrixToAxisAngle(lib, Relative(lib, points, j)).value);
  }

  ghost predicate Posed(lib: R.Library, points: Points, p: F.PosePayload<real>) {
    Complete(points) && Stable(lib, points) && Emitted(lib, points, p)
  }

  /** The rows of a leg: hip, knee, ankle and foot, left and right in turn. */
  lemma LegRows(lib: R.Library, points: Points, p: F.PosePayload<real>, s: Side, pelvis: Mat, leg: Leg)
    requires Posed(lib, points, p) && PelvisFrame(lib, points) == Ok(pelvis) && IsLeg(lib, points, s, leg)
    ensures |p.bodyPose| == 21
    ensures s == Left ==>
      && Carries(lib, p.bodyPose[0], pelvis, leg.hip) && Carries(lib, p.bodyPose[3], leg.hip, leg.knee)
      && Carries(lib, p.bodyPose[6], leg.knee, leg.ankle) && Carries(lib, p.bodyPose[9], leg.ankle, leg.ankle)
    ensures s == Right ==>
      && Carries(lib, p.bodyPose[1], pelvis, leg.hip) && Carries(lib, p.bodyPose[4], leg.hip, leg.knee)
      && Carries(lib, p.bodyPose[7], leg.knee, leg.ankle) && Carries(lib, p.bodyPose[10], leg.ankle, leg.ankle)
  {
    hide Emitted; hide Stable; hide Carries; hide PelvisFrame; hide HipFrame; hide KneeFrame; hide AnkleFrame;
    Shaped(lib, points, p);
    if s == Left {
      RowOf(lib, points, p, 1); RowOf(lib, points, p, 4); RowOf(lib, points, p, 7); RowOf(lib, points, p, 10);
    } else {
      RowOf(lib, points, p, 2); RowOf(lib, points, p, 5); RowOf(lib, points, p, 8); RowOf(lib, points, p, 11);
    }
  }

  lemma Shaped(lib: R.Library, points: Points, p: F.PosePayload<real>)
    requires Posed(lib, points, p)
    ensures F.WellShaped(p) && |p.bodyPose| == 21
  {}

  /** The rows of the spine: its three joints, the neck and the head. */
  lemma SpineRows(lib: R.Library, points: Points, p: F.PosePayload<real>, pelvis: Mat, chest: Mat, head: Mat)
    requires Posed(lib, points, p) && PelvisFrame(lib, points) == Ok(pelvis) && ChestFrame(lib, points) == Ok(chest)
    requires HeadFrame(lib, points) == Ok(head)
    ensures |p.bodyPose| == 21 && |p.globalOrient| == 3
    ensures MatrixToAxisAngle(lib, pelvis) == Ok(V.FromRow(p.globalOrient))
    ensures Carries(lib, p.bodyPose[2], pelvis, pelvis) && Carries(lib, p.bodyPose[5], pelvis, pelvis)
    ensures Carries(lib, p.bodyPose[8], pelvis, chest) && Carries(lib, p.bodyPose[11], chest, chest)
    ensures Carries(lib, p.bodyPose[14], chest, head)
  {
    hide Carries; hide PelvisFrame; hide ChestFrame; hide HeadFrame; hide MatrixToAxisAngle;
    hide Stable;
    Shaped(lib, points, p);
    RowRoundTrip(MatrixToAxisAngle(lib, pelvis).value);
    assert Relative(lib, points, 0) == pelvis;
    RowOf(lib, points, p, 3); RowOf(lib, points, p, 6); RowOf(lib, points, p, 9); RowOf(lib, points, p, 12);
    RowOf(lib, points, p, 15);
  }

  /** The rows of an arm: collar, shoulder, elbow and wrist, left and right in turn. */
  lemma ArmRows(lib: R.Library, points: Points, p: F.PosePayload<real>, s: Side, chest: Mat, arm: Arm)
    requires Posed(lib, points, p) && ChestFrame(lib, points) == Ok(chest) && IsArm(lib, points, s, arm)
    ensures |p.bodyPose| == 21
    ensures s == Left ==>
      && Carries(lib, p.bodyPose[12], chest, chest) && Carries(lib, p.bodyPose[15], chest, arm.shoulder)
      && Carries(lib, p.bodyPose[17], arm.shoulder, arm.elbow) && Carries(lib, p.bodyPose[19], arm.elbow, arm.elbow)
    ensures s == Right ==>
      && Carries(lib, p.bodyPose[13], chest, chest) && Carries(lib, p.bodyPose[16], chest, arm.shoulder)
      && Carries(lib, p.bodyPose[18], arm.shoulder, arm.elbow) && Carries(lib, p.bodyPose[20], arm.elbow, arm.elbow)
  {
    hide Emitted; hide Stable; hide Carries; hide ChestFrame; hide ShoulderFrame; hide ElbowFrame;
    Shaped(lib, points, p);
    if s == Left {
      RowOf(lib, points, p, 13); RowOf(lib, points, p, 16); RowOf(lib, points, p, 18); RowOf(lib, points, p, 20);
    } else {
      RowOf(lib, points, p, 14); RowOf(lib, points, p, 17); RowOf(lib, points, p, 19); RowOf(lib, points, p, 21);
    }
  }

  /** Nothing else moves: hands, jaw, position, shape and expression are zero. */
  lemma NothingElse(lib: R.Library, points: Points, p: F.PosePayload<real>)
    requires Posed(lib, points, p)
    ensures |p.leftHandPose| == |p.rightHandPose| == 15 && |p.betas| == |p.expression| == 10
    ensures forall i | 0 <= i < 15 :: p.leftHandPose[i] == [0.0, 0.0, 0.0] && p.rightHandPose[i] == [0.0, 0.0, 0.0]
    ensures p.jawPose == [0.0, 0.0, 0.0] && p.transl == [0.0, 0.0, 0.0]
    ensures forall i | 0 <= i < 10 :: p.betas[i] == 0.0 && p.expression[i] == 0.0
  {
    hide MatrixToAxisAngle; hide Relative; hide FrameOf;
  }

  /* ---- what a receiver composes ---- */

  /** The rotation a receiver reads off a row. */
  function Turned(lib: R.Library, row: seq<real>): Q.Quat
    requires |row| == 3
  {
    A.ToQuaternion(lib, V.FromRow(row))
  }

  /** The orientation of a joint below one oriented `q`. */
  function Below(lib: R.Library, q: Q.Quat, row: seq<real>): Q.Quat
    requires |row| == 3
  {
    Q.Mul(q, Turned(lib, row))
  }

  /** Composing one more row turns a recovered frame into the next. */
  lemma OneMore(lib: R.Library, q: Q.Quat, row: seq<real>, parent: Mat, child: Mat)
    requires R.Sound(lib) && Q.Unit(q) && IsRotation(parent) && IsRotation(child)
    requires Carries(lib, row, parent, child)
    requires RotationOf(q) == parent && Resolved(lib, TransposeMul(parent, child))
    ensures Q.Unit(Below(lib, q, row)) && RotationOf(Below(lib, q, row)) == child
  {
    hide R.Sound; hide IsRotation; hide Q.Unit; hide Q.Mul; hide TransposeMul; hide RotationOf; hide Resolved;
    hide A.ToQuaternion; hide MatrixToAxisAngle; hide MatMul;
    var m := TransposeMul(parent, child);
    TransposeMulRotation(parent, child);
    ReceivedExact(lib, m);
    Q.UnitMul(q, Received(lib, m));
    QA.RotationOfProduct(q, Received(lib, m));
    MulTransposeMul(parent, child);
  }

  /** And a row between equal frames leaves the orientation as it is. */
  lemma StillRow(lib: R.Library, q: Q.Quat, row: seq<real>, frame: Mat)
    requires R.Sound(lib) && IsRotation(frame) && Carries(lib, row, frame, frame)
    ensures Below(lib, q, row) == q
  {
    hide R.Sound; hide IsRotation; hide Q.Mul; hide TransposeMul; hide MatrixToAxisAngle;
    TransposeMulSelf(frame);
    NoRotationIsStill(lib);
    NoTurn(lib);
    Q.MulIdentity(q);
  }

  lemma NoTurn(lib: R.Library)
    requires R.Sound(lib)
    ensures A.ToQuaternion(lib, V.ZERO) == Q.IDENTITY
  {
    R.SqrtUnique(lib, 0.0, 0.0);
    V.DotSelf(V.ZERO);
  }

  /** The pelvis is recovered from the global orientation. */
  lemma Root(lib: R.Library, row: seq<real>, pelvis: Mat)
    requires R.Sound(lib) && |row| == 3 && IsRotation(pelvis) && Resolved(lib, pelvis)
    requires MatrixToAxisAngle(lib, pelvis) == Ok(V.FromRow(row))
    ensures Q.Unit(Turned(lib, row)) && RotationOf(Turned(lib, row)) == pelvis
  {
    hide R.Sound; hide IsRotation; hide Q.Unit; hide RotationOf; hide Resolved; hide A.ToQuaternion;
    hide MatrixToAxisAngle;
    ReceivedExact(lib, pelvis);
  }

  /** The four rows of a leg, composed below the global orientation, give its frames: the row
      numbers are those of the hip, the knee, the ankle and the foot of that side. */
  lemma LegRecovered(lib: R.Library, points: Points, p: F.PosePayload<real>, s: Side, pelvis: Mat, leg: Leg)
    requires R.Sound(lib) && Posed(lib, points, p)
    requires PelvisFrame(lib, points) == Ok(pelvis) && IsLeg(lib, points, s, leg)
    requires Resolved(lib, pelvis) && Resolved(lib, TransposeMul(pelvis, leg.hip))
    requires Resolved(lib, TransposeMul(leg.hip, leg.knee)) && Resolved(lib, TransposeMul(leg.knee, leg.ankle))
    ensures F.WellShaped(p)
    ensures
      var rows := if s == Left then (0, 3, 6, 9) else (1, 4, 7, 10);
      var root := Turned(lib, p.globalOrient);
      var hip := Below(lib, root, p.bodyPose[rows.0]);
      var knee := Below(lib, hip, p.bodyPose[rows.1]);
      var ankle := Below(lib, knee, p.bodyPose[rows.2]);
      var foot := Below(lib, ankle, p.bodyPose[rows.3]);
      && RotationOf(root) == pelvis && RotationOf(hip) == leg.hip && RotationOf(knee) == leg.knee
      && RotationOf(ankle) == leg.ankle && RotationOf(foot) == leg.ankle
  {
    hide R.Sound; hide IsRotation; hide Resolved; hide RotationOf; hide Below; hide Turned; hide Carries; hide Stable;
    hide Emitted; hide TransposeMul; hide MatrixToAxisAngle; hide PelvisFrame; hide HipFrame; hide KneeFrame;
    hide AnkleFrame; hide Q.Unit;
    var rows := if s == Left then (0, 3, 6, 9) else (1, 4, 7, 10);
    Shaped(lib, points, p);
    LegRows(lib, points, p, s, pelvis, leg);
    RootRow(lib, points, p, pelvis);
    LegRotations(lib, points, s, pelvis, leg);
    Root(lib, p.globalOrient, pelvis);
    var root := Turned(lib, p.globalOrient);
    OneMore(lib, root, p.bodyPose[rows.0], pelvis, leg.hip);
    var hip := Below(lib, root, p.bodyPose[rows.0]);
    OneMore(lib, hip, p.bodyPose[rows.1], leg.hip, leg.knee);
    var knee := Below(lib, hip, p.bodyPose[rows.1]);
    OneMore(lib, knee, p.bodyPose[rows.2], leg.knee, leg.ankle);
    StillRow(lib, Below(lib, knee, p.bodyPose[rows.2]), p.bodyPose[rows.3], leg.ankle);
  }

  /** The rows of the spine, the neck and the head, in this order. */
  lemma SpineRecovered(lib: R.Library, points: Points, p: F.PosePayload<real>, pelvis: Mat, chest: Mat, head: Mat)
    requires R.Sound(lib) && Posed(lib, points, p)
    requires PelvisFrame(lib, points) == Ok(pelvis) && ChestFrame(lib, points) == Ok(chest)
    requires HeadFrame(lib, points) == Ok(head)
    requires Resolved(lib, pelvis) && Resolved(lib, TransposeMul(pelvis, chest))
    requires Resolved(lib, TransposeMul(chest, head))
    ensures F.WellShaped(p)
    ensures
      var root := Turned(lib, p.globalOrient);
      var lower := Below(lib, root, p.bodyPose[2]);
      var middle := Below(lib, lower, p.bodyPose[5]);
      var upper := Below(lib, middle, p.bodyPose[8]);
      var neck := Below(lib, upper, p.bodyPose[11]);
      && RotationOf(lower) == pelvis && RotationOf(middle) == pelvis && RotationOf(upper) == chest
      && RotationOf(neck) == chest && RotationOf(Below(lib, neck, p.bodyPose[14])) == head
      && Q.Unit(upper)
  {
    hide R.Sound; hide IsRotation; hide Resolved; hide RotationOf; hide Below; hide Turned; hide Carries; hide Stable;
    hide Emitted; hide TransposeMul; hide MatrixToAxisAngle; hide PelvisFrame; hide ChestFrame; hide HeadFrame;
    hide Q.Unit;
    Shaped(lib, points, p);
    SpineRows(lib, points, p, pelvis, chest, head);
    SpineRotations(lib, points, pelvis, chest, head);
    Root(lib, p.globalOrient, pelvis);
    var root := Turned(lib, p.globalOrient);
    StillRow(lib, root, p.bodyPose[2], pelvis);
    StillRow(lib, root, p.bodyPose[5], pelvis);
    OneMore(lib, root, p.bodyPose[8], pelvis, chest);
    var upper := Below(lib, root, p.bodyPose[8]);
    StillRow(lib, upper, p.bodyPose[11], chest);
    OneMore(lib, upper, p.bodyPose[14], chest, head);
  }

  /** The rows of the collar, the shoulder, the elbow and the wrist of a side, below the upper
      spine. */
  lemma ArmRecovered(lib: R.Library, points: Points, p: F.PosePayload<real>, s: Side, chest: Mat, arm: Arm,
                     spine: Q.Quat)
    requires R.Sound(lib) && Posed(lib, points, p)
    requires ChestFrame(lib, points) == Ok(chest) && IsArm(lib, points, s, arm)
    requires Q.Unit(spine) && RotationOf(spine) == chest
    requires Resolved(lib, TransposeMul(chest, arm.shoulder)) && Resolved(lib, TransposeMul(arm.shoulder, arm.elbow))
    ensures F.WellShaped(p)
    ensures
      var rows := if s == Left then (12, 15, 17, 19) else (13, 16, 18, 20);
      var collar := Below(lib, spine, p.bodyPose[rows.0]);
      var shoulder := Below(lib, collar, p.bodyPose[rows.1]);
      var elbow := Below(lib, shoulder, p.bodyPose[rows.2]);
      var wrist := Below(lib, elbow, p.bodyPose[rows.3]);
      && RotationOf(collar) == chest && RotationOf(shoulder) == arm.shoulder && RotationOf(elbow) == arm.elbow
      && RotationOf(wrist) == arm.elbow
  {
    hide R.Sound; hide IsRotation; hide Resolved; hide RotationOf; hide Below; hide Turned; hide Carries; hide Stable;
    hide Emitted; hide TransposeMul; hide MatrixToAxisAngle; hide ChestFrame; hide ShoulderFrame; hide ElbowFrame;
    hide Q.Unit;
    var rows := if s == Left then (12, 15, 17, 19) else (13, 16, 18, 20);
    Shaped(lib, points, p);
    ArmRows(lib, points, p, s, chest, arm);
    ArmRotations(lib, points, s, chest, arm);
    StillRow(lib, spine, p.bodyPose[rows.0], chest);
    OneMore(lib, spine, p.bodyPose[rows.1], chest, arm.shoulder);
    var shoulder := Below(lib, spine, p.bodyPose[rows.1]);
    OneMore(lib, shoulder, p.bodyPose[rows.2], arm.shoulder, arm.elbow);
    StillRow(lib, Below(lib, shoulder, p.bodyPose[rows.2]), p.bodyPose[rows.3], arm.elbow);
  }

  lemma RootRow(lib: R.Library, points: Points, p: F.PosePayload<real>, pelvis: Mat)
    requires Posed(lib, points, p) && PelvisFrame(lib, points) == Ok(pelvis)
    ensures |p.globalOrient| == 3 && MatrixToAxisAngle(lib, pelvis) == Ok(V.FromRow(p.globalOrient))
  {
    hide PelvisFrame; hide MatrixToAxisAngle; hide Stable;
    assert Relative(lib, points, 0) == pelvis;
    RowRoundTrip(MatrixToAxisAngle(lib, pelvis).value);
  }

  lemma LegRotations(lib: R.Library, p: Points, s: Side, pelvis: Mat, leg: Leg)
    requires R.Sound(lib) && Complete(p) && PelvisFrame(lib, p) == Ok(pelvis) && IsLeg(lib, p, s, leg)
    ensures IsRotation(pelvis) && IsRotation(leg.hip) && IsRotation(leg.knee) && IsRotation(leg.ankle)
  {
    hide R.Sound; hide FrameFromXY; hide FrameFromXZ; hide IsRotation; hide V.Sub; hide Up;
    XYRotation(lib); XZRotation(lib);
  }

  lemma SpineRotations(lib: R.Library, p: Points, pelvis: Mat, chest: Mat, head: Mat)
    requires R.Sound(lib) && Complete(p)
    requires PelvisFrame(lib, p) == Ok(pelvis) && ChestFrame(lib, p) == Ok(chest) && HeadFrame(lib, p) == Ok(head)
    ensures IsRotation(pelvis) && IsRotation(chest) && IsRotation(head)
  {
    hide R.Sound; hide FrameFromXY; hide IsRotation; hide V.Sub; hide Up; hide Midpoint;
    XYRotation(lib);
  }

  lemma ArmRotations(lib: R.Library, p: Points, s: Side, chest: Mat, arm: Arm)
    requires R.Sound(lib) && Complete(p) && ChestFrame(lib, p) == Ok(chest) && IsArm(lib, p, s, arm)
    ensures IsRotation(chest) && IsRotation(arm.shoulder) && IsRotation(arm.elbow)
  {
    hide R.Sound; hide FrameFromXY; hide IsRotation; hide V.Sub; hide Up; hide Outward;
    XYRotation(lib);
  }
}
