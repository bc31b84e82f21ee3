/** Turning a decoded pose into bone-level instructions (application.py, orientation.py). */
module Application {
  import opened Prelude
  import R = Reals
  import V = Vectors
  import Q = Quaternions
  import A = AxisAngle
  import S = Smoothing
  import F = Frames
  import opened Skeleton
  import opened Binding

  /** The settings of one stream, fixed from its start. */
  datatype Options = Options(
    filter: LimbFilter,
    supported: Option<set<Name>>,
    orientationFix: bool,
    worldPosition: bool,
    cameraPitch: real,
    smoothing: Option<S.Config>,
    binding: Option<PoseBinding>)

  ghost predicate ValidOptions(o: Options) {
    && (o.smoothing.Some? ==> S.ValidConfig(o.smoothing.value))
    && (o.binding.Some? ==> ValidBinding(o.binding.value))
  }

  /** Pre-multiplication by the half turn plus camera pitch about X; no rotation stays none.
      The product of two unit quaternions is never zero, so reading it back never raises. */
  function FlipGlobalOrient(m: R.Library, v: V.Vec, pitch: real): V.Vec {
    if m.sqrt(V.Dot(v, v)) < Q.ZERO_ANGLE then v
    else
      var flip := A.ToQuaternion(m, V.Vec(m.pi + pitch, 0.0, 0.0));
      var rotated := A.FromQuaternion(m, Q.Mul(flip, A.ToQuaternion(m, v)));
      if rotated.Ok? then rotated.value else V.ZERO
  }

  lemma FlipNeverRaises(m: R.Library, v: V.Vec, pitch: real)
    requires R.Sound(m)
    ensures A.FromQuaternion(m, Q.Mul(A.ToQuaternion(m, V.Vec(m.pi + pitch, 0.0, 0.0)), A.ToQuaternion(m, v))).Ok?
  {
    hide R.Sound; hide Q.Mul; hide Q.Unit; hide A.ToQuaternion; hide A.FromQuaternion;
    var flip := V.Vec(m.pi + pitch, 0.0, 0.0);
    A.ToQuaternionUnit(m, flip);
    A.ToQuaternionUnit(m, v);
    Q.UnitMul(A.ToQuaternion(m, flip), A.ToQuaternion(m, v));
    A.RoundTrip(m, Q.Mul(A.ToQuaternion(m, flip), A.ToQuaternion(m, v)));
  }

  /** The flip is the rotation about the camera axis by a half turn plus the pitch, after the
      given one, taken the short way round; no rotation is left alone, and a flipped rotation
      inside the cut-off becomes none. */
  lemma FlipExactly(m: R.Library, v: V.Vec, pitch: real)
    requires R.Sound(m)
    ensures m.sqrt(V.Dot(v, v)) < Q.ZERO_ANGLE ==> FlipGlobalOrient(m, v, pitch) == v
    ensures m.sqrt(V.Dot(v, v)) >= Q.ZERO_ANGLE ==>
      var flipped := Q.Mul(A.ToQuaternion(m, V.Vec(m.pi + pitch, 0.0, 0.0)), A.ToQuaternion(m, v));
      A.ToQuaternion(m, FlipGlobalOrient(m, v, pitch)) ==
        if A.HalfSine(m, A.ShortWay(flipped).w) >= Q.ZERO_ANGLE then A.ShortWay(flipped) else Q.IDENTITY
  {
    hide R.Sound; hide Q.Mul; hide Q.Unit; hide A.ToQuaternion; hide A.FromQuaternion; hide A.HalfSine;
    hide A.ShortWay; hide V.Dot;
    var flip := V.Vec(m.pi + pitch, 0.0, 0.0);
    A.ToQuaternionUnit(m, flip);
    A.ToQuaternionUnit(m, v);
    Q.UnitMul(A.ToQuaternion(m, flip), A.ToQuaternion(m, v));
    A.RoundTrip(m, Q.Mul(A.ToQuaternion(m, flip), A.ToQuaternion(m, v)));
  }

  /** Whatever the pitch, the flip quaternion turns about the first axis by a half turn plus the
      pitch, or is none when that is nearly no turn at all. */
  lemma FlipAxis(m: R.Library, pitch: real)
    requires R.Sound(m)
    ensures var angle := m.pi + pitch;
      A.ToQuaternion(m, V.Vec(angle, 0.0, 0.0)) ==
        if -Q.ZERO_ANGLE < angle < Q.ZERO_ANGLE then Q.IDENTITY
        else Q.Quat(m.cos(angle / 2.0), m.sin(angle / 2.0), 0.0, 0.0)
  {
    var angle := m.pi + pitch;
    var size, sign := if angle < 0.0 then -angle else angle, if angle < 0.0 then -1.0 else 1.0;
    R.SqrtUnique(m, angle * angle, size);
    R.Opposite(m, angle / 2.0);
    hide R.Sound;
    LengthOnAxis(angle);
    AlongAxis(size, sign);
    AlongAxis(m.sin(size / 2.0), sign);
    if size >= Q.ZERO_ANGLE { V.OverTimes(size, V.Vec(sign, 0.0, 0.0)); }
    hide V.Over; hide V.Times; hide V.Dot;
  }

  lemma LengthOnAxis(x: real)
    ensures V.Dot(V.Vec(x, 0.0, 0.0), V.Vec(x, 0.0, 0.0)) == x * x
  {}

  lemma AlongAxis(k: real, x: real)
    requires x == 1.0 || x == -1.0
    ensures V.Times(k, V.Vec(x, 0.0, 0.0)) == V.Vec(if x == 1.0 then k else -k, 0.0, 0.0)
  {}

  function IntersectAllowedBones(filter: Option<set<Name>>, supported: Option<set<Name>>): Option<set<Name>> {
    if filter.None? then supported
    else if supported.None? then filter
    else Some(filter.value * supported.value)
  }

  function AllowedJoints(o: Options): Option<set<Name>> { IntersectAllowedBones(Allowed(o.filter), o.supported) }

  predicate Lets(allowed: Option<set<Name>>, n: Name) { allowed.None? || n in allowed.value }

  /** The pelvis is driven only in unfiltered mode. */
  predicate PlansPelvis(o: Options) { Allowed(o.filter).None? && Lets(o.supported, PELVIS) }

  datatype JointInput = JointInput(joint: Name, axisAngle: V.Vec)

  /** The inputs of one joint block: row `i` belongs to the joint at position `first + i`. */
  function Block(allowed: Option<set<Name>>, first: nat, rows: seq<seq<real>>): seq<JointInput>
    requires F.Triples(rows)
  {
    if rows == [] then []
    else
      var i := |rows| - 1;
      Block(allowed, first, rows[..i])
      + if Lets(allowed, Smplx(first + i)) then [JointInput(Smplx(first + i), V.FromRow(rows[i]))] else []
  }

  function PelvisInput(m: R.Library, o: Options, p: F.PosePayload<real>): seq<JointInput>
    requires F.WellShaped(p)
  {
    if !PlansPelvis(o) then []
    else
      var orient := V.FromRow(p.globalOrient);
      [JointInput(PELVIS, if o.orientationFix then FlipGlobalOrient(m, orient, o.cameraPitch) else orient)]
  }

  /** All joints a frame drives, in the order they are planned. */
  function Inputs(m: R.Library, o: Options, p: F.PosePayload<real>): seq<JointInput>
    requires F.WellShaped(p)
  {
    var allowed := AllowedJoints(o);
    PelvisInput(m, o, p)
    + Block(allowed, FIRST_BODY, p.bodyPose)
    + Block(allowed, FIRST_LEFT_HAND, p.leftHandPose)
    + Block(allowed, FIRST_RIGHT_HAND, p.rightHandPose)
  }

  type SmootherStates = map<Name, S.BoneState>

  datatype Planned = Planned(rotations: seq<BoneRotation>, states: SmootherStates)

  /** One joint: convert, smooth, sign-match against the previous frame. */
  function PlanJoint(m: R.Library, smoothing: Option<S.Config>, before: Planned, input: JointInput,
                     previous: map<Name, Q.Quat>, capturedAt: real): Planned {
    var q := A.ToQuaternion(m, input.axisAngle);
    var states :=
      if smoothing.None? then before.states
      else
        var state := S.Smooth(m, smoothing.value, S.Lookup(before.states, input.joint), q, capturedAt);
        before.states[input.joint := state];
    var smoothed := if smoothing.None? then q else states[input.joint].filtered;
    var quaternion :=
      if input.joint in previous then Q.MakeSignCompatible(smoothed, previous[input.joint]) else smoothed;
    Planned(before.rotations + [BoneRotation(input.joint, quaternion)], states)
  }

  function PlanJoints(m: R.Library, smoothing: Option<S.Config>, states: SmootherStates, inputs: seq<JointInput>,
                      previous: map<Name, Q.Quat>, capturedAt: real): Planned {
    if inputs == [] then Planned([], states)
    else
      var n := |inputs| - 1;
      PlanJoint(m, smoothing, PlanJoints(m, smoothing, states, inputs[..n], previous, capturedAt), inputs[n], previous,
                capturedAt)
  }

  /** Camera space (x right, y down, z forward) to armature space (x, z, -y). */
  function WorldOffset(transl: V.Vec, origin: Option<V.Vec>): V.Vec {
    var camera := if origin.Some? then V.Sub(transl, origin.value) else transl;
    V.Vec(camera.x, camera.z, -camera.y)
  }

  /** The change from camera to world axes is a proper rotation that turns down into down: it
      keeps lengths, angles and handedness, so walking is never stretched or mirrored. */
  lemma WorldOffsetIsRigid(a: V.Vec, b: V.Vec, origin: V.Vec)
    ensures V.Dot(WorldOffset(a, None), WorldOffset(b, None)) == V.Dot(a, b)
    ensures V.Cross(WorldOffset(a, None), WorldOffset(b, None)) == WorldOffset(V.Cross(a, b), None)
    ensures WorldOffset(V.Vec(0.0, 1.0, 0.0), None) == V.Vec(0.0, 0.0, -1.0)
    ensures WorldOffset(a, Some(origin)) == V.Sub(WorldOffset(a, None), WorldOffset(origin, None))
  {}

  /** The history in source coordinates. */
  function SourceHistory(o: Options, previous: map<Name, Q.Quat>): map<Name, Q.Quat> {
    if o.binding.Some? then SourcePrevious(o.binding.value, previous) else previous
  }

  function PlanSource(m: R.Library, o: Options, p: F.PosePayload<real>, previous: map<Name, Q.Quat>,
                      states: SmootherStates, capturedAt: real): Planned
    requires F.WellShaped(p)
  {
    PlanJoints(m, o.smoothing, states, Inputs(m, o, p), SourceHistory(o, previous), capturedAt)
  }

  function SourceApplication(o: Options, p: F.PosePayload<real>, origin: Option<V.Vec>,
                             rotations: seq<BoneRotation>): PoseApplication
    requires F.WellShaped(p)
  {
    PoseApplication(
      AllowedJoints(o),
      rotations,
      if PlansPelvis(o) && o.worldPosition then Some(WorldOffset(V.FromRow(p.transl), origin)) else None,
      map[])
  }

  /** The plan for one frame, with the binding applied when there is one. */
  function Plan(m: R.Library, o: Options, p: F.PosePayload<real>, previous: map<Name, Q.Quat>, origin: Option<V.Vec>,
                states: SmootherStates, capturedAt: real): Result<PoseApplication>
    requires F.WellShaped(p) && (o.binding.Some? ==> ValidBinding(o.binding.value))
  {
    var plan := SourceApplication(o, p, origin, PlanSource(m, o, p, previous, states, capturedAt).rotations);
    if o.binding.None? then Ok(plan) else ApplyBinding(m, plan, o.binding.value)
  }

  /* ---- the planner as the program runs it ---- */

  method BoneRotationFor(m: R.Library, input: JointInput, previous: map<Name, Q.Quat>, smoother: S.PoseSmoother?,
                         capturedAt: real, ghost before: Planned)
    returns (rotation: BoneRotation)
    requires R.Sound(m)
    requires smoother != null ==> smoother.Valid() && smoother.m == m && smoother.states == before.states
    modifies smoother
    ensures var after :=
      PlanJoint(m, if smoother == null then None else Some(smoother.config), before, input, previous, capturedAt);
      && after.rotations == before.rotations + [rotation]
      && (smoother != null ==> smoother.Valid() && smoother.states == after.states)
      && (smoother == null ==> before.states == after.states)
  {
    hide R.Sound; hide A.ToQuaternion; hide S.Smooth; hide Q.MakeSignCompatible; hide Q.Unit;
    var quaternion := A.ToQuaternion(m, input.axisAngle);
    A.ToQuaternionUnit(m, input.axisAngle);
    if smoother != null {
      quaternion := smoother.SmoothBone(input.joint, quaternion, capturedAt);
    }
    if input.joint in previous {
      quaternion := Q.MakeSignCompatible(quaternion, previous[input.joint]);
    }
    rotation := BoneRotation(input.joint, quaternion);
  }

  /** One of the three joint loops of the planner. */
  method PlanBlock(m: R.Library, allowed: Option<set<Name>>, first: nat, rows: seq<seq<real>>,
                   previous: map<Name, Q.Quat>, smoother: S.PoseSmoother?, capturedAt: real,
                   rotations: seq<BoneRotation>, ghost states: SmootherStates, ghost done: seq<JointInput>)
    returns (result: seq<BoneRotation>)
    requires R.Sound(m) && F.Triples(rows)
    requires smoother != null ==> smoother.Valid() && smoother.m == m
    requires Progress(m, smoother, states, done, previous, capturedAt, rotations)
    modifies smoother
    ensures smoother != null ==> smoother.Valid()
    ensures Progress(m, smoother, states, done + Block(allowed, first, rows), previous, capturedAt, result)
  {
    hide R.Sound; hide PlanJoint; hide S.PoseSmoother.Valid;
    result := rotations;
    assert done + Block(allowed, first, rows[..0]) == done;
    for index := 0 to |rows|
      invariant smoother != null ==> smoother.Valid()
      invariant Progress(m, smoother, states, done + Block(allowed, first, rows[..index]), previous, capturedAt, result)
    {
      assert rows[..index + 1][..index] == rows[..index];
      if Lets(allowed, Smplx(first + index)) {
        ghost var inputs := done + Block(allowed, first, rows[..index]);
        var input := JointInput(Smplx(first + index), V.FromRow(rows[index]));
        ghost var before := PlanJoints(m, ConfigOf(smoother), states, inputs, previous, capturedAt);
        var rotation := BoneRotationFor(m, input, previous, smoother, capturedAt, before);
        result := result + [rotation];
        assert (inputs + [input])[..|inputs|] == inputs;
        assert done + Block(allowed, first, rows[..index + 1]) == inputs + [input];
      } else {
        assert Block(allowed, first, rows[..index + 1]) == Block(allowed, first, rows[..index]);
      }
    }
    assert rows[..|rows|] == rows;
  }

  function ConfigOf(smoother: S.PoseSmoother?): Option<S.Config> {
    if smoother == null then None else Some(smoother.config)
  }

  /** The rotations planned so far and the smoother agree with planning `done`. */
  ghost predicate Progress(m: R.Library, smoother: S.PoseSmoother?, states: SmootherStates, done: seq<JointInput>,
                           previous: map<Name, Q.Quat>, capturedAt: real, rotations: seq<BoneRotation>)
    reads smoother
  {
    var planned := PlanJoints(m, ConfigOf(smoother), states, done, previous, capturedAt);
    rotations == planned.rotations && (smoother != null ==> smoother.states == planned.states)
  }

  lemma One(m: R.Library, smoothing: Option<S.Config>, states: SmootherStates, input: JointInput,
            previous: map<Name, Q.Quat>, capturedAt: real)
    ensures PlanJoints(m, smoothing, states, [input], previous, capturedAt)
         == PlanJoint(m, smoothing, Planned([], states), input, previous, capturedAt)
  {
    hide PlanJoint;
    assert [input][..0] == [];
  }

  /** The pelvis and the three joint blocks, in the order of the program. */
  method PlanRotations(m: R.Library, o: Options, p: F.PosePayload<real>, previous: map<Name, Q.Quat>,
                       smoother: S.PoseSmoother?, capturedAt: real, ghost states: SmootherStates)
    returns (rotations: seq<BoneRotation>)
    requires R.Sound(m) && F.WellShaped(p) && (smoother != null ==> smoother.Valid() && smoother.m == m)
    requires smoother != null ==> smoother.states == states
    modifies smoother
    ensures smoother != null ==> smoother.Valid()
    ensures Progress(m, smoother, states, Inputs(m, o, p), previous, capturedAt, rotations)
  {
    hide R.Sound; hide PlanJoint; hide FlipGlobalOrient; hide S.PoseSmoother.Valid; hide Block;
    var allowed := AllowedJoints(o);
    rotations := [];
    ghost var done := PelvisInput(m, o, p);
    if PlansPelvis(o) {
      var orient := V.FromRow(p.globalOrient);
      if o.orientationFix {
        orient := FlipGlobalOrient(m, orient, o.cameraPitch);
      }
      var rotation := BoneRotationFor(m, JointInput(PELVIS, orient), previous, smoother, capturedAt,
                                      Planned([], states));
      rotations := [rotation];
      One(m, ConfigOf(smoother), states, JointInput(PELVIS, orient), previous, capturedAt);
    }
    hide PlanJoints; hide PelvisInput;
    rotations := PlanBlock(m, allowed, FIRST_BODY, p.bodyPose, previous, smoother, capturedAt, rotations, states, done);
    done := done + Block(allowed, FIRST_BODY, p.bodyPose);
    rotations := PlanBlock(m, allowed, FIRST_LEFT_HAND, p.leftHandPose, previous, smoother, capturedAt, rotations,
                           states, done);
    done := done + Block(allowed, FIRST_LEFT_HAND, p.leftHandPose);
    rotations := PlanBlock(m, allowed, FIRST_RIGHT_HAND, p.rightHandPose, previous, smoother, capturedAt, rotations,
                           states, done);
  }

  method PlanPoseApplication(m: R.Library, o: Options, p: F.PosePayload<real>, previousQuaternions: map<Name, Q.Quat>,
                             translationOrigin: Option<V.Vec>, smoother: S.PoseSmoother?, capturedAt: real)
    returns (r: Result<PoseApplication>)
    requires R.Sound(m) && ValidOptions(o) && F.WellShaped(p) && o.smoothing == ConfigOf(smoother)
    requires smoother != null ==> smoother.Valid() && smoother.m == m
    modifies smoother
    ensures smoother != null ==> smoother.Valid()
    ensures var states := if smoother == null then map[] else old(smoother.states);
      && r == Plan(m, o, p, previousQuaternions, translationOrigin, states, capturedAt)
      && (smoother != null ==>
            smoother.states == PlanSource(m, o, p, previousQuaternions, states, capturedAt).states)
  {
    hide R.Sound; hide PlanJoints; hide Inputs; hide S.PoseSmoother.Valid; hide ApplyBinding;
    hide SourcePrevious; hide ValidBinding;
    ghost var states := if smoother == null then map[] else smoother.states;
    var allowed := AllowedJoints(o);
    var previous := previousQuaternions;
    if o.binding.Some? {
      previous := SourcePreviousQuaternions(o.binding.value, previousQuaternions);
    }
    var rotations := PlanRotations(m, o, p, previous, smoother, capturedAt, states);
    var worldOffset: Option<V.Vec> := None;
    if PlansPelvis(o) && o.worldPosition {
      worldOffset := Some(WorldOffset(V.FromRow(p.transl), translationOrigin));
    }
    var plan := PoseApplication(allowed, rotations, worldOffset, map[]);
    if o.binding.None? {
      return Ok(plan);
    }
    r := ApplyBinding(m, plan, o.binding.value);
  }

  /* ---- which bones a plan drives ---- */

  function InputCount(inputs: seq<JointInput>, n: Name): nat {
    if inputs == [] then 0
    else InputCount(inputs[..|inputs| - 1], n) + if inputs[|inputs| - 1].joint == n then 1 else 0
  }

  lemma {:induction false} InputCountAppend(a: seq<JointInput>, b: seq<JointInput>, n: Name)
    ensures InputCount(a + b, n) == InputCount(a, n) + InputCount(b, n)
  {
    if b == [] { assert a + b == a; } else {
      assert (a + b)[..|a + b| - 1] == a + b[..|b| - 1];
      InputCountAppend(a, b[..|b| - 1], n);
    }
  }

  lemma {:induction false} BlockCount(allowed: Option<set<Name>>, first: nat, rows: seq<seq<real>>, n: Name)
    requires F.Triples(rows)
    ensures InputCount(Block(allowed, first, rows), n)
         == if n.Smplx? && first <= n.index < first + |rows| && Lets(allowed, n) then 1 else 0
  {
    hide InputCount; hide Lets;
    var none: seq<JointInput> := [];
    InputCountFew(none, n);
    if rows != [] {
      var i := |rows| - 1;
      BlockCount(allowed, first, rows[..i], n);
      var last := if Lets(allowed, Smplx(first + i)) then [JointInput(Smplx(first + i), V.FromRow(rows[i]))] else none;
      InputCountAppend(Block(allowed, first, rows[..i]), last, n);
      InputCountFew(last, n);
    }
  }

  lemma InputCountFew(inputs: seq<JointInput>, n: Name)
    requires |inputs| <= 1
    ensures InputCount(inputs, n) == if inputs != [] && inputs[0].joint == n then 1 else 0
  {
    if inputs != [] { assert inputs[..0] == []; }
  }

  /** The joints a frame drives: the pelvis in unfiltered mode, and every body and finger
      joint that both the filter and the backend let through. */
  predicate Plans(o: Options, n: Name) {
    || (n == PELVIS && PlansPelvis(o))
    || (n.Smplx? && (1 <= n.index <= 21 || 25 <= n.index < 55) && Lets(AllowedJoints(o), n))
  }

  /** Every frame drives exactly those joints, each once. */
  lemma InputsExact(m: R.Library, o: Options, p: F.PosePayload<real>, n: Name)
    requires F.WellShaped(p)
    ensures InputCount(Inputs(m, o, p), n) == if Plans(o, n) then 1 else 0
  {
    hide Block; hide FlipGlobalOrient; hide Allowed;
    var allowed := AllowedJoints(o);
    var a, b, c, d := PelvisInput(m, o, p), Block(allowed, FIRST_BODY, p.bodyPose),
                      Block(allowed, FIRST_LEFT_HAND, p.leftHandPose),
                      Block(allowed, FIRST_RIGHT_HAND, p.rightHandPose);
    InputCountAppend(a + b + c, d, n);
    InputCountAppend(a + b, c, n);
    InputCountAppend(a, b, n);
    BlockCount(allowed, FIRST_BODY, p.bodyPose, n);
    BlockCount(allowed, FIRST_LEFT_HAND, p.leftHandPose, n);
    BlockCount(allowed, FIRST_RIGHT_HAND, p.rightHandPose, n);
    assert InputCount(a, n) == if n == PELVIS && PlansPelvis(o) then 1 else 0;
  }

  ghost predicate GoodStates(states: SmootherStates) { forall n <- states :: S.GoodState(states[n]) }

  lemma PlanJointKeeps(m: R.Library, smoothing: Option<S.Config>, before: Planned, input: JointInput,
                       previous: map<Name, Q.Quat>, capturedAt: real)
    requires R.Sound(m) && (smoothing.Some? ==> S.ValidConfig(smoothing.value)) && GoodStates(before.states)
    ensures var after := PlanJoint(m, smoothing, before, input, previous, capturedAt);
      && GoodStates(after.states)
      && var last := after.rotations[|before.rotations|];
        && Q.Unit(last.quaternion)
        && (input.joint in previous ==> Q.Dot(last.quaternion, previous[input.joint]) >= 0.0)
  {
    hide R.Sound; hide Q.Unit; hide Q.Dot; hide A.ToQuaternion; hide S.Smooth; hide Q.MakeSignCompatible;
    var q := A.ToQuaternion(m, input.axisAngle);
    A.ToQuaternionUnit(m, input.axisAngle);
    var smoothed := q;
    if smoothing.Some? {
      S.SmoothKeeps(m, smoothing.value, S.Lookup(before.states, input.joint), q, capturedAt);
      smoothed := S.Smooth(m, smoothing.value, S.Lookup(before.states, input.joint), q, capturedAt).filtered;
    }
    if input.joint in previous { Q.SignCompatible(smoothed, previous[input.joint]); }
  }

  /** Planning keeps the smoother good, plans unit quaternions for exactly the given joints,
      and never leaves the hemisphere of a joint's history. */
  lemma {:induction false} PlanJointsKeeps(m: R.Library, smoothing: Option<S.Config>, states: SmootherStates,
                                           inputs: seq<JointInput>, previous: map<Name, Q.Quat>, capturedAt: real)
    requires R.Sound(m) && (smoothing.Some? ==> S.ValidConfig(smoothing.value)) && GoodStates(states)
    ensures var planned := PlanJoints(m, smoothing, states, inputs, previous, capturedAt);
      && GoodStates(planned.states)
      && AllUnit(planned.rotations)
      && (forall n <- ByBone(planned.rotations) :: n in previous ==>
           Q.Dot(ByBone(planned.rotations)[n], previous[n]) >= 0.0)
  {
    hide R.Sound; hide Q.Unit; hide Q.Dot; hide A.ToQuaternion; hide S.Smooth; hide Q.MakeSignCompatible;
    hide S.GoodState;
    if inputs != [] {
      var k := |inputs| - 1;
      PlanJointsKeeps(m, smoothing, states, inputs[..k], previous, capturedAt);
      var before := PlanJoints(m, smoothing, states, inputs[..k], previous, capturedAt);
      PlanJointKeeps(m, smoothing, before, inputs[k], previous, capturedAt);
      var after := PlanJoints(m, smoothing, states, inputs, previous, capturedAt);
      assert after.rotations[..|before.rotations|] == before.rotations;
    }
  }

  lemma {:induction false} PlanJointsCount(m: R.Library, smoothing: Option<S.Config>, states: SmootherStates,
                                           inputs: seq<JointInput>, previous: map<Name, Q.Quat>, capturedAt: real,
                                           n: Name)
    ensures Count(PlanJoints(m, smoothing, states, inputs, previous, capturedAt).rotations, n) == InputCount(inputs, n)
  {
    hide A.ToQuaternion; hide S.Smooth; hide Q.MakeSignCompatible;
    if inputs != [] {
      var k := |inputs| - 1;
      PlanJointsCount(m, smoothing, states, inputs[..k], previous, capturedAt, n);
      var before := PlanJoints(m, smoothing, states, inputs[..k], previous, capturedAt);
      var after := PlanJoints(m, smoothing, states, inputs, previous, capturedAt);
      assert after.rotations[..|after.rotations| - 1] == before.rotations;
    }
  }

  /** The bones a stream writes: the planned joints, or the targets bound to them. */
  ghost predicate Writes(o: Options, n: Name) {
    match o.binding
    case None => Plans(o, n)
    case Some(b) => exists joint :: joint in b.bones && Plans(o, joint) && b.bones[joint].target == n
  }

  /** Planning never raises, and the plan's rotations are those of the source plan, bound
      when there is a binding. */
  lemma PlanSucceeds(m: R.Library, o: Options, p: F.PosePayload<real>, previous: map<Name, Q.Quat>,
                     origin: Option<V.Vec>, states: SmootherStates, capturedAt: real)
    requires R.Sound(m) && ValidOptions(o) && F.WellShaped(p) && GoodStates(states)
    ensures var rotations := PlanSource(m, o, p, previous, states, capturedAt).rotations;
      var r := Plan(m, o, p, previous, origin, states, capturedAt);
      && r.Ok? && AllUnit(r.value.rotations)
      && r.value.rotations == (if o.binding.None? then rotations else BindAll(rotations, o.binding.value))
  {
    hide R.Sound; hide PlanJoints; hide Inputs; hide Q.Unit; hide AllUnit; hide BindAll; hide BindRotations;
    hide SourceHistory; hide GoodStates;
    PlanJointsKeeps(m, o.smoothing, states, Inputs(m, o, p), SourceHistory(o, previous), capturedAt);
    if o.binding.Some? {
      BindUnitPlan(m, PlanSource(m, o, p, previous, states, capturedAt).rotations, o.binding.value);
    }
  }

  lemma SourceCount(m: R.Library, o: Options, p: F.PosePayload<real>, previous: map<Name, Q.Quat>,
                    states: SmootherStates, capturedAt: real, joint: Name)
    requires F.WellShaped(p)
    ensures Count(PlanSource(m, o, p, previous, states, capturedAt).rotations, joint) ==
      if Plans(o, joint) then 1 else 0
  {
    hide PlanJoints; hide Inputs; hide SourceHistory; hide Plans; hide Count;
    PlanJointsCount(m, o.smoothing, states, Inputs(m, o, p), SourceHistory(o, previous), capturedAt, joint);
    InputsExact(m, o, p, joint);
  }

  /** Each bone is planned at most once, and exactly the written bones are. */
  lemma PlanExact(m: R.Library, o: Options, p: F.PosePayload<real>, previous: map<Name, Q.Quat>, origin: Option<V.Vec>,
                  states: SmootherStates, capturedAt: real, n: Name, plan: PoseApplication)
    requires R.Sound(m) && ValidOptions(o) && F.WellShaped(p) && GoodStates(states)
    requires Plan(m, o, p, previous, origin, states, capturedAt) == Ok(plan)
    ensures Count(plan.rotations, n) == if Writes(o, n) then 1 else 0
  {
    hide R.Sound; hide PlanSource; hide GoodStates; hide AllUnit; hide Plan;
    hide Count; hide BindAll; hide Plans; hide Q.Unit;
    PlanSucceeds(m, o, p, previous, origin, states, capturedAt);
    var rotations := PlanSource(m, o, p, previous, states, capturedAt).rotations;
    if o.binding.None? {
      SourceCount(m, o, p, previous, states, capturedAt, n);
    } else {
      var b := o.binding.value;
      if n in Targets(b.bones) {
        var joint :| joint in b.bones && b.bones[joint].target == n;
        SourceCount(m, o, p, previous, states, capturedAt, joint);
        BoundCount(rotations, b, joint);
      } else {
        BoundCount(rotations, b, n);
      }
    }
  }

  /** Every written bone lies in the clear set of the plan; and a bound plan clears, and so
      touches, no bone outside the binding. */
  lemma PlanCleared(m: R.Library, o: Options, p: F.PosePayload<real>, previous: map<Name, Q.Quat>,
                    origin: Option<V.Vec>, states: SmootherStates, capturedAt: real, n: Name, plan: PoseApplication)
    requires F.WellShaped(p) && ValidOptions(o)
    requires Plan(m, o, p, previous, origin, states, capturedAt) == Ok(plan)
    ensures Writes(o, n) ==> Lets(plan.clear, n)
    ensures o.binding.Some? ==> plan.clear.Some? && plan.clear.value <= Targets(o.binding.value.bones)
    ensures o.binding.Some? ==> plan.neutral.Keys == plan.clear.value
    ensures o.binding.Some? ==>
      forall joint | joint in o.binding.value.bones && o.binding.value.bones[joint].target in plan.clear.value ::
      plan.neutral[o.binding.value.bones[joint].target] == o.binding.value.bones[joint].neutral
  {
    hide PlanSource; hide BindRotations; hide Plans; hide AllowedJoints; hide GoodBone;
    if o.binding.None? {
      PlansAllowed(o, n);
    } else if Writes(o, n) {
      var b := o.binding.value;
      var joint :| joint in b.bones && Plans(o, joint) && b.bones[joint].target == n;
      PlansAllowed(o, joint);
      assert joint in ClearedSources(AllowedJoints(o), b);
    }
  }

  lemma PlansAllowed(o: Options, n: Name)
    ensures Plans(o, n) ==> Lets(AllowedJoints(o), n)
  {
    hide Allowed;
  }

  /** Sign continuity in the coordinates that are written: whatever the history is, every
      bone's new quaternion lies in the hemisphere of its previous one, although matching
      happens in source coordinates. */
  lemma PlanContinuous(m: R.Library, o: Options, p: F.PosePayload<real>, previous: map<Name, Q.Quat>,
                       origin: Option<V.Vec>, states: SmootherStates, capturedAt: real, n: Name, plan: PoseApplication)
    requires R.Sound(m) && ValidOptions(o) && F.WellShaped(p) && GoodStates(states)
    requires Plan(m, o, p, previous, origin, states, capturedAt) == Ok(plan)
    requires n in previous && n in ByBone(plan.rotations)
    ensures Q.Dot(ByBone(plan.rotations)[n], previous[n]) >= 0.0
  {
    hide R.Sound; hide PlanJoints; hide Inputs; hide GoodStates; hide AllUnit; hide ByBone;
    hide BindAll; hide BindRotations; hide Bound; hide SourceQuaternion; hide Q.Unit; hide Q.Dot;
    PlanSucceeds(m, o, p, previous, origin, states, capturedAt);
    PlanJointsKeeps(m, o.smoothing, states, Inputs(m, o, p), SourceHistory(o, previous), capturedAt);
    if o.binding.Some? {
      var b, rotations := o.binding.value, PlanSource(m, o, p, previous, states, capturedAt).rotations;
      BoundKeys(rotations, b);
      var joint :| joint in ByBone(rotations) && joint in b.bones && b.bones[joint].target == n;
      BoundByBone(rotations, b, joint);
      BoundAgainstTarget(b.bones[joint], ByBone(rotations)[joint], previous[n]);
    }
  }
}
