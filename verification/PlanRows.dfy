/** Which number of a payload ends where: the row that drives each joint, the sample each smoothed
    bone takes, the world offset and the bones that are cleared (application.py, apply_timer.py). */
module PlanRows {
  import opened Prelude
  import R = Reals
  import V = Vectors
  import Q = Quaternions
  import A = AxisAngle
  import S = Smoothing
  import F = Frames
  import opened Skeleton
  import opened Binding
  import opened Application
  import T = ApplyTimer

  /** The vector that drives a joint: the global orientation for the pelvis, flipped on request,
      and for the joint at position `i` row `i - 1` of the body, row `i - 25` of the left hand or
      row `i - 40` of the right hand. */
  function Driver(m: R.Library, o: Options, p: F.PosePayload<real>, i: nat): V.Vec
    requires F.WellShaped(p) && (i <= 21 || 25 <= i < 55)
  {
    if i == 0 then
      var orient := V.Vec(p.globalOrient[0], p.globalOrient[1], p.globalOrient[2]);
      if o.orientationFix then FlipGlobalOrient(m, orient, o.cameraPitch) else orient
    else if i <= 21 then V.Vec(p.bodyPose[i - 1][0], p.bodyPose[i - 1][1], p.bodyPose[i - 1][2])
    else if i < 40 then V.Vec(p.leftHandPose[i - 25][0], p.leftHandPose[i - 25][1], p.leftHandPose[i - 25][2])
    else V.Vec(p.rightHandPose[i - 40][0], p.rightHandPose[i - 40][1], p.rightHandPose[i - 40][2])
  }

  /* ---- the inputs of a frame ---- */

  /** The block holds the row of each joint it lets through. */
  lemma {:induction false} BlockHolds(allowed: Option<set<Name>>, first: nat, rows: seq<seq<real>>, i: nat)
    requires F.Triples(rows) && i < |rows| && Lets(allowed, Smplx(first + i))
    ensures JointInput(Smplx(first + i), V.FromRow(rows[i])) in Block(allowed, first, rows)
  {
    hide Lets;
    if i < |rows| - 1 { BlockHolds(allowed, first, rows[..|rows| - 1], i); }
  }

  lemma InputHolds(m: R.Library, o: Options, p: F.PosePayload<real>, n: Name)
    requires F.WellShaped(p) && Plans(o, n)
    ensures JointInput(n, Driver(m, o, p, n.index)) in Inputs(m, o, p)
  {
    hide Allowed; hide FlipGlobalOrient; hide Block;
    var allowed, i := AllowedJoints(o), n.index;
    if i == 0 {
      assert JointInput(n, Driver(m, o, p, 0)) in PelvisInput(m, o, p);
    } else if i <= 21 {
      BlockHolds(allowed, FIRST_BODY, p.bodyPose, i - 1);
    } else if i < 40 {
      BlockHolds(allowed, FIRST_LEFT_HAND, p.leftHandPose, i - 25);
    } else {
      BlockHolds(allowed, FIRST_RIGHT_HAND, p.rightHandPose, i - 40);
    }
  }

  /** A joint that is counted once stands at one place. */
  lemma {:induction false} CountedOnce(inputs: seq<JointInput>, k: nat)
    requires k < |inputs| && InputCount(inputs, inputs[k].joint) <= 1
    ensures forall i | 0 <= i < |inputs| && i != k :: inputs[i].joint != inputs[k].joint
  {
    var n, before := |inputs| - 1, inputs[..|inputs| - 1];
    if k == n {
      NotCounted(before, inputs[k].joint);
    } else {
      Counted(before, k);
      CountedOnce(before, k);
    }
  }

  lemma {:induction false} NotCounted(inputs: seq<JointInput>, joint: Name)
    requires InputCount(inputs, joint) == 0
    ensures forall i | 0 <= i < |inputs| :: inputs[i].joint != joint
  {
    if inputs != [] { NotCounted(inputs[..|inputs| - 1], joint); }
  }

  lemma {:induction false} Counted(inputs: seq<JointInput>, k: nat)
    requires k < |inputs|
    ensures InputCount(inputs, inputs[k].joint) >= 1
  {
    if k < |inputs| - 1 { Counted(inputs[..|inputs| - 1], k); }
  }

  /* ---- what becomes of one input ---- */

  /** Joints that are not driven keep their state and get no rotation. */
  lemma {:induction false} Untouched(m: R.Library, smoothing: Option<S.Config>, states: SmootherStates,
                                     inputs: seq<JointInput>, previous: map<Name, Q.Quat>, capturedAt: real, n: Name)
    requires forall i | 0 <= i < |inputs| :: inputs[i].joint != n
    ensures var planned := PlanJoints(m, smoothing, states, inputs, previous, capturedAt);
      n !in ByBone(planned.rotations) && S.Lookup(planned.states, n) == S.Lookup(states, n)
  {
    hide A.ToQuaternion; hide S.Smooth; hide Q.MakeSignCompatible;
    if inputs != [] {
      var k := |inputs| - 1;
      Untouched(m, smoothing, states, inputs[..k], previous, capturedAt, n);
      var before := PlanJoints(m, smoothing, states, inputs[..k], previous, capturedAt);
      var after := PlanJoints(m, smoothing, states, inputs, previous, capturedAt);
      assert after.rotations[..|after.rotations| - 1] == before.rotations;
    }
  }

  /** The rotation is that of the sample, or what the smoother makes of it, in one of its signs;
      and the smoother takes exactly that sample at that time. */
  ghost predicate Takes(m: R.Library, smoothing: Option<S.Config>, states: SmootherStates, n: Name, sample: Q.Quat,
                        capturedAt: real, after: SmootherStates, r: Q.Quat)
  {
    match smoothing
    case None => Same(r, sample) && after == states
    case Some(c) =>
      && n in after && after[n] == S.Smooth(m, c, S.Lookup(states, n), sample, capturedAt)
      && Same(r, after[n].filtered)
  }

  predicate Same(r: Q.Quat, q: Q.Quat) { r == q || r == Q.Neg(q) }

  lemma LastInput(m: R.Library, smoothing: Option<S.Config>, states: SmootherStates, inputs: seq<JointInput>,
                  previous: map<Name, Q.Quat>, capturedAt: real)
    requires inputs != []
    ensures var last := |inputs| - 1;
      PlanJoints(m, smoothing, states, inputs, previous, capturedAt) ==
      PlanJoint(m, smoothing, PlanJoints(m, smoothing, states, inputs[..last], previous, capturedAt), inputs[last],
                previous, capturedAt)
  {
    hide PlanJoint;
  }

  lemma OneTaken(m: R.Library, smoothing: Option<S.Config>, before: Planned, states: SmootherStates, input: JointInput,
                 previous: map<Name, Q.Quat>, capturedAt: real)
    requires S.Lookup(before.states, input.joint) == S.Lookup(states, input.joint)
    requires smoothing.None? ==> before.states == states
    ensures var after, n := PlanJoint(m, smoothing, before, input, previous, capturedAt), input.joint;
      && n in ByBone(after.rotations)
      && Takes(m, smoothing, states, n, A.ToQuaternion(m, input.axisAngle), capturedAt, after.states,
               ByBone(after.rotations)[n])
  {
    hide A.ToQuaternion; hide S.Smooth; hide Q.Dot; hide Q.Neg; hide S.Lookup;
    var after := PlanJoint(m, smoothing, before, input, previous, capturedAt);
    assert after.rotations[..|after.rotations| - 1] == before.rotations;
  }

  lemma OneKept(m: R.Library, smoothing: Option<S.Config>, before: Planned, input: JointInput,
                previous: map<Name, Q.Quat>, capturedAt: real, n: Name)
    requires input.joint != n && n in ByBone(before.rotations)
    ensures var after := PlanJoint(m, smoothing, before, input, previous, capturedAt);
      && n in ByBone(after.rotations) && ByBone(after.rotations)[n] == ByBone(before.rotations)[n]
      && (n in before.states ==> n in after.states && after.states[n] == before.states[n])
      && (smoothing.None? ==> after.states == before.states)
  {
    hide A.ToQuaternion; hide S.Smooth; hide Q.MakeSignCompatible;
    var after := PlanJoint(m, smoothing, before, input, previous, capturedAt);
    assert after.rotations[..|after.rotations| - 1] == before.rotations;
  }

  lemma {:induction false} InputTaken(m: R.Library, smoothing: Option<S.Config>, states: SmootherStates,
                                      inputs: seq<JointInput>, previous: map<Name, Q.Quat>, capturedAt: real, k: nat)
    requires k < |inputs| && forall i | 0 <= i < |inputs| && i != k :: inputs[i].joint != inputs[k].joint
    ensures var planned, n := PlanJoints(m, smoothing, states, inputs, previous, capturedAt), inputs[k].joint;
      && n in ByBone(planned.rotations)
      && Takes(m, smoothing, states, n, A.ToQuaternion(m, inputs[k].axisAngle), capturedAt, planned.states,
               ByBone(planned.rotations)[n])
  {
    hide A.ToQuaternion; hide S.Smooth; hide Q.Neg; hide PlanJoint; hide PlanJoints; hide ByBone; hide S.Lookup;
    var last, n := |inputs| - 1, inputs[k].joint;
    var before := PlanJoints(m, smoothing, states, inputs[..last], previous, capturedAt);
    LastInput(m, smoothing, states, inputs, previous, capturedAt);
    Unsmoothed(m, smoothing, states, inputs[..last], previous, capturedAt);
    if k == last {
      Untouched(m, smoothing, states, inputs[..last], previous, capturedAt, n);
      OneTaken(m, smoothing, before, states, inputs[k], previous, capturedAt);
    } else {
      InputTaken(m, smoothing, states, inputs[..last], previous, capturedAt, k);
      OneKept(m, smoothing, before, inputs[last], previous, capturedAt, n);
    }
  }

  lemma {:induction false} Unsmoothed(m: R.Library, smoothing: Option<S.Config>, states: SmootherStates,
                                      inputs: seq<JointInput>, previous: map<Name, Q.Quat>, capturedAt: real)
    ensures smoothing.None? ==> PlanJoints(m, smoothing, states, inputs, previous, capturedAt).states == states
  {
    hide A.ToQuaternion; hide S.Smooth; hide Q.MakeSignCompatible;
    if inputs != [] { Unsmoothed(m, smoothing, states, inputs[..|inputs| - 1], previous, capturedAt); }
  }

  /* ---- whole plans ---- */

  /** Every planned joint takes the row that drives it: its source rotation is that row's, smoothed
      when there is a smoother. */
  lemma SourceTakes(m: R.Library, o: Options, p: F.PosePayload<real>, previous: map<Name, Q.Quat>,
                    states: SmootherStates, capturedAt: real, n: Name)
    requires F.WellShaped(p) && Plans(o, n)
    ensures var planned := PlanSource(m, o, p, previous, states, capturedAt);
      && n in ByBone(planned.rotations)
      && Takes(m, o.smoothing, states, n, A.ToQuaternion(m, Driver(m, o, p, n.index)), capturedAt, planned.states,
               ByBone(planned.rotations)[n])
  {
    hide Plans; hide Inputs; hide PlanJoints; hide Takes; hide SourceHistory; hide Driver; hide ByBone; hide InputCount;
    hide A.ToQuaternion;
    PlannedIndex(o, n);
    InputHolds(m, o, p, n);
    InputsExact(m, o, p, n);
    var inputs := Inputs(m, o, p);
    var k :| 0 <= k < |inputs| && inputs[k] == JointInput(n, Driver(m, o, p, n.index));
    CountedOnce(inputs, k);
    InputTaken(m, o.smoothing, states, inputs, SourceHistory(o, previous), capturedAt, k);
  }

  lemma PlannedIndex(o: Options, n: Name)
    requires Plans(o, n)
    ensures n.Smplx? && (n.index <= 21 || 25 <= n.index < 55)
  {}

  /** The applied plan holds that rotation under the joint's own name, or under its target, put
      between the target's rest and the compensation. */
  lemma PlanTakes(m: R.Library, o: Options, p: F.PosePayload<real>, previous: map<Name, Q.Quat>,
                  origin: Option<V.Vec>, states: SmootherStates, capturedAt: real, n: Name, plan: PoseApplication)
    returns (r: Q.Quat)
    requires R.Sound(m) && ValidOptions(o) && F.WellShaped(p) && GoodStates(states) && Plans(o, n)
    requires Plan(m, o, p, previous, origin, states, capturedAt) == Ok(plan)
    ensures Takes(m, o.smoothing, states, n, A.ToQuaternion(m, Driver(m, o, p, n.index)), capturedAt,
                  PlanSource(m, o, p, previous, states, capturedAt).states, r)
    ensures o.binding.None? ==> n in ByBone(plan.rotations) && ByBone(plan.rotations)[n] == r
    ensures o.binding.Some? && n in o.binding.value.bones ==>
      var bone := o.binding.value.bones[n];
      && bone.target in ByBone(plan.rotations)
      && ByBone(plan.rotations)[bone.target] ==
           Q.Mul(bone.neutral, Q.Mul(bone.compensation, Q.Mul(r, Q.Conj(bone.compensation))))
  {
    hide R.Sound; hide Plans; hide PlanSource; hide Plan; hide Takes; hide Driver; hide ByBone; hide GoodStates;
    hide AllUnit; hide BindAll; hide Q.Mul; hide Q.Conj; hide Q.Unit; hide A.ToQuaternion;
    SourceTakes(m, o, p, previous, states, capturedAt, n);
    PlanSucceeds(m, o, p, previous, origin, states, capturedAt);
    var rotations := PlanSource(m, o, p, previous, states, capturedAt).rotations;
    r := ByBone(rotations)[n];
    if o.binding.Some? && n in o.binding.value.bones { BoundByBone(rotations, o.binding.value, n); }
  }

  /** The offset is that of the translation from the origin, in world axes: camera right stays,
      camera forward becomes the second axis, camera down the third one downwards. */
  lemma PlanOffset(m: R.Library, o: Options, p: F.PosePayload<real>, previous: map<Name, Q.Quat>,
                   origin: Option<V.Vec>, states: SmootherStates, capturedAt: real, plan: PoseApplication)
    requires ValidOptions(o) && F.WellShaped(p)
    requires Plan(m, o, p, previous, origin, states, capturedAt) == Ok(plan)
    ensures plan.worldOffset.Some? <==> o.worldPosition && Plans(o, PELVIS)
    ensures plan.worldOffset.Some? ==>
      var from := if origin.Some? then origin.value else V.Vec(0.0, 0.0, 0.0);
      plan.worldOffset.value ==
        V.Vec(p.transl[0] - from.x, p.transl[2] - from.z, from.y - p.transl[1])
  {
    hide PlanSource; hide BindRotations; hide Allowed; hide ValidBinding;
  }

  /** A joint is let through by the limb flags, when any is set, and by the backend. */
  predicate Through(o: Options, n: Name) {
    && (IsActive(o.filter) ==> !o.filter.applyNothing && n.Smplx? && n.index < 55 && Covers(o.filter, n.index))
    && (o.supported.Some? ==> n in o.supported.value)
  }

  lemma LetsThrough(o: Options, n: Name)
    ensures Lets(AllowedJoints(o), n) <==> Through(o, n)
    ensures AllowedJoints(o).None? <==> !IsActive(o.filter) && o.supported.None?
  {
    if IsActive(o.filter) && !o.filter.applyNothing { AllowedMember(o.filter, n); }
    hide When; hide Covers;
  }

  /** Which joints a stream drives, and which bones it clears. */
  lemma PlansExactly(o: Options, n: Name)
    ensures Plans(o, n) <==>
      && Through(o, n)
      && ((n == Smplx(0) && !IsActive(o.filter)) || (n.Smplx? && (1 <= n.index <= 21 || 25 <= n.index < 55)))
  {
    LetsThrough(o, n);
    hide Allowed; hide IsActive;
    PelvisOnly(o);
  }

  lemma PelvisOnly(o: Options)
    ensures PlansPelvis(o) <==> !IsActive(o.filter) && Lets(o.supported, PELVIS)
    ensures IsActive(o.filter) && !o.filter.applyNothing ==> !Covers(o.filter, 0)
  {}

  lemma ClearsExactly(m: R.Library, o: Options, p: F.PosePayload<real>, previous: map<Name, Q.Quat>,
                      origin: Option<V.Vec>, states: SmootherStates, capturedAt: real, n: Name, plan: PoseApplication)
    requires ValidOptions(o) && F.WellShaped(p)
    requires Plan(m, o, p, previous, origin, states, capturedAt) == Ok(plan)
    ensures o.binding.None? ==> (Lets(plan.clear, n) <==> Through(o, n)) && plan.neutral == map[]
    ensures o.binding.Some? ==>
      var bones := o.binding.value.bones;
      && plan.clear.Some?
      && (n in plan.clear.value <==> exists joint :: joint in bones && Through(o, joint) && bones[joint].target == n)
  {
    hide PlanSource; hide BindRotations; hide AllowedJoints; hide Through; hide GoodBone;
    LetsThrough(o, n);
    if o.binding.Some? {
      forall joint | joint in o.binding.value.bones
        ensures Through(o, joint) <==> Lets(AllowedJoints(o), joint)
      {
        LetsThrough(o, joint);
      }
    }
  }

  /* ---- the timer ---- */

  /** At the timer: every joint of an applied frame takes the row of that frame at the time it was
      captured. */
  lemma StepTakes(m: R.Library, o: Options, st: T.TimerState, frame: F.PoseFrame<real>, n: Name) returns (r: Q.Quat)
    requires R.Sound(m) && ValidOptions(o) && T.GoodFrame(frame) && GoodStates(st.states) && Plans(o, n)
    requires frame.status != "no_person" && frame.pose.Some?
    ensures var (after, outcome) := T.Step(m, o, st, frame, true);
      && outcome.Applied?
      && Takes(m, o.smoothing, st.states, n, A.ToQuaternion(m, Driver(m, o, frame.pose.value, n.index)),
               frame.capturedAt, after.states, r)
      && (o.binding.None? ==> n in after.previous && after.previous[n] == r)
      && (o.binding.Some? && n in o.binding.value.bones ==>
            var bone := o.binding.value.bones[n];
            && bone.target in after.previous
            && after.previous[bone.target] ==
                 Q.Mul(bone.neutral, Q.Mul(bone.compensation, Q.Mul(r, Q.Conj(bone.compensation)))))
      && after.previous == ByBone(outcome.plan.rotations)
  {
    hide R.Sound; hide Plans; hide PlanSource; hide Plan; hide Takes; hide Driver; hide ByBone; hide GoodStates;
    hide AllUnit; hide Q.Mul; hide Q.Conj; hide A.ToQuaternion;
    var p := frame.pose.value;
    var origin := T.Origin(o, st.origin, p);
    PlanSucceeds(m, o, p, st.previous, origin, st.states, frame.capturedAt);
    var plan := Plan(m, o, p, st.previous, origin, st.states, frame.capturedAt).value;
    r := PlanTakes(m, o, p, st.previous, origin, st.states, frame.capturedAt, n, plan);
    NoStates(m, o, p, st, frame.capturedAt);
  }

  lemma NoStates(m: R.Library, o: Options, p: F.PosePayload<real>, st: T.TimerState, capturedAt: real)
    requires F.WellShaped(p)
    ensures o.smoothing.None? ==> PlanSource(m, o, p, st.previous, st.states, capturedAt).states == st.states
  {
    hide PlanJoints; hide Inputs;
    Unsmoothed(m, o.smoothing, st.states, Inputs(m, o, p), SourceHistory(o, st.previous), capturedAt);
  }
}
