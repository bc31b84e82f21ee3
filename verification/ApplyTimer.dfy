/** The main-thread timer that applies pose frames (apply_timer.py). */
module ApplyTimer {
  import opened Prelude
  import R = Reals
  import V = Vectors
  import Q = Quaternions
  import S = Smoothing
  import F = Frames
  import opened Skeleton
  import opened Binding
  import opened Application
  import W = ArmatureWriter

  /** The joints a backend with these capabilities supports. */
  function BonesForCapabilities(capabilities: Option<set<string>>): Option<set<Name>> {
    if capabilities.None? then None
    else Some(
      (if "body" in capabilities.value then Joints(0, 22) else {})
      + (if "hands" in capabilities.value then {LEFT_WRIST, RIGHT_WRIST} + Joints(25, 55) else {}))
  }

  /** Without a list of capabilities every joint is supported; "body" stands for the pelvis and the
      body joints, "hands" for wrists and fingers. */
  lemma CapabilitiesExactly(capabilities: Option<set<string>>, n: Name)
    ensures BonesForCapabilities(capabilities).None? <==> capabilities.None?
    ensures capabilities.Some? ==>
      (n in BonesForCapabilities(capabilities).value <==>
        && n.Smplx?
        && (("body" in capabilities.value && n.index < 22)
            || ("hands" in capabilities.value && (n.index == 20 || n.index == 21 || 25 <= n.index < 55))))
  {
    hide Joints;
    JointsMember(0, 22, n);
    JointsMember(25, 55, n);
  }

  /** A backend without hands never moves a finger, and one without a body moves only wrists
      and fingers. */
  lemma CapabilitiesLimit(capabilities: set<string>, o: Options, n: Name)
    requires o.supported == BonesForCapabilities(Some(capabilities)) && Plans(o, n)
    ensures "hands" !in capabilities ==> n.index < 22
    ensures "body" !in capabilities ==> n.index == 20 || n.index == 21 || 25 <= n.index < 55
  {
    hide Joints; hide Allowed;
    JointsMember(0, 22, n);
    JointsMember(25, 55, n);
  }

  /** The fields of the timer that change from tick to tick. */
  datatype TimerState = TimerState(
    previous: map<Name, Q.Quat>,
    states: SmootherStates,
    origin: Option<V.Vec>,
    reportedInvalid: bool)

  const INITIAL := TimerState(map[], map[], None, false)

  datatype Outcome =
    | Skipped
    | TargetInvalid(warned: bool)
    | Applied(plan: PoseApplication, recovered: bool)

  predicate GoodFrame(f: F.PoseFrame<real>) { f.pose.Some? ==> F.WellShaped(f.pose.value) }

  function Origin(o: Options, origin: Option<V.Vec>, p: F.PosePayload<real>): Option<V.Vec>
    requires F.WellShaped(p)
  {
    if o.worldPosition && origin.None? then Some(V.FromRow(p.transl)) else origin
  }

  /** One frame handed to the timer while the target is, or is not, available. */
  function Step(m: R.Library, o: Options, st: TimerState, frame: F.PoseFrame<real>, targetValid: bool)
    : (TimerState, Outcome)
    requires GoodFrame(frame) && (o.binding.Some? ==> ValidBinding(o.binding.value))
  {
    if frame.status == "no_person" || frame.pose.None? then (st, Skipped)
    else if !targetValid then (st.(reportedInvalid := true), TargetInvalid(!st.reportedInvalid))
    else
      var p := frame.pose.value;
      var origin := Origin(o, st.origin, p);
      var r := Plan(m, o, p, st.previous, origin, st.states, frame.capturedAt);
      var states := if o.smoothing.None? then st.states
        else PlanSource(m, o, p, st.previous, st.states, frame.capturedAt).states;
      if r.Err? then (st.(origin := origin, states := states, reportedInvalid := false), Skipped)
      else (TimerState(ByBone(r.value.rotations), states, origin, false), Applied(r.value, st.reportedInvalid))
  }

  /** What a frame does to the timer besides planning: without a person nothing; without a target
      the origin and the history stay and the first such frame warns; with one the plan becomes
      the history, and the warning is over. */
  lemma StepExactly(m: R.Library, o: Options, st: TimerState, frame: F.PoseFrame<real>, targetValid: bool)
    requires GoodFrame(frame) && (o.binding.Some? ==> ValidBinding(o.binding.value))
    ensures var (after, outcome) := Step(m, o, st, frame, targetValid);
      var person := frame.status != "no_person" && frame.pose.Some?;
      && (!person ==> after == st && outcome == Skipped)
      && (person && !targetValid ==>
            && after == TimerState(st.previous, st.states, st.origin, true)
            && outcome == TargetInvalid(!st.reportedInvalid))
      && (person && targetValid ==>
            && !after.reportedInvalid && !outcome.TargetInvalid?
            && (outcome.Applied? ==>
                  && outcome.recovered == st.reportedInvalid
                  && after.previous == ByBone(outcome.plan.rotations))
            && after.origin ==
                 if st.origin.Some? || !o.worldPosition then st.origin
                 else Some(V.Vec(frame.pose.value.transl[0], frame.pose.value.transl[1], frame.pose.value.transl[2])))
  {
    hide Plan; hide PlanSource; hide ByBone;
  }

  /** A stream starts with no history, and its first frame without a target warns. */
  lemma FirstFrameWarns(m: R.Library, o: Options, frame: F.PoseFrame<real>)
    requires GoodFrame(frame) && (o.binding.Some? ==> ValidBinding(o.binding.value))
    ensures frame.status != "no_person" && frame.pose.Some? ==>
      Step(m, o, INITIAL, frame, false) == (TimerState(map[], map[], None, true), TargetInvalid(true))
  {}

  lemma KeyedOnce(m: R.Library, o: Options, p: F.PosePayload<real>, st: TimerState, origin: Option<V.Vec>,
                  capturedAt: real, plan: PoseApplication)
    requires R.Sound(m) && ValidOptions(o) && F.WellShaped(p) && GoodStates(st.states)
    requires Plan(m, o, p, st.previous, origin, st.states, capturedAt) == Ok(plan)
    ensures forall n: Name :: Count(plan.rotations, n) == if Writes(o, n) then 1 else 0
  {
    hide R.Sound; hide Plan; hide Writes; hide GoodStates; hide Count;
    forall n: Name
      ensures Count(plan.rotations, n) == if Writes(o, n) then 1 else 0
    {
      PlanExact(m, o, p, st.previous, origin, st.states, capturedAt, n, plan);
    }
  }

  class PoseApplyTimer {
    const m: R.Library
    const o: Options
    const smoother: S.PoseSmoother?
    const interval: real
    var previousQuaternions: map<Name, Q.Quat>
    var translationOrigin: Option<V.Vec>
    var reportedInvalidTarget: bool
    var running: bool

    ghost predicate Valid()
      reads smoother
    {
      && R.Sound(m) && ValidOptions(o) && o.smoothing == ConfigOf(smoother)
      && (smoother != null ==> smoother.Valid() && smoother.m == m)
    }

    ghost function View(): TimerState
      reads this, smoother
    {
      var states := if smoother == null then map[] else smoother.states;
      TimerState(previousQuaternions, states, translationOrigin, reportedInvalidTarget)
    }

    constructor (m: R.Library, o: Options, smoother: S.PoseSmoother?, interval: real)
      requires R.Sound(m) && ValidOptions(o) && o.smoothing == ConfigOf(smoother) && interval > 0.0
      requires smoother != null ==> smoother.Valid() && smoother.m == m && smoother.states == map[]
      ensures Valid() && View() == INITIAL && running
      ensures this.m == m && this.o == o && this.smoother == smoother && this.interval == interval
    {
      this.m, this.o, this.smoother, this.interval := m, o, smoother, interval;
      previousQuaternions, translationOrigin, reportedInvalidTarget, running := map[], None, false, true;
    }

    /** Apply one frame: the new state and outcome are those of `Step`, the armature is
        written exactly when the outcome is `Applied`, and then by that plan. */
    method ApplyFrame(frame: F.PoseFrame<real>, armature: W.Armature, recording: bool) returns (outcome: Outcome)
      requires Valid() && GoodFrame(frame) && armature.Valid()
      modifies this`previousQuaternions, this`translationOrigin, this`reportedInvalidTarget, smoother
      modifies armature`location, armature.bones
      ensures Valid() && (View(), outcome) == Step(m, o, old(View()), frame, old(armature.posePresent))
      ensures !outcome.Applied? ==>
        armature.location == old(armature.location) && forall b <- armature.bones :: unchanged(b)
      ensures outcome.Applied? ==> var plan := outcome.plan;
        && armature.location == (if plan.worldOffset.Some? then plan.worldOffset.value else old(armature.location))
        && forall b <- armature.bones ::
             && b.rotation == W.AfterApply(plan, plan.rotations, b.name, old(b.rotation))
             && b.keyframes == old(b.keyframes) + if recording && Writes(o, b.name) then 1 else 0
    {
      hide R.Sound; hide Plan; hide PlanSource; hide ByBone; hide Count; hide ValidBinding; hide W.AfterApply;
      hide Writes; hide S.GoodState;
      if frame.status == "no_person" || frame.pose.None? { return Skipped; }
      if !armature.posePresent {
        outcome := TargetInvalid(!reportedInvalidTarget);
        reportedInvalidTarget := true;
        return;
      }
      var recovered := reportedInvalidTarget;
      reportedInvalidTarget := false;
      var plan := PlanFrame(frame.pose.value, frame.capturedAt);
      if plan.Err? { return Skipped; }
      W.ApplyPlan(armature, plan.value, recording);
      previousQuaternions := ByBone(plan.value.rotations);
      outcome := Applied(plan.value, recovered);
    }

    /** Plan a frame for an available target: the world origin is taken from the first one. */
    method PlanFrame(p: F.PosePayload<real>, capturedAt: real) returns (plan: Result<PoseApplication>)
      requires Valid() && F.WellShaped(p)
      modifies this`translationOrigin, smoother
      ensures Valid() && translationOrigin == Origin(o, old(translationOrigin), p)
      ensures var states := old(View()).states;
        && plan == Plan(m, o, p, previousQuaternions, translationOrigin, states, capturedAt)
        && View().states == if o.smoothing.None? then states
             else PlanSource(m, o, p, previousQuaternions, states, capturedAt).states
      ensures plan.Ok? ==> forall n: Name :: Count(plan.value.rotations, n) == if Writes(o, n) then 1 else 0
    {
      hide R.Sound; hide Plan; hide PlanSource; hide Count; hide ValidBinding; hide Writes; hide S.GoodState;
      ghost var before := View();
      if o.worldPosition && translationOrigin.None? {
        translationOrigin := Some(V.FromRow(p.transl));
      }
      plan := PlanPoseApplication(m, o, p, previousQuaternions, translationOrigin, smoother, capturedAt);
      if plan.Ok? { KeyedOnce(m, o, p, before, translationOrigin, capturedAt, plan.value); }
    }

    /** A timer tick: a stopped timer asks for no further call and changes nothing. */
    method Tick(frame: Option<F.PoseFrame<real>>, armature: W.Armature, recording: bool)
      returns (delay: Option<real>, outcome: Outcome)
      requires Valid() && (frame.Some? ==> GoodFrame(frame.value)) && armature.Valid()
      modifies this`previousQuaternions, this`translationOrigin, this`reportedInvalidTarget, smoother
      modifies armature`location, armature.bones
      ensures Valid() && delay == if running then Some(interval) else None
      ensures running && frame.Some? ==>
        (View(), outcome) == Step(m, o, old(View()), frame.value, old(armature.posePresent))
      ensures !running || frame.None? ==> outcome == Skipped && View() == old(View())
      ensures outcome.Applied? ==> var plan := outcome.plan;
        && armature.location == (if plan.worldOffset.Some? then plan.worldOffset.value else old(armature.location))
        && forall b <- armature.bones ::
             && b.rotation == W.AfterApply(plan, plan.rotations, b.name, old(b.rotation))
             && b.keyframes == old(b.keyframes) + if recording && Writes(o, b.name) then 1 else 0
      ensures !outcome.Applied? ==>
        armature.location == old(armature.location) && forall b <- armature.bones :: unchanged(b)
    {
      if !running { return None, Skipped; }
      if frame.None? { return Some(interval), Skipped; }
      outcome := ApplyFrame(frame.value, armature, recording);
      delay := Some(interval);
    }

    /** A tick of a run, seen on the bones. */
    method TickEvent(event: FrameEvent, armature: W.Armature, recording: bool) returns (outcome: Outcome)
      requires Valid() && GoodFrame(event.frame) && armature.Valid() && running
      modifies this`previousQuaternions, this`translationOrigin, this`reportedInvalidTarget, smoother
      modifies armature`location, armature`posePresent, armature.bones
      ensures Valid() && (View(), outcome) == Step(m, o, old(View()), event.frame, event.targetValid)
      ensures outcome.Applied? ==>
        Follows(outcome.plan, Named(armature.bones), old(Rotations(armature.bones)), Rotations(armature.bones))
      ensures !outcome.Applied? ==> Rotations(armature.bones) == old(Rotations(armature.bones))
    {
      hide R.Sound; hide Step; hide W.AfterApply; hide Writes; hide ValidBinding; hide S.GoodState;
      ghost var before := Rotations(armature.bones);
      armature.posePresent := event.targetValid;
      var _, applied := Tick(Some(event.frame), armature, recording);
      outcome := applied;
      assert forall j | 0 <= j < |armature.bones| :: armature.bones[j] in armature.bones;
      assert !outcome.Applied? ==> Rotations(armature.bones) == before;
    }

    /** A run of ticks on one armature, whose target comes and goes, recording or not.  `shown`
        holds the rotations of all bones after each applied frame: they are the planned ones for
        every bone the timer writes, those on the armature at the end are the last of them, and
        no written bone ever leaves its hemisphere from one applied frame to the next. */
    method TickAll(events: seq<FrameEvent>, armature: W.Armature, recording: nat -> bool)
      returns (ghost shown: seq<seq<Q.Quat>>)
      requires Valid() && View() == INITIAL && running && GoodEvents(events) && armature.Valid()
      modifies this`previousQuaternions, this`translationOrigin, this`reportedInvalidTarget, smoother
      modifies armature`location, armature`posePresent, armature.bones
      ensures Valid() && View() == Run(m, o, events).state
      ensures |shown| == |Run(m, o, events).applied|
      ensures forall k | 0 <= k < |shown| :: Shows(o, Named(armature.bones), Run(m, o, events).applied[k], shown[k])
      ensures Rotations(armature.bones) == if shown == [] then old(Rotations(armature.bones)) else shown[|shown| - 1]
      ensures forall k | 0 < k < |shown| :: SameHemispheres(o, Named(armature.bones), shown[k - 1], shown[k])
    {
      hide R.Sound; hide Step; hide Follows; hide ValidBinding; hide S.GoodState; hide Shows; hide Run; hide GoodFrame;
      hide SameHemispheres; hide Rotations; hide View;
      shown := [];
      ghost var names := Named(armature.bones);
      NothingApplied(m, o, events);
      for i := 0 to |events|
        invariant Valid() && running
        invariant View() == Run(m, o, events[..i]).state && |shown| == |Run(m, o, events[..i]).applied|
        invariant forall k | 0 <= k < |shown| :: Shows(o, names, Run(m, o, events[..i]).applied[k], shown[k])
        invariant Rotations(armature.bones) ==
          if shown == [] then old(Rotations(armature.bones)) else shown[|shown| - 1]
      {
        RunOn(m, o, events, i);
        ghost var before := Rotations(armature.bones);
        var outcome := TickEvent(events[i], armature, recording(i));
        if outcome.Applied? {
          shown := shown + [Rotations(armature.bones)];
          PlanShows(m, o, events[..i + 1], names, before, Rotations(armature.bones));
        }
      }
      assert events[..|events|] == events;
      ShownContinuous(m, o, events, names, shown);
    }

    method Stop()
      modifies this`running
      ensures !running
    {
      running := false;
    }
  }

  /* ---- whole runs ---- */

  datatype FrameEvent = FrameEvent(frame: F.PoseFrame<real>, targetValid: bool)

  datatype History = History(state: TimerState, applied: seq<PoseApplication>)

  ghost predicate GoodEvents(events: seq<FrameEvent>) { forall i | 0 <= i < |events| :: GoodFrame(events[i].frame) }

  /** The state after a run from the start of a stream, with the plans applied on the way. */
  function Run(m: R.Library, o: Options, events: seq<FrameEvent>): History
    requires GoodEvents(events) && (o.binding.Some? ==> ValidBinding(o.binding.value))
  {
    if events == [] then History(INITIAL, [])
    else
      var before := Run(m, o, events[..|events| - 1]);
      var last := events[|events| - 1];
      var (state, outcome) := Step(m, o, before.state, last.frame, last.targetValid);
      History(state, before.applied + if outcome.Applied? then [outcome.plan] else [])
  }

  /** Two consecutively applied plans write the same bones, and each bone stays in its
      hemisphere. */
  ghost predicate Continuous(first: PoseApplication, second: PoseApplication) {
    && ByBone(first.rotations).Keys == ByBone(second.rotations).Keys
    && forall n <- ByBone(second.rotations) :: Q.Dot(ByBone(second.rotations)[n], ByBone(first.rotations)[n]) >= 0.0
  }

  ghost predicate WritesExactly(o: Options, plan: PoseApplication) {
    forall n: Name :: n in ByBone(plan.rotations) <==> Writes(o, n)
  }

  /** One frame from any good state. */
  lemma StepKeeps(m: R.Library, o: Options, st: TimerState, frame: F.PoseFrame<real>, targetValid: bool)
    requires R.Sound(m) && ValidOptions(o) && GoodFrame(frame) && GoodStates(st.states)
    ensures var (after, outcome) := Step(m, o, st, frame, targetValid);
      && GoodStates(after.states)
      && (st.origin.Some? ==> after.origin == st.origin)
      && (!outcome.Applied? ==> after.previous == st.previous)
      && (outcome.Applied? ==>
            && after.previous == ByBone(outcome.plan.rotations)
            && AllUnit(outcome.plan.rotations)
            && WritesExactly(o, outcome.plan)
            && forall n <- after.previous :: n in st.previous ==> Q.Dot(after.previous[n], st.previous[n]) >= 0.0)
  {
    hide R.Sound; hide Plan; hide PlanSource; hide Writes; hide Q.Dot; hide GoodStates; hide AllUnit;
    hide ByBone; hide Count;
    if frame.status != "no_person" && frame.pose.Some? && targetValid {
      var p, origin := frame.pose.value, Origin(o, st.origin, frame.pose.value);
      PlanSucceeds(m, o, p, st.previous, origin, st.states, frame.capturedAt);
      var plan := Plan(m, o, p, st.previous, origin, st.states, frame.capturedAt).value;
      StatesStayGood(m, o, p, st, frame.capturedAt);
      forall n: Name
        ensures n in ByBone(plan.rotations) <==> Writes(o, n)
        ensures n in ByBone(plan.rotations) && n in st.previous ==>
          Q.Dot(ByBone(plan.rotations)[n], st.previous[n]) >= 0.0
      {
        PlanExact(m, o, p, st.previous, origin, st.states, frame.capturedAt, n, plan);
        CountPositive(plan.rotations, n);
        if n in ByBone(plan.rotations) && n in st.previous {
          PlanContinuous(m, o, p, st.previous, origin, st.states, frame.capturedAt, n, plan);
        }
      }
    }
  }

  lemma StatesStayGood(m: R.Library, o: Options, p: F.PosePayload<real>, st: TimerState, capturedAt: real)
    requires R.Sound(m) && ValidOptions(o) && F.WellShaped(p) && GoodStates(st.states)
    ensures GoodStates(PlanSource(m, o, p, st.previous, st.states, capturedAt).states)
  {
    hide R.Sound; hide PlanJoints; hide Inputs; hide GoodStates; hide SourceHistory;
    PlanJointsKeeps(m, o.smoothing, st.states, Inputs(m, o, p), SourceHistory(o, st.previous), capturedAt);
  }

  /** Whole-run sign continuity: for any sequence of ok, no-person and invalid-target frames,
      with or without a binding or a smoother, every two consecutively applied plans are
      continuous in the coordinates that are written. */
  lemma {:induction false} RunContinuous(m: R.Library, o: Options, events: seq<FrameEvent>)
    requires R.Sound(m) && ValidOptions(o) && GoodEvents(events)
    ensures var h := Run(m, o, events);
      && GoodStates(h.state.states)
      && (h.applied == [] ==> h.state.previous == map[])
      && (h.applied != [] ==> h.state.previous == ByBone(h.applied[|h.applied| - 1].rotations))
      && (forall k | 0 <= k < |h.applied| :: WritesExactly(o, h.applied[k]) && AllUnit(h.applied[k].rotations))
      && (forall k | 0 < k < |h.applied| :: Continuous(h.applied[k - 1], h.applied[k]))
  {
    hide R.Sound; hide Step; hide Q.Dot; hide GoodStates; hide AllUnit; hide ByBone; hide Writes;
    if events != [] {
      var last := events[|events| - 1];
      RunContinuous(m, o, events[..|events| - 1]);
      var before := Run(m, o, events[..|events| - 1]);
      StepKeeps(m, o, before.state, last.frame, last.targetValid);
      var outcome := Step(m, o, before.state, last.frame, last.targetValid).1;
      if outcome.Applied? && before.applied != [] {
        var first := before.applied[|before.applied| - 1];
        forall n: Name
          ensures n in ByBone(first.rotations) <==> n in ByBone(outcome.plan.rotations)
        {}
        assert Continuous(first, outcome.plan);
      }
    } else {
      NothingSmoothed();
    }
  }

  /* ---- what a run shows on an armature ---- */

  ghost function Named(bones: seq<W.Bone>): seq<Name> { seq(|bones|, j requires 0 <= j < |bones| => bones[j].name) }

  ghost function Rotations(bones: seq<W.Bone>): seq<Q.Quat>
    reads bones
  {
    seq(|bones|, j requires 0 <= j < |bones| reads bones => bones[j].rotation)
  }

  /** The bones the timer writes show the rotations of the plan. */
  ghost predicate Shows(o: Options, names: seq<Name>, plan: PoseApplication, shown: seq<Q.Quat>) {
    && |shown| == |names|
    && forall j | 0 <= j < |names| && Writes(o, names[j]) ::
         names[j] in ByBone(plan.rotations) && shown[j] == ByBone(plan.rotations)[names[j]]
  }

  /** The armature was written by the plan. */
  ghost predicate Follows(plan: PoseApplication, names: seq<Name>, before: seq<Q.Quat>, after: seq<Q.Quat>) {
    && |before| == |after| == |names|
    && forall j | 0 <= j < |names| :: after[j] == W.AfterApply(plan, plan.rotations, names[j], before[j])
  }

  /** No bone the timer writes leaves its hemisphere. */
  ghost predicate SameHemispheres(o: Options, names: seq<Name>, first: seq<Q.Quat>, second: seq<Q.Quat>) {
    && |first| == |second| == |names|
    && forall j | 0 <= j < |names| && Writes(o, names[j]) :: Q.Dot(second[j], first[j]) >= 0.0
  }

  lemma NothingApplied(m: R.Library, o: Options, events: seq<FrameEvent>)
    requires GoodEvents(events) && (o.binding.Some? ==> ValidBinding(o.binding.value))
    ensures Run(m, o, events[..0]) == History(INITIAL, [])
  {}

  lemma RunOn(m: R.Library, o: Options, events: seq<FrameEvent>, i: nat)
    requires GoodEvents(events) && i < |events| && (o.binding.Some? ==> ValidBinding(o.binding.value))
    ensures var before := Run(m, o, events[..i]);
      var (state, outcome) := Step(m, o, before.state, events[i].frame, events[i].targetValid);
      Run(m, o, events[..i + 1]) == History(state, before.applied + if outcome.Applied? then [outcome.plan] else [])
  {
    hide Step;
    assert events[..i + 1][..i] == events[..i];
  }

  /** An armature the last plan of a run was just written to shows it. */
  lemma PlanShows(m: R.Library, o: Options, events: seq<FrameEvent>, names: seq<Name>, before: seq<Q.Quat>,
                  shown: seq<Q.Quat>)
    requires R.Sound(m) && ValidOptions(o) && GoodEvents(events) && Run(m, o, events).applied != []
    requires var applied := Run(m, o, events).applied; Follows(applied[|applied| - 1], names, before, shown)
    ensures var applied := Run(m, o, events).applied; Shows(o, names, applied[|applied| - 1], shown)
  {
    hide R.Sound; hide Run; hide ByBone; hide Writes; hide AllUnit; hide Continuous; hide GoodStates;
    RunContinuous(m, o, events);
  }

  lemma ShownContinuous(m: R.Library, o: Options, events: seq<FrameEvent>, names: seq<Name>, shown: seq<seq<Q.Quat>>)
    requires R.Sound(m) && ValidOptions(o) && GoodEvents(events) && |shown| == |Run(m, o, events).applied|
    requires forall k | 0 <= k < |shown| :: Shows(o, names, Run(m, o, events).applied[k], shown[k])
    ensures forall k | 0 < k < |shown| :: SameHemispheres(o, names, shown[k - 1], shown[k])
  {
    hide R.Sound; hide Run; hide ByBone; hide Writes; hide AllUnit; hide GoodStates; hide Q.Dot;
    RunContinuous(m, o, events);
    forall k | 0 < k < |shown|
      ensures SameHemispheres(o, names, shown[k - 1], shown[k])
    {
      assert Continuous(Run(m, o, events).applied[k - 1], Run(m, o, events).applied[k]);
    }
  }

  lemma NothingSmoothed()
    ensures GoodStates(INITIAL.states)
  {}

  /** The world offset of the first applied frame is zero: the character moves from where it
      stands. */
  lemma FirstOffsetIsZero(m: R.Library, o: Options, st: TimerState, frame: F.PoseFrame<real>)
    requires R.Sound(m) && ValidOptions(o) && GoodFrame(frame) && GoodStates(st.states)
    requires o.worldPosition && PlansPelvis(o) && st.origin.None? && frame.status == "ok" && frame.pose.Some?
    ensures var (after, outcome) := Step(m, o, st, frame, true);
      outcome.Applied? && outcome.plan.worldOffset == Some(V.ZERO)
        && after.origin == Some(V.FromRow(frame.pose.value.transl))
  {
    hide R.Sound; hide PlanSource; hide Allowed; hide GoodStates; hide AllUnit; hide BindRotations; hide ByBone;
    PlanSucceeds(m, o, frame.pose.value, st.previous, Origin(o, st.origin, frame.pose.value), st.states,
                 frame.capturedAt);
  }
}
