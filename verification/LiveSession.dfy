/** A live session together with the apply timer and the armature it drives: what the lifecycle
    machine counts as writes are writes to bones and keys (stream_session.py, apply_timer.py). */
module LiveSession {
  import opened Prelude
  import R = Reals
  import F = Frames
  import opened Lifecycle
  import StreamSession
  import T = ApplyTimer
  import opened Application
  import opened Binding
  import W = ArmatureWriter

  /** What one tick meets: the lifecycle's environment with a frame instead of its outcome.
      The pose writer may raise behind its last write. */
  datatype Surroundings = Surroundings(
    engineRunning: bool,
    connection: Connection,
    clientError: bool,
    connectionAtFrame: Connection,
    frame: Option<F.PoseFrame<real>>,
    raises: bool)

  /** How the timer fares with a frame; a well-shaped one is always planned. */
  function CaseOf(frame: Option<F.PoseFrame<real>>, targetValid: bool, raises: bool): FrameCase {
    if frame.None? then NoFrame
    else if frame.value.status == "no_person" || frame.value.pose.None? then NoPerson
    else if !targetValid then TargetMissing
    else if raises then WriteRaises
    else Applies
  }

  function EnvOf(s: Surroundings, targetValid: bool): Env {
    Env(s.engineRunning, s.connection, s.clientError, s.connectionAtFrame, CaseOf(s.frame, targetValid, s.raises))
  }

  /** The tick gets as far as writing a plan. */
  predicate Writing(stopped: bool, s: Surroundings, targetValid: bool) {
    && !stopped && s.engineRunning && !s.clientError
    && (CaseOf(s.frame, targetValid, s.raises) == WriteRaises || CaseOf(s.frame, targetValid, s.raises) == Applies)
  }

  /** Whether the writer raises does not matter for whether there is something to write. */
  lemma FrameCases(s: Surroundings, targetValid: bool)
    ensures var found, calm := CaseOf(s.frame, targetValid, s.raises), CaseOf(s.frame, targetValid, false);
      && (found == WriteRaises || found == Applies <==> calm == Applies)
      && (found == NoFrame <==> s.frame.None?) && (found == NoPerson <==> calm == NoPerson)
      && (found == TargetMissing <==> calm == TargetMissing)
  {}

  /** From a good state the timer applies every well-shaped pose to an available target. */
  lemma StepApplies(m: R.Library, o: Options, st: T.TimerState, frame: F.PoseFrame<real>, targetValid: bool)
    requires R.Sound(m) && ValidOptions(o) && T.GoodFrame(frame) && GoodStates(st.states)
    ensures var (after, outcome) := T.Step(m, o, st, frame, targetValid);
      && (outcome.Applied? <==> CaseOf(Some(frame), targetValid, false) == Applies)
      && after.reportedInvalid ==
           (if outcome.Applied? then false else if outcome.TargetInvalid? then true else st.reportedInvalid)
      && (outcome.TargetInvalid? <==> CaseOf(Some(frame), targetValid, false) == TargetMissing)
  {
    hide R.Sound; hide PlanSource; hide Plan; hide GoodStates; hide ByBone;
    if frame.status != "no_person" && frame.pose.Some? && targetValid {
      PlanSucceeds(m, o, frame.pose.value, st.previous, T.Origin(o, st.origin, frame.pose.value), st.states,
                   frame.capturedAt);
    }
  }

  /** Whether the timer waits for its target after a tick. */
  function Waiting(stopped: bool, env: Env, waiting: bool): bool {
    if stopped || !env.engineRunning || env.clientError || env.frame == NoFrame || env.frame == NoPerson then waiting
    else env.frame == TargetMissing
  }

  /** How a tick of its session moves a session's record of its timer. */
  lemma TickMovesSession(w: World, i: nat, env: Env)
    requires Bounded(w) && i < |w.sessions| && w.sessions[i].timerRunning == !w.sessions[i].stopped
    ensures var s, t := w.sessions[i], Tick(w, i, env).0;
      && |t.sessions| == |w.sessions|
      && t.sessions[i].timerRunning == !t.sessions[i].stopped
      && (s.stopped ==> t.sessions[i] == s)
      && t.sessions[i].reportedInvalid == Waiting(s.stopped, env, s.reportedInvalid)
  {
    hide Fail;
    var s, checked := w.sessions[i], w.(lifecycle := AfterCheck(w.lifecycle, env));
    var framed := checked.(lifecycle := AfterFrame(checked.lifecycle, env));
    if !s.stopped {
      FailStops(w, i);
      FailStops(checked, i);
      FailStops(WithSession(framed, i, s.(reportedInvalid := false)), i);
      FailStops(WithSession(framed, i, Written(s, w.record)), i);
    }
  }

  lemma FailStops(w: World, i: nat)
    requires Bounded(w) && i < |w.sessions| && !w.sessions[i].stopped
    ensures Fail(w, i).sessions == w.sessions[i := w.sessions[i].(stopped := true, timerRunning := false)]
  {}

  /** A session that is left alone or stopped. */
  predicate LeftOrStopped(s: SessionState, t: SessionState) {
    t == s || t == s.(stopped := true, timerRunning := false)
  }

  lemma StopActiveLeaves(w: World, i: nat)
    requires Bounded(w) && i < |w.sessions|
    ensures LeftOrStopped(w.sessions[i], StopActive(w).sessions[i])
  {}

  lemma OtherTickLeaves(w: World, j: nat, env: Env, i: nat)
    requires Bounded(w) && i < |w.sessions| && j < |w.sessions| && i != j
    ensures |Tick(w, j, env).0.sessions| == |w.sessions| && Tick(w, j, env).0.sessions[i] == w.sessions[i]
  {}

  /** Everything but its own ticks leaves a session alone or stops it. */
  lemma OthersMoveSession(w: World, e: Event, i: nat)
    requires Bounded(w) && i < |w.sessions| && !(e.Ticked? && e.session == i)
    ensures i < |Next(w, e).sessions| && LeftOrStopped(w.sessions[i], Next(w, e).sessions[i])
  {
    StopActiveLeaves(w, i);
    if e.Ticked? && e.session < |w.sessions| { OtherTickLeaves(w, e.session, e.env, i); }
    hide Tick; hide StopActive;
  }

  /** A step of a run: the session's own tick, with what it meets, the armature its target
      setting names and whether that is there, or anything else. */
  datatype Step = OwnTick(s: Surroundings, target: nat, targetValid: bool) | Other(e: Event)

  predicate Allowed(step: Step, session: nat, targets: nat) {
    match step
    case OwnTick(s, target, _) => target < targets && (s.frame.Some? ==> T.GoodFrame(s.frame.value))
    case Other(e) => !(e.Ticked? && e.session == session)
  }

  function EventOf(step: Step, session: nat): Event {
    match step
    case OwnTick(s, _, targetValid) => Ticked(session, EnvOf(s, targetValid))
    case Other(e) => e
  }

  function Events(steps: seq<Step>, session: nat): seq<Event> {
    seq(|steps|, i requires 0 <= i < |steps| => EventOf(steps[i], session))
  }

  /** One more step, in the lifecycle machine. */
  lemma RunOn(w: World, steps: seq<Step>, i: nat, session: nat)
    requires Bounded(w) && i < |steps|
    ensures Lifecycle.Run(w, Events(steps[..i + 1], session))
         == Next(Lifecycle.Run(w, Events(steps[..i], session)), EventOf(steps[i], session))
  {
    hide Next; hide EventOf;
    assert Events(steps[..i + 1], session)[..i] == Events(steps[..i], session);
  }

  class LiveApply {
    const addon: StreamSession.Addon
    const session: StreamSession.LiveStreamSession
    const timer: T.PoseApplyTimer
    /** The armatures the target setting may name, which the pose writer re-reads on every apply,
        and their bones. */
    const targets: seq<W.Armature>
    const bones: set<W.Bone>

    /** The timer runs and waits for its target as the session's record of it says. */
    ghost predicate Valid()
      reads addon`sessions, addon`engines, addon`activeSession, session, timer, timer.smoother, targets`bones
    {
      && addon.Valid() && session in addon.sessions
      && timer.Valid() && ValidTargets()
      && session.timerRunning == !session.stopped == timer.running
      && session.reportedInvalidTarget == timer.reportedInvalidTarget
    }

    ghost predicate ValidTargets()
      reads targets`bones
    {
      forall a <- targets :: a.Valid() && forall b <- a.bones :: b in bones
    }

    constructor (addon: StreamSession.Addon, session: StreamSession.LiveStreamSession, timer: T.PoseApplyTimer,
                 targets: seq<W.Armature>, bones: set<W.Bone>)
      requires addon.Valid() && session in addon.sessions && timer.Valid()
      requires forall a <- targets :: a.Valid() && forall b <- a.bones :: b in bones
      requires session.timerRunning == !session.stopped == timer.running
      requires session.reportedInvalidTarget == timer.reportedInvalidTarget
      ensures Valid() && this.addon == addon && this.session == session && this.timer == timer
      ensures this.targets == targets && this.bones == bones
    {
      this.addon, this.session, this.timer, this.targets, this.bones := addon, session, timer, targets, bones;
    }

    /** The timer's share of a tick, which the checks before it may skip. */
    method Apply(s: Surroundings, armature: W.Armature) returns (outcome: T.Outcome)
      requires timer.Valid() && armature.Valid() && timer.running == !session.stopped
      requires s.frame.Some? ==> T.GoodFrame(s.frame.value)
      modifies timer`previousQuaternions, timer`translationOrigin, timer`reportedInvalidTarget, timer.smoother
      modifies armature`location, armature.bones
      ensures timer.Valid()
      ensures Handed(s) ==>
        (timer.View(), outcome) == T.Step(timer.m, timer.o, old(timer.View()), s.frame.value, old(armature.posePresent))
      ensures !Handed(s) ==> outcome == T.Skipped && timer.View() == old(timer.View())
      ensures outcome.Applied? <==> Writing(session.stopped, s, old(armature.posePresent))
      ensures var found := CaseOf(s.frame, old(armature.posePresent), s.raises);
        timer.reportedInvalidTarget ==
          if !Handed(s) || found == NoPerson then old(timer.reportedInvalidTarget) else found == TargetMissing
      ensures !outcome.Applied? ==>
        armature.location == old(armature.location) && forall b <- armature.bones :: unchanged(b)
      ensures outcome.Applied? ==> Written(armature, outcome.plan, old(addon.recordLiveMocap))
    {
      hide T.Step; hide W.AfterApply; hide Writes; hide R.Sound;
      if session.stopped || !s.engineRunning || s.clientError { return T.Skipped; }
      if s.frame.Some? { StepApplies(timer.m, timer.o, timer.View(), s.frame.value, armature.posePresent); }
      var _, applied := timer.Tick(s.frame, armature, addon.recordLiveMocap);
      outcome := applied;
    }

    /** The timer is handed a frame. */
    predicate Handed(s: Surroundings)
      reads session
    {
      !session.stopped && s.engineRunning && !s.clientError && s.frame.Some?
    }

    /** The armature is written by the plan, with a key for each written bone when asked for. */
    twostate predicate Written(armature: W.Armature, plan: PoseApplication, keyed: bool)
      reads armature, armature.bones
    {
      && armature.location == (if plan.worldOffset.Some? then plan.worldOffset.value else old(armature.location))
      && armature.bones == old(armature.bones)
      && forall b <- old(armature.bones) ::
           && b.rotation == W.AfterApply(plan, plan.rotations, b.name, old(b.rotation))
           && b.keyframes == old(b.keyframes) + if keyed && Writes(timer.o, b.name) then 1 else 0
    }

    /** The session's timer callback, with the armature the setting names now.  The addon moves as
        the lifecycle machine says; the timer takes the frame, when it gets one, as its step
        function says; bones and keys change exactly when the tick gets as far as writing, and
        then as the plan of that frame says, with a key for each written bone just when the flag
        is on. */
    method Tick(s: Surroundings, armature: W.Armature) returns (again: bool, outcome: T.Outcome)
      requires Valid() && armature in targets && (s.frame.Some? ==> T.GoodFrame(s.frame.value))
      modifies addon`lifecycleState, addon`recordLiveMocap, session, session.engine
      modifies timer`previousQuaternions, timer`translationOrigin, timer`reportedInvalidTarget, timer`running,
        timer.smoother
      modifies armature`location, armature.bones
      ensures Valid()
      ensures (addon.View(), again)
        == Lifecycle.Tick(old(addon.View()), session.id, EnvOf(s, old(armature.posePresent)))
      ensures outcome.Applied? <==> Writing(old(session.stopped), s, old(armature.posePresent))
      ensures old(Handed(s)) ==>
        (timer.View(), outcome) == T.Step(timer.m, timer.o, old(timer.View()), s.frame.value, old(armature.posePresent))
      ensures !old(Handed(s)) ==> timer.View() == old(timer.View())
      ensures !outcome.Applied? ==>
        armature.location == old(armature.location) && forall b <- armature.bones :: unchanged(b)
      ensures outcome.Applied? ==> Written(armature, outcome.plan, old(addon.recordLiveMocap))
    {
      hide Lifecycle.Tick; hide StreamSession.Views; hide StreamSession.Flags; hide T.PoseApplyTimer.Valid;
      hide StreamSession.Addon.Valid; hide StreamSession.Addon.View; hide Written; hide Bounded;
      hide T.Step; hide ValidTargets; hide CaseOf;
      Named(armature);
      var env := EnvOf(s, armature.posePresent);
      FrameCases(s, armature.posePresent);
      outcome := Apply(s, armature);
      again := Move(env);
    }

    /** The addon's share of a tick; a session that it stops stops the timer. */
    method Move(env: Env) returns (again: bool)
      requires addon.Valid() && session in addon.sessions && timer.Valid() && ValidTargets()
      requires session.timerRunning == !session.stopped == timer.running
      requires timer.reportedInvalidTarget == Waiting(session.stopped, env, session.reportedInvalidTarget)
      modifies addon`lifecycleState, addon`recordLiveMocap, session, session.engine, timer`running
      ensures Valid() && (addon.View(), again) == Lifecycle.Tick(old(addon.View()), session.id, env)
    {
      hide Lifecycle.Tick; hide StreamSession.Views; hide StreamSession.Flags; hide StreamSession.Addon.Valid;
      hide T.PoseApplyTimer.Valid; hide ValidTargets;
      TickSession(env);
      again := addon.Tick(session, env);
      StreamSession.ViewsAt(addon.sessions, addon.engines);
      assert addon.sessions[session.id] == session && addon.View().sessions[session.id] == session.View();
      if session.stopped { timer.Stop(); }
    }

    lemma TickSession(env: Env)
      requires addon.Valid() && session in addon.sessions && session.timerRunning == !session.stopped
      ensures Bounded(addon.View()) && session.id < |addon.View().sessions|
        && addon.View().sessions[session.id] == session.View()
      ensures session.id < |addon.sessions| && addon.sessions[session.id] == session
      ensures var s, t := session.View(), Lifecycle.Tick(addon.View(), session.id, env).0;
        && |t.sessions| == |addon.sessions|
        && t.sessions[session.id].timerRunning == !t.sessions[session.id].stopped
        && (s.stopped ==> t.sessions[session.id] == s)
        && t.sessions[session.id].reportedInvalid == Waiting(s.stopped, env, s.reportedInvalid)
    {
      hide Lifecycle.Tick;
      addon.ViewBounded();
      StreamSession.ViewsAt(addon.sessions, addon.engines);
      TickMovesSession(addon.View(), session.id, env);
    }

    /** Anything else that happens on the main thread; a stopped session stops its timer. */
    method Handle(e: Event)
      requires Valid() && !(e.Ticked? && e.session == session.id)
      modifies addon, addon.sessions, addon.engines, timer`running
      ensures Valid() && addon.View() == Next(old(addon.View()), e)
      ensures addon.OnlyNewAdded(old(addon.sessions), old(addon.engines))
      ensures old(session.stopped) ==> session.stopped
      ensures !old(addon.recordLiveMocap) && e != RecordClicked ==> !addon.recordLiveMocap
    {
      hide Next; hide StreamSession.Views; hide StreamSession.Flags; hide StreamSession.Addon.Valid;
      hide T.PoseApplyTimer.Valid;
      hide ValidTargets;
      HandleSession(e);
      addon.Handle(e);
      StreamSession.ViewsAt(addon.sessions, addon.engines);
      assert addon.sessions[session.id] == session && addon.View().sessions[session.id] == session.View();
      if session.stopped { timer.Stop(); }
    }

    lemma HandleSession(e: Event)
      requires addon.Valid() && session in addon.sessions && !(e.Ticked? && e.session == session.id)
      ensures Bounded(addon.View()) && session.id < |addon.View().sessions|
        && addon.View().sessions[session.id] == session.View()
      ensures session.id < |addon.sessions| && addon.sessions[session.id] == session
      ensures var t := Next(addon.View(), e);
        && session.id < |t.sessions| && LeftOrStopped(session.View(), t.sessions[session.id])
        && (!addon.recordLiveMocap && e != RecordClicked ==> !t.record)
    {
      hide Next;
      addon.ViewBounded();
      StreamSession.ViewsAt(addon.sessions, addon.engines);
      OthersMoveSession(addon.View(), e, session.id);
      NextFollows(addon.View(), e);
    }

    lemma Named(armature: W.Armature)
      requires ValidTargets() && armature in targets
      ensures armature.Valid() && forall b <- armature.bones :: b in bones
    {}

    /** A tick with the target there or not, seen from outside: after the session has stopped it
        changes nothing of any armature, and without the flag it adds no key. */
    method Callback(s: Surroundings, armature: W.Armature, targetValid: bool)
      requires Valid() && armature in targets && (s.frame.Some? ==> T.GoodFrame(s.frame.value))
      modifies addon`lifecycleState, addon`recordLiveMocap, session, session.engine
      modifies timer`previousQuaternions, timer`translationOrigin, timer`reportedInvalidTarget, timer`running,
        timer.smoother
      modifies armature`location, armature`posePresent, bones
      ensures Valid() && addon.View() == Next(old(addon.View()), Ticked(session.id, EnvOf(s, targetValid)))
      ensures old(session.stopped) ==>
        session.stopped && armature.location == old(armature.location) && forall b <- bones :: unchanged(b)
      ensures !old(addon.recordLiveMocap) ==> !addon.recordLiveMocap && forall b <- bones ::
        b.keyframes == old(b.keyframes)
    {
      hide Lifecycle.Tick; hide R.Sound; hide StreamSession.Views; hide StreamSession.Flags;
      hide T.PoseApplyTimer.Valid;
      hide StreamSession.Addon.Valid; hide W.Armature.Valid; hide W.AfterApply; hide Writes;
      hide StreamSession.Addon.View;
      hide T.Step;
      armature.posePresent := targetValid;
      TickOutside(EnvOf(s, targetValid));
      Named(armature);
      assert forall k | 0 <= k < |armature.bones| :: armature.bones[k] in armature.bones;
      var _, _ := Tick(s, armature);
      TickedOutside();
      assert forall b <- bones :: b in armature.bones || unchanged(b);
    }

    lemma TickOutside(env: Env)
      requires Valid()
      ensures Bounded(addon.View()) && session.id < |addon.View().sessions|
        && addon.View().record == addon.recordLiveMocap
      ensures var t := Lifecycle.Tick(addon.View(), session.id, env).0;
        && session.id < |t.sessions| && (session.stopped ==> t.sessions[session.id].stopped)
        && (!addon.recordLiveMocap ==> !t.record)
    {
      hide Lifecycle.Tick;
      TickSession(env);
      TickFollows(addon.View(), session.id, env);
    }

    lemma TickedOutside()
      requires addon.Valid() && session in addon.sessions
      ensures session.id < |addon.View().sessions| && addon.View().record == addon.recordLiveMocap
      ensures addon.View().sessions[session.id].stopped == session.stopped
    {
      StreamSession.ViewsAt(addon.sessions, addon.engines);
    }

    lemma Inside()
      requires Valid()
      ensures session in addon.sessions && session.engine in addon.engines && Bounded(addon.View())
    {
      addon.ViewBounded();
    }

    lemma NothingRun(w: World, steps: seq<Step>)
      requires Bounded(w)
      ensures Lifecycle.Run(w, Events(steps[..0], session.id)) == w
    {}

    /** Over any run of its own ticks, with the target setting changing and the target coming and
        going, and of whatever else happens, other sessions' ticks included, the addon ends where
        the machine does; once stopped, the session never moves a bone, an armature or a key
        again; and no key is written until Record is clicked. */
    method Run(steps: seq<Step>)
      requires Valid() && forall i | 0 <= i < |steps| :: Allowed(steps[i], session.id, |targets|)
      modifies addon, addon.sessions, addon.engines
      modifies timer`previousQuaternions, timer`translationOrigin, timer`reportedInvalidTarget, timer`running,
        timer.smoother
      modifies targets`location, targets`posePresent, bones
      ensures Valid() && Bounded(old(addon.View()))
      ensures addon.View() == Lifecycle.Run(old(addon.View()), Events(steps, session.id))
      ensures old(session.stopped) ==>
        session.stopped && (forall a <- targets :: a.location == old(a.location)) && forall b <- bones :: unchanged(b)
      ensures !old(addon.recordLiveMocap) && Other(RecordClicked) !in steps ==>
        !addon.recordLiveMocap && forall b <- bones :: b.keyframes == old(b.keyframes)
    {
      hide Valid; hide StreamSession.Addon.View; hide Lifecycle.Run; hide Next; hide Events; hide EnvOf;
      ghost var before := addon.View();
      Inside();
      NothingRun(before, steps);
      for i := 0 to |steps|
        invariant Valid() && addon.OnlyNewAdded(old(addon.sessions), old(addon.engines))
        invariant addon.View() == Lifecycle.Run(before, Events(steps[..i], session.id))
        invariant old(session.stopped) ==>
          session.stopped && (forall a <- targets :: a.location == old(a.location)) && forall b <- bones :: unchanged(b)
        invariant !old(addon.recordLiveMocap) && Other(RecordClicked) !in steps[..i] ==>
          !addon.recordLiveMocap && forall b <- bones :: b.keyframes == old(b.keyframes)
      {
        assert steps[..i + 1] == steps[..i] + [steps[i]];
        Inside();
        RunOn(before, steps, i, session.id);
        assert forall k | 0 <= k < |addon.engines| :: addon.engines[k] in addon.engines;
        assert forall k | 0 <= k < |addon.sessions| :: addon.sessions[k] in addon.sessions;
        match steps[i]
        case OwnTick(s, target, targetValid) => Callback(s, targets[target], targetValid);
        case Other(e) => Handle(e);
      }
      assert steps[..|steps|] == steps;
    }
  }
}
