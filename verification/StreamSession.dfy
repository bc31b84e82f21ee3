/** The addon's session objects (stream_session.py, stream_operators.py, recording.py): an
    engine, a session, and the settings and active session they share.  Every method moves the
    view of the objects as the lifecycle machine says. */
module StreamSession {
  import opened Prelude
  import opened Lifecycle

  class Engine {
    const id: nat
    /** Whether it has been told to stop. */
    var stopped: bool

    constructor (id: nat, stopped: bool)
      ensures this.id == id && this.stopped == stopped
    {
      this.id, this.stopped := id, stopped;
    }
  }

  class LiveStreamSession {
    const id: nat
    const engine: Engine
    var stopped: bool
    var timerRunning: bool
    var reportedInvalidTarget: bool
    var writes: nat
    var keyedWrites: nat

    constructor (id: nat, engine: Engine)
      ensures this.id == id && this.engine == engine
      ensures View() == SessionState(engine.id, false, true, false, 0, 0)
    {
      this.id, this.engine := id, engine;
      stopped, timerRunning, reportedInvalidTarget, writes, keyedWrites := false, true, false, 0, 0;
    }

    ghost function View(): SessionState
      reads this
    {
      SessionState(engine.id, stopped, timerRunning, reportedInvalidTarget, writes, keyedWrites)
    }

    /** The timer's plan and its call into the pose writer, as far as they get. */
    method Write(planned: bool, keyed: bool)
      modifies this`reportedInvalidTarget, this`writes, this`keyedWrites
      ensures View() == if planned then Written(old(View()), keyed) else old(View()).(reportedInvalid := false)
    {
      reportedInvalidTarget := false;
      if planned {
        writes := writes + 1;
        if keyed { keyedWrites := keyedWrites + 1; }
      }
    }
  }

  ghost function Views(sessions: seq<LiveStreamSession>): seq<SessionState>
    reads sessions
  {
    seq(|sessions|, i requires 0 <= i < |sessions| reads sessions => sessions[i].View())
  }

  ghost function Flags(engines: seq<Engine>): seq<bool>
    reads engines
  {
    seq(|engines|, i requires 0 <= i < |engines| reads engines => engines[i].stopped)
  }

  /** Changing one session changes its view only. */
  lemma OneView(sessions: seq<LiveStreamSession>, k: nat, before: seq<SessionState>)
    requires |before| == |sessions| && k < |sessions|
    requires forall i | 0 <= i < |sessions| && i != k :: sessions[i].View() == before[i]
    ensures Views(sessions) == before[k := sessions[k].View()]
  {}

  lemma OneFlag(engines: seq<Engine>, k: nat, before: seq<bool>)
    requires |before| == |engines| && k < |engines|
    requires forall i | 0 <= i < |engines| && i != k :: engines[i].stopped == before[i]
    ensures Flags(engines) == before[k := engines[k].stopped]
  {}

  lemma ViewsAt(sessions: seq<LiveStreamSession>, engines: seq<Engine>)
    ensures |Views(sessions)| == |sessions| && |Flags(engines)| == |engines|
    ensures forall i | 0 <= i < |sessions| :: Views(sessions)[i] == sessions[i].View()
    ensures forall i | 0 <= i < |engines| :: Flags(engines)[i] == engines[i].stopped
  {}

  lemma ViewsAppend(sessions: seq<LiveStreamSession>, session: LiveStreamSession)
    ensures Views(sessions + [session]) == Views(sessions) + [session.View()]
  {}

  lemma FlagsAppend(engines: seq<Engine>, engine: Engine)
    ensures Flags(engines + [engine]) == Flags(engines) + [engine.stopped]
  {}

  class Addon {
    var lifecycleState: LifecycleState
    var recordLiveMocap: bool
    var animationPlaying: bool
    var activeSession: LiveStreamSession?
    /** Every session and engine created so far. */
    var sessions: seq<LiveStreamSession>
    var engines: seq<Engine>

    ghost predicate Valid()
      reads this`sessions, this`engines, this`activeSession
    {
      && (forall i | 0 <= i < |sessions| :: sessions[i].id == i)
      && (forall i | 0 <= i < |engines| :: engines[i].id == i)
      && (forall i | 0 <= i < |sessions| :: sessions[i].engine in engines)
      && (activeSession != null ==> activeSession in sessions)
    }

    ghost function View(): World
      reads this, sessions, engines
    {
      World(lifecycleState, recordLiveMocap, animationPlaying, Views(sessions),
            if activeSession == null then None else Some(activeSession.id), Flags(engines))
    }

    lemma Members(session: LiveStreamSession)
      requires Valid() && session in sessions
      ensures session.id < |sessions| && sessions[session.id] == session
      ensures forall i | 0 <= i < |sessions| && i != session.id :: sessions[i] != session
    {}

    /** When one session has changed and nothing else, the view has that session replaced. */
    lemma Changed(session: LiveStreamSession, before: World)
      requires Valid() && session in sessions && Bounded(before)
      requires |before.sessions| == |sessions| && before.sessions[session.id].engine == session.engine.id
      requires forall i | 0 <= i < |sessions| && i != session.id :: sessions[i].View() == before.sessions[i]
      requires View().(sessions := before.sessions) == before
      ensures View() == WithSession(before, session.id, session.View()) && Bounded(View())
    {
      ViewBounded();
      OneView(sessions, session.id, before.sessions);
    }

    lemma ViewBounded()
      requires Valid()
      ensures Bounded(View())
    {}

    constructor ()
      ensures Valid() && View() == Lifecycle.INITIAL
    {
      lifecycleState, recordLiveMocap, animationPlaying := Stopped, false, false;
      activeSession, sessions, engines := null, [], [];
    }

    method StopSession(session: LiveStreamSession)
      requires Valid() && session in sessions
      modifies this`recordLiveMocap, session, session.engine
      ensures View() == Lifecycle.StopSession(old(View()), session.id)
    {
      ViewBounded();
      ViewsAt(sessions, engines);
      hide Views; hide Flags;
      ghost var before := View();
      if session.stopped { return; }
      session.stopped := true;
      recordLiveMocap := false;
      session.timerRunning := false;
      session.engine.stopped := true;
      OneView(sessions, session.id, before.sessions);
      OneFlag(engines, session.engine.id, before.engines);
    }

    /** A tick that ends the session. */
    method EndSession(session: LiveStreamSession)
      requires Valid() && session in sessions
      modifies this`recordLiveMocap, this`lifecycleState, session, session.engine
      ensures View() == Fail(old(View()), session.id)
    {
      hide Views; hide Flags; hide Lifecycle.StopSession;
      StopSession(session);
      lifecycleState := Stopped;
    }

    method StopActiveSession()
      requires Valid()
      modifies this`recordLiveMocap, this`activeSession, sessions, engines
      ensures Valid() && View() == StopActive(old(View()))
      ensures activeSession == null
    {
      ViewBounded();
      hide Views; hide Flags; hide Lifecycle.StopSession;
      var session := activeSession;
      activeSession := null;
      if session != null {
        assert View() == old(View()).(active := None);
        StopSession(session);
      }
    }

    method LifecycleLatest(env: Env)
      requires env.frame != NoFrame
      modifies this`lifecycleState
      ensures lifecycleState == AfterFrame(old(lifecycleState), env)
    {
      if lifecycleState == Starting {
        lifecycleState := Streaming;
      }
      if lifecycleState == Reconnecting && env.connectionAtFrame == Connected {
        lifecycleState := Streaming;
      }
    }

    /** The apply timer's tick, up to the call that may raise. */
    method TimerTick(session: LiveStreamSession, env: Env) returns (again: bool, raised: bool)
      requires Valid() && session in sessions
      modifies this`lifecycleState
      modifies session`reportedInvalidTarget, session`writes, session`keyedWrites
      ensures !raised ==> (View(), again) == Lifecycle.TimerTick(old(View()), session.id, env)
      ensures raised ==> (Fail(View(), session.id), false) == Lifecycle.TimerTick(old(View()), session.id, env)
    {
      ViewBounded();
      ViewsAt(sessions, engines);
      hide Views; hide Flags; hide Fail; hide Lifecycle.ApplyFrame;
      if !session.timerRunning { return false, false; }
      if env.frame == NoFrame { return true, false; }
      LifecycleLatest(env);
      assert View() == old(View()).(lifecycle := AfterFrame(old(lifecycleState), env));
      again, raised := ApplyFrame(session, env);
    }

    /** The first frame without a target raises the warning, the next ones say nothing. */
    method WarnInvalidTarget(session: LiveStreamSession)
      requires Valid() && session in sessions
      modifies this`lifecycleState, session`reportedInvalidTarget
      ensures View() == Lifecycle.ApplyFrame(old(View()), session.id,
                                             Env(true, Connected, false, Connected, TargetMissing)).0
    {
      ViewBounded();
      ViewsAt(sessions, engines);
      Members(session);
      hide Views; hide Flags; hide Valid; hide Bounded;
      ghost var before := View();
      if session.reportedInvalidTarget { return; }
      session.reportedInvalidTarget := true;
      lifecycleState := Warning;
      OneView(sessions, session.id, before.sessions);
      ViewBounded();
    }

    method ApplyFrame(session: LiveStreamSession, env: Env) returns (again: bool, raised: bool)
      requires Valid() && session in sessions && env.frame != NoFrame
      modifies this`lifecycleState
      modifies session`reportedInvalidTarget, session`writes, session`keyedWrites
      ensures !raised ==> (View(), again) == Lifecycle.ApplyFrame(old(View()), session.id, env)
      ensures raised ==> (Fail(View(), session.id), false) == Lifecycle.ApplyFrame(old(View()), session.id, env)
    {
      ViewBounded();
      ViewsAt(sessions, engines);
      hide Valid; hide Bounded; hide Fail; hide Views; hide Flags;
      again, raised := true, false;
      if env.frame == TargetMissing {
        WarnInvalidTarget(session);
      } else if env.frame != NoPerson {
        hide WithSession;
        var recovered := session.reportedInvalidTarget;
        WritePlan(session, env);
        again, raised := env.frame == Applies, env.frame != Applies;
        if !raised && recovered { HandleApplyRecovery(); }
      }
    }

    /** Plan and write, as far as the call gets. */
    method WritePlan(session: LiveStreamSession, env: Env)
      requires Valid() && session in sessions
      modifies session`reportedInvalidTarget, session`writes, session`keyedWrites
      ensures var w, s := old(View()), old(session.View());
        View() == WithSession(w, session.id,
                              if env.frame == PlanRaises then s.(reportedInvalid := false) else Written(s, w.record))
    {
      ViewBounded();
      ViewsAt(sessions, engines);
      Members(session);
      hide Views; hide Flags; hide Valid; hide Bounded; hide WithSession;
      ghost var before := View();
      session.Write(env.frame != PlanRaises, recordLiveMocap);
      Changed(session, before);
    }

    method HandleApplyRecovery()
      modifies this`lifecycleState
      ensures lifecycleState ==
        if old(lifecycleState) != Warning then old(lifecycleState) else if recordLiveMocap then Recording else Streaming
    {
      if lifecycleState != Warning { return; }
      lifecycleState := if recordLiveMocap then Recording else Streaming;
    }

    /** A timer callback: whatever the engine, the client, the target and the apply call do,
        the addon moves as the lifecycle machine says. */
    method Tick(session: LiveStreamSession, env: Env) returns (again: bool)
      requires Valid() && session in sessions
      modifies this`lifecycleState, this`recordLiveMocap, session, session.engine
      ensures (View(), again) == Lifecycle.Tick(old(View()), session.id, env)
    {
      ViewBounded();
      ViewsAt(sessions, engines);
      hide Views; hide Flags; hide Fail; hide Lifecycle.TimerTick;
      if session.stopped { return false; }
      if !env.engineRunning {
        EndSession(session);
        return false;
      }
      if env.connection == Reconnection && (lifecycleState == Streaming || lifecycleState == Recording) {
        lifecycleState := Reconnecting;
      }
      assert View() == old(View()).(lifecycle := AfterCheck(old(lifecycleState), env));
      if env.clientError {
        EndSession(session);
        return false;
      }
      var raised: bool;
      again, raised := TimerTick(session, env);
      if raised {
        EndSession(session);
        again := false;
      }
    }

    /** Sessions and engines are only ever added, and then fresh ones. */
    twostate predicate OnlyNewAdded(hadSessions: seq<LiveStreamSession>, hadEngines: seq<Engine>)
      reads this
    {
      && hadSessions <= sessions && hadEngines <= engines
      && (forall s <- sessions :: s in hadSessions || fresh(s))
      && (forall e <- engines :: e in hadEngines || fresh(e))
    }

    /** Launch an engine process. */
    method LaunchEngine() returns (engine: Engine)
      requires Valid()
      modifies this`engines
      ensures Valid() && engine in engines && fresh(engine) && engines == old(engines) + [engine]
      ensures View() == old(View()).(engines := old(View()).engines + [false]) && engine.id == |old(engines)|
    {
      engine := new Engine(|engines|, false);
      engines := engines + [engine];
      FlagsAppend(old(engines), engine);
    }

    /** Register the tick of a new session and make it the active one. */
    method ActivateSession(engine: Engine)
      requires Valid() && engine in engines
      modifies this`sessions, this`activeSession
      ensures Valid() && fresh(activeSession) && sessions == old(sessions) + [activeSession]
      ensures View() == old(View()).(
        sessions := old(View()).sessions + [SessionState(engine.id, false, true, false, 0, 0)],
        active := Some(|old(sessions)|))
    {
      var session := new LiveStreamSession(|sessions|, engine);
      sessions := sessions + [session];
      activeSession := session;
      ViewsAppend(old(sessions), session);
    }

    /** Start Stream, with what the steps that can fail did. */
    method StartLiveStream(outcome: StartOutcome) returns (finished: bool)
      requires Valid()
      modifies this, sessions, engines
      ensures Valid() && View() == StartStream(old(View()), outcome)
      ensures finished <==> outcome == Started
      ensures OnlyNewAdded(old(sessions), old(engines))
    {
      ViewBounded();
      hide Valid; hide Bounded; hide Views; hide Flags; hide StopActive;
      finished := false;
      if outcome == BackendError || outcome == SetupIssue {
        lifecycleState := Stopped;
        return;
      }
      BeginStart();
      if outcome == FailBeforeEngine {
        lifecycleState := Stopped;
      } else {
        finished := RunEngine(outcome);
      }
    }

    /** A fresh stream ends the one before and never inherits its recording. */
    method BeginStart()
      requires Valid()
      modifies this`lifecycleState, this`recordLiveMocap, this`activeSession, sessions, engines
      ensures Valid() && View() == StopActive(old(View())).(record := false, lifecycle := Starting)
    {
      hide Bounded; hide Views; hide Flags; hide StopActive;
      StopActiveSession();
      recordLiveMocap := false;
      lifecycleState := Starting;
    }

    /** From the launched engine to the registered session; a failure stops the engine. */
    method RunEngine(outcome: StartOutcome) returns (finished: bool)
      requires Valid()
      modifies this`lifecycleState, this`sessions, this`activeSession, this`engines
      ensures Valid() && OnlyNewAdded(old(sessions), old(engines))
      ensures var w := old(View());
        View() == if outcome == FailAfterEngine then w.(lifecycle := Stopped, engines := w.engines + [true])
          else w.(sessions := w.sessions + [SessionState(|w.engines|, false, true, false, 0, 0)],
                  active := Some(|w.sessions|), engines := w.engines + [false])
      ensures finished <==> outcome != FailAfterEngine
    {
      ViewsAt(sessions, engines);
      hide Views; hide Flags; hide Valid;
      var engine := LaunchEngine();
      finished := outcome != FailAfterEngine;
      if finished {
        ActivateSession(engine);
      } else {
        StopEngine(engine);
        lifecycleState := Stopped;
      }
    }

    method StopEngine(engine: Engine)
      requires Valid() && engine in engines
      modifies engine
      ensures |old(View()).engines| == |engines| && engine.id < |engines|
      ensures View() == old(View()).(engines := old(View()).engines[engine.id := true])
    {
      ViewsAt(sessions, engines);
      ghost var before := View();
      engine.stopped := true;
      OneFlag(engines, engine.id, before.engines);
    }

    method StopLiveStream()
      requires Valid()
      modifies this`lifecycleState, this`recordLiveMocap, this`animationPlaying, this`activeSession, sessions, engines
      ensures Valid() && View() == StopStream(old(View()))
    {
      ViewBounded();
      StopActiveSession();
      lifecycleState := Stopped;
      recordLiveMocap := false;
      SetAnimationPlaying(false);
    }

    method StartRecording()
      modifies this`recordLiveMocap, this`lifecycleState, this`animationPlaying
      ensures View() == Lifecycle.StartRecording(old(View()))
    {
      recordLiveMocap := true;
      lifecycleState := Recording;
      SetAnimationPlaying(true);
    }

    method StopRecording()
      modifies this`recordLiveMocap, this`lifecycleState, this`animationPlaying
      ensures View() == Lifecycle.StopRecording(old(View()))
    {
      recordLiveMocap := false;
      lifecycleState := Streaming;
      SetAnimationPlaying(false);
    }

    /** Only a toggle is available to start playing. */
    method ToggleAnimation()
      modifies this`animationPlaying
      ensures animationPlaying == AnimationPlay(old(animationPlaying))
    {
      animationPlaying := !animationPlaying;
    }

    method SetAnimationPlaying(playing: bool)
      modifies this`animationPlaying
      ensures animationPlaying == playing
    {
      if playing && !animationPlaying { ToggleAnimation(); return; }
      if !playing && animationPlaying { animationPlaying := false; }
    }

    /** Whatever happens on the main thread: an operator behind its poll, or a timer callback. */
    method Handle(e: Event)
      requires Valid()
      modifies this, sessions, engines
      ensures Valid() && View() == Next(old(View()), e)
      ensures OnlyNewAdded(old(sessions), old(engines))
    {
      ViewBounded();
      match e
      case StartClicked(ready, outcome) =>
        if lifecycleState == Stopped && ready { var _ := StartLiveStream(outcome); }
      case StopClicked =>
        if lifecycleState != Stopped { StopLiveStream(); }
      case RecordClicked =>
        if lifecycleState == Streaming { StartRecording(); }
      case StopRecordingClicked =>
        if lifecycleState == Recording { StopRecording(); }
      case Ticked(i, env) =>
        if i < |sessions| { var _ := Tick(sessions[i], env); }
      case PlaybackChanged(playing) =>
        animationPlaying := playing;
    }
  }

  /** A whole run of the addon's objects ends in the world the machine reaches, and in a safe
      one. */
  method RunAddon(events: seq<Event>) returns (addon: Addon)
    ensures addon.Valid() && addon.View() == Run(Lifecycle.INITIAL, events) && Safe(addon.View())
  {
    addon := new Addon();
    for i := 0 to |events|
      invariant fresh(addon) && fresh(addon.sessions) && fresh(addon.engines) && addon.Valid()
      invariant addon.View() == Run(Lifecycle.INITIAL, events[..i])
    {
      assert events[..i + 1][..i] == events[..i];
      addon.Handle(events[i]);
      assert forall k | 0 <= k < |addon.engines| :: addon.engines[k] in addon.engines;
    }
    assert events[..|events|] == events;
    EveryRunIsSafe(events);
  }
}
