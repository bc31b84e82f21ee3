/** The live-stream lifecycle as a state machine: the Start, Stop and Record operators behind
    their poll gates, and the timer ticks of every session, under any behaviour of the engine,
    the client, the target and the apply call (stream_session.py, stream_operators.py,
    recording.py, capture_readiness.py, ui_state.py). */
module Lifecycle {
  import opened Prelude

  datatype LifecycleState = Stopped | Starting | Streaming | Recording | Reconnecting | Warning

  /** One live stream: whether it was stopped, whether its timer runs, whether it reported a
      missing target, and how often it asked for a plan to be written, with and without keys. */
  datatype SessionState = SessionState(
    engine: nat,
    stopped: bool,
    timerRunning: bool,
    reportedInvalid: bool,
    writes: nat,
    keyedWrites: nat)

  /** Everything the operators and ticks share.  `engines[e]` is whether engine `e`, launched
      successfully, has been told to stop. */
  datatype World = World(
    lifecycle: LifecycleState,
    record: bool,
    playing: bool,
    sessions: seq<SessionState>,
    active: Option<nat>,
    engines: seq<bool>)

  const INITIAL := World(Stopped, false, false, [], None, [])

  predicate Bounded(w: World) {
    && (w.active.Some? ==> w.active.value < |w.sessions|)
    && forall i | 0 <= i < |w.sessions| :: w.sessions[i].engine < |w.engines|
  }

  /* ---- playback ---- */

  /** The play operator is a toggle. */
  function AnimationPlay(playing: bool): bool { !playing }

  function SetAnimationPlaying(current: bool, playing: bool): bool {
    if playing && !current then AnimationPlay(current) else if !playing && current then false else current
  }

  /** Guarded, the toggle always reaches the requested state, however often it is asked for. */
  lemma PlayingIsIdempotent(current: bool, playing: bool)
    ensures SetAnimationPlaying(current, playing) == playing
    ensures SetAnimationPlaying(SetAnimationPlaying(current, playing), playing) == playing
  {}

  /* ---- stopping ---- */

  function StopSession(w: World, i: nat): (r: World)
    requires Bounded(w) && i < |w.sessions|
    ensures Bounded(r) && |r.sessions| == |w.sessions| && |r.engines| == |w.engines|
  {
    var s := w.sessions[i];
    if s.stopped then w
    else w.(record := false, sessions := w.sessions[i := s.(stopped := true, timerRunning := false)],
            engines := w.engines[s.engine := true])
  }

  function StopActive(w: World): (r: World)
    requires Bounded(w)
    ensures Bounded(r) && |r.sessions| == |w.sessions| && |r.engines| == |w.engines|
  {
    if w.active.None? then w else StopSession(w.(active := None), w.active.value)
  }

  /* ---- a tick ---- */

  datatype Connection = Disconnected | Connecting | Connected | Reconnection

  /** What the timer finds: no frame, a frame without a person, a frame while the target is
      missing, or a frame that is planned and written, where either may raise. */
  datatype FrameCase = NoFrame | NoPerson | TargetMissing | PlanRaises | WriteRaises | Applies

  /** The environment of one tick.  The client's connection state is read twice. */
  datatype Env = Env(
    engineRunning: bool,
    connection: Connection,
    clientError: bool,
    connectionAtFrame: Connection,
    frame: FrameCase)

  function AfterCheck(lifecycle: LifecycleState, env: Env): LifecycleState {
    var streams := lifecycle == Streaming || lifecycle == Recording;
    if env.connection == Reconnection && streams then Reconnecting else lifecycle
  }

  /** The first frames advance the lifecycle. */
  function AfterFrame(lifecycle: LifecycleState, env: Env): LifecycleState {
    if lifecycle == Starting then Streaming
    else if lifecycle == Reconnecting && env.connectionAtFrame == Connected then Streaming
    else lifecycle
  }

  function Fail(w: World, i: nat): (r: World)
    requires Bounded(w) && i < |w.sessions|
    ensures Bounded(r)
  {
    StopSession(w, i).(lifecycle := Stopped)
  }

  /** The world with session `i` replaced by one of the same engine. */
  function WithSession(w: World, i: nat, s: SessionState): (r: World)
    requires Bounded(w) && i < |w.sessions| && s.engine == w.sessions[i].engine
    ensures Bounded(r)
  {
    w.(sessions := w.sessions[i := s])
  }

  /** A frame handed to the apply timer. */
  function ApplyFrame(w: World, i: nat, env: Env): (r: (World, bool))
    requires Bounded(w) && i < |w.sessions| && env.frame != NoFrame
    ensures Bounded(r.0)
  {
    var s := w.sessions[i];
    if env.frame == NoPerson then (w, true)
    else if env.frame == TargetMissing then
      if s.reportedInvalid then (w, true)
      else (WithSession(w, i, s.(reportedInvalid := true)).(lifecycle := Warning), true)
    else if env.frame == PlanRaises then (Fail(WithSession(w, i, s.(reportedInvalid := false)), i), false)
    else if env.frame == WriteRaises then (Fail(WithSession(w, i, Written(s, w.record)), i), false)
    else
      var lifecycle :=
        if s.reportedInvalid && w.lifecycle == Warning then if w.record then Recording else Streaming else w.lifecycle;
      (WithSession(w, i, Written(s, w.record)).(lifecycle := lifecycle), true)
  }

  /** The timer's own tick, once the lifecycle checks are done. */
  function TimerTick(w: World, i: nat, env: Env): (r: (World, bool))
    requires Bounded(w) && i < |w.sessions|
    ensures Bounded(r.0)
  {
    if !w.sessions[i].timerRunning then (w, false)
    else if env.frame == NoFrame then (w, true)
    else ApplyFrame(w.(lifecycle := AfterFrame(w.lifecycle, env)), i, env)
  }

  function Written(s: SessionState, keyed: bool): SessionState {
    s.(reportedInvalid := false, writes := s.writes + 1, keyedWrites := s.keyedWrites + if keyed then 1 else 0)
  }

  /** One tick of session `i`; the second result is whether it asks for another. */
  function Tick(w: World, i: nat, env: Env): (r: (World, bool))
    requires Bounded(w) && i < |w.sessions|
    ensures Bounded(r.0)
  {
    if w.sessions[i].stopped then (w, false)
    else if !env.engineRunning then (Fail(w, i), false)
    else
      var checked := w.(lifecycle := AfterCheck(w.lifecycle, env));
      if env.clientError then (Fail(checked, i), false) else TimerTick(checked, i, env)
  }

  /* ---- the operators ---- */

  datatype StartOutcome = BackendError | SetupIssue | FailBeforeEngine | FailAfterEngine | Started

  function StartStream(w: World, outcome: StartOutcome): (r: World)
    requires Bounded(w)
    ensures Bounded(r)
  {
    if outcome == BackendError || outcome == SetupIssue then w.(lifecycle := Stopped)
    else
      var t := StopActive(w).(record := false, lifecycle := Starting);
      if outcome == FailBeforeEngine then t.(lifecycle := Stopped)
      else if outcome == FailAfterEngine then t.(lifecycle := Stopped, engines := t.engines + [true])
      else
        t.(sessions := t.sessions + [SessionState(|t.engines|, false, true, false, 0, 0)],
           active := Some(|t.sessions|), engines := t.engines + [false])
  }

  function StopStream(w: World): World
    requires Bounded(w)
  {
    StopActive(w).(lifecycle := Stopped, record := false, playing := SetAnimationPlaying(w.playing, false))
  }

  function StartRecording(w: World): World {
    w.(record := true, lifecycle := Recording, playing := SetAnimationPlaying(w.playing, true))
  }

  function StopRecording(w: World): World {
    w.(record := false, lifecycle := Streaming, playing := SetAnimationPlaying(w.playing, false))
  }

  /** Anything that can happen on the main thread.  A start comes with what its poll found
      besides the lifecycle state, and the user may play or pause the timeline at any time. */
  datatype Event =
    | StartClicked(ready: bool, outcome: StartOutcome)
    | StopClicked
    | RecordClicked
    | StopRecordingClicked
    | Ticked(session: nat, env: Env)
    | PlaybackChanged(playing: bool)

  /** An operator runs only when its poll lets it. */
  function Next(w: World, e: Event): (r: World)
    requires Bounded(w)
    ensures Bounded(r)
  {
    match e
    case StartClicked(ready, outcome) => if w.lifecycle == Stopped && ready then StartStream(w, outcome) else w
    case StopClicked => if w.lifecycle != Stopped then StopStream(w) else w
    case RecordClicked => if w.lifecycle == Streaming then StartRecording(w) else w
    case StopRecordingClicked => if w.lifecycle == Recording then StopRecording(w) else w
    case Ticked(i, env) => if i < |w.sessions| then Tick(w, i, env).0 else w
    case PlaybackChanged(playing) => w.(playing := playing)
  }

  function Run(w: World, events: seq<Event>): (r: World)
    requires Bounded(w)
    ensures Bounded(r)
  {
    if events == [] then w
    else
      Next(Run(w, events[..|events| - 1]), events[|events| - 1])
  }

  /* ---- invariants of every run ---- */

  /** The active session exists and was not stopped. */
  predicate Live(w: World)
    requires Bounded(w)
  {
    w.active.Some? && !w.sessions[w.active.value].stopped
  }

  /** What the record flag promises. */
  predicate RecordInvariant(w: World)
    requires Bounded(w)
  {
    && (w.lifecycle == Recording ==> w.record)
    && (w.lifecycle == Stopped || w.lifecycle == Starting ==> !w.record)
    && (w.record ==> Live(w))
    && (w.lifecycle != Stopped <==> Live(w))
  }

  /** At most one session runs, and it owns the only engine that may still run. */
  predicate OwnershipInvariant(w: World)
    requires Bounded(w)
  {
    && (forall i | 0 <= i < |w.sessions| :: !w.sessions[i].stopped ==> w.active == Some(i))
    && (forall i | 0 <= i < |w.sessions| :: w.sessions[i].timerRunning == !w.sessions[i].stopped)
    && (forall i | 0 <= i < |w.sessions| :: w.sessions[i].stopped ==> w.engines[w.sessions[i].engine])
    && (forall i, j | 0 <= i < j < |w.sessions| :: w.sessions[i].engine != w.sessions[j].engine)
    && (forall e | 0 <= e < |w.engines| :: !w.engines[e] ==> Live(w) && w.sessions[w.active.value].engine == e)
  }

  /** A warning stands exactly as long as the live session is without its target. */
  predicate WarningInvariant(w: World)
    requires Bounded(w)
  {
    Live(w) ==> (w.lifecycle == Warning <==> w.sessions[w.active.value].reportedInvalid)
  }

  predicate Safe(w: World) { Bounded(w) && RecordInvariant(w) && OwnershipInvariant(w) && WarningInvariant(w) }

  lemma StopSessionKeeps(w: World, i: nat)
    requires Bounded(w) && OwnershipInvariant(w) && i < |w.sessions|
    ensures Bounded(StopSession(w, i)) && OwnershipInvariant(StopSession(w, i))
    ensures !w.sessions[i].stopped ==> !Live(StopSession(w, i))
  {}

  lemma FailKeeps(w: World, i: nat)
    requires Bounded(w) && OwnershipInvariant(w) && i < |w.sessions| && !w.sessions[i].stopped
    ensures Safe(Fail(w, i))
  {
    StopSessionKeeps(w, i);
  }

  lemma StopActiveKeeps(w: World)
    requires Bounded(w) && OwnershipInvariant(w)
    ensures var t := StopActive(w);
      && Bounded(t) && OwnershipInvariant(t) && !Live(t) && t.active == None
      && |t.sessions| == |w.sessions| && |t.engines| == |w.engines|
  {
    if w.active.Some? { StopSessionKeeps(w, w.active.value); }
  }

  lemma StartKeeps(w: World, outcome: StartOutcome)
    requires Safe(w) && w.lifecycle == Stopped
    ensures Safe(StartStream(w, outcome))
  {
    hide StopActive;
    StopActiveKeeps(w);
  }

  lemma StopKeeps(w: World)
    requires Safe(w)
    ensures Safe(StopStream(w))
  {
    hide StopActive;
    StopActiveKeeps(w);
  }

  lemma TickKeeps(w: World, i: nat, env: Env)
    requires Safe(w) && i < |w.sessions|
    ensures Safe(Tick(w, i, env).0)
  {
    hide Fail;
    if !w.sessions[i].stopped {
      var checked := w.(lifecycle := AfterCheck(w.lifecycle, env));
      if !env.engineRunning { FailKeeps(w, i); }
      else if env.clientError { FailKeeps(checked, i); }
      else { TimerTickKeeps(checked, i, env); }
    }
  }

  /** Replacing a session by one that differs in nothing about ownership. */
  lemma WithSessionKeeps(w: World, i: nat, s: SessionState)
    requires Bounded(w) && OwnershipInvariant(w) && i < |w.sessions|
    requires var o := w.sessions[i]; s.engine == o.engine && s.stopped == o.stopped && s.timerRunning == o.timerRunning
    ensures OwnershipInvariant(WithSession(w, i, s)) && Live(WithSession(w, i, s)) == Live(w)
  {}

  lemma AnyLifecycle(w: World, lifecycle: LifecycleState)
    requires Bounded(w) && OwnershipInvariant(w)
    ensures OwnershipInvariant(w.(lifecycle := lifecycle))
  {}

  /** The live session moving on to another state of a running stream. */
  lemma MovesOn(w: World, i: nat, s: SessionState, lifecycle: LifecycleState)
    requires Safe(w) && i < |w.sessions| && !w.sessions[i].stopped
    requires var o := w.sessions[i]; s.engine == o.engine && !s.stopped && s.timerRunning == o.timerRunning
    requires lifecycle != Stopped && (lifecycle == Recording ==> w.record) && (lifecycle == Starting ==> !w.record)
    requires lifecycle == Warning <==> s.reportedInvalid
    ensures Safe(WithSession(w, i, s).(lifecycle := lifecycle))
  {
    OnlyLive(w, i);
    WithSessionKeeps(w, i, s);
    AnyLifecycle(WithSession(w, i, s), lifecycle);
    hide OwnershipInvariant;
  }

  lemma RaisingKeeps(w: World, i: nat, s: SessionState, lifecycle: LifecycleState)
    requires Safe(w) && i < |w.sessions| && !w.sessions[i].stopped
    requires var o := w.sessions[i]; s.engine == o.engine && !s.stopped && s.timerRunning == o.timerRunning
    ensures Safe(Fail(WithSession(w.(lifecycle := lifecycle), i, s), i))
  {
    hide Fail;
    var t := w.(lifecycle := lifecycle);
    AnyLifecycle(w, lifecycle);
    WithSessionKeeps(t, i, s);
    FailKeeps(WithSession(t, i, s), i);
  }

  lemma TimerTickKeeps(w: World, i: nat, env: Env)
    requires Safe(w) && i < |w.sessions| && !w.sessions[i].stopped
    ensures Safe(TimerTick(w, i, env).0)
  {
    OnlyLive(w, i);
    hide Fail; hide Safe; hide WithSession;
    var s, lifecycle := w.sessions[i], AfterFrame(w.lifecycle, env);
    var r := TimerTick(w, i, env).0;
    SessionItself(w, i, lifecycle);
    if env.frame == NoFrame {
    } else if env.frame == NoPerson || (env.frame == TargetMissing && s.reportedInvalid) {
      MovesOn(w, i, s, lifecycle);
    } else if env.frame == TargetMissing {
      MovesOn(w, i, s.(reportedInvalid := true), Warning);
      SessionThenLifecycle(w, i, s.(reportedInvalid := true), lifecycle);
    } else if env.frame == PlanRaises {
      RaisingKeeps(w, i, s.(reportedInvalid := false), lifecycle);
    } else if env.frame == WriteRaises {
      RaisingKeeps(w, i, Written(s, w.record), lifecycle);
    } else {
      MovesOn(w, i, Written(s, w.record), r.lifecycle);
      SessionThenLifecycle(w, i, Written(s, w.record), lifecycle);
    }
  }

  lemma SessionItself(w: World, i: nat, lifecycle: LifecycleState)
    requires Bounded(w) && i < |w.sessions|
    ensures WithSession(w, i, w.sessions[i]).(lifecycle := lifecycle) == w.(lifecycle := lifecycle)
  {
    assert w.sessions[i := w.sessions[i]] == w.sessions;
  }

  lemma SessionThenLifecycle(w: World, i: nat, s: SessionState, lifecycle: LifecycleState)
    requires Bounded(w) && i < |w.sessions| && s.engine == w.sessions[i].engine
    ensures forall l ::
      WithSession(w.(lifecycle := lifecycle), i, s).(lifecycle := l) == WithSession(w, i, s).(lifecycle := l)
  {}

  lemma OnlyLive(w: World, i: nat)
    requires Safe(w) && i < |w.sessions| && !w.sessions[i].stopped
    ensures Bounded(w) && w.active == Some(i) && Live(w) && w.sessions[i].timerRunning && w.lifecycle != Stopped
    ensures (w.lifecycle == Recording ==> w.record) && (w.lifecycle == Starting ==> !w.record)
    ensures w.lifecycle == Warning <==> w.sessions[i].reportedInvalid
  {}

  lemma NextKeeps(w: World, e: Event)
    requires Safe(w)
    ensures Safe(Next(w, e))
  {
    hide Tick; hide StartStream; hide StopStream;
    match e
    case StartClicked(ready, outcome) => if w.lifecycle == Stopped && ready { StartKeeps(w, outcome); }
    case StopClicked => StopKeeps(w);
    case Ticked(i, env) => if i < |w.sessions| { TickKeeps(w, i, env); }
    case _ =>
  }

  /** Every run of gated operators and ticks keeps the record flag, the lifecycle and the
      sessions in step. */
  lemma {:induction false} EveryRunIsSafe(events: seq<Event>)
    ensures Safe(Run(INITIAL, events))
  {
    hide Next; hide Safe;
    if events == [] {
      InitialIsSafe();
    } else {
      EveryRunIsSafe(events[..|events| - 1]);
      NextKeeps(Run(INITIAL, events[..|events| - 1]), events[|events| - 1]);
    }
  }

  lemma InitialIsSafe()
    ensures Safe(INITIAL) && Bounded(INITIAL)
  {}

  /* ---- what a stopped session can still do ---- */

  /** Stopping twice is stopping once. */
  lemma StopIsIdempotent(w: World, i: nat)
    requires Bounded(w) && i < |w.sessions|
    ensures Bounded(StopSession(w, i)) && i < |StopSession(w, i).sessions|
    ensures StopSession(StopSession(w, i), i) == StopSession(w, i)
  {}

  /** No session has more keyed writes than before, a new one none. */
  predicate NoNewKeys(before: seq<SessionState>, after: seq<SessionState>) {
    && |before| <= |after|
    && forall i | 0 <= i < |after| :: after[i].keyedWrites == if i < |before| then before[i].keyedWrites else 0
  }

  /** What every step keeps: stopped sessions stay as they are, and without the flag nothing is
      keyed; only `mayRecord` steps set the flag. */
  predicate Follows(w: World, t: World, mayRecord: bool) {
    && |w.sessions| <= |t.sessions|
    && (forall i | 0 <= i < |w.sessions| && w.sessions[i].stopped :: t.sessions[i] == w.sessions[i])
    && (!w.record ==> NoNewKeys(w.sessions, t.sessions) && (!mayRecord ==> !t.record))
  }

  lemma FollowsTwice(u: World, v: World, w: World)
    requires Follows(u, v, false) && Follows(v, w, false)
    ensures Follows(u, w, false)
  {}

  lemma StopSessionFollows(w: World, i: nat)
    requires Bounded(w) && i < |w.sessions|
    ensures Follows(w, StopSession(w, i), false)
  {}

  lemma StopActiveFollows(w: World)
    requires Bounded(w)
    ensures Follows(w, StopActive(w), false)
  {
    hide StopSession;
    if w.active.Some? { StopSessionFollows(w.(active := None), w.active.value); }
  }

  lemma FailFollows(w: World, i: nat)
    requires Bounded(w) && i < |w.sessions|
    ensures Follows(w, Fail(w, i), false)
  {
    hide StopSession;
    StopSessionFollows(w, i);
  }

  lemma WithSessionFollows(w: World, i: nat, s: SessionState, lifecycle: LifecycleState)
    requires Bounded(w) && i < |w.sessions| && s.engine == w.sessions[i].engine
    requires !w.sessions[i].stopped && (!w.record ==> s.keyedWrites == w.sessions[i].keyedWrites)
    ensures Follows(w, WithSession(w, i, s).(lifecycle := lifecycle), false)
  {}

  lemma SameFollows(w: World, lifecycle: LifecycleState)
    ensures Follows(w, w.(lifecycle := lifecycle), false)
  {}

  lemma TimerTickFollows(w: World, i: nat, env: Env)
    requires Bounded(w) && i < |w.sessions| && !w.sessions[i].stopped
    ensures Follows(w, TimerTick(w, i, env).0, false)
  {
    hide Fail; hide Follows; hide WithSession;
    var r := TimerTick(w, i, env).0;
    var s, lifecycle := w.sessions[i], AfterFrame(w.lifecycle, env);
    var t := w.(lifecycle := lifecycle);
    SameFollows(w, w.lifecycle);
    SameFollows(w, lifecycle);
    if env.frame == TargetMissing {
      WithSessionFollows(t, i, s.(reportedInvalid := true), Warning);
      FollowsTwice(w, t, r);
    }
    if env.frame == PlanRaises { RaisedFollows(t, i, s.(reportedInvalid := false)); FollowsTwice(w, t, r); }
    if env.frame == WriteRaises { RaisedFollows(t, i, Written(s, t.record)); FollowsTwice(w, t, r); }
    if env.frame == Applies {
      WithSessionFollows(t, i, Written(s, t.record), r.lifecycle);
      FollowsTwice(w, t, r);
    }
  }

  lemma RaisedFollows(w: World, i: nat, s: SessionState)
    requires Bounded(w) && i < |w.sessions| && s.engine == w.sessions[i].engine
    requires !w.sessions[i].stopped && (!w.record ==> s.keyedWrites == w.sessions[i].keyedWrites)
    ensures Follows(w, Fail(WithSession(w, i, s), i), false)
  {
    hide Fail; hide Follows;
    var t := WithSession(w, i, s);
    WithSessionFollows(w, i, s, w.lifecycle);
    FailFollows(t, i);
    FollowsTwice(w, t, Fail(t, i));
  }

  lemma TickFollows(w: World, i: nat, env: Env)
    requires Bounded(w) && i < |w.sessions|
    ensures Follows(w, Tick(w, i, env).0, false)
  {
    hide Fail; hide Follows; hide TimerTick;
    var checked := w.(lifecycle := AfterCheck(w.lifecycle, env));
    SameFollows(w, w.lifecycle);
    SameFollows(w, checked.lifecycle);
    FailFollows(w, i);
    FailFollows(checked, i);
    if !w.sessions[i].stopped { TimerTickFollows(checked, i, env); }
    var last := if env.clientError then Fail(checked, i)
                else if w.sessions[i].stopped then w else TimerTick(checked, i, env).0;
    FollowsTwice(w, checked, last);
  }

  lemma StartFollows(w: World, outcome: StartOutcome)
    requires Bounded(w)
    ensures Follows(w, StartStream(w, outcome), false)
  {
    hide StopActive;
    StopActiveFollows(w);
  }

  lemma NextFollows(w: World, e: Event)
    requires Bounded(w)
    ensures Follows(w, Next(w, e), e == RecordClicked)
  {
    hide Tick; hide StartStream; hide StopActive;
    StopActiveFollows(w);
    match e
    case StartClicked(ready, outcome) => StartFollows(w, outcome);
    case Ticked(i, env) => if i < |w.sessions| { TickFollows(w, i, env); }
    case _ =>
  }

  /** A stopped session never asks for another tick and, whatever happens afterwards, never
      writes a pose or a keyframe again. */
  lemma {:induction false} StoppedForGood(w: World, events: seq<Event>, i: nat, env: Env)
    requires Bounded(w) && i < |w.sessions| && w.sessions[i].stopped
    ensures Tick(w, i, env) == (w, false)
    ensures i < |Run(w, events).sessions| && Run(w, events).sessions[i] == w.sessions[i]
  {
    hide Next;
    if events != [] {
      StoppedForGood(w, events[..|events| - 1], i, env);
      NextFollows(Run(w, events[..|events| - 1]), events[|events| - 1]);
    }
  }

  /* ---- recording ---- */

  predicate Asked(events: seq<Event>) { RecordClicked in events }

  /** A new stream never inherits recording: from any state with the flag off, through any
      number of streams that stop, fail or start, no keyframe is written until Record is
      clicked. */
  lemma {:induction false} NoKeysUnasked(w: World, events: seq<Event>)
    requires Bounded(w) && !w.record && !Asked(events)
    ensures !Run(w, events).record && NoNewKeys(w.sessions, Run(w, events).sessions)
  {
    hide Next;
    if events != [] {
      var before, last := events[..|events| - 1], events[|events| - 1];
      assert events == before + [last];
      NoKeysUnasked(w, before);
      NextFollows(Run(w, before), last);
    }
  }

  /** And every start, whatever its outcome, leaves the flag off. */
  lemma StartClearsRecording(w: World, outcome: StartOutcome)
    requires Safe(w) && w.lifecycle == Stopped
    ensures !StartStream(w, outcome).record
  {}

  /* ---- what the operators and ticks do ---- */

  /** Record starts a recording from a running stream, and only from there. */
  lemma RecordClickedExactly(w: World)
    requires Safe(w)
    ensures var t := Next(w, RecordClicked);
      if w.lifecycle == Streaming then
        && t.record && t.lifecycle == Recording && t.playing
        && t.sessions == w.sessions && t.active == w.active && t.engines == w.engines
      else t == w
  {}

  /** Stop Recording ends it, and from then on no key is written until Record is clicked again. */
  lemma StopRecordingClickedExactly(w: World, events: seq<Event>)
    requires Safe(w)
    ensures var t := Next(w, StopRecordingClicked);
      if w.lifecycle == Recording then
        && !t.record && t.lifecycle == Streaming && !t.playing
        && t.sessions == w.sessions && t.active == w.active && t.engines == w.engines
        && (!Asked(events) ==> !Run(t, events).record && NoNewKeys(w.sessions, Run(t, events).sessions))
      else t == w
  {
    hide Run;
    if w.lifecycle == Recording && !Asked(events) { NoKeysUnasked(Next(w, StopRecordingClicked), events); }
  }

  /** Playing or pausing by hand changes the playback and nothing else. */
  lemma PlaybackChangedExactly(w: World, playing: bool)
    requires Safe(w)
    ensures var t := Next(w, PlaybackChanged(playing));
      && t.playing == playing && t.lifecycle == w.lifecycle && t.record == w.record
      && t.sessions == w.sessions && t.active == w.active && t.engines == w.engines
  {}

  /** Session `i` has been stopped, its timer with it, and its engine told to stop; every other
      session and engine is as before. */
  predicate Ended(w: World, t: World, i: nat)
    requires Bounded(w) && i < |w.sessions|
  {
    && |t.sessions| == |w.sessions| && |t.engines| == |w.engines|
    && t.sessions[i].stopped && !t.sessions[i].timerRunning && t.engines[w.sessions[i].engine]
    && t.sessions[i].engine == w.sessions[i].engine
    && (forall j | 0 <= j < |w.sessions| && j != i :: t.sessions[j] == w.sessions[j])
    && (forall e | 0 <= e < |w.engines| && e != w.sessions[i].engine :: t.engines[e] == w.engines[e])
  }

  /** Stop ends the active session, the recording and the playback, unless all is stopped. */
  lemma StopClickedExactly(w: World)
    requires Safe(w)
    ensures var t := Next(w, StopClicked);
      if w.lifecycle != Stopped then
        && t.lifecycle == Stopped && !t.record && !t.playing && t.active == None
        && w.active.Some? && Ended(w, t, w.active.value)
        && t.sessions[w.active.value].writes == w.sessions[w.active.value].writes
        && t.sessions[w.active.value].keyedWrites == w.sessions[w.active.value].keyedWrites
      else t == w
  {}

  /** Start, from the stopped state, when everything is ready: the new session runs with a new
      engine and is the active one, and nothing else runs.  A start that fails leaves all
      stopped, the engine too that it may have launched. */
  lemma StartClickedExactly(w: World, ready: bool, outcome: StartOutcome)
    requires Safe(w)
    ensures var t := Next(w, StartClicked(ready, outcome));
      if w.lifecycle != Stopped || !ready then t == w
      else
        && !t.record && t.playing == w.playing
        && |t.sessions| >= |w.sessions| && (forall j | 0 <= j < |w.sessions| :: t.sessions[j] == w.sessions[j])
        && |t.engines| >= |w.engines| && (forall e | 0 <= e < |t.engines| && e < |w.engines| :: t.engines[e])
        && if outcome == Started then
             && t.lifecycle == Starting && t.active == Some(|w.sessions|)
             && |t.sessions| == |w.sessions| + 1 && |t.engines| == |w.engines| + 1 && !t.engines[|w.engines|]
             && t.sessions[|w.sessions|] == SessionState(|w.engines|, false, true, false, 0, 0)
           else
             && t.lifecycle == Stopped && |t.sessions| == |w.sessions|
             && |t.engines| == |w.engines| + (if outcome == FailAfterEngine then 1 else 0)
             && forall e | 0 <= e < |t.engines| :: t.engines[e]
  {
    hide WarningInvariant;
  }

  /** What a tick meets that ends its session: a dead engine, an error of the client, or an apply
      call that raises. */
  predicate Ends(env: Env) {
    !env.engineRunning || env.clientError || env.frame == PlanRaises || env.frame == WriteRaises
  }

  /** The tick gets as far as the writes of a plan. */
  predicate Reaches(env: Env) {
    env.engineRunning && !env.clientError && (env.frame == WriteRaises || env.frame == Applies)
  }

  /** A tick of the running session: what it writes, whether it ends the session, and where it
      leaves the state. */
  lemma TickedExactly(w: World, i: nat, env: Env)
    requires Safe(w) && i < |w.sessions| && !w.sessions[i].stopped
    ensures var t := Next(w, Ticked(i, env));
      && |t.sessions| == |w.sessions| && t.active == w.active && t.playing == w.playing
      && t.sessions[i].writes == w.sessions[i].writes + (if Reaches(env) then 1 else 0)
      && t.sessions[i].keyedWrites == w.sessions[i].keyedWrites + (if Reaches(env) && w.record then 1 else 0)
      && Tick(w, i, env).1 == !Ends(env)
      && if Ends(env) then t.lifecycle == Stopped && !t.record && Ended(w, t, i)
         else !t.sessions[i].stopped && t.sessions[i].timerRunning && t.record == w.record && t.engines == w.engines
  {
    RunningTimer(w, i);
    hide Safe;
    if Ends(env) { TickEnds(w, i, env); } else { TickGoesOn(w, i, env); }
    hide Tick; hide Ended;
  }

  /** What is left when a session fails. */
  lemma FailEnds(w: World, i: nat)
    requires Bounded(w) && i < |w.sessions| && !w.sessions[i].stopped
    ensures var t := Fail(w, i);
      && t.lifecycle == Stopped && !t.record && Ended(w, t, i) && t.active == w.active && t.playing == w.playing
      && t.sessions[i].writes == w.sessions[i].writes && t.sessions[i].keyedWrites == w.sessions[i].keyedWrites
  {}

  lemma EndedOver(w: World, v: World, t: World, i: nat)
    requires Bounded(w) && Bounded(v) && i < |w.sessions| && |v.sessions| == |w.sessions| && Ended(v, t, i)
    requires v.sessions[i].engine == w.sessions[i].engine && v.engines == w.engines
    requires forall j | 0 <= j < |w.sessions| && j != i :: v.sessions[j] == w.sessions[j]
    ensures Ended(w, t, i)
  {}

  lemma TickEnds(w: World, i: nat, env: Env)
    requires Bounded(w) && i < |w.sessions| && !w.sessions[i].stopped && w.sessions[i].timerRunning && Ends(env)
    ensures var (t, again) := Tick(w, i, env);
      && !again && |t.sessions| == |w.sessions| && t.active == w.active && t.playing == w.playing
      && t.sessions[i].writes == w.sessions[i].writes + (if Reaches(env) then 1 else 0)
      && t.sessions[i].keyedWrites == w.sessions[i].keyedWrites + (if Reaches(env) && w.record then 1 else 0)
      && t.lifecycle == Stopped && !t.record && Ended(w, t, i)
  {
    var s, checked := w.sessions[i], w.(lifecycle := AfterCheck(w.lifecycle, env));
    var framed := checked.(lifecycle := AfterFrame(checked.lifecycle, env));
    var failed :=
      if !env.engineRunning then w else if env.clientError then checked
      else
        WithSession(framed, i, if env.frame == PlanRaises then s.(reportedInvalid := false) else Written(s, w.record));
    FailEnds(failed, i);
    EndedOver(w, failed, Fail(failed, i), i);
    hide Fail; hide Ended;
  }

  lemma TickGoesOn(w: World, i: nat, env: Env)
    requires Bounded(w) && i < |w.sessions| && !w.sessions[i].stopped && w.sessions[i].timerRunning && !Ends(env)
    ensures var (t, again) := Tick(w, i, env);
      && again && |t.sessions| == |w.sessions| && t.active == w.active && t.playing == w.playing
      && t.sessions[i].writes == w.sessions[i].writes + (if Reaches(env) then 1 else 0)
      && t.sessions[i].keyedWrites == w.sessions[i].keyedWrites + (if Reaches(env) && w.record then 1 else 0)
      && !t.sessions[i].stopped && t.sessions[i].timerRunning && t.record == w.record && t.engines == w.engines
  {}

  lemma RunningTimer(w: World, i: nat)
    requires Safe(w) && i < |w.sessions| && !w.sessions[i].stopped
    ensures Bounded(w) && w.sessions[i].timerRunning
  {}

  /** And the state: it reconnects when the client does, streams from the first frame on and after
      a reconnect, warns when the target is missing, and recovers when it is back. */
  lemma TickedLifecycle(w: World, i: nat, env: Env)
    requires Safe(w) && i < |w.sessions| && !w.sessions[i].stopped && !Ends(env)
    ensures var t := Next(w, Ticked(i, env)).lifecycle;
      var lost := env.connection == Reconnection && (w.lifecycle == Streaming || w.lifecycle == Recording);
      var back := (lost || w.lifecycle == Reconnecting) && env.connectionAtFrame == Connected;
      if env.frame == NoFrame then t == if lost then Reconnecting else w.lifecycle
      else if env.frame == TargetMissing then t == Warning
      else if w.lifecycle == Warning then
        t == if env.frame == NoPerson then Warning else if w.record then Recording else Streaming
      else if w.lifecycle == Starting || back then t == Streaming
      else t == if lost then Reconnecting else w.lifecycle
  {}

  /* ---- recording across a reconnect ---- */

  /** The lifecycle says "streaming" while keyframes are being written. */
  predicate SilentlyRecording(w: World) { w.lifecycle == Streaming && w.record }

  /** Exactly when a step leads into that state: a tick of the live session that finds a frame
      and the client connected after a reconnect began while recording. */
  predicate ResumesSilently(w: World, e: Event)
    requires Bounded(w)
  {
    && e.Ticked? && w.active == Some(e.session) && Live(w)
    && w.record && e.env.engineRunning && !e.env.clientError
    && AfterCheck(w.lifecycle, e.env) == Reconnecting
    && e.env.connectionAtFrame == Connected && (e.env.frame == NoPerson || e.env.frame == Applies)
  }

  lemma SilentRecordingExactly(w: World, e: Event)
    requires Safe(w) && !SilentlyRecording(w)
    ensures SilentlyRecording(Next(w, e)) <==> ResumesSilently(w, e)
  {
    NextKeeps(w, e);
  }

  const FRAME := Env(true, Connected, false, Connected, Applies)

  /** The live session of a first stream. */
  function Alone(lifecycle: LifecycleState, record: bool, playing: bool, writes: nat, keyed: nat): World {
    World(lifecycle, record, playing, [SessionState(0, false, true, false, writes, keyed)], Some(0), [false])
  }

  const LOST := Env(true, Reconnection, false, Connected, NoFrame)

  /** It is reachable: start, one frame, record, lose the connection, get it back. */
  lemma SilentRecordingReachable()
    ensures var events :=
      [StartClicked(true, Started), Ticked(0, FRAME), RecordClicked, Ticked(0, LOST), Ticked(0, FRAME)];
      SilentlyRecording(Run(INITIAL, events))
  {
    hide Next; hide Run; hide Alone; hide SilentlyRecording;
    RunFive(StartClicked(true, Started), Ticked(0, FRAME), RecordClicked, Ticked(0, LOST), Ticked(0, FRAME));
    StartAlone();
    TickAlone(Starting, false, false, 0, 0, FRAME);
    RecordAlone();
    TickAlone(Recording, true, true, 1, 0, LOST);
    TickAlone(Reconnecting, true, true, 1, 0, FRAME);
    AloneSilent();
  }

  lemma StartAlone()
    ensures Next(INITIAL, StartClicked(true, Started)) == Alone(Starting, false, false, 0, 0)
  {}

  lemma RecordAlone()
    ensures Next(Alone(Streaming, false, false, 1, 0), RecordClicked) == Alone(Recording, true, true, 1, 0)
  {}

  lemma AloneSilent()
    ensures SilentlyRecording(Alone(Streaming, true, true, 2, 1))
  {}

  lemma TickAlone(lifecycle: LifecycleState, record: bool, playing: bool, writes: nat, keyed: nat, env: Env)
    requires env == FRAME || env == LOST
    ensures Next(Alone(lifecycle, record, playing, writes, keyed), Ticked(0, env)) ==
      if env == LOST then Alone(AfterCheck(lifecycle, env), record, playing, writes, keyed)
      else Alone(AfterFrame(lifecycle, env), record, playing, writes + 1, keyed + if record then 1 else 0)
  {}

  lemma RunFive(e1: Event, e2: Event, e3: Event, e4: Event, e5: Event)
    ensures Run(INITIAL, [e1, e2, e3, e4, e5]) == Next(Next(Next(Next(Next(INITIAL, e1), e2), e3), e4), e5)
  {
    hide Next; hide Run;
    RunMore([], e1);
    RunMore([e1], e2);
    RunMore([e1, e2], e3);
    RunMore([e1, e2, e3], e4);
    RunMore([e1, e2, e3, e4], e5);
    assert [] + [e1] == [e1] && [e1] + [e2] == [e1, e2] && [e1, e2] + [e3] == [e1, e2, e3];
    assert [e1, e2, e3] + [e4] == [e1, e2, e3, e4] && [e1, e2, e3, e4] + [e5] == [e1, e2, e3, e4, e5];
    RunNothing();
  }

  lemma RunMore(events: seq<Event>, e: Event)
    ensures Run(INITIAL, events + [e]) == Next(Run(INITIAL, events), e)
  {
    assert (events + [e])[..|events|] == events;
  }

  lemma RunNothing()
    ensures Run(INITIAL, []) == INITIAL
  {}

  /** In that state the operator that ends recording is switched off, and frames go on being
      keyed. */
  lemma SilentRecordingCannotBeStopped(w: World, env: Env)
    requires Safe(w) && SilentlyRecording(w)
    requires env.engineRunning && !env.clientError && env.connection != Reconnection && env.frame == Applies
    ensures Next(w, StopRecordingClicked) == w
    ensures var after := Next(w, Ticked(w.active.value, env));
      && SilentlyRecording(after)
      && after.sessions[w.active.value].keyedWrites == w.sessions[w.active.value].keyedWrites + 1
  {}

  /** A warning ends with the first frame that is applied, in the state the flag asks for. */
  lemma WarningRecovers(w: World, env: Env)
    requires Safe(w) && w.lifecycle == Warning
    requires env.engineRunning && !env.clientError && env.frame == Applies
    ensures Next(w, Ticked(w.active.value, env)).lifecycle == if w.record then Recording else Streaming
  {}
}
