/** The lifecycle over several scenes.  Each scene has its own lifecycle state and recording
    flag; the active session is one for the whole program, and every session acts on the
    settings of the scene it was started in (stream_properties.py, stream_session.py,
    stream_operators.py). */
module Scenes {
  import opened Prelude
  import opened Lifecycle

  datatype Settings = Settings(lifecycle: LifecycleState, record: bool)

  /** `owners[i]` is the scene that session `i` was started in. */
  datatype Stage = Stage(
    scenes: seq<Settings>,
    owners: seq<nat>,
    playing: bool,
    sessions: seq<SessionState>,
    active: Option<nat>,
    engines: seq<bool>)

  function Initial(n: nat): Stage { Stage(seq(n, _ => Settings(Stopped, false)), [], false, [], None, []) }

  /** The program as one scene sees it. */
  function Seen(s: Stage, k: nat): World
    requires k < |s.scenes|
  {
    World(s.scenes[k].lifecycle, s.scenes[k].record, s.playing, s.sessions, s.active, s.engines)
  }

  function Core(s: Stage): World { World(Stopped, false, s.playing, s.sessions, s.active, s.engines) }

  predicate Formed(s: Stage) {
    && Bounded(Core(s)) && |s.owners| == |s.sessions|
    && forall i | 0 <= i < |s.owners| :: s.owners[i] < |s.scenes|
  }

  /** What a scene did, put back; a session it added is its own. */
  function Put(s: Stage, k: nat, w: World): Stage
    requires k < |s.scenes|
  {
    Stage(s.scenes[k := Settings(w.lifecycle, w.record)],
          if |w.sessions| > |s.owners| then s.owners + [k] else s.owners,
          w.playing, w.sessions, w.active, w.engines)
  }

  /** Stopping the active session clears the flag of its own scene, whichever scene asks. */
  function StopActiveSession(s: Stage): (r: Stage)
    requires Formed(s)
    ensures Formed(r) && |r.scenes| == |s.scenes| && r.active == None
  {
    if s.active.None? then s
    else
      var k := s.owners[s.active.value];
      Put(s, k, StopActive(Seen(s, k)))
  }

  /** An event in a scene; a tick acts on the scene of its session. */
  datatype StageEvent = StageEvent(scene: nat, event: Event)

  function NextStage(s: Stage, e: StageEvent): Stage
    requires Formed(s)
  {
    if e.event.Ticked? then
      if e.event.session >= |s.sessions| then s
      else
        var k := s.owners[e.event.session];
        Put(s, k, Next(Seen(s, k), e.event))
    else if e.scene >= |s.scenes| then s
    else
      var k := e.scene;
      if StartsOver(s, e) then
        var cleared := StopActiveSession(s);
        Put(cleared, k, StartStream(Seen(cleared, k), e.event.outcome))
      else if e.event.StopClicked? && s.scenes[k].lifecycle != Stopped then
        var cleared := StopActiveSession(s);
        Put(cleared, k, StopStream(Seen(cleared, k)))
      else Put(s, k, Next(Seen(s, k), e.event))
  }

  /** A start that gets past its poll and its checks, and so ends the active session. */
  predicate StartsOver(s: Stage, e: StageEvent) {
    && e.event.StartClicked? && e.event.ready && e.scene < |s.scenes| && s.scenes[e.scene].lifecycle == Stopped
    && e.event.outcome != BackendError && e.event.outcome != SetupIssue
  }

  lemma NextFormed(s: Stage, e: StageEvent)
    requires Formed(s)
    ensures Formed(NextStage(s, e)) && |NextStage(s, e).scenes| == |s.scenes|
  {
    hide StopActive; hide Tick;
    if e.event.Ticked? {
      if e.event.session < |s.sessions| { TickSizes(Seen(s, s.owners[e.event.session]), e.event.session, e.event.env); }
    } else if e.scene < |s.scenes| {
      if StartsOver(s, e) { StartSizes(Seen(StopActiveSession(s), e.scene), e.event.outcome); }
    }
  }

  lemma TickSizes(w: World, i: nat, env: Env)
    requires Bounded(w) && i < |w.sessions|
    ensures var t := Tick(w, i, env).0;
      |t.sessions| == |w.sessions| && t.active == w.active && |t.engines| == |w.engines|
  {}

  lemma StartSizes(w: World, outcome: StartOutcome)
    requires Bounded(w)
    ensures var t := StartStream(w, outcome);
      && |w.sessions| <= |t.sessions| <= |w.sessions| + 1
      && (|t.sessions| == |w.sessions| + 1 ==> t.active == Some(|w.sessions|))
      && (|t.sessions| == |w.sessions| && outcome != BackendError && outcome != SetupIssue ==> t.active == None)
  {}

  function RunStage(n: nat, events: seq<StageEvent>): (r: Stage)
    ensures Formed(r) && |r.scenes| == n
  {
    if events == [] then Initial(n)
    else
      var before := RunStage(n, events[..|events| - 1]);
      NextFormed(before, events[|events| - 1]);
      NextStage(before, events[|events| - 1])
  }

  /* ---- invariants of every scene ---- */

  /** The active session runs and belongs to this scene. */
  predicate LiveIn(s: Stage, k: nat)
    requires Formed(s)
  {
    s.active.Some? && !s.sessions[s.active.value].stopped && s.owners[s.active.value] == k
  }

  /** The invariants of one scene, with the session it owns. */
  predicate SceneSafe(s: Stage, k: nat)
    requires Formed(s) && k < |s.scenes|
  {
    var c := s.scenes[k];
    && (c.lifecycle == Recording ==> c.record)
    && (c.lifecycle == Stopped || c.lifecycle == Starting ==> !c.record)
    && (c.record ==> LiveIn(s, k))
    && (c.lifecycle != Stopped <==> LiveIn(s, k))
    && (LiveIn(s, k) ==> (c.lifecycle == Warning <==> s.sessions[s.active.value].reportedInvalid))
  }

  predicate SafeStage(s: Stage) {
    Formed(s) && OwnershipInvariant(Core(s)) && forall k | 0 <= k < |s.scenes| :: SceneSafe(s, k)
  }

  /** A start while another scene is not stopped. */
  predicate Displaces(s: Stage, e: StageEvent) {
    StartsOver(s, e) && exists j | 0 <= j < |s.scenes| :: j != e.scene && s.scenes[j].lifecycle != Stopped
  }

  predicate Quiet(s: Stage, k: nat)
    requires k < |s.scenes|
  {
    s.scenes[k] == Settings(Stopped, false)
  }

  lemma OwnershipSeen(s: Stage, w: World)
    requires Formed(s) && w.sessions == s.sessions && w.active == s.active && w.engines == s.engines
    ensures Bounded(w) && OwnershipInvariant(w) == OwnershipInvariant(Core(s))
    ensures Live(w) == Live(Core(s))
  {}

  /** The scene of the live session, or any scene when there is none, sees a safe program. */
  lemma SeenSafe(s: Stage, k: nat)
    requires SafeStage(s) && k < |s.scenes| && (Live(Core(s)) ==> s.owners[s.active.value] == k)
    ensures Bounded(Seen(s, k)) && Safe(Seen(s, k))
    ensures forall j | 0 <= j < |s.scenes| && j != k :: Quiet(s, j)
  {
    OwnershipSeen(s, Seen(s, k));
    hide OwnershipInvariant;
    assert SceneSafe(s, k);
    forall j | 0 <= j < |s.scenes| && j != k
      ensures Quiet(s, j)
    {
      assert SceneSafe(s, j);
    }
  }

  /** A safe program seen by one scene, with all others quiet, is a safe stage. */
  lemma PutSafe(s: Stage, k: nat, w: World)
    requires Safe(w) && k < |s.scenes| && Formed(Put(s, k, w))
    requires Live(w) ==> Put(s, k, w).owners[w.active.value] == k
    requires forall j | 0 <= j < |s.scenes| && j != k :: Quiet(s, j)
    ensures SafeStage(Put(s, k, w))
  {
    var t := Put(s, k, w);
    OwnershipSeen(t, w);
    hide OwnershipInvariant;
    forall j | 0 <= j < |t.scenes|
      ensures SceneSafe(t, j)
    {
      if j != k { assert Quiet(s, j) && t.scenes[j] == s.scenes[j]; }
    }
  }

  lemma PutSame(s: Stage, k: nat)
    requires k < |s.scenes| && Formed(s)
    ensures Put(s, k, Seen(s, k)) == s
  {}

  /** Without a live session, stopping the active one only forgets it. */
  lemma NothingToStop(s: Stage, k: nat, outcome: StartOutcome)
    requires SafeStage(s) && k < |s.scenes| && !Live(Core(s)) && outcome != BackendError && outcome != SetupIssue
    ensures Put(StopActiveSession(s), k, StartStream(Seen(StopActiveSession(s), k), outcome))
         == Put(s, k, StartStream(Seen(s, k), outcome))
  {}

  lemma StopTwice(s: Stage, k: nat)
    requires SafeStage(s) && k < |s.scenes| && LiveIn(s, k)
    ensures Put(StopActiveSession(s), k, StopStream(Seen(StopActiveSession(s), k))) == Put(s, k, StopStream(Seen(s, k)))
  {}

  /** The scene in which an event acts. */
  function ActsIn(s: Stage, e: StageEvent): nat
    requires Formed(s) && (e.event.Ticked? ==> e.event.session < |s.sessions|)
  {
    if e.event.Ticked? then s.owners[e.event.session] else e.scene
  }

  /** Where an event acts on the live session's scene, or no session is live, the stage moves as
      that scene's program does. */
  lemma MovesAsSeen(s: Stage, e: StageEvent, k: nat)
    requires SafeStage(s) && k < |s.scenes| && (Live(Core(s)) ==> s.owners[s.active.value] == k)
    requires (e.event.Ticked? ==> e.event.session < |s.sessions|) && k == ActsIn(s, e)
    ensures NextStage(s, e) == Put(s, k, Next(Seen(s, k), e.event))
  {
    hide StartStream; hide StopStream; hide OwnershipInvariant; hide Tick;
    assert SceneSafe(s, k);
    if StartsOver(s, e) {
      NothingToStop(s, k, e.event.outcome);
    } else if e.event.StopClicked? && s.scenes[k].lifecycle != Stopped {
      StopTwice(s, k);
    }
  }

  lemma NewOwner(s: Stage, e: StageEvent, k: nat)
    requires SafeStage(s) && k < |s.scenes| && (Live(Core(s)) ==> s.owners[s.active.value] == k)
    requires (e.event.Ticked? ==> e.event.session < |s.sessions|) && k == ActsIn(s, e)
    ensures var w := Next(Seen(s, k), e.event);
      Formed(Put(s, k, w)) && (Live(w) ==> Put(s, k, w).owners[w.active.value] == k)
  {
    var w := Seen(s, k);
    if e.event.Ticked? {
      if !s.sessions[e.event.session].stopped { OnlyOneLive(s, e.event.session); }
      TickSizes(w, e.event.session, e.event.env);
      StoppedTicksNot(w, e.event.session, e.event.env);
    }
    if e.event.StartClicked? { StartSizes(w, e.event.outcome); }
    hide Tick; hide StartStream; hide OwnershipInvariant;
  }

  lemma StoppedTicksNot(w: World, i: nat, env: Env)
    requires Bounded(w) && i < |w.sessions|
    ensures w.sessions[i].stopped ==> Tick(w, i, env).0 == w
  {}

  lemma OnlyOneLive(s: Stage, i: nat)
    requires SafeStage(s) && i < |s.sessions| && !s.sessions[i].stopped
    ensures s.active == Some(i) && Live(Core(s))
  {}

  lemma MovesSafely(s: Stage, e: StageEvent, k: nat)
    requires SafeStage(s) && k < |s.scenes| && (Live(Core(s)) ==> s.owners[s.active.value] == k)
    requires (e.event.Ticked? ==> e.event.session < |s.sessions|) && k == ActsIn(s, e)
    ensures SafeStage(NextStage(s, e))
  {
    hide SafeStage; hide Next; hide NextStage; hide Safe; hide Put;
    SeenSafe(s, k);
    NextKeeps(Seen(s, k), e.event);
    NewOwner(s, e, k);
    MovesAsSeen(s, e, k);
    PutSafe(s, k, Next(Seen(s, k), e.event));
  }

  lemma PlaybackSafe(s: Stage, k: nat, playing: bool)
    requires SafeStage(s) && k < |s.scenes|
    ensures SafeStage(Put(s, k, Seen(s, k).(playing := playing)))
  {
    var t := Put(s, k, Seen(s, k).(playing := playing));
    assert t == s.(playing := playing);
    OwnershipSeen(s, Core(t));
    hide OwnershipInvariant;
    forall j | 0 <= j < |t.scenes|
      ensures SceneSafe(t, j)
    {
      assert SceneSafe(s, j);
    }
  }

  /** A scene that does not own the live session only ever sees its operators refused. */
  lemma RefusedElsewhere(s: Stage, e: StageEvent)
    requires SafeStage(s) && !e.event.Ticked? && e.scene < |s.scenes| && !StartsOver(s, e)
    requires Live(Core(s)) && s.owners[s.active.value] != e.scene
    ensures SafeStage(NextStage(s, e))
  {
    var k := e.scene;
    assert SceneSafe(s, k);
    PutSame(s, k);
    if e.event.PlaybackChanged? { PlaybackSafe(s, k, e.event.playing); }
    hide OwnershipInvariant; hide SceneSafe; hide StopActive;
  }

  /** An event that displaces no other scene keeps every scene safe. */
  lemma StageKeeps(s: Stage, e: StageEvent)
    requires SafeStage(s) && !Displaces(s, e)
    ensures SafeStage(NextStage(s, e))
  {
    hide OwnershipInvariant; hide Tick; hide Next; hide Put; hide Seen;
    if e.event.Ticked? {
      if e.event.session < |s.sessions| {
        var k := s.owners[e.event.session];
        if s.sessions[e.event.session].stopped {
          StoppedTicks(s, e);
        } else {
          OnlyOneLive(s, e.event.session);
          MovesSafely(s, e, k);
        }
      }
    } else if e.scene < |s.scenes| {
      if Live(Core(s)) && s.owners[s.active.value] != e.scene {
        assert SceneSafe(s, s.owners[s.active.value]);
        RefusedElsewhere(s, e);
      } else {
        MovesSafely(s, e, e.scene);
      }
    }
  }

  lemma StoppedTicks(s: Stage, e: StageEvent)
    requires Formed(s) && e.event.Ticked? && e.event.session < |s.sessions| && s.sessions[e.event.session].stopped
    ensures NextStage(s, e) == s
  {
    PutSame(s, s.owners[e.event.session]);
  }

  /** And an event that displaces another scene leaves that scene without a session in a state
      that needs one. */
  lemma DisplacingBreaks(s: Stage, e: StageEvent)
    requires SafeStage(s) && Displaces(s, e)
    ensures !SafeStage(NextStage(s, e))
  {
    var j :| 0 <= j < |s.scenes| && j != e.scene && s.scenes[j].lifecycle != Stopped;
    assert SceneSafe(s, j) && LiveIn(s, j);
    var cleared := StopActiveSession(s);
    StartSizes(Seen(cleared, e.scene), e.event.outcome);
    var t := NextStage(s, e);
    NextFormed(s, e);
    hide StartStream; hide OwnershipInvariant;
    assert t.scenes[j].lifecycle == s.scenes[j].lifecycle;
    assert !LiveIn(t, j);
    assert !SceneSafe(t, j);
  }

  /** Exactly one kind of step breaks the invariants of some scene: a start while another scene
      is not stopped. */
  lemma StageSafeExactly(s: Stage, e: StageEvent)
    requires SafeStage(s)
    ensures SafeStage(NextStage(s, e)) <==> !Displaces(s, e)
  {
    hide SafeStage; hide NextStage; hide Displaces;
    if Displaces(s, e) { DisplacingBreaks(s, e); } else { StageKeeps(s, e); }
  }

  /** Safe after every event of the run. */
  predicate SafeAlong(n: nat, events: seq<StageEvent>) {
    SafeStage(RunStage(n, events)) && (events == [] || SafeAlong(n, events[..|events| - 1]))
  }

  predicate NeverDisplaces(n: nat, events: seq<StageEvent>) {
    events == [] ||
    var before := events[..|events| - 1];
    NeverDisplaces(n, before) && !Displaces(RunStage(n, before), events[|events| - 1])
  }

  /** Over any number of scenes and any run: every scene keeps its invariants throughout exactly
      when no stream is started in one scene while another is not stopped. */
  lemma {:induction false} ScenesSafeExactly(n: nat, events: seq<StageEvent>)
    ensures SafeAlong(n, events) <==> NeverDisplaces(n, events)
  {
    hide SafeStage; hide Displaces; hide NextStage;
    if events == [] {
      InitialSafe(n);
    } else {
      var before := events[..|events| - 1];
      ScenesSafeExactly(n, before);
      if SafeAlong(n, before) { StageSafeExactly(RunStage(n, before), events[|events| - 1]); }
    }
  }

  lemma InitialSafe(n: nat)
    ensures SafeStage(RunStage(n, []))
  {}

  /** Two scenes: a stream runs in the first, one is started in the second; the first still says
      "streaming", and its session has been stopped. */
  lemma SecondSceneDisplacesFirst()
    ensures var events := [StageEvent(0, StartClicked(true, Started)), StageEvent(0, Ticked(0, FRAME)),
                           StageEvent(1, StartClicked(true, Started))];
      var s := RunStage(2, events);
      s.scenes[0].lifecycle == Streaming && |s.sessions| == 2 && s.sessions[0].stopped && !LiveIn(s, 0)
  {
    var a, b, c := StageEvent(0, StartClicked(true, Started)), StageEvent(0, Ticked(0, FRAME)),
      StageEvent(1, StartClicked(true, Started));
    hide NextStage; hide RunStage; hide First; hide Initial;
    Unfold(2, [], a);
    Unfold(2, [a], b);
    Unfold(2, [a, b], c);
    assert [] + [a] == [a] && [a] + [b] == [a, b] && [a, b] + [c] == [a, b, c];
    FromStart(2);
    FirstStarts();
    FirstStreams();
    SecondStarts();
  }

  lemma Unfold(n: nat, events: seq<StageEvent>, e: StageEvent)
    ensures RunStage(n, events + [e]) == NextStage(RunStage(n, events), e)
  {
    assert (events + [e])[..|events|] == events;
  }

  lemma FromStart(n: nat)
    ensures RunStage(n, []) == Initial(n)
  {}

  function First(lifecycle: LifecycleState, writes: nat): Stage {
    Stage([Settings(lifecycle, false), Settings(Stopped, false)], [0], false,
          [SessionState(0, false, true, false, writes, 0)], Some(0), [false])
  }

  lemma FirstStarts()
    ensures NextStage(Initial(2), StageEvent(0, StartClicked(true, Started))) == First(Starting, 0)
  {}

  lemma FirstStreams()
    ensures NextStage(First(Starting, 0), StageEvent(0, Ticked(0, FRAME))) == First(Streaming, 1)
  {}

  lemma SecondStarts()
    ensures var s := NextStage(First(Streaming, 1), StageEvent(1, StartClicked(true, Started)));
      && s.scenes == [Settings(Streaming, false), Settings(Starting, false)] && s.owners == [0, 1]
      && s.active == Some(1) && |s.sessions| == 2 && s.sessions[0].stopped
  {}
}
