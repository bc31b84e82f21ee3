/** The install directory and the setup coordinator (component_lifecycle.py,
    bootstrap_install.py).  `budget` is the number of atomic actions left before the process
    dies. */
module Setup {
  import opened Prelude
  import opened Selections
  import opened ComponentLifecycle

  /** What the steps outside this model do: whether they succeed, and the files they leave. */
  datatype Env = Env(
    nvidia: bool,
    manifestVersion: Option<string>,
    baseOk: bool, afterBase: set<Path>,
    mediapipeOk: bool, afterMediapipe: set<Path>,
    pearOk: bool, afterPear: set<Path>,
    markerOk: bool)

  datatype Exit = Success | Failure | Killed

  const SETUP_OK: Path := [Other("logs"), Other("SETUP_OK")]

  class InstallDir {
    var stored: Stored
    var files: set<Path>
    var budget: nat

    constructor (stored: Stored, files: set<Path>)
      ensures this.stored == stored && this.files == files && budget == 0
    {
      this.stored, this.files, budget := stored, files, 0;
    }

    ghost function View(): State
      reads this
    {
      State(stored, files)
    }

    /** One atomic action; the process may die before it. */
    method Act(a: Action) returns (alive: bool)
      modifies this
      ensures alive == (old(budget) > 0)
      ensures alive ==> View() == Perform(old(View()), a) && budget == old(budget) - 1
      ensures !alive ==> View() == old(View()) && budget == 0
    {
      if budget == 0 { return false; }
      budget := budget - 1;
      match a {
        case WriteInventory(inventory) => stored := Present(inventory);
        case RemoveTree(path) => files := set p <- files | !Under(p, path);
      }
      alive := true;
    }

    /** Remove the owned paths of a component one after the other. */
    method RemoveOwned(c: Optional) returns (alive: bool)
      modifies this
      ensures var actions := Removals(OwnedPaths(c));
        && alive == (old(budget) >= |actions|)
        && View() == PerformAll(old(View()), actions[..if alive then |actions| else old(budget)])
        && budget == if alive then old(budget) - |actions| else 0
    {
      hide Perform; hide OwnedPaths;
      var paths := OwnedPaths(c);
      ghost var actions := Removals(paths);
      assert actions[..0] == [];
      for i := 0 to |paths|
        invariant View() == PerformAll(old(View()), actions[..i]) && budget == old(budget) - i
      {
        assert actions[..i + 1][..i] == actions[..i];
        var ok := Act(RemoveTree(paths[i]));
        if !ok { return false; }
      }
      alive := true;
    }

    /** Clean up one component if it was installed before and is not selected now. */
    method CleanUp(previous: Stored, selected: seq<string>, c: Optional) returns (alive: bool)
      modifies this
      ensures var actions := Cleanup(previous, old(files), selected, c);
        && alive == (old(budget) >= |actions|)
        && View() == PerformAll(old(View()), actions[..if alive then |actions| else old(budget)])
        && budget == if alive then old(budget) - |actions| else 0
    {
      hide PerformAll; hide OwnedPaths;
      PerformNothing(View(), Cleanup(previous, files, selected, c));
      alive := true;
      if Had(previous, files, c) && Name(c) !in selected {
        alive := RemoveOwned(c);
      }
    }

    /** Start a transaction over a selection and clean up what it deselects.  The evidence for
        each component is looked up when its turn comes. */
    method Begin(components: string, version: string) returns (outcome: Outcome)
      modifies this
      ensures (View(), outcome) == ComponentLifecycle.Begin(old(View()), components, version, old(budget))
      ensures outcome == Done ==>
        budget == old(budget) - |BeginActions(old(View()), ParseSelected(components).value, version)|
      ensures outcome == Crashed ==> budget == 0
    {
      hide ParseSelected; hide BeginInventory; hide Perform; hide PerformAll; hide Cleanup;
      ghost var before := View();
      var selected := ParseSelected(components);
      if selected.Err? { return Failed(selected.error); }
      var previous := stored;
      if previous.Malformed? { return Failed("malformed installed component inventory"); }
      var inventory := BeginInventory(previous, selected.value, version);
      Phases(before, selected.value, version);
      var alive := Act(WriteInventory(inventory));
      if alive {
        alive := CleanUp(previous, selected.value, Mediapipe);
        if alive { alive := CleanUp(previous, selected.value, Pear); }
      }
      outcome := if alive then Done else Crashed;
    }

    /** Mark the base ready. */
    method BaseReady() returns (outcome: Outcome)
      modifies this
      ensures outcome == Crashed ==> budget == 0
      ensures var r := ComponentLifecycle.BaseReady(old(stored));
        && files == old(files)
        && stored == (if r.Ok? && old(budget) > 0 then Present(r.value) else old(stored))
        && outcome == (if r.Err? then Failed(r.error) else if old(budget) > 0 then Done else Crashed)
        && (outcome == Done ==> budget == old(budget) - 1)
    {
      hide ComponentLifecycle.BaseReady;
      var r := ComponentLifecycle.BaseReady(stored);
      if r.Err? { return Failed(r.error); }
      var alive := Act(WriteInventory(r.value));
      outcome := if alive then Done else Crashed;
    }

    /** Publish the inventory; refused, it stays as it was stored. */
    method Complete(components: string) returns (outcome: Outcome)
      modifies this
      ensures outcome == Crashed ==> budget == 0
      ensures var r := ComponentLifecycle.Complete(old(View()), components);
        && files == old(files)
        && stored == (if r.Ok? && old(budget) > 0 then Present(r.value) else old(stored))
        && outcome == (if r.Err? then Failed(r.error) else if old(budget) > 0 then Done else Crashed)
        && (outcome == Done ==> budget == old(budget) - 1)
    {
      hide ComponentLifecycle.Complete;
      var r := ComponentLifecycle.Complete(State(stored, files), components);
      if r.Err? { return Failed(r.error); }
      var alive := Act(WriteInventory(r.value));
      outcome := if alive then Done else Crashed;
    }

    /** A step outside this model. */
    method Outside(ok: bool, after: set<Path>) returns (outcome: Outcome)
      modifies this
      ensures stored == old(stored)
      ensures outcome == if old(budget) == 0 then Crashed else if ok then Done else Failed("step failed")
      ensures files == if old(budget) == 0 then old(files) else after
      ensures budget == if old(budget) > 0 then old(budget) - 1 else 0
    {
      if budget == 0 { return Crashed; }
      budget := budget - 1;
      files := after;
      outcome := if ok then Done else Failed("step failed");
    }

    /** The Blender extension, then its mark in the inventory. */
    method InstallBase(components: string, version: string, env: Env) returns (outcome: Outcome)
      requires Good(stored) && Begun(stored, components, version)
      modifies this
      ensures Good(stored) && Begun(stored, components, version)
      ensures outcome == Done <==> env.baseOk && old(budget) >= 2
      ensures outcome == Done ==> files == env.afterBase && budget == old(budget) - 2
      ensures (View(), outcome) == AfterBase(old(View()), old(budget), env)
    {
      outcome := Outside(env.baseOk, env.afterBase);
      if outcome != Done { return; }
      BaseReadySucceeds(stored);
      BaseReadyKeepsGood(stored);
      hide Good; hide Names; hide ComponentLifecycle.BaseReady; hide ParseSelected;
      outcome := BaseReady();
    }

    /** The optional components of the selection. */
    method InstallOptional(selected: seq<string>, env: Env) returns (outcome: Outcome)
      modifies this
      ensures stored == old(stored)
      ensures outcome == Done <==> OptionalOk(selected, env) && old(budget) >= OptionalSteps(selected)
      ensures outcome == Done ==>
        files == LastFiles(selected, env, old(files)) && budget == old(budget) - OptionalSteps(selected)
      ensures (View(), outcome) == AfterOptional(old(View()), old(budget), selected, env)
    {
      if MEDIAPIPE in selected {
        outcome := Outside(env.mediapipeOk, env.afterMediapipe);
        if outcome != Done { return; }
      }
      if PEAR in selected {
        outcome := Outside(env.pearOk, env.afterPear);
        if outcome != Done { return; }
      }
      outcome := Done;
    }

    /** The whole setup.  Success means a published inventory of exactly the requested
        selection at the manifest's version, every selected backend's manifest and the marker
        on disk, and is reached exactly when nothing fails.  In any other case the stored
        inventory is the old one or records that selection as still installing; it is already
        published only when the marker was all that was missing. */
    method BootstrapInstall(components: Option<string>, env: Env) returns (exit: Exit)
      requires Good(stored)
      modifies this
      ensures Good(stored)
      ensures (View(), exit) == Bootstrapped(old(View()), Call(components, env, old(budget)))
      ensures exit == Success <==> Succeeds(old(View()), old(budget), components, env)
      ensures var begun := Begins(old(stored), Call(components, env, old(budget)));
        if begun.Some? then Selected(stored) == begun else stored == old(stored)
      ensures var requested := ResolveComponents(old(stored), components, env.nvidia);
        && (stored != old(stored) ==>
             requested.Ok? && (Records(stored, requested.value) || Published(stored, requested.value, env)))
        && (exit == Failure && env.markerOk ==>
             stored == old(stored) || (requested.Ok? && Records(stored, requested.value)))
        && (exit == Success ==>
             requested.Ok? && Published(stored, requested.value, env) && env.markerOk && SETUP_OK in files)
        && (exit == Success ==> forall c: Optional :: Name(c) in Names(stored.inventory.components) ==>
             Manifest(c) in files)
    {
      hide ComponentLifecycle.Begin; hide ComponentLifecycle.Complete; hide Good; hide ResolveComponents;
      hide ParseSelected; hide Names; hide BeginActions; hide LastFiles; hide OptionalOk; hide OptionalSteps;
      hide Manifest; hide AfterBase; hide AfterOptional; hide AfterPublish;
      var requested := ResolveComponents(stored, components, env.nvidia);
      if requested.Err? { return Failure; }
      var selected := ParseSelected(requested.value);
      if selected.Err? || env.manifestVersion.None? { return Failure; }
      var version := env.manifestVersion.value;
      BeginKeepsGood(View(), requested.value, version, budget);
      BeginDone(View(), requested.value, version, budget);
      BeginWrites(View(), requested.value, version, budget);
      SomeActions(View(), selected.value, version);
      var outcome := Begin(requested.value, version);
      if outcome == Done { outcome := InstallBase(requested.value, version, env); }
      if outcome == Done { outcome := InstallOptional(selected.value, env); }
      if outcome != Done { return ExitOf(outcome); }
      exit := Publish(requested.value, env);
    }

    /** The end of a setup: publish the inventory and drop the marker. */
    method Publish(components: string, env: Env) returns (exit: Exit)
      requires Good(stored) && env.manifestVersion.Some? && Begun(stored, components, env.manifestVersion.value)
      modifies this
      ensures Good(stored)
      ensures (View(), exit) == AfterPublish(old(View()), old(budget), components, env)
      ensures stored == old(stored) || Published(stored, components, env)
      ensures exit == Failure && env.markerOk ==> stored == old(stored)
      ensures exit == Success ==> Published(stored, components, env) && env.markerOk && SETUP_OK in files
      ensures exit == Success ==> forall c: Optional :: Name(c) in Names(stored.inventory.components) ==>
        Manifest(c) in files
      ensures exit == Success <==>
        && env.markerOk && old(budget) >= 2
        && forall c: Optional :: Name(c) in Names(old(stored).inventory.components) ==> Manifest(c) in old(files)
    {
      CompleteExactly(View(), components);
      hide ComponentLifecycle.Complete; hide Good; hide ParseSelected; hide Names; hide Manifest;
      var outcome := Complete(components);
      if outcome != Done { return ExitOf(outcome); }
      outcome := Outside(env.markerOk, if env.markerOk then files + {SETUP_OK} else files);
      exit := ExitOf(outcome);
    }
  }

  lemma BeginDone(st: State, components: string, version: string, crashAfter: nat)
    ensures ComponentLifecycle.Begin(st, components, version, crashAfter).1 == Done <==>
      && ParseSelected(components).Ok? && !st.stored.Malformed?
      && crashAfter >= |BeginActions(st, ParseSelected(components).value, version)|
  {
    hide ParseSelected; hide BeginActions; hide PerformAll;
  }

  /** A begin stores its inventory as soon as it gets to act at all, and otherwise nothing. */
  lemma BeginWrites(st: State, components: string, version: string, crashAfter: nat)
    requires Good(st.stored)
    ensures var after := ComponentLifecycle.Begin(st, components, version, crashAfter).0;
      if ParseSelected(components).Ok? && !st.stored.Malformed? && crashAfter > 0 then Records(after.stored, components)
      else after.stored == st.stored
  {
    var selected := ParseSelected(components);
    ParseExactly(components);
    hide ParseSelected; hide BeginActions; hide PerformAll; hide BeginInventory; hide Good; hide Names;
    if selected.Ok? && !st.stored.Malformed? {
      var actions := BeginActions(st, selected.value, version);
      assert actions[..|actions|] == actions;
      SomeActions(st, selected.value, version);
      var n := if crashAfter < |actions| then crashAfter else |actions|;
      var m, k := Prefix(st, selected.value, version, n);
      BeginRecords(st.stored, selected.value, version);
    }
  }

  predicate OptionalOk(selected: seq<string>, env: Env) {
    (MEDIAPIPE in selected ==> env.mediapipeOk) && (PEAR in selected ==> env.pearOk)
  }

  function OptionalSteps(selected: seq<string>): nat {
    (if MEDIAPIPE in selected then 1 else 0) + if PEAR in selected then 1 else 0
  }

  /** The files after the last optional component, or those before when there is none. */
  function LastFiles(selected: seq<string>, env: Env, before: set<Path>): set<Path> {
    if PEAR in selected then env.afterPear else if MEDIAPIPE in selected then env.afterMediapipe else before
  }

  /** When a setup succeeds: the selection is valid, every step of it does its part and leaves
      the manifests, and the process lives long enough. */
  predicate Succeeds(st: State, budget: nat, components: Option<string>, env: Env) {
    var requested := ResolveComponents(st.stored, components, env.nvidia);
    && requested.Ok? && !st.stored.Malformed? && env.manifestVersion.Some? && ParseSelected(requested.value).Ok?
    && var selected := ParseSelected(requested.value).value;
    && env.baseOk && OptionalOk(selected, env) && env.markerOk
    && (forall c <- COMPONENTS :: Name(c) in selected ==> Manifest(c) in LastFiles(selected, env, env.afterBase))
    && budget >= |BeginActions(st, selected, env.manifestVersion.value)| + OptionalSteps(selected) + 4
  }

  function ExitOf(outcome: Outcome): Exit {
    match outcome
    case Done => Success
    case Failed(_) => Failure
    case Crashed => Killed
  }

  /** The transaction over this selection at this version is in progress. */
  predicate Begun(stored: Stored, components: string, version: string) {
    Records(stored, components) && stored.inventory.version == version
  }

  /** The inventory is published as ready for exactly this selection. */
  predicate Published(stored: Stored, components: string, env: Env) {
    && stored.Present? && stored.inventory.transaction == Ready
    && Ok(Names(stored.inventory.components)) == ParseSelected(components)
    && Some(stored.inventory.version) == env.manifestVersion
  }

  /* ---- what a setup leaves behind, wherever it ends ---- */

  /** One step outside this model. */
  function AfterOutside(st: State, budget: nat, ok: bool, after: set<Path>): (State, Outcome) {
    if budget == 0 then (st, Crashed) else (st.(files := after), if ok then Done else Failed("step failed"))
  }

  function AfterBase(st: State, budget: nat, env: Env): (State, Outcome) {
    var (installed, outcome) := AfterOutside(st, budget, env.baseOk, env.afterBase);
    if outcome != Done then (installed, outcome)
    else
      var r := ComponentLifecycle.BaseReady(installed.stored);
      if r.Err? then (installed, Failed(r.error))
      else if budget < 2 then (installed, Crashed)
      else (installed.(stored := Present(r.value)), Done)
  }

  function AfterOptional(st: State, budget: nat, selected: seq<string>, env: Env): (State, Outcome) {
    var mediapipe := if MEDIAPIPE in selected then 1 else 0;
    var (first, outcome) :=
      if MEDIAPIPE in selected then AfterOutside(st, budget, env.mediapipeOk, env.afterMediapipe) else (st, Done);
    if outcome != Done || PEAR !in selected then (first, outcome)
    else AfterOutside(first, if budget < mediapipe then 0 else budget - mediapipe, env.pearOk, env.afterPear)
  }

  function AfterPublish(st: State, budget: nat, components: string, env: Env): (State, Exit) {
    var r := ComponentLifecycle.Complete(st, components);
    if r.Err? then (st, Failure)
    else if budget == 0 then (st, Killed)
    else
      var published := st.(stored := Present(r.value));
      var marked := if env.markerOk then st.files + {SETUP_OK} else st.files;
      var (after, outcome) := AfterOutside(published, budget - 1, env.markerOk, marked);
      (after, ExitOf(outcome))
  }

  /** The state and exit of a whole setup, with the actions each part leaves to the next. */
  function Bootstrapped(st: State, call: Call): (State, Exit) {
    var requested := ResolveComponents(st.stored, call.components, call.env.nvidia);
    if requested.Err? || ParseSelected(requested.value).Err? || call.env.manifestVersion.None? then (st, Failure)
    else
      var selected, version := ParseSelected(requested.value).value, call.env.manifestVersion.value;
      var (begun, outcome) := ComponentLifecycle.Begin(st, requested.value, version, call.budget);
      if outcome != Done then (begun, ExitOf(outcome))
      else
        var left := Less(call.budget, |BeginActions(st, selected, version)|);
        var (based, outcome') := AfterBase(begun, left, call.env);
        if outcome' != Done then (based, ExitOf(outcome'))
        else
          var (installed, outcome'') := AfterOptional(based, Less(left, 2), selected, call.env);
          if outcome'' != Done then (installed, ExitOf(outcome''))
          else AfterPublish(installed, Less(left, 2 + OptionalSteps(selected)), requested.value, call.env)
  }

  /** A setup that succeeds ran the base and every selected optional component, each successfully:
      the files are those the last of them left, with the marker, and the inventory is published
      for the requested selection. */
  lemma SuccessExactly(st: State, call: Call)
    requires Bootstrapped(st, call).1 == Success
    ensures var (after, env) := (Bootstrapped(st, call).0, call.env);
      var requested := ResolveComponents(st.stored, call.components, env.nvidia);
      && requested.Ok? && ParseSelected(requested.value).Ok? && env.baseOk && env.markerOk
      && var selected := ParseSelected(requested.value).value;
        && ("mediapipe" in selected ==> env.mediapipeOk) && ("pear" in selected ==> env.pearOk)
        && after.files ==
             (if "pear" in selected then env.afterPear
              else if "mediapipe" in selected then env.afterMediapipe else env.afterBase) + {SETUP_OK}
        && after.stored.Present? && after.stored.inventory.transaction == Ready
        && Names(after.stored.inventory.components) == selected
  {
    hide ParseSelected; hide ComponentLifecycle.Begin; hide ResolveComponents; hide BeginActions; hide Names;
    hide ComponentLifecycle.BaseReady; hide ComponentLifecycle.Complete;
    var requested := ResolveComponents(st.stored, call.components, call.env.nvidia);
    forall s: State | ComponentLifecycle.Complete(s, requested.value).Ok?
      ensures ParseSelected(requested.value).Ok?
      ensures var inventory := ComponentLifecycle.Complete(s, requested.value).value;
        inventory.transaction == Ready && Names(inventory.components) == ParseSelected(requested.value).value
    {
      CompletedSelection(s, requested.value);
    }
  }

  /** The marker of a finished setup is put on disk by no other setup than one that succeeds. */
  lemma MarkerMeansSuccess(st: State, call: Call)
    requires SETUP_OK !in st.files && SETUP_OK !in call.env.afterBase
    requires SETUP_OK !in call.env.afterMediapipe && SETUP_OK !in call.env.afterPear
    ensures SETUP_OK in Bootstrapped(st, call).0.files ==> Bootstrapped(st, call).1 == Success
  {
    hide ParseSelected; hide ComponentLifecycle.Begin; hide ResolveComponents; hide BeginActions;
    hide ComponentLifecycle.BaseReady; hide ComponentLifecycle.Complete;
    var requested := ResolveComponents(st.stored, call.components, call.env.nvidia);
    if requested.Ok? && call.env.manifestVersion.Some? {
      BeginRemovesOnlyDeselected(st, requested.value, call.env.manifestVersion.value, call.budget, SETUP_OK);
    }
  }

  /** A run is one setup after the other, and the selection it records that of the last call that
      was asked for a valid one, knew the version, and lived to its first action. */
  lemma OneMoreCall(st: State, start: Option<seq<string>>, calls: seq<Call>, call: Call)
    ensures AfterCalls(st, []) == st && LastBegun(start, []) == start
    ensures AfterCalls(st, calls + [call]) == Bootstrapped(AfterCalls(st, calls), call).0
    ensures var before := LastBegun(start, calls);
      var request :=
        if call.components.Some? && call.components.value != "" then call.components.value
        else if before.Some? then Join(before.value)
        else if call.env.nvidia then "base,mediapipe,pear" else "base,mediapipe";
      LastBegun(start, calls + [call]) ==
        if call.budget > 0 && call.env.manifestVersion.Some? && ParseSelected(request).Ok?
        then Some(ParseSelected(request).value) else before
  {
    hide ParseSelected; hide Bootstrapped; hide Join;
    assert (calls + [call])[..|calls|] == calls;
  }

  lemma CompletedSelection(st: State, components: string)
    requires ComponentLifecycle.Complete(st, components).Ok?
    ensures ParseSelected(components).Ok?
    ensures var inventory := ComponentLifecycle.Complete(st, components).value;
      inventory.transaction == Ready && Names(inventory.components) == ParseSelected(components).value
  {
    hide ParseSelected;
    StatesKeepNames(st.stored.inventory.components, BASE, Ready);
  }

  function Less(budget: nat, used: nat): nat { if budget < used then 0 else budget - used }

  /** The state after a series of setups. */
  function AfterCalls(st: State, calls: seq<Call>): State {
    if calls == [] then st else Bootstrapped(AfterCalls(st, calls[..|calls| - 1]), calls[|calls| - 1]).0
  }

  /* ---- every run of the installer ---- */

  /** One call of the setup: what was asked for, what the world does, and when it dies. */
  datatype Call = Call(components: Option<string>, env: Env, budget: nat)

  /** The selection a stored inventory records. */
  function Selected(stored: Stored): Option<seq<string>> {
    if stored.Present? then Some(Names(stored.inventory.components)) else None
  }

  /** The selection a call stores: the requested one when it is valid, the stored inventory can
      be read, the version is known, and the process lives to its first action. */
  function Begins(stored: Stored, call: Call): Option<seq<string>> {
    var requested := ResolveComponents(stored, call.components, call.env.nvidia);
    if requested.Err? || stored.Malformed? || call.env.manifestVersion.None? || call.budget == 0 then None
    else
      var selected := ParseSelected(requested.value);
      if selected.Err? then None else Some(selected.value)
  }

  /** The request of a call over an earlier selection. */
  function Requested(before: Option<seq<string>>, call: Call): string {
    if call.components.Some? && call.components.value != "" then call.components.value
    else if before.Some? then Join(before.value)
    else if call.env.nvidia then "base,mediapipe,pear" else "base,mediapipe"
  }

  /** The selection of the last call that got as far as storing one, over a readable start. */
  function LastBegun(start: Option<seq<string>>, calls: seq<Call>): Option<seq<string>> {
    if calls == [] then start
    else
      var before, call := LastBegun(start, calls[..|calls| - 1]), calls[|calls| - 1];
      var selected := ParseSelected(Requested(before, call));
      if call.budget > 0 && call.env.manifestVersion.Some? && selected.Ok? then Some(selected.value) else before
  }

  lemma BeginsRequested(stored: Stored, call: Call)
    requires !stored.Malformed?
    ensures Begins(stored, call) ==
      var selected := ParseSelected(Requested(Selected(stored), call));
      if call.budget > 0 && call.env.manifestVersion.Some? && selected.Ok? then Some(selected.value) else None
  {
    hide ParseSelected; hide Names; hide Join;
  }

  /** Whatever setups run, fail and die one after the other, from a good inventory or from
      none: the inventory stays good, it records exactly the selection of the last setup that
      got as far as storing one, and a repair without components selects that again.  An
      unreadable inventory is never replaced. */
  method RunSetups(stored: Stored, files: set<Path>, calls: seq<Call>) returns (dir: InstallDir)
    requires Good(stored)
    ensures dir.View() == AfterCalls(State(stored, files), calls)
    ensures Good(dir.stored)
    ensures stored.Malformed? ==> dir.stored == stored
    ensures !stored.Malformed? ==> !dir.stored.Malformed? && Selected(dir.stored) == LastBegun(Selected(stored), calls)
    ensures dir.stored.Present? ==> forall nvidia ::
      var repair := ResolveComponents(dir.stored, None, nvidia);
      repair.Ok? && ParseSelected(repair.value) == Ok(Names(dir.stored.inventory.components))
  {
    hide ParseSelected; hide ResolveComponents; hide Names; hide Good; hide Requested;
    hide Bootstrapped;
    dir := new InstallDir(stored, files);
    assert calls[..0] == [];
    for i := 0 to |calls|
      invariant fresh(dir) && Good(dir.stored) && dir.View() == AfterCalls(State(stored, files), calls[..i])
      invariant stored.Malformed? ==> dir.stored == stored
      invariant !stored.Malformed? ==>
        !dir.stored.Malformed? && Selected(dir.stored) == LastBegun(Selected(stored), calls[..i])
    {
      ghost var before := dir.stored;
      if !before.Malformed? { BeginsRequested(before, calls[i]); }
      dir.budget := calls[i].budget;
      var _ := dir.BootstrapInstall(calls[i].components, calls[i].env);
      assert calls[..i + 1][..i] == calls[..i];
    }
    assert calls[..|calls|] == calls;
    if dir.stored.Present? {
      forall nvidia
        ensures ResolveComponents(dir.stored, None, nvidia).Ok?
        ensures ParseSelected(ResolveComponents(dir.stored, None, nvidia).value)
             == Ok(Names(dir.stored.inventory.components))
      {
        RepairReselects(dir.stored, nvidia);
      }
    }
  }

  /** A begin in its three phases. */
  lemma Phases(st: State, selected: seq<string>, version: string)
    ensures var write := WriteInventory(BeginInventory(st.stored, selected, version));
      var a := Cleanup(st.stored, st.files, selected, Mediapipe);
      var actions, written := BeginActions(st, selected, version), Perform(st, write);
      var cleared := PerformAll(written, a[..|a|]);
      var b := Cleanup(st.stored, cleared.files, selected, Pear);
      && written.files == st.files
      && |actions| == 1 + |a| + |b|
      && PerformAll(st, actions[..0]) == st
      && (forall k | 1 <= k <= 1 + |a| :: PerformAll(st, actions[..k]) == PerformAll(written, a[..k - 1]))
      && (forall k | 1 + |a| <= k <= |actions| :: PerformAll(st, actions[..k]) == PerformAll(cleared, b[..k - 1 - |a|]))
      && PerformAll(st, actions) == PerformAll(cleared, b[..|b|])
  {
    var write := WriteInventory(BeginInventory(st.stored, selected, version));
    var a, b := Cleanup(st.stored, st.files, selected, Mediapipe), Cleanup(st.stored, st.files, selected, Pear);
    var actions := BeginActions(st, selected, version);
    PearEvidence(st, selected, version);
    InThree(st, selected, version);
    hide BeginInventory; hide Cleanup; hide Perform; hide PerformAll; hide BeginActions;
    PerformNothing(st, actions);
    PerformOne(st, actions);
    Chunk(st, [write], a, b, actions);
    SameEvidence(st.stored, st.files, PerformAll(st, [write] + a).files, selected);
    assert a[..|a|] == a && b[..|b|] == b && actions[..|actions|] == actions;
  }

  lemma InThree(st: State, selected: seq<string>, version: string)
    ensures var write := WriteInventory(BeginInventory(st.stored, selected, version));
      && BeginActions(st, selected, version) ==
           [write] + Cleanup(st.stored, st.files, selected, Mediapipe) + Cleanup(st.stored, st.files, selected, Pear)
      && Perform(st, write).files == st.files
  {
    hide BeginInventory; hide Cleanup;
  }

  lemma SameEvidence(stored: Stored, files: set<Path>, after: set<Path>, selected: seq<string>)
    requires Manifest(Pear) in after <==> Manifest(Pear) in files
    ensures Cleanup(stored, after, selected, Pear) == Cleanup(stored, files, selected, Pear)
  {}

  lemma PerformNothing(st: State, actions: seq<Action>)
    ensures PerformAll(st, actions[..0]) == st
  {}

  lemma PerformOne(st: State, actions: seq<Action>)
    requires actions != []
    ensures PerformAll(st, actions[..1]) == Perform(st, actions[0])
  {
    assert actions[..1][..0] == [];
  }

  /** The state part of the way through the removals of one component, then of the other. */
  lemma Chunk(st: State, first: seq<Action>, a: seq<Action>, b: seq<Action>, actions: seq<Action>)
    requires |first| == 1 && actions == first + a + b
    ensures actions[..1] == first
    ensures forall k | 1 <= k <= 1 + |a| ::
      PerformAll(st, actions[..k]) == PerformAll(PerformAll(st, first), a[..k - 1])
    ensures PerformAll(st, first + a) == PerformAll(PerformAll(st, first), a)
    ensures forall k | 1 + |a| <= k <= |actions| ::
      PerformAll(st, actions[..k]) == PerformAll(PerformAll(st, first + a), b[..k - 1 - |a|])
    ensures PerformAll(st, actions) == PerformAll(PerformAll(st, first + a), b)
  {
    assert actions[..1] == first;
    forall k | 1 <= k <= 1 + |a|
      ensures PerformAll(st, actions[..k]) == PerformAll(PerformAll(st, first), a[..k - 1])
    {
      assert actions[..k] == first + a[..k - 1];
      PerformAppend(st, first, a[..k - 1]);
    }
    PerformAppend(st, first, a);
    forall k | 1 + |a| <= k <= |actions|
      ensures PerformAll(st, actions[..k]) == PerformAll(PerformAll(st, first + a), b[..k - 1 - |a|])
    {
      assert actions[..k] == first + a + b[..k - 1 - |a|];
      PerformAppend(st, first + a, b[..k - 1 - |a|]);
    }
    PerformAppend(st, first + a, b);
  }

  /** Cleaning up the first component does not touch the evidence for the second. */
  lemma PearEvidence(st: State, selected: seq<string>, version: string)
    ensures var first := [WriteInventory(BeginInventory(st.stored, selected, version))];
      var after := PerformAll(st, first + Cleanup(st.stored, st.files, selected, Mediapipe));
      Manifest(Pear) in after.files <==> Manifest(Pear) in st.files
  {
    hide BeginInventory;
    var first := [WriteInventory(BeginInventory(st.stored, selected, version))];
    var a := Cleanup(st.stored, st.files, selected, Mediapipe);
    PerformAppend(st, first, a);
    FirstWrites(st, BeginInventory(st.stored, selected, version));
    var written := st.(stored := Present(BeginInventory(st.stored, selected, version)));
    hide PerformAll; hide OwnedPaths;
    RemovalPrefix(written, Mediapipe, a, |a|);
    assert a[..|a|] == a;
    if Cleared(Mediapipe, |a|, Manifest(Pear)) {
      ClearedOwned(Mediapipe, |a|, Manifest(Pear));
      ManifestClearedLast(Pear, 0);
      OwnersAreDisjoint(Manifest(Pear));
    }
  }
}
