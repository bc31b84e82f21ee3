/** The installed-component inventory and the cleanup of deselected components
    (component_lifecycle.py).  A path is the list of its segments below the install root, the
    file system the set of its files; replacing the inventory and removing one owned path are
    the atomic actions, and a crash may come between any two of them. */
module ComponentLifecycle {
  import opened Prelude
  import opened Selections

  datatype Segment =
    | Backends | Payloads | MediapipeDir | PearDir | BackendJson
    | Bin | Wheels | TorchLock | PypiLock | Python | Runtime
    | BootstrapDir | Extension | InstallerManifest | PearPayloadManifest | MediapipePayloadManifest
    | InstalledComponents | License | ThirdPartyNotices
    | Other(text: string)

  type Path = seq<Segment>

  const BASE_OWNED: seq<Path> := [
    [BootstrapDir], [Extension], [InstallerManifest], [PearPayloadManifest], [MediapipePayloadManifest],
    [InstalledComponents], [License], [ThirdPartyNotices]]

  /** The user's own downloads, which no deselection removes. */
  const RETAINED: Path := [PearDir]

  datatype Optional = Mediapipe | Pear

  const COMPONENTS: seq<Optional> := [Mediapipe, Pear]

  function Name(c: Optional): string { if c == Mediapipe then MEDIAPIPE else PEAR }

  /** The paths the installer owns for a component, in the order they are removed. */
  function OwnedPaths(c: Optional): seq<Path> {
    if c == Mediapipe then [[Payloads, MediapipeDir], [Backends, MediapipeDir]]
    else [[Bin], [Wheels], [TorchLock], [PypiLock], [Payloads, PearDir], [Python], [Runtime], [Backends, PearDir]]
  }

  function BackendDir(c: Optional): Path { [Backends, if c == Mediapipe then MediapipeDir else PearDir] }

  function Manifest(c: Optional): Path { BackendDir(c) + [BackendJson] }

  /** Whether the file lies at or below the path. */
  predicate Under(p: Path, root: Path) { root <= p }

  predicate Owns(c: Optional, p: Path) { exists i | 0 <= i < |OwnedPaths(c)| :: Under(p, OwnedPaths(c)[i]) }

  predicate OwnedByBase(p: Path) { exists i | 0 <= i < |BASE_OWNED| :: Under(p, BASE_OWNED[i]) }

  /* ---- the stored state ---- */

  datatype EntryState = Installing | Ready
  datatype ManifestState = NotApplicable | Pending | Registered

  datatype Entry = Entry(name: string, version: string, state: EntryState, manifest: ManifestState)

  datatype Inventory = Inventory(version: string, transaction: EntryState, previousVersion: Option<string>,
                                 components: seq<Entry>)

  datatype Stored = Absent | Malformed | Present(inventory: Inventory)

  datatype State = State(stored: Stored, files: set<Path>)

  function Names(components: seq<Entry>): seq<string> {
    seq(|components|, i requires 0 <= i < |components| => components[i].name)
  }

  predicate HasComponent(stored: Stored, name: string) { stored.Present? && name in Names(stored.inventory.components) }

  /* ---- actions and crashes ---- */

  datatype Action = WriteInventory(inventory: Inventory) | RemoveTree(path: Path)

  function Perform(st: State, a: Action): State {
    match a
    case WriteInventory(inventory) => st.(stored := Present(inventory))
    case RemoveTree(path) => st.(files := set p <- st.files | !Under(p, path))
  }

  function PerformAll(st: State, actions: seq<Action>): State {
    if actions == [] then st else Perform(PerformAll(st, actions[..|actions| - 1]), actions[|actions| - 1])
  }

  function Removals(paths: seq<Path>): seq<Action> { seq(|paths|, i requires 0 <= i < |paths| => RemoveTree(paths[i])) }

  /** Evidence that a component was installed before: its inventory entry or its manifest. */
  predicate Had(stored: Stored, files: set<Path>, c: Optional) { HasComponent(stored, Name(c)) || Manifest(c) in files }

  function Cleanup(stored: Stored, files: set<Path>, selected: seq<string>, c: Optional): seq<Action> {
    if Had(stored, files, c) && Name(c) !in selected then Removals(OwnedPaths(c)) else []
  }

  function BeginInventory(stored: Stored, selected: seq<string>, version: string): Inventory {
    Inventory(version, Installing, if stored.Present? then Some(stored.inventory.version) else None,
              [Entry(BASE, version, Installing, NotApplicable)]
              + (if MEDIAPIPE in selected then [Entry(MEDIAPIPE, version, Installing, Pending)] else [])
              + (if PEAR in selected then [Entry(PEAR, version, Installing, Pending)] else []))
  }

  /** Everything a begin does, in order. */
  function BeginActions(st: State, selected: seq<string>, version: string): seq<Action> {
    [WriteInventory(BeginInventory(st.stored, selected, version))]
    + Cleanup(st.stored, st.files, selected, Mediapipe)
    + Cleanup(st.stored, st.files, selected, Pear)
  }

  datatype Outcome = Done | Failed(error: string) | Crashed

  /** A begin that crashes after `crashAfter` actions, if it comes to that many. */
  function Begin(st: State, components: string, version: string, crashAfter: nat): (State, Outcome) {
    var selected := ParseSelected(components);
    if selected.Err? then (st, Failed(selected.error))
    else if st.stored.Malformed? then (st, Failed("malformed installed component inventory"))
    else
      var actions := BeginActions(st, selected.value, version);
      if crashAfter < |actions| then (PerformAll(st, actions[..crashAfter]), Crashed)
      else (PerformAll(st, actions), Done)
  }

  /* ---- ready and complete ---- */

  predicate InProgress(stored: Stored) { stored.Present? && stored.inventory.transaction == Installing }

  function WithState(components: seq<Entry>, name: string, state: EntryState): seq<Entry> {
    seq(|components|, i requires 0 <= i < |components| =>
      if components[i].name == name then components[i].(state := state) else components[i])
  }

  function BaseReady(stored: Stored): Result<Inventory> {
    if !InProgress(stored) then Err("cannot complete component lifecycle without an installing inventory")
    else if !HasComponent(stored, BASE) then Err("no base component")
    else Ok(stored.inventory.(components := WithState(stored.inventory.components, BASE, Ready)))
  }

  function ManifestOf(name: string): Path { Manifest(if name == MEDIAPIPE then Mediapipe else Pear) }

  function Finished(components: seq<Entry>): seq<Entry> {
    seq(|components|, i requires 0 <= i < |components| =>
      var e := components[i];
      e.(state := Ready, manifest := if e.name == BASE then e.manifest else Registered))
  }

  function Complete(st: State, components: string): Result<Inventory> {
    var selected := ParseSelected(components);
    if selected.Err? then Err(selected.error)
    else if !InProgress(st.stored) then Err("cannot complete component lifecycle without an installing inventory")
    else
      var inventory := st.stored.inventory;
      if Names(inventory.components) != selected.value then Err("component selection changed during installation")
      else if exists name <- selected.value :: name != BASE && ManifestOf(name) !in st.files then
        Err("backend manifest is missing")
      else Ok(inventory.(transaction := Ready, previousVersion := None, components := Finished(inventory.components)))
  }

  /** The selection of a repair that does not name one. */
  function ResolveComponents(stored: Stored, components: Option<string>, nvidia: bool): Result<string> {
    if components.Some? && components.value != "" then Ok(components.value)
    else if stored.Malformed? then Err("malformed installed component inventory")
    else if stored.Present? then Ok(Join(Names(stored.inventory.components)))
    else Ok(if nvidia then "base,mediapipe,pear" else "base,mediapipe")
  }

  /* ---- ownership is disjoint ---- */

  lemma OwnedMediapipe(p: Path)
    ensures Owns(Mediapipe, p) <==> |p| >= 2 && (p[0] == Payloads || p[0] == Backends) && p[1] == MediapipeDir
  {
    if Owns(Mediapipe, p) {
      var i :| 0 <= i < |OwnedPaths(Mediapipe)| && Under(p, OwnedPaths(Mediapipe)[i]);
    } else {
      assert !Under(p, OwnedPaths(Mediapipe)[0]) && !Under(p, OwnedPaths(Mediapipe)[1]);
    }
  }

  lemma OwnedPear(p: Path)
    ensures Owns(Pear, p) <==>
      || (|p| >= 2 && (p[0] == Payloads || p[0] == Backends) && p[1] == PearDir)
      || (|p| >= 1 && p[0] in {Bin, Wheels, TorchLock, PypiLock, Python, Runtime})
  {
    if Owns(Pear, p) {
      var i :| 0 <= i < |OwnedPaths(Pear)| && Under(p, OwnedPaths(Pear)[i]);
    } else {
      assert forall i | 0 <= i < 8 :: !Under(p, OwnedPaths(Pear)[i]);
      assert OwnedPaths(Pear)[0] == [Bin] && OwnedPaths(Pear)[1] == [Wheels] && OwnedPaths(Pear)[2] == [TorchLock];
      assert OwnedPaths(Pear)[3] == [PypiLock] && OwnedPaths(Pear)[4] == [Payloads, PearDir]
        && OwnedPaths(Pear)[5] == [Python];
      assert OwnedPaths(Pear)[6] == [Runtime] && OwnedPaths(Pear)[7] == [Backends, PearDir];
    }
  }

  lemma OwnedBase(p: Path)
    ensures OwnedByBase(p) <==>
      |p| >= 1 && p[0] in {BootstrapDir, Extension, InstallerManifest, PearPayloadManifest, MediapipePayloadManifest,
                           InstalledComponents, License, ThirdPartyNotices}
  {
    if OwnedByBase(p) {
      var i :| 0 <= i < |BASE_OWNED| && Under(p, BASE_OWNED[i]);
    } else {
      assert !Under(p, BASE_OWNED[0]) && !Under(p, BASE_OWNED[1]) && !Under(p, BASE_OWNED[2]);
      assert !Under(p, BASE_OWNED[3]) && !Under(p, BASE_OWNED[4]) && !Under(p, BASE_OWNED[5]);
      assert !Under(p, BASE_OWNED[6]) && !Under(p, BASE_OWNED[7]);
    }
  }

  /** No file has two owners, and nobody owns the user's own downloads. */
  lemma OwnersAreDisjoint(p: Path)
    ensures !(Owns(Mediapipe, p) && Owns(Pear, p))
    ensures OwnedByBase(p) ==> !Owns(Mediapipe, p) && !Owns(Pear, p)
    ensures Under(p, RETAINED) ==> !Owns(Mediapipe, p) && !Owns(Pear, p) && !OwnedByBase(p)
  {
    hide Owns; hide OwnedByBase;
    OwnedMediapipe(p);
    OwnedPear(p);
    if OwnedByBase(p) { OwnedBase(p); }
  }

  /* ---- what a sequence of removals leaves ---- */

  lemma {:induction false} PerformRemovals(st: State, paths: seq<Path>)
    ensures var after := PerformAll(st, Removals(paths));
      && after.stored == st.stored
      && forall p :: p in after.files <==> p in st.files && !exists i | 0 <= i < |paths| :: Under(p, paths[i])
  {
    if paths != [] {
      var n := |paths| - 1;
      PerformRemovals(st, paths[..n]);
      assert Removals(paths)[..n] == Removals(paths[..n]);
    }
  }

  lemma {:induction false} PerformAppend(st: State, a: seq<Action>, b: seq<Action>)
    ensures PerformAll(st, a + b) == PerformAll(PerformAll(st, a), b)
  {
    if b == [] {
      assert a + b == a;
    } else {
      assert (a + b)[..|a + b| - 1] == a + b[..|b| - 1];
      PerformAppend(st, a, b[..|b| - 1]);
    }
  }

  /** The file is below one of the first `k` owned paths of the component. */
  predicate Cleared(c: Optional, k: nat, p: Path)
    requires k <= |OwnedPaths(c)|
  {
    exists i | 0 <= i < k :: Under(p, OwnedPaths(c)[i])
  }

  predicate Deselects(st: State, selected: seq<string>, c: Optional) {
    Had(st.stored, st.files, c) && Name(c) !in selected
  }

  /** The state after some removals of each component and, before them, the inventory. */
  ghost predicate Partly(st: State, written: Stored, after: State, m: nat, p: nat)
    requires m <= |OwnedPaths(Mediapipe)| && p <= |OwnedPaths(Pear)|
  {
    && after.stored == written
    && forall q :: q in after.files <==> q in st.files && !Cleared(Mediapipe, m, q) && !Cleared(Pear, p, q)
  }

  /** How far the first `n` actions of a begin get: the inventory first, then the paths of each
      deselected component in order, one component after the other. */
  lemma Prefix(st: State, selected: seq<string>, version: string, n: nat) returns (m: nat, p: nat)
    requires n <= |BeginActions(st, selected, version)|
    ensures m <= |OwnedPaths(Mediapipe)| && p <= |OwnedPaths(Pear)|
    ensures m > 0 ==> Deselects(st, selected, Mediapipe)
    ensures p > 0 ==> Deselects(st, selected, Pear)
    ensures n == |BeginActions(st, selected, version)| ==>
      && (Deselects(st, selected, Mediapipe) ==> m == |OwnedPaths(Mediapipe)|)
      && (Deselects(st, selected, Pear) ==> p == |OwnedPaths(Pear)|)
    ensures n <= 1 ==> m == 0 && p == 0
    ensures Partly(st, if n == 0 then st.stored else Present(BeginInventory(st.stored, selected, version)),
                   PerformAll(st, BeginActions(st, selected, version)[..n]), m, p)
  {
    var first := [WriteInventory(BeginInventory(st.stored, selected, version))];
    var a, b := Cleanup(st.stored, st.files, selected, Mediapipe), Cleanup(st.stored, st.files, selected, Pear);
    hide BeginInventory; hide PerformAll;
    if n == 0 {
      m, p := 0, 0;
      NothingPerformed(st, BeginActions(st, selected, version));
      return;
    }
    m := if n - 1 <= |a| then n - 1 else |a|;
    p := n - 1 - m;
    assert BeginActions(st, selected, version) == first + a + b;
    Cut(first[0], a, b, m, p);
    PerformAppend(st, first + a[..m], b[..p]);
    PerformAppend(st, first, a[..m]);
    var written := st.(stored := Present(BeginInventory(st.stored, selected, version)));
    FirstWrites(st, BeginInventory(st.stored, selected, version));
    RemovalPrefix(written, Mediapipe, a, m);
    RemovalPrefix(PerformAll(written, a[..m]), Pear, b, p);
  }

  lemma NothingPerformed(st: State, actions: seq<Action>)
    ensures PerformAll(st, actions[..0]) == st
  {}

  lemma Cut(first: Action, a: seq<Action>, b: seq<Action>, m: nat, p: nat)
    requires m <= |a| && p <= |b| && (p > 0 ==> m == |a|)
    ensures ([first] + a + b)[..1 + m + p] == [first] + a[..m] + b[..p]
  {}

  lemma FirstWrites(st: State, inventory: Inventory)
    ensures PerformAll(st, [WriteInventory(inventory)]) == st.(stored := Present(inventory))
  {
    assert [WriteInventory(inventory)][..0] == [];
  }

  lemma RemovalPrefix(st: State, c: Optional, actions: seq<Action>, k: nat)
    requires (actions == [] || actions == Removals(OwnedPaths(c))) && k <= |actions|
    ensures k <= |OwnedPaths(c)| && PerformAll(st, actions[..k]).stored == st.stored
    ensures forall q :: q in PerformAll(st, actions[..k]).files <==> q in st.files && !Cleared(c, k, q)
  {
    hide OwnedPaths;
    if actions == [] {
      assert actions[..k] == [];
      PerformRemovals(st, []);
      assert Removals([]) == [];
    } else {
      assert actions[..k] == Removals(OwnedPaths(c)[..k]);
      PerformRemovals(st, OwnedPaths(c)[..k]);
    }
  }

  lemma ClearedAll(c: Optional, p: Path)
    ensures Cleared(c, |OwnedPaths(c)|, p) <==> Owns(c, p)
  {}

  lemma ClearedOwned(c: Optional, k: nat, p: Path)
    requires k <= |OwnedPaths(c)| && Cleared(c, k, p)
    ensures Owns(c, p)
  {}

  /** The manifest goes with the last owned path and not before. */
  lemma ManifestClearedLast(c: Optional, k: nat)
    requires k <= |OwnedPaths(c)|
    ensures Cleared(c, k, Manifest(c)) <==> k == |OwnedPaths(c)|
    ensures Owns(c, Manifest(c))
  {
    var last := |OwnedPaths(c)| - 1;
    assert OwnedPaths(c)[last] == BackendDir(c) && Under(Manifest(c), BackendDir(c));
    forall i | 0 <= i < last
      ensures !Under(Manifest(c), OwnedPaths(c)[i])
    {
      NotInBackends(c, i);
      assert Manifest(c)[0] == Backends;
    }
  }

  lemma NotInBackends(c: Optional, i: nat)
    requires i < |OwnedPaths(c)| - 1
    ensures OwnedPaths(c)[i] != [] && OwnedPaths(c)[i][0] != Backends
  {
    if c == Pear {
      assert i == 0 || i == 1 || i == 2 || i == 3 || i == 4 || i == 5 || i == 6;
    }
  }

  /* ---- safety of a begin, crashed or not ---- */

  /** Whatever a begin removes, at whatever point it stops, belongs to a component that was
      installed before and is not selected; so nothing of the retained downloads, of the base or
      of a selected component is ever removed, and nothing is ever added. */
  lemma BeginRemovesOnlyDeselected(st: State, components: string, version: string, crashAfter: nat, p: Path)
    ensures var after := Begin(st, components, version, crashAfter).0;
      && (p in after.files ==> p in st.files)
      && (p in st.files && p !in after.files ==>
            && ParseSelected(components).Ok?
            && (exists c: Optional :: Owns(c, p) && Deselects(st, ParseSelected(components).value, c))
            && !Under(p, RETAINED) && !OwnedByBase(p)
            && forall c: Optional :: Name(c) in ParseSelected(components).value ==> !Owns(c, p))
  {
    var selected := ParseSelected(components);
    hide ParseSelected; hide BeginActions; hide Owns; hide OwnedByBase; hide Cleared; hide OwnedPaths; hide PerformAll;
    if selected.Ok? && !st.stored.Malformed? {
      var actions := BeginActions(st, selected.value, version);
      var n := if crashAfter < |actions| then crashAfter else |actions|;
      assert actions[..|actions|] == actions;
      var m, k := Prefix(st, selected.value, version, n);
      if p in st.files && p !in PerformAll(st, actions[..n]).files {
        OwnersAreDisjoint(p);
        if Cleared(Mediapipe, m, p) { NothingClears(Mediapipe, p); ClearedOwned(Mediapipe, m, p); }
        else { NothingClears(Pear, p); ClearedOwned(Pear, k, p); }
      }
    }
  }

  lemma NothingClears(c: Optional, p: Path)
    ensures !Cleared(c, 0, p)
  {}

  /* ---- interrupted deselections ---- */

  predicate NoneOwned(files: set<Path>, c: Optional) { forall p <- files :: !Owns(c, p) }

  /** While a component is not selected its files are gone or its manifest is still there. */
  predicate Traceable(st: State, c: Optional) { NoneOwned(st.files, c) || Manifest(c) in st.files }

  /** A begin without the component keeps its files traceable even when it crashes, and leaves
      none of them when it completes. */
  lemma BeginKeepsTraceable(st: State, components: string, version: string, crashAfter: nat, c: Optional)
    requires ParseSelected(components).Ok? && Name(c) !in ParseSelected(components).value && !st.stored.Malformed?
    requires Traceable(st, c)
    ensures var (after, outcome) := Begin(st, components, version, crashAfter);
      && !after.stored.Malformed? && Traceable(after, c)
      && (outcome == Done ==> NoneOwned(after.files, c))
  {
    var selected := ParseSelected(components).value;
    hide ParseSelected; hide BeginActions; hide Owns; hide Cleared; hide OwnedPaths; hide PerformAll;
    hide BeginInventory;
    var actions := BeginActions(st, selected, version);
    var n := if crashAfter < |actions| then crashAfter else |actions|;
    assert actions[..|actions|] == actions;
    var m, k := Prefix(st, selected, version, n);
    var after := PerformAll(st, actions[..n]);
    var mine := if c == Mediapipe then m else k;
    if Manifest(c) in st.files {
      ManifestClearedLast(c, mine);
      OwnersAreDisjoint(Manifest(c));
      forall p <- after.files
        ensures mine == |OwnedPaths(c)| ==> !Owns(c, p)
      {
        ClearedAll(c, p);
      }
      if mine < |OwnedPaths(c)| {
        if c == Mediapipe { if Cleared(Pear, k, Manifest(c)) { ClearedOwned(Pear, k, Manifest(c)); } }
        else { if Cleared(Mediapipe, m, Manifest(c)) { ClearedOwned(Mediapipe, m, Manifest(c)); } }
      }
    }
  }

  datatype Attempt = Attempt(components: string, version: string, crashAfter: nat)

  function Try(st: State, a: Attempt): (State, Outcome) { Begin(st, a.components, a.version, a.crashAfter) }

  /** Begins one after the other, each from where the one before stopped. */
  function Attempts(st: State, attempts: seq<Attempt>): State {
    if attempts == [] then st else Try(Attempts(st, attempts[..|attempts| - 1]), attempts[|attempts| - 1]).0
  }

  /** The attempt is at a valid selection without the component. */
  predicate Omits(a: Attempt, c: Optional) {
    ParseSelected(a.components).Ok? && Name(c) !in ParseSelected(a.components).value
  }

  predicate Without(attempts: seq<Attempt>, c: Optional) { forall i | 0 <= i < |attempts| :: Omits(attempts[i], c) }

  lemma {:induction false} AttemptsKeepTraceable(st: State, attempts: seq<Attempt>, c: Optional)
    requires !st.stored.Malformed? && Traceable(st, c) && Without(attempts, c)
    ensures !Attempts(st, attempts).stored.Malformed? && Traceable(Attempts(st, attempts), c)
  {
    hide Traceable; hide ParseSelected; hide Begin;
    if attempts != [] {
      var n := |attempts| - 1;
      AttemptsKeepTraceable(st, attempts[..n], c);
      var last := attempts[n];
      BeginKeepsTraceable(Attempts(st, attempts[..n]), last.components, last.version, last.crashAfter, c);
    }
  }

  /** An interrupted deselection is always finished: however many begins without the component
      crash and wherever they do, the first that completes leaves none of its files, provided
      its manifest was there at the start or there was nothing of it. */
  lemma InterruptedDeselection(st: State, crashed: seq<Attempt>, last: Attempt, c: Optional)
    requires !st.stored.Malformed? && Traceable(st, c)
    requires Without(crashed, c) && Omits(last, c) && Try(Attempts(st, crashed), last).1 == Done
    ensures NoneOwned(Try(Attempts(st, crashed), last).0.files, c)
  {
    hide ParseSelected; hide Begin; hide NoneOwned;
    AttemptsKeepTraceable(st, crashed, c);
    BeginKeepsTraceable(Attempts(st, crashed), last.components, last.version, last.crashAfter, c);
  }

  /** One crash right after the inventory was replaced. */
  const CRASHED_EARLY := [Attempt("base", "1", 1)]

  const BASE_ONLY := Attempt("base", "1", 100)

  /** Every history of crashed begins without the component, followed by any that completes,
      leaves none of its files. */
  ghost predicate AlwaysFinished(st: State, c: Optional) {
    forall crashed: seq<Attempt>, last: Attempt {:trigger Try(Attempts(st, crashed), last)} ::
      Without(crashed, c) && Omits(last, c) && Try(Attempts(st, crashed), last).1 == Done ==>
        NoneOwned(Try(Attempts(st, crashed), last).0.files, c)
  }

  lemma BaseOnly(c: Optional)
    ensures ParseSelected("base") == Ok([BASE]) && Name(c) !in [BASE]
  {
    Spelled();
    assert Selection(false, false) == [BASE];
    ParseJoin(Selection(false, false));
    assert |MEDIAPIPE| == 9 && |PEAR| == 4 && PEAR[0] == 'p' && BASE[0] == 'b';
  }

  lemma CompletesWithin(st: State)
    requires !st.stored.Malformed?
    ensures Begin(st, "base", "1", 100).1 == Done
  {
    BaseOnly(Mediapipe);
    hide ParseSelected; hide PerformAll; hide Had;
  }

  /** It is finished exactly when the manifest is there or there is nothing to remove: without
      the manifest, a crash between the new inventory and the first removal leaves the files of
      a half-installed component behind for good. */
  lemma FinishedExactly(st: State, c: Optional)
    requires !st.stored.Malformed?
    ensures AlwaysFinished(st, c) <==> Traceable(st, c)
  {
    BaseOnly(c);
    hide ParseSelected; hide Begin; hide NoneOwned; hide Owns;
    if Traceable(st, c) {
      forall crashed: seq<Attempt>, last: Attempt
        | Without(crashed, c) && Omits(last, c) && Try(Attempts(st, crashed), last).1 == Done
        ensures NoneOwned(Try(Attempts(st, crashed), last).0.files, c)
      {
        InterruptedDeselection(st, crashed, last, c);
      }
    } else {
      LeftBehind(st, c);
      OneAttempt(st);
      CrashEarly(st);
      CompletesWithin(Attempts(st, CRASHED_EARLY));
      assert Without(CRASHED_EARLY, c) && Omits(BASE_ONLY, c);
      assert Try(Attempts(st, CRASHED_EARLY), BASE_ONLY).1 == Done;
    }
  }

  /** A setup that reaches such a state: an install of the optional runtime component that is
      aborted after unpacking, before it writes its manifest. */
  lemma AbortedInstall()
    ensures var begun := Begin(State(Absent, {}), "base,pear", "1", 100).0.stored;
      var st := State(begun, {[Runtime]});
      && InProgress(begun) && HasComponent(begun, PEAR)
      && !Traceable(st, Pear) && !AlwaysFinished(st, Pear)
  {
    BegunOverNothing();
    SelectionMembers(false, true);
    BeginRecords(Absent, Selection(false, true), "1");
    hide Begin; hide BeginInventory; hide AlwaysFinished; hide Owns; hide Names; hide Good;
    var st := State(Begin(State(Absent, {}), "base,pear", "1", 100).0.stored, {[Runtime]});
    OwnedPear([Runtime]);
    FinishedExactly(st, Pear);
  }

  lemma BegunOverNothing()
    ensures Begin(State(Absent, {}), "base,pear", "1", 100).0.stored
         == Present(BeginInventory(Absent, Selection(false, true), "1"))
  {
    PearSpelled();
    NothingHad(Selection(false, true));
    hide ParseSelected; hide BeginInventory; hide Selection; hide BeginActions; hide PerformAll;
    var selected, empty := Selection(false, true), State(Absent, {});
    var actions := BeginActions(empty, selected, "1");
    assert actions[..|actions|] == actions;
    FirstWrites(empty, BeginInventory(Absent, selected, "1"));
  }

  lemma PearSpelled()
    ensures ParseSelected("base,pear") == Ok(Selection(false, true))
  {
    hide ParseSelected;
    Spelled();
    ParseJoin(Selection(false, true));
  }

  lemma NothingHad(selected: seq<string>)
    ensures BeginActions(State(Absent, {}), selected, "1") == [WriteInventory(BeginInventory(Absent, selected, "1"))]
  {
    hide BeginInventory;
  }

  lemma LeftBehind(st: State, c: Optional)
    requires !st.stored.Malformed? && !Traceable(st, c)
    ensures !NoneOwned(Begin(Attempts(st, CRASHED_EARLY), "base", "1", 100).0.files, c)
  {
    var early := State(Present(BeginInventory(st.stored, [BASE], "1")), st.files);
    OneAttempt(st);
    CrashEarly(st);
    NoEntry(st, c);
    BaseOnly(c);
    var p :| p in st.files && Owns(c, p);
    hide ParseSelected; hide Begin; hide Owns; hide HasComponent; hide OwnedByBase; hide BeginInventory; hide Attempts;
    BeginRemovesOnlyDeselected(early, "base", "1", 100, p);
    OwnersAreDisjoint(p);
  }

  lemma OneAttempt(st: State)
    ensures Attempts(st, CRASHED_EARLY) == Begin(st, "base", "1", 1).0
  {
    hide Begin;
    assert CRASHED_EARLY[..0] == [];
  }

  lemma CrashEarly(st: State)
    requires !st.stored.Malformed?
    ensures Begin(st, "base", "1", 1).0 == State(Present(BeginInventory(st.stored, [BASE], "1")), st.files)
  {
    BaseOnly(Mediapipe);
    hide ParseSelected; hide PerformAll; hide BeginInventory; hide Had; hide Cleared;
    var actions := BeginActions(st, [BASE], "1");
    assert actions[..|actions|] == actions;
    var m, p := Prefix(st, [BASE], "1", 1);
    assert Begin(st, "base", "1", 1).0 == PerformAll(st, actions[..1]);
    forall q
      ensures q in PerformAll(st, actions[..1]).files <==> q in st.files
    {
      NothingClears(Mediapipe, q);
      NothingClears(Pear, q);
    }
    assert PerformAll(st, actions[..1]).files == st.files;
  }

  lemma NoEntry(st: State, c: Optional)
    ensures !HasComponent(Present(BeginInventory(st.stored, [BASE], "1")), Name(c))
  {
    BaseOnly(Mediapipe); BaseOnly(Pear);
  }

  /* ---- the published inventory ---- */

  /** What every inventory this program stores satisfies: its names are a valid selection, and
      when it is published as ready every component is ready and every optional one
      registered. */
  ghost predicate Good(stored: Stored) {
    stored.Present? ==>
      var inventory := stored.inventory;
      && IsSelection(Names(inventory.components))
      && (forall i | 0 <= i < |inventory.components| :: inventory.components[i].version == inventory.version)
      && (inventory.transaction == Ready ==>
            forall i | 0 <= i < |inventory.components| :: var e := inventory.components[i];
              e.state == Ready && e.manifest == if e.name == BASE then NotApplicable else Registered)
      && (forall i | 0 <= i < |inventory.components| ::
            inventory.components[i].name == BASE ==> inventory.components[i].manifest == NotApplicable)
  }

  lemma SelectionMembers(mediapipe: bool, pear: bool)
    ensures BASE in Selection(mediapipe, pear)
    ensures MEDIAPIPE in Selection(mediapipe, pear) <==> mediapipe
    ensures PEAR in Selection(mediapipe, pear) <==> pear
  {
    assert |MEDIAPIPE| == 9 && |PEAR| == 4 && |BASE| == 4 && PEAR[0] == 'p' && BASE[0] == 'b';
    assert Selection(mediapipe, pear)[0] == BASE;
    if mediapipe { assert Selection(mediapipe, pear)[1] == MEDIAPIPE; }
    if pear { assert Selection(mediapipe, pear)[if mediapipe then 2 else 1] == PEAR; }
  }

  /** A begin records exactly the selection, all of it installing. */
  lemma BeginRecords(stored: Stored, selected: seq<string>, version: string)
    requires IsSelection(selected)
    ensures var inventory := BeginInventory(stored, selected, version);
      && Names(inventory.components) == selected && inventory.transaction == Installing && inventory.version == version
      && Good(Present(inventory))
  {
    var mediapipe, pear :| selected == Selection(mediapipe, pear);
    SelectionMembers(mediapipe, pear);
    assert |MEDIAPIPE| == 9 && |PEAR| == 4 && |BASE| == 4 && PEAR[0] == 'p' && BASE[0] == 'b';
  }

  /** The inventory of a transaction in progress over this selection. */
  predicate Records(stored: Stored, components: string) {
    InProgress(stored) && Ok(Names(stored.inventory.components)) == ParseSelected(components)
  }

  /** Any begin, however it ends, keeps a good inventory good and never publishes one as
      ready. */
  lemma BeginKeepsGood(st: State, components: string, version: string, crashAfter: nat)
    requires Good(st.stored)
    ensures var (after, outcome) := Begin(st, components, version, crashAfter);
      && Good(after.stored)
      && (after.stored != st.stored ==> Records(after.stored, components))
      && (outcome == Done ==> Records(after.stored, components) && after.stored.inventory.version == version)
  {
    var selected := ParseSelected(components);
    ParseExactly(components);
    hide ParseSelected; hide BeginActions; hide PerformAll; hide BeginInventory; hide Good;
    if selected.Ok? && !st.stored.Malformed? {
      var actions := BeginActions(st, selected.value, version);
      assert actions[..|actions|] == actions;
      SomeActions(st, selected.value, version);
      var m, k := Prefix(st, selected.value, version, if crashAfter < |actions| then crashAfter else |actions|);
      BeginRecords(st.stored, selected.value, version);
    }
  }

  lemma SomeActions(st: State, selected: seq<string>, version: string)
    ensures |BeginActions(st, selected, version)| >= 1
  {}

  /** The entries of a begun inventory: each at the version, installing, and its manifest pending
      unless it is the base's, which has none; the version stored before is remembered. */
  lemma BeginEntries(stored: Stored, selected: seq<string>, version: string, i: nat)
    requires i < |BeginInventory(stored, selected, version).components|
    ensures var inventory := BeginInventory(stored, selected, version);
      var e := inventory.components[i];
      && inventory.previousVersion == (if stored.Present? then Some(stored.inventory.version) else None)
      && e.version == version && e.state == Installing
      && e.manifest == if i == 0 then NotApplicable else Pending
  {}

  /** Marking the base ready changes the state of the base's entry to ready, and nothing else. */
  lemma BaseReadyExactly(stored: Stored, i: nat)
    requires BaseReady(stored).Ok? && i < |BaseReady(stored).value.components|
    ensures var before, after := stored.inventory, BaseReady(stored).value;
      && |after.components| == |before.components|
      && after.version == before.version && after.transaction == before.transaction
      && after.previousVersion == before.previousVersion
      && after.components[i].name == before.components[i].name
      && after.components[i].version == before.components[i].version
      && after.components[i].manifest == before.components[i].manifest
      && after.components[i].state == if before.components[i].name == BASE then Ready else before.components[i].state
    ensures BASE in Names(stored.inventory.components) && InProgress(stored)
  {}

  /** What completing publishes: ready, with no version to go back to, every entry ready, and
      every manifest but the base's registered. */
  lemma CompletedEntries(st: State, components: string, i: nat)
    requires Complete(st, components).Ok? && i < |Complete(st, components).value.components|
    ensures var before, after := st.stored.inventory, Complete(st, components).value;
      && |after.components| == |before.components|
      && after.transaction == Ready && after.version == before.version && after.previousVersion == None
      && after.components[i].name == before.components[i].name
      && after.components[i].version == before.components[i].version
      && after.components[i].state == Ready
      && after.components[i].manifest ==
           if before.components[i].name == BASE then before.components[i].manifest else Registered
  {
    hide ParseSelected;
  }

  /** Which selection a setup runs with: the one asked for; else the one stored; and over nothing,
      the light backend, and with a graphics card the heavy one too. */
  lemma ResolvedSelection(stored: Stored, components: Option<string>, nvidia: bool)
    requires Good(stored)
    ensures components.Some? && components.value != "" ==>
      ResolveComponents(stored, components, nvidia) == Ok(components.value)
    ensures (components.None? || components.value == "") && stored.Malformed? ==>
      ResolveComponents(stored, components, nvidia).Err?
    ensures (components.None? || components.value == "") && stored.Absent? ==>
      var r := ResolveComponents(stored, components, nvidia);
      r.Ok? && ParseSelected(r.value) == Ok(Selection(true, nvidia))
  {
    hide ParseSelected; hide Good; hide Selection;
    Spelled();
    ParseJoin(Selection(true, nvidia));
  }

  lemma StatesKeepNames(components: seq<Entry>, name: string, state: EntryState)
    ensures Names(WithState(components, name, state)) == Names(components) == Names(Finished(components))
  {}

  /** Marking the base ready keeps the inventory good and unpublished. */
  lemma BaseReadyKeepsGood(stored: Stored)
    requires Good(stored) && BaseReady(stored).Ok?
    ensures var inventory := BaseReady(stored).value;
      && Good(Present(inventory))
      && inventory.transaction == Installing && inventory.version == stored.inventory.version
      && Names(inventory.components) == Names(stored.inventory.components)
  {
    hide Names;
    StatesKeepNames(stored.inventory.components, BASE, Ready);
  }

  /** It never fails on an inventory a begin has stored. */
  lemma BaseReadySucceeds(stored: Stored)
    requires Good(stored) && InProgress(stored)
    ensures BaseReady(stored).Ok?
  {
    var mediapipe, pear :| Names(stored.inventory.components) == Selection(mediapipe, pear);
    SelectionMembers(mediapipe, pear);
  }

  /** Completing publishes an inventory of exactly the selection that was begun, everything in
      it ready, with a manifest on disk for every optional component; it is refused exactly when
      the selection is another, nothing is in progress, or a manifest is missing. */
  lemma CompleteExactly(st: State, components: string)
    requires Good(st.stored)
    ensures Complete(st, components).Ok? <==>
      && InProgress(st.stored)
      && ParseSelected(components) == Ok(Names(st.stored.inventory.components))
      && forall c: Optional :: Name(c) in Names(st.stored.inventory.components) ==> Manifest(c) in st.files
    ensures Complete(st, components).Ok? ==>
      var inventory := Complete(st, components).value;
      && Good(Present(inventory)) && inventory.transaction == Ready && inventory.version == st.stored.inventory.version
      && Names(inventory.components) == Names(st.stored.inventory.components)
  {
    hide ParseSelected; hide Names;
    if InProgress(st.stored) {
      StatesKeepNames(st.stored.inventory.components, BASE, Ready);
      ManifestsOfSelection(Names(st.stored.inventory.components), st.files);
    }
  }

  lemma ManifestsOfSelection(names: seq<string>, files: set<Path>)
    requires IsSelection(names)
    ensures (forall name <- names :: name == BASE || ManifestOf(name) in files) <==>
      forall c: Optional :: Name(c) in names ==> Manifest(c) in files
  {
    var mediapipe, pear :| names == Selection(mediapipe, pear);
    SelectionMembers(mediapipe, pear);
    assert |MEDIAPIPE| == 9 && |PEAR| == 4 && |BASE| == 4 && PEAR[0] == 'p' && BASE[0] == 'b';
    assert ManifestOf(MEDIAPIPE) == Manifest(Mediapipe) && ManifestOf(PEAR) == Manifest(Pear);
    assert forall name <- names :: name == BASE || name == MEDIAPIPE || name == PEAR;
    assert Name(Mediapipe) == MEDIAPIPE && Name(Pear) == PEAR;
  }

  /** A repair that names no components selects again exactly what the stored inventory
      records. */
  lemma RepairReselects(stored: Stored, nvidia: bool)
    requires Good(stored) && stored.Present?
    ensures ResolveComponents(stored, None, nvidia).Ok? && ResolveComponents(stored, Some(""), nvidia).Ok?
    ensures ParseSelected(ResolveComponents(stored, None, nvidia).value) == Ok(Names(stored.inventory.components))
    ensures ResolveComponents(stored, Some(""), nvidia) == ResolveComponents(stored, None, nvidia)
  {
    hide ParseSelected; hide Names;
    ParseJoin(Names(stored.inventory.components));
  }
}
