/** The one-slot hand-over between the reader thread and the main thread (stream_client.py).
    Queue operations are atomic; a run is any interleaving of the two threads.  Frames are
    numbered in the order they are published. */
module LatestSlot {
  import opened Prelude

  /* ---- the interleavings ---- */

  datatype Thread = Reader | Main

  /** Where the reader is: between two frames, taking out what is in the slot, or about to
      put; `Raised` is the error of a put into a full slot. */
  datatype Place = Between | Emptying(taken: nat) | Putting | Raised

  datatype State = State(
    place: Place,
    slot: Option<nat>,
    published: nat,
    consumed: seq<nat>,
    overwritten: seq<nat>)

  const START := State(Between, None, 0, [], [])

  /** One atomic step of a thread. */
  function Step(s: State, thread: Thread): State {
    match thread
    case Main =>
      if s.slot.Some? then s.(slot := None, consumed := s.consumed + [s.slot.value]) else s
    case Reader =>
      match s.place
      case Between => s.(place := Emptying(0))
      case Emptying(taken) =>
        if s.slot.Some? then
          s.(place := Emptying(taken + 1), slot := None, overwritten := s.overwritten + [s.slot.value])
        else s.(place := Putting)
      case Putting =>
        if s.slot.Some? then s.(place := Raised)
        else s.(place := Between, slot := Some(s.published), published := s.published + 1)
      case Raised => s
  }

  function Run(schedule: seq<Thread>): State {
    if schedule == [] then START else Step(Run(schedule[..|schedule| - 1]), schedule[|schedule| - 1])
  }

  predicate Below(s: seq<nat>, bound: nat) { forall i | 0 <= i < |s| :: s[i] < bound }

  /** Frame `i` is in exactly one place. */
  predicate Placed(s: State, i: nat) {
    && (i in s.consumed || i in s.overwritten || s.slot == Some(i))
    && !(i in s.consumed && i in s.overwritten)
    && (s.slot == Some(i) ==> i !in s.consumed && i !in s.overwritten)
  }

  predicate Safe(s: State) {
    && s.place != Raised
    && (s.place.Emptying? ==> s.place.taken <= 1)
    && (s.place == Putting || (s.place.Emptying? && s.place.taken == 1) ==> s.slot.None?)
    && (s.slot.Some? ==> s.slot.value + 1 == s.published)
    && Ascending(s.consumed) && Below(s.consumed, if s.slot.Some? then s.slot.value else s.published)
    && Ascending(s.overwritten) && Below(s.overwritten, if s.slot.Some? then s.slot.value else s.published)
    && (forall i: nat | i < s.published :: Placed(s, i))
    && |s.consumed| + |s.overwritten| + (if s.slot.Some? then 1 else 0) == s.published
    && (s.place == Between ==> s.published - 1 !in s.overwritten)
  }

  lemma StepKeeps(s: State, thread: Thread)
    requires Safe(s)
    ensures Safe(Step(s, thread))
  {
    var t := Step(s, thread);
    forall i: nat | i < t.published
      ensures Placed(t, i)
    {
      assert i < s.published ==> Placed(s, i);
    }
  }

  /** Hand-over safety under every interleaving: a put never finds the slot full, the reader
      takes out at most one frame before it puts, the main thread sees strictly increasing
      frames, every published frame is consumed, overwritten or in the slot and in only one of
      these, and between two publications the newest frame has not been thrown away. */
  lemma {:induction false} EveryInterleavingIsSafe(schedule: seq<Thread>)
    ensures Safe(Run(schedule))
  {
    hide Safe;
    if schedule == [] {
      StartIsSafe();
    } else {
      EveryInterleavingIsSafe(schedule[..|schedule| - 1]);
      StepKeeps(Run(schedule[..|schedule| - 1]), schedule[|schedule| - 1]);
    }
  }

  lemma StartIsSafe()
    ensures Safe(START)
  {}

  lemma ConsumedInOrder(schedule: seq<Thread>)
    ensures var s := Run(schedule); Ascending(s.consumed) && Below(s.consumed, s.published)
  {
    hide Run;
    EveryInterleavingIsSafe(schedule);
  }

  /** Whenever the reader is between two frames, the main thread has or can get the newest. */
  lemma NewestIsReachable(schedule: seq<Thread>)
    requires Run(schedule).place == Between && Run(schedule).published > 0
    ensures var s := Run(schedule + [Main]);
      s.consumed != [] && s.consumed[|s.consumed| - 1] == s.published - 1 == Run(schedule).published - 1
  {
    var s := Run(schedule);
    EveryInterleavingIsSafe(schedule);
    assert (schedule + [Main])[..|schedule|] == schedule;
    var newest: nat := s.published - 1;
    assert Placed(s, newest);
    if s.slot.None? {
      var k :| 0 <= k < |s.consumed| && s.consumed[k] == newest;
      assert k == |s.consumed| - 1;
    }
  }

  /* ---- progress ---- */

  /** The reader's own steps to its next completed put, at most. */
  function Remaining(s: State): nat {
    match s.place
    case Between => 4
    case Emptying(taken) => if taken == 0 then 3 else 2
    case Putting => 1
    case Raised => 0
  }

  function Turns(schedule: seq<Thread>): nat {
    if schedule == [] then 0
    else Turns(schedule[..|schedule| - 1]) + if schedule[|schedule| - 1] == Reader then 1 else 0
  }

  /** The emptying loop ends whatever the main thread does: every four steps of the reader
      complete at least one put. */
  lemma {:induction false} ReaderProgress(schedule: seq<Thread>)
    ensures var s := Run(schedule); 4 * s.published + 4 - Remaining(s) >= Turns(schedule)
  {
    hide Safe;
    if schedule != [] {
      var before := schedule[..|schedule| - 1];
      ReaderProgress(before);
      EveryInterleavingIsSafe(before);
      OneStepOn(Run(before), schedule[|schedule| - 1]);
    }
  }

  lemma OneStepOn(s: State, thread: Thread)
    requires Safe(s)
    ensures var t := Step(s, thread);
      4 * t.published - Remaining(t) >= 4 * s.published - Remaining(s) + if thread == Reader then 1 else 0
  {}

  /* ---- the reader's loop ---- */

  class OneSlotQueue<T> {
    var item: Option<T>
    /** What the main thread has taken out. */
    var taken: seq<T>

    constructor ()
      ensures item == None && taken == []
    {
      item, taken := None, [];
    }

    /** Take the item without waiting; nothing when the slot is empty. */
    method GetNowait() returns (r: Option<T>)
      modifies this`item
      ensures r == old(item) && item == None
    {
      r := item;
      item := None;
    }

    method PutNowait(value: T)
      requires item == None
      modifies this`item
      ensures item == Some(value)
    {
      item := Some(value);
    }

    /** Anything the main thread may do between two operations of the reader. */
    method Interference()
      modifies this
      ensures taken == old(taken) || (old(item).Some? && taken == old(taken) + [old(item).value] && item == None)
      ensures taken == old(taken) ==> item == old(item)
    {
      if * {
        var got := GetNowait();
        if got.Some? { taken := taken + [got.value]; }
      }
    }

    /** Replace whatever is in the slot: the put finds the slot empty whatever the main thread
        does meanwhile, the value is in the slot afterwards, and the old item went either to
        the main thread or nowhere. */
    method PutLatest(value: T)
      modifies this
      ensures item == Some(value)
      ensures taken == old(taken) || (old(item).Some? && taken == old(taken) + [old(item).value])
    {
      while true
        invariant item.Some? ==> item == old(item) && taken == old(taken)
        invariant taken == old(taken) || (old(item).Some? && taken == old(taken) + [old(item).value])
        decreases if item.Some? then 1 else 0
      {
        Interference();
        var got := GetNowait();
        if got.None? { break; }
      }
      Interference();
      PutNowait(value);
    }
  }
}
