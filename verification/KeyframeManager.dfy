/** Key poses and the deletion of intermediate keys (keyframe_manager.py). */
module KeyframeManager {
  import opened Prelude

  datatype Shape = Bezier | OtherShape
  datatype Handle = AutoClamped | OtherHandle

  /** One key of a curve: its frame coordinate, its value, and how it is interpolated. */
  datatype Key = Key(x: real, value: real, interpolation: Shape, left: Handle, right: Handle)

  function Smooth(k: Key): Key { k.(interpolation := Bezier, left := AutoClamped, right := AutoClamped) }

  /** Rounding to the nearest integer, ties to the even one. */
  function Round(x: real): int {
    var f := x.Floor;
    var part := x - f as real;
    if part < 0.5 then f else if part > 0.5 then f + 1 else if f % 2 == 0 then f else f + 1
  }

  lemma RoundNearest(x: real)
    ensures -0.5 <= Round(x) as real - x <= 0.5
    ensures Round(x) as real - x == 0.5 || Round(x) as real - x == -0.5 ==> Round(x) % 2 == 0
  {}

  /* ---- retaining keys ---- */

  /** The keys on a keep frame, in order and smoothed. */
  function Kept(points: seq<Key>, keep: set<int>): seq<Key> {
    if points == [] then []
    else (if Round(points[0].x) in keep then [Smooth(points[0])] else []) + Kept(points[1..], keep)
  }

  /** Where they were. */
  function KeptAt(points: seq<Key>, keep: set<int>, offset: nat): seq<nat> {
    if points == [] then []
    else (if Round(points[0].x) in keep then [offset] else []) + KeptAt(points[1..], keep, offset + 1)
  }

  /** Filtering is exact: position `i` is kept just when its key is on a keep frame. */
  lemma {:induction false} KeptPositions(points: seq<Key>, keep: set<int>, offset: nat, i: nat)
    ensures i in KeptAt(points, keep, offset) <==>
      offset <= i < offset + |points| && Round(points[i - offset].x) in keep
  {
    hide Round;
    if points != [] {
      KeptPositions(points[1..], keep, offset + 1, i);
      assert i > offset && i < offset + |points| ==> points[i - offset] == points[1..][i - offset - 1];
    }
  }

  /** The kept keys are those of these positions, in their order: frame and value stay, the shape
      becomes smooth with automatic handles. */
  lemma {:induction false} KeptInOrder(points: seq<Key>, keep: set<int>, offset: nat)
    ensures var at, kept := KeptAt(points, keep, offset), Kept(points, keep);
      && |at| == |kept| && Ascending(at)
      && forall k | 0 <= k < |at| ::
           && offset <= at[k] < offset + |points|
           && kept[k].x == points[at[k] - offset].x && kept[k].value == points[at[k] - offset].value
           && kept[k].interpolation == Bezier && kept[k].left == AutoClamped && kept[k].right == AutoClamped
  {
    hide Round;
    if points != [] {
      KeptInOrder(points[1..], keep, offset + 1);
    }
  }

  /** A kept key lies within half a frame of a keep frame. */
  lemma KeptNear(points: seq<Key>, keep: set<int>, k: nat)
    requires k < |Kept(points, keep)|
    ensures exists frame <- keep :: -0.5 <= frame as real - Kept(points, keep)[k].x <= 0.5
  {
    KeptInOrder(points, keep, 0);
    var at := KeptAt(points, keep, 0);
    KeptPositions(points, keep, 0, at[k]);
    RoundNearest(points[at[k]].x);
    assert Round(points[at[k]].x) in keep;
  }

  /** And a key less than half a frame from a keep frame is kept. */
  lemma NearIsKept(points: seq<Key>, keep: set<int>, i: nat, frame: int)
    requires i < |points| && frame in keep && -0.5 < frame as real - points[i].x < 0.5
    ensures i in KeptAt(points, keep, 0)
  {
    RoundNearest(points[i].x);
    KeptPositions(points, keep, 0, i);
  }

  /** Retaining twice is retaining once. */
  lemma {:induction false} KeptTwice(points: seq<Key>, keep: set<int>)
    ensures Kept(Kept(points, keep), keep) == Kept(points, keep)
  {
    if points != [] {
      KeptTwice(points[1..], keep);
      if Round(points[0].x) in keep {
        assert Kept(points, keep)[1..] == Kept(points[1..], keep);
      } else {
        assert Kept(points, keep) == Kept(points[1..], keep);
      }
    }
  }

  function Total(curves: seq<seq<Key>>): nat {
    if curves == [] then 0 else Total(curves[..|curves| - 1]) + |curves[|curves| - 1]|
  }

  function KeptAll(curves: seq<seq<Key>>, keep: set<int>): seq<seq<Key>> {
    seq(|curves|, i requires 0 <= i < |curves| => Kept(curves[i], keep))
  }

  lemma KeptFirst(points: seq<Key>, index: nat, keep: set<int>)
    requires index < |points|
    ensures Kept(points[index..], keep) ==
      (if Round(points[index].x) in keep then [Smooth(points[index])] else []) + Kept(points[index + 1..], keep)
  {
    assert points[index..][1..] == points[index + 1..];
  }

  class FCurve {
    const dataPath: string
    var points: seq<Key>

    constructor (dataPath: string, points: seq<Key>)
      ensures this.dataPath == dataPath && this.points == points
    {
      this.dataPath, this.points := dataPath, points;
    }

    /** One curve, back to front: smooth in place what stays, remove what does not. */
    method RetainPoints(keep: set<int>) returns (deleted: nat)
      modifies this`points
      ensures points == Kept(old(points), keep) && deleted + |points| == old(|points|)
    {
      ghost var before := points;
      deleted := 0;
      assert before[..|before|] + Kept(before[|before|..], keep) == before;
      for index := |points| downto 0
        invariant index <= |points|
        invariant points == before[..index] + Kept(before[index..], keep)
        invariant deleted + |points| == |before|
      {
        KeptFirst(before, index, keep);
        assert points[index] == before[index];
        if Round(points[index].x) in keep {
          points := points[index := Smooth(points[index])];
        } else {
          points := points[..index] + points[index + 1..];
          deleted := deleted + 1;
        }
      }
      assert before[0..] == before;
    }
  }

  function PointsOf(curves: seq<FCurve>): seq<seq<Key>>
    reads curves
  {
    seq(|curves|, i requires 0 <= i < |curves| reads curves => curves[i].points)
  }

  lemma TotalFirst(curves: seq<seq<Key>>, i: nat)
    requires i < |curves|
    ensures Total(curves[..i + 1]) == Total(curves[..i]) + |curves[i]|
  {
    assert curves[..i + 1][..i] == curves[..i];
  }

  /** Delete every key that is not on a keep frame: each curve keeps exactly its keys on keep
      frames, in their order and smoothed, and what was deleted and what survives add up. */
  method RetainOnly(curves: seq<FCurve>, keep: set<int>) returns (deleted: nat)
    requires forall i, j | 0 <= i < j < |curves| :: curves[i] != curves[j]
    modifies curves
    ensures PointsOf(curves) == KeptAll(old(PointsOf(curves)), keep)
    ensures forall c <- curves :: c.points == Kept(old(c.points), keep)
    ensures deleted + Total(PointsOf(curves)) == Total(old(PointsOf(curves)))
  {
    hide Kept; hide Total;
    ghost var before := PointsOf(curves);
    ghost var after := KeptAll(before, keep);
    assert after[..0] == before[..0];
    deleted := 0;
    for i := 0 to |curves|
      invariant forall k | 0 <= k < |curves| :: curves[k].points == if k < i then after[k] else before[k]
      invariant deleted + Total(after[..i]) == Total(before[..i])
    {
      var count := curves[i].RetainPoints(keep);
      deleted := deleted + count;
      TotalFirst(before, i);
      TotalFirst(after, i);
    }
    assert PointsOf(curves) == after && after[..|curves|] == after && before[..|curves|] == before;
  }

  /* ---- the list of key poses ---- */

  lemma RestAbove(sorted: seq<int>, frame: int, rest: seq<int>)
    requires sorted != [] && Ascending(sorted) && frame > sorted[0]
    requires forall x :: x in rest <==> x == frame || x in sorted[1..]
    ensures forall i | 0 <= i < |rest| :: rest[i] > sorted[0]
  {
    forall i | 0 <= i < |rest|
      ensures rest[i] > sorted[0]
    {
      assert rest[i] in rest;
      if rest[i] != frame { AfterFirst(sorted, rest[i]); }
    }
  }

  /** A frame put into its place in an ascending list, once. */
  function Insert(sorted: seq<int>, frame: int): (r: seq<int>)
    requires Ascending(sorted)
    ensures Ascending(r) && forall x :: x in r <==> x == frame || x in sorted
  {
    if sorted == [] || frame < sorted[0] then [frame] + sorted
    else if frame == sorted[0] then sorted
    else
      var rest := Insert(sorted[1..], frame);
      assert forall x :: x in sorted <==> x == sorted[0] || x in sorted[1..];
      assert forall i | 0 <= i < |rest| :: rest[i] > sorted[0] by { RestAbove(sorted, frame, rest); }
      [sorted[0]] + rest
  }

  /** The frames sorted and without repetition. */
  function Ordered(frames: seq<int>): (r: seq<int>)
    ensures Ascending(r) && forall x :: x in r <==> x in frames
  {
    if frames == [] then []
    else
      var r := Insert(Ordered(frames[..|frames| - 1]), frames[|frames| - 1]);
      assert forall x :: x in frames <==> x in frames[..|frames| - 1] || x == frames[|frames| - 1];
      r
  }

  /** There is only one ascending list with given members, so this is the library's sort of
      the set of frames. */
  lemma {:induction false} AscendingUnique(a: seq<int>, b: seq<int>)
    requires Ascending(a) && Ascending(b) && forall x :: x in a <==> x in b
    ensures a == b
  {
    if a != [] { MemberOfBoth(a, b); }
    if b != [] { MemberOfBoth(b, a); }
    if a != [] {
      FirstsEqual(a, b);
      FirstsEqual(b, a);
      forall x
        ensures x in a[1..] <==> x in b[1..]
      {
        AfterFirst(a, x);
        AfterFirst(b, x);
      }
      AscendingUnique(a[1..], b[1..]);
      assert a == [a[0]] + a[1..] && b == [b[0]] + b[1..];
    }
  }

  lemma MemberOfBoth(a: seq<int>, b: seq<int>)
    requires a != [] && forall x :: x in a <==> x in b
    ensures b != []
  {
    var x := a[0];
    assert x in a && x in b;
  }

  lemma FirstsEqual(a: seq<int>, b: seq<int>)
    requires a != [] && b != [] && Ascending(a) && Ascending(b) && forall x :: x in a <==> x in b
    ensures a[0] <= b[0]
  {
    assert b[0] in b;
  }

  lemma AfterFirst(a: seq<int>, x: int)
    requires a != [] && Ascending(a)
    ensures x in a[1..] <==> x in a && x != a[0]
  {
    assert x in a <==> x == a[0] || x in a[1..];
  }

  /** An edit of the list, with the frame or the keyed frames the scene holds. */
  datatype Edit =
    | AddCurrent(frame: int)
    | AddAllActive(keyed: seq<int>)
    | RemoveSelected
    | ClearAll
    | SelectRow(row: int)

  datatype Poses = Poses(frames: seq<int>, index: int)

  function AfterRemoval(index: int, left: nat): int {
    var highest := if index < left - 1 then index else left - 1;
    if highest > 0 then highest else 0
  }

  function EditPoses(p: Poses, e: Edit): Poses {
    match e
    case AddCurrent(frame) => p.(frames := Ordered(p.frames + [frame]))
    case AddAllActive(keyed) => p.(frames := Ordered(p.frames + keyed))
    case RemoveSelected =>
      if !(0 <= p.index < |p.frames|) then p
      else Poses(p.frames[..p.index] + p.frames[p.index + 1..], AfterRemoval(p.index, |p.frames| - 1))
    case ClearAll => p.(frames := [])
    case SelectRow(row) => p.(index := row)
  }

  function EditAll(p: Poses, edits: seq<Edit>): Poses {
    if edits == [] then p else EditPoses(EditAll(p, edits[..|edits| - 1]), edits[|edits| - 1])
  }

  /** What an edit does to the marked frames and to the selected row. */
  lemma EditExactly(p: Poses, e: Edit)
    ensures var after := EditPoses(p, e);
      match e
      case AddCurrent(frame) => after.index == p.index && forall x :: x in after.frames <==> x in p.frames || x == frame
      case AddAllActive(keyed) =>
        after.index == p.index && forall x :: x in after.frames <==> x in p.frames || x in keyed
      case RemoveSelected => 0 <= p.index < |p.frames| ==> |after.frames| == |p.frames| - 1
      case ClearAll => after.index == p.index && after.frames == []
      case SelectRow(row) => after.index == row && after.frames == p.frames
  {}

  lemma EditKeepsOrder(p: Poses, e: Edit)
    requires Ascending(p.frames)
    ensures Ascending(EditPoses(p, e).frames)
    ensures e.AddCurrent? ==> forall x :: x in EditPoses(p, e).frames <==> x in p.frames || x == e.frame
    ensures e.AddAllActive? ==> forall x :: x in EditPoses(p, e).frames <==> x in p.frames || x in e.keyed
  {}

  /** The list is strictly ascending after every sequence of edits. */
  lemma {:induction false} EveryEditKeepsOrder(p: Poses, edits: seq<Edit>)
    requires Ascending(p.frames)
    ensures Ascending(EditAll(p, edits).frames)
  {
    hide EditPoses;
    if edits != [] {
      EveryEditKeepsOrder(p, edits[..|edits| - 1]);
      EditKeepsOrder(EditAll(p, edits[..|edits| - 1]), edits[|edits| - 1]);
    }
  }

  /** Removing takes out exactly the selected frame and leaves the selection on a row of the
      list, or at zero when the list is empty. */
  lemma RemovalSelectsNeighbour(p: Poses)
    requires Ascending(p.frames) && 0 <= p.index < |p.frames|
    ensures var after := EditPoses(p, RemoveSelected);
      && (forall x :: x in after.frames <==> x in p.frames && x != p.frames[p.index])
      && (after.frames == [] ==> after.index == 0)
      && (after.frames != [] ==> 0 <= after.index < |after.frames|)
      && (after.frames != [] ==> after.index == p.index || after.index == p.index - 1)
  {
    var left, right := p.frames[..p.index], p.frames[p.index + 1..];
    assert p.frames == left + [p.frames[p.index]] + right;
  }

  /** The selected index is on a row, or zero when there is none. */
  predicate Selects(p: Poses) { if p.frames == [] then p.index == 0 else 0 <= p.index < |p.frames| }

  lemma {:induction false} InsertGrows(sorted: seq<int>, frame: int)
    requires Ascending(sorted)
    ensures |sorted| <= |Insert(sorted, frame)|
  {
    if sorted != [] && frame > sorted[0] { InsertGrows(sorted[1..], frame); }
  }

  lemma {:induction false} OrderedGrows(frames: seq<int>, more: seq<int>)
    ensures |Ordered(frames)| <= |Ordered(frames + more)|
  {
    if more == [] {
      assert frames + more == frames;
    } else {
      var n := |more| - 1;
      OrderedGrows(frames, more[..n]);
      assert (frames + more)[..|frames + more| - 1] == frames + more[..n];
      InsertGrows(Ordered(frames + more[..n]), more[n]);
    }
  }

  /** Marking frames never shortens an ascending list. */
  lemma MarkingGrows(frames: seq<int>, more: seq<int>)
    requires Ascending(frames)
    ensures |frames| <= |Ordered(frames + more)|
  {
    AscendingUnique(Ordered(frames), frames);
    OrderedGrows(frames, more);
  }

  /** Neither a clear with a later row than the first selected nor the selection of a row that is
      not there. */
  predicate KeepsRow(p: Poses, e: Edit) {
    match e
    case ClearAll => p.index == 0
    case SelectRow(row) => Selects(p.(index := row))
    case _ => true
  }

  /** Exactly which edits keep the selection on a row: clearing does so only when the first row
      was selected, and selecting a row only when it is there; every other edit does. */
  lemma SelectionKeptExactly(p: Poses, e: Edit)
    requires Ascending(p.frames) && Selects(p)
    ensures Selects(EditPoses(p, e)) <==> KeepsRow(p, e)
  {
    match e
    case AddCurrent(frame) => MarkingGrows(p.frames, [frame]);
    case AddAllActive(keyed) => MarkingGrows(p.frames, keyed);
    case RemoveSelected => if p.frames != [] { RemovalSelectsNeighbour(p); }
    case _ =>
  }

  /** The selection is on a row after every edit of the run. */
  predicate SelectsAlong(p: Poses, edits: seq<Edit>) {
    Selects(EditAll(p, edits)) && (edits == [] || SelectsAlong(p, edits[..|edits| - 1]))
  }

  predicate EachKeepsRow(p: Poses, edits: seq<Edit>) {
    edits == [] ||
    var before := edits[..|edits| - 1];
    EachKeepsRow(p, before) && KeepsRow(EditAll(p, before), edits[|edits| - 1])
  }

  /** Over whole runs: the selection stays on a row throughout exactly when each edit, where it
      happens, is one that keeps it. */
  lemma {:induction false} SelectionKeptThroughout(p: Poses, edits: seq<Edit>)
    requires Ascending(p.frames) && Selects(p)
    ensures SelectsAlong(p, edits) <==> EachKeepsRow(p, edits)
  {
    hide Selects; hide KeepsRow; hide EditPoses;
    if edits != [] {
      var before := edits[..|edits| - 1];
      SelectionKeptThroughout(p, before);
      EveryEditKeepsOrder(p, before);
      if SelectsAlong(p, before) { SelectionKeptExactly(EditAll(p, before), edits[|edits| - 1]); }
    }
  }

  /** Once the index is off the list a removal is refused and changes nothing, so it does not
      bring the index back. */
  lemma RemovalRefused(p: Poses)
    requires !(0 <= p.index < |p.frames|)
    ensures EditPoses(p, RemoveSelected) == p
  {}

  /** A run that ends with the index off the list: the second of two poses is selected, the
      list is cleared, one pose is marked, and the removal that follows is refused. */
  lemma SelectionLost()
    ensures var p := Poses([1, 5], 1);
      && Ascending(p.frames) && Selects(p)
      && EditAll(p, [ClearAll, AddCurrent(7), RemoveSelected]) == Poses([7], 1)
      && !Selects(Poses([7], 1))
  {
    var p, a, b, c := Poses([1, 5], 1), ClearAll, AddCurrent(7), RemoveSelected;
    assert [a, b, c][..2] == [a, b] && [a, b][..1] == [a] && [a][..0] == [];
    assert EditAll(p, [a]) == Poses([], 1);
    assert Ordered([7]) == [7] by { AscendingUnique(Ordered([7]), [7]); }
    assert [] + [7] == [7];
    assert EditAll(p, [a, b]) == Poses([7], 1);
  }

  /** Adding a marked frame again, or all frames that are marked, changes nothing. */
  lemma MarkingTwice(p: Poses, keyed: seq<int>)
    requires Ascending(p.frames) && forall x <- keyed :: x in p.frames
    ensures EditPoses(p, AddAllActive(keyed)) == p
  {
    AscendingUnique(Ordered(p.frames + keyed), p.frames);
  }

  class Scene {
    var keyPoses: seq<int>
    var keyPosesIndex: int
    var frameCurrent: int

    ghost function View(): Poses
      reads this
    {
      Poses(keyPoses, keyPosesIndex)
    }

    constructor ()
      ensures View() == Poses([], 0)
    {
      keyPoses, keyPosesIndex, frameCurrent := [], 0, 0;
    }

    /** Replace the list with the unique frames, ascending: clear it and add one by one. */
    method SetKeyPoseFrames(frames: seq<int>)
      modifies this`keyPoses
      ensures keyPoses == Ordered(frames)
    {
      var ordered := Ordered(frames);
      keyPoses := [];
      for i := 0 to |ordered|
        invariant keyPoses == ordered[..i]
      {
        keyPoses := keyPoses + [ordered[i]];
      }
    }

    method AddCurrentFrame()
      modifies this`keyPoses
      ensures View() == EditPoses(old(View()), AddCurrent(frameCurrent))
    {
      SetKeyPoseFrames(keyPoses + [frameCurrent]);
    }

    /** Mark every rounded frame of the given keys; without a target nothing happens. */
    method AddAllActive(keyed: Option<seq<int>>) returns (finished: bool)
      modifies this`keyPoses
      ensures finished == keyed.Some?
      ensures View() == if keyed.Some? then EditPoses(old(View()), Edit.AddAllActive(keyed.value)) else old(View())
    {
      if keyed.None? { return false; }
      SetKeyPoseFrames(keyPoses + keyed.value);
      finished := true;
    }

    method RemoveSelectedPose() returns (finished: bool)
      modifies this`keyPoses, this`keyPosesIndex
      ensures View() == EditPoses(old(View()), RemoveSelected)
      ensures finished <==> 0 <= old(keyPosesIndex) < old(|keyPoses|)
    {
      var index := keyPosesIndex;
      if !(0 <= index < |keyPoses|) { return false; }
      keyPoses := keyPoses[..index] + keyPoses[index + 1..];
      keyPosesIndex := AfterRemoval(index, |keyPoses|);
      finished := true;
    }
  }

  /** The suffix of the curves that hold rotations. */
  const ROTATION := "rotation_quaternion"

  predicate IsRotation(dataPath: string) { |ROTATION| <= |dataPath| && dataPath[|dataPath| - |ROTATION|..] == ROTATION }

  /** A curve holds rotations when its path ends in the name of the rotation property. */
  lemma RotationCurves(prefix: string, dataPath: string)
    ensures IsRotation(prefix + "rotation_quaternion")
    ensures IsRotation(dataPath) ==> dataPath == dataPath[..|dataPath| - 19] + "rotation_quaternion"
  {
    var whole := prefix + "rotation_quaternion";
    assert whole[|whole| - |ROTATION|..] == ROTATION;
  }

  /** Every rounded frame of the rotation curves. */
  method KeyedFrames(curves: seq<FCurve>) returns (frames: seq<int>)
    ensures forall f :: f in frames <==>
      exists c <- curves :: IsRotation(c.dataPath) && exists k <- c.points :: f == Round(k.x)
  {
    frames := [];
    for i := 0 to |curves|
      invariant forall f :: f in frames <==>
        exists c <- curves[..i] :: IsRotation(c.dataPath) && exists k <- c.points :: f == Round(k.x)
    {
      var c := curves[i];
      ghost var before := frames;
      if IsRotation(c.dataPath) {
        for j := 0 to |c.points|
          invariant forall f :: f in frames <==> f in before || exists k <- c.points[..j] :: f == Round(k.x)
        {
          frames := frames + [Round(c.points[j].x)];
          assert c.points[..j + 1] == c.points[..j] + [c.points[j]];
        }
        assert c.points[..|c.points|] == c.points;
      }
      assert curves[..i + 1] == curves[..i] + [c];
    }
    assert curves[..|curves|] == curves;
  }
}
