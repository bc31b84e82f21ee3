/** Mapping of SMPL-X pose plans to an untouched target rig (binding.py). */
module Binding {
  import opened Prelude
  import R = Reals
  import V = Vectors
  import Q = Quaternions
  import opened Skeleton

  datatype BoneRotation = BoneRotation(bone: Name, quaternion: Q.Quat)

  /** Bone-level instructions for one frame.  `clear` is missing when every bone resets;
      `neutral` holds the reset of bound bones, all others reset to identity. */
  datatype PoseApplication = PoseApplication(
    clear: Option<set<Name>>,
    rotations: seq<BoneRotation>,
    worldOffset: Option<V.Vec>,
    neutral: map<Name, Q.Quat>)

  datatype BoundBone = BoundBone(target: Name, compensation: Q.Quat, neutral: Q.Quat)

  datatype PoseBinding = PoseBinding(bones: map<Name, BoundBone>)

  predicate EmptyName(n: Name) { n == Other("") }

  /** The checks and normalisation that building a bound bone performs. */
  function NewBoundBone(m: R.Library, target: Name, compensation: Q.Quat, neutral: Q.Quat): Result<BoundBone> {
    if EmptyName(target) then Err("bound target bone name cannot be empty")
    else
      var c := Q.Normalized(m, compensation);
      if c.Err? then Err(c.error)
      else
        var n := Q.Normalized(m, neutral);
        if n.Err? then Err(n.error) else Ok(BoundBone(target, c.value, n.value))
  }

  function Targets(bones: map<Name, BoundBone>): set<Name> { set n | n in bones :: bones[n].target }

  /** The checks that building a binding performs. */
  function NewBinding(bones: map<Name, BoundBone>): Result<PoseBinding> {
    if exists n <- bones :: EmptyName(n) then Err("SMPL-X joint name cannot be empty")
    else if |bones.Keys| != |Targets(bones)| then Err("each target bone can be bound only once")
    else Ok(PoseBinding(bones))
  }

  /** Every bone that passed its own constructor. */
  predicate GoodBone(b: BoundBone) { Q.Unit(b.compensation) && Q.Unit(b.neutral) && !EmptyName(b.target) }

  ghost predicate Injective(bones: map<Name, BoundBone>) {
    forall a, b | a in bones && b in bones && bones[a].target == bones[b].target :: a == b
  }

  ghost predicate ValidBinding(b: PoseBinding) {
    && Injective(b.bones)
    && forall n <- b.bones :: GoodBone(b.bones[n]) && !EmptyName(n)
  }

  /** A bound bone is refused exactly for an empty name or a quaternion too short to normalise;
      otherwise it holds the unit quaternions along the given ones. */
  lemma NewBoundBoneGood(m: R.Library, target: Name, compensation: Q.Quat, neutral: Q.Quat)
    requires R.Sound(m)
    ensures var r := NewBoundBone(m, target, compensation, neutral);
      r.Ok? ==>
        && GoodBone(r.value) && r.value.target == target
        && Q.Scale(m.sqrt(Q.Dot(compensation, compensation)), r.value.compensation) == compensation
        && Q.Scale(m.sqrt(Q.Dot(neutral, neutral)), r.value.neutral) == neutral
    ensures NewBoundBone(m, target, compensation, neutral).Ok? <==>
      && target != Other("")
      && m.sqrt(Q.Dot(compensation, compensation)) >= Q.ZERO_ANGLE
      && m.sqrt(Q.Dot(neutral, neutral)) >= Q.ZERO_ANGLE
  {
    hide R.Sound; hide Q.Normalized; hide Q.Unit;
    Q.NormalizedResult(m, compensation);
    Q.NormalizedResult(m, neutral);
  }

  /** There are as many targets as joints exactly when no target is bound twice. */
  lemma {:induction false} TargetCount(bones: map<Name, BoundBone>)
    ensures |Targets(bones)| <= |bones.Keys|
    ensures |Targets(bones)| == |bones.Keys| <==> Injective(bones)
    decreases |bones.Keys|
  {
    hide Injective;
    if bones.Keys == {} {
      assert Targets(bones) == {};
      EmptyInjective(bones);
    } else {
      var k :| k in bones;
      var rest := bones - {k};
      TargetCount(rest);
      assert rest.Keys == bones.Keys - {k};
      TargetsRest(bones, k);
      InjectiveRest(bones, k);
    }
  }

  lemma EmptyInjective(bones: map<Name, BoundBone>)
    requires bones.Keys == {}
    ensures Injective(bones)
  {}

  lemma TargetsRest(bones: map<Name, BoundBone>, k: Name)
    requires k in bones
    ensures Targets(bones) == Targets(bones - {k}) + {bones[k].target}
  {
    var rest := bones - {k};
    forall n | n in bones ensures n == k || (n in rest && rest[n] == bones[n]) {}
    forall n | n in rest ensures n in bones && rest[n] == bones[n] {}
  }

  lemma InjectiveRest(bones: map<Name, BoundBone>, k: Name)
    requires k in bones
    ensures Injective(bones) <==> Injective(bones - {k}) && bones[k].target !in Targets(bones - {k})
  {
    var rest := bones - {k};
    forall n | n in bones ensures n == k || (n in rest && rest[n] == bones[n]) {}
    forall n | n in rest ensures n in bones && rest[n] == bones[n] && rest[n].target in Targets(rest) {}
    if bones[k].target in Targets(rest) {
      var n :| n in rest && rest[n].target == bones[k].target;
      assert n in bones && n != k;
    }
  }

  /** A binding is refused exactly when a joint name is empty or a target bone is bound twice. */
  lemma NewBindingAccepts(bones: map<Name, BoundBone>)
    ensures NewBinding(bones).Ok? <==>
      && (forall a, b | a in bones && b in bones && bones[a].target == bones[b].target :: a == b)
      && forall n <- bones :: n != Other("")
    ensures NewBinding(bones).Ok? && (forall n <- bones :: GoodBone(bones[n])) ==> ValidBinding(NewBinding(bones).value)
  {
    TargetCount(bones);
  }

  /* ---- one bone ---- */

  function Bound(bone: BoundBone, q: Q.Quat): Q.Quat {
    Q.Mul(bone.neutral, Q.Mul(bone.compensation, Q.Mul(q, Q.Conj(bone.compensation))))
  }

  function SourceQuaternion(target: Q.Quat, bone: BoundBone): Q.Quat {
    Q.Mul(Q.Conj(bone.compensation), Q.Mul(Q.Mul(Q.Conj(bone.neutral), target), bone.compensation))
  }

  /** Reading a bound rotation back gives the source rotation. */
  lemma SourceInvertsBound(bone: BoundBone, q: Q.Quat)
    requires GoodBone(bone)
    ensures SourceQuaternion(Bound(bone, q), bone) == q
  {
    hide Q.Mul; hide Q.Conj; hide Q.Unit;
    var c, n := bone.compensation, bone.neutral;
    var qc := Q.Mul(q, Q.Conj(c));
    Q.CancelLeft(n, Q.Mul(c, qc));
    Q.Associative(Q.Conj(c), Q.Mul(c, qc), c);
    Q.CancelLeft(c, qc);
    Q.CancelRight(c, q);
  }

  /** Binding is an isometry: dot products of rotations of one joint are kept. */
  lemma BoundIsometric(bone: BoundBone, p: Q.Quat, q: Q.Quat)
    requires GoodBone(bone)
    ensures Q.Dot(Bound(bone, p), Bound(bone, q)) == Q.Dot(p, q)
  {
    hide Q.Mul; hide Q.Conj; hide Q.Dot; hide Q.Unit;
    var c, n := bone.compensation, bone.neutral;
    var pc, qc := Q.Mul(p, Q.Conj(c)), Q.Mul(q, Q.Conj(c));
    Q.DotLeft(n, Q.Mul(c, pc), Q.Mul(c, qc));
    Q.DotLeft(c, pc, qc);
    Q.ConjUnit(c);
    Q.DotRight(Q.Conj(c), p, q);
  }

  /* ---- whole plans ---- */

  /** The rotation of each bone, the last one winning. */
  function ByBone(rotations: seq<BoneRotation>): map<Name, Q.Quat> {
    if rotations == [] then map[]
    else
      var last := rotations[|rotations| - 1];
      ByBone(rotations[..|rotations| - 1])[last.bone := last.quaternion]
  }

  /** The bound rotations, in order; normalising one may raise. */
  function BindRotations(m: R.Library, rotations: seq<BoneRotation>, b: PoseBinding): Result<seq<BoneRotation>> {
    if rotations == [] then Ok([])
    else
      var before := BindRotations(m, rotations[..|rotations| - 1], b);
      var last := rotations[|rotations| - 1];
      if before.Err? || last.bone !in b.bones then before
      else
        var bone := b.bones[last.bone];
        var q := Q.Normalized(m, Bound(bone, last.quaternion));
        if q.Err? then Err(q.error) else Ok(before.value + [BoneRotation(bone.target, q.value)])
  }

  /** The bound bones to clear: all of them when the plan clears everything. */
  function ClearedSources(clear: Option<set<Name>>, b: PoseBinding): set<Name> {
    if clear.None? then b.bones.Keys else clear.value * b.bones.Keys
  }

  function ApplyBinding(m: R.Library, plan: PoseApplication, b: PoseBinding): Result<PoseApplication>
    requires ValidBinding(b)
  {
    var rotations := BindRotations(m, plan.rotations, b);
    if rotations.Err? then Err(rotations.error)
    else
      var sources := ClearedSources(plan.clear, b);
      Ok(PoseApplication(
           Some(set n | n in sources :: b.bones[n].target),
           rotations.value,
           plan.worldOffset,
           map n | n in sources :: b.bones[n].target := b.bones[n].neutral))
  }

  /** Target-writer history expressed in source coordinates. */
  function SourcePrevious(b: PoseBinding, previous: map<Name, Q.Quat>): map<Name, Q.Quat> {
    map n | n in b.bones && b.bones[n].target in previous :: SourceQuaternion(previous[b.bones[n].target], b.bones[n])
  }

  method SourcePreviousQuaternions(b: PoseBinding, targetPrevious: map<Name, Q.Quat>)
    returns (previous: map<Name, Q.Quat>)
    ensures previous == SourcePrevious(b, targetPrevious)
  {
    hide SourceQuaternion;
    previous := map[];
    var left := b.bones.Keys;
    while left != {}
      invariant left <= b.bones.Keys
      invariant previous == map n | n in SourcePrevious(b, targetPrevious) && n !in left ::
        SourcePrevious(b, targetPrevious)[n]
      decreases left
    {
      var sourceName :| sourceName in left;
      left := left - {sourceName};
      var bone := b.bones[sourceName];
      if bone.target in targetPrevious {
        previous := previous[sourceName := SourceQuaternion(targetPrevious[bone.target], bone)];
      }
    }
  }

  /** What binding makes of the rotations when normalising has nothing to do. */
  function BindAll(rotations: seq<BoneRotation>, b: PoseBinding): seq<BoneRotation> {
    if rotations == [] then []
    else
      var before := BindAll(rotations[..|rotations| - 1], b);
      var last := rotations[|rotations| - 1];
      if last.bone !in b.bones then before
      else before + [BoneRotation(b.bones[last.bone].target, Bound(b.bones[last.bone], last.quaternion))]
  }

  ghost predicate AllUnit(rotations: seq<BoneRotation>) { forall r <- rotations :: Q.Unit(r.quaternion) }

  lemma BoundUnit(bone: BoundBone, q: Q.Quat)
    requires GoodBone(bone) && Q.Unit(q)
    ensures Q.Unit(Bound(bone, q))
  {
    hide Q.Dot; hide Bound;
    BoundIsometric(bone, q, q);
  }

  /** For unit plans the final normalisation is a no-op and never raises. */
  lemma {:induction false} BindUnitPlan(m: R.Library, rotations: seq<BoneRotation>, b: PoseBinding)
    requires R.Sound(m) && ValidBinding(b) && AllUnit(rotations)
    ensures BindRotations(m, rotations, b) == Ok(BindAll(rotations, b))
    ensures AllUnit(BindAll(rotations, b))
  {
    hide R.Sound; hide Q.Unit; hide Bound; hide Q.Normalized;
    if rotations != [] {
      var last := rotations[|rotations| - 1];
      BindUnitPlan(m, rotations[..|rotations| - 1], b);
      if last.bone in b.bones {
        BoundUnit(b.bones[last.bone], last.quaternion);
        Q.NormalizedUnit(m, Bound(b.bones[last.bone], last.quaternion));
      }
    }
  }

  /** The target names of the bound joints among `names`. */
  function Image(names: set<Name>, b: PoseBinding): set<Name> {
    set n | n in names && n in b.bones :: b.bones[n].target
  }

  lemma ImageAdd(names: set<Name>, k: Name, b: PoseBinding)
    ensures Image(names + {k}, b) == Image(names, b) + (if k in b.bones then {b.bones[k].target} else {})
  {
    forall n | n in names + {k} ensures n in names || n == k {}
  }

  /** The bound plan writes exactly the targets of the bound joints of the plan. */
  lemma {:induction false} BoundKeys(rotations: seq<BoneRotation>, b: PoseBinding)
    ensures ByBone(BindAll(rotations, b)).Keys == Image(ByBone(rotations).Keys, b)
  {
    hide Bound; hide Image;
    if rotations != [] {
      var last, before := rotations[|rotations| - 1], rotations[..|rotations| - 1];
      BoundKeys(before, b);
      ImageAdd(ByBone(before).Keys, last.bone, b);
      assert ByBone(rotations).Keys == ByBone(before).Keys + {last.bone};
      var bound := BindAll(rotations, b);
      if last.bone in b.bones { assert bound[..|bound| - 1] == BindAll(before, b); }
    } else {
      NoImage(b);
      assert ByBone(rotations).Keys == {};
    }
  }

  lemma InImage(names: set<Name>, b: PoseBinding, n: Name)
    requires Injective(b.bones) && n in b.bones
    ensures b.bones[n].target in Image(names, b) <==> n in names
  {}

  lemma NoImage(b: PoseBinding)
    ensures Image({}, b) == {}
  {}

  /** And under each target it holds the bound rotation of the joint. */
  lemma {:induction false} BoundByBone(rotations: seq<BoneRotation>, b: PoseBinding, n: Name)
    requires Injective(b.bones) && n in b.bones && n in ByBone(rotations)
    ensures b.bones[n].target in ByBone(BindAll(rotations, b))
    ensures ByBone(BindAll(rotations, b))[b.bones[n].target] == Bound(b.bones[n], ByBone(rotations)[n])
  {
    hide Bound;
    var last, before := rotations[|rotations| - 1], rotations[..|rotations| - 1];
    var bound := BindAll(rotations, b);
    if last.bone in b.bones { assert bound[..|bound| - 1] == BindAll(before, b); }
    if last.bone != n { BoundByBone(before, b, n); }
  }

  /** Inversion at plan level: the history of a bound plan, read back in source coordinates,
      is exactly the plan's own rotation of every bound joint. */
  lemma HistoryInvertsBinding(rotations: seq<BoneRotation>, b: PoseBinding)
    requires ValidBinding(b)
    ensures SourcePrevious(b, ByBone(BindAll(rotations, b))) == map n | n in ByBone(rotations) && n in b.bones ::
      ByBone(rotations)[n]
  {
    hide Bound; hide SourceQuaternion; hide Q.Unit; hide ByBone; hide Image; hide Injective; hide BindAll;
    BoundKeys(rotations, b);
    forall n | n in b.bones
      ensures b.bones[n].target in ByBone(BindAll(rotations, b)) <==> n in ByBone(rotations)
      ensures n in ByBone(rotations) ==>
        SourceQuaternion(ByBone(BindAll(rotations, b))[b.bones[n].target], b.bones[n]) == ByBone(rotations)[n]
    {
      InImage(ByBone(rotations).Keys, b, n);
      if n in ByBone(rotations) {
        BoundByBone(rotations, b, n);
        SourceInvertsBound(b.bones[n], ByBone(rotations)[n]);
      }
    }
  }

  /** A bound plan keeps every pairwise dot product of a joint's rotations. */
  lemma PlansIsometric(first: seq<BoneRotation>, second: seq<BoneRotation>, b: PoseBinding, n: Name)
    requires ValidBinding(b) && n in b.bones && n in ByBone(first) && n in ByBone(second)
    ensures var t := b.bones[n].target;
      && t in ByBone(BindAll(first, b)) && t in ByBone(BindAll(second, b))
      && Q.Dot(ByBone(BindAll(first, b))[t], ByBone(BindAll(second, b))[t])
           == Q.Dot(ByBone(first)[n], ByBone(second)[n])
  {
    hide Bound; hide Q.Dot; hide Q.Unit;
    BoundByBone(first, b, n);
    BoundByBone(second, b, n);
    BoundIsometric(b.bones[n], ByBone(first)[n], ByBone(second)[n]);
  }

  /** How often a bone is written by a list of rotations. */
  function Count(rotations: seq<BoneRotation>, n: Name): nat {
    if rotations == [] then 0
    else
      Count(rotations[..|rotations| - 1], n) + if rotations[|rotations| - 1].bone == n then 1 else 0
  }

  lemma {:induction false} CountPositive(rotations: seq<BoneRotation>, n: Name)
    ensures Count(rotations, n) > 0 <==> n in ByBone(rotations)
  {
    if rotations != [] { CountPositive(rotations[..|rotations| - 1], n); }
  }

  /** A bound plan writes a target as often as the plan drives its joint, and writes no bone
      outside the binding. */
  lemma {:induction false} BoundCount(rotations: seq<BoneRotation>, b: PoseBinding, n: Name)
    requires Injective(b.bones)
    ensures n in b.bones ==> Count(BindAll(rotations, b), b.bones[n].target) == Count(rotations, n)
    ensures n !in Targets(b.bones) ==> Count(BindAll(rotations, b), n) == 0
  {
    hide Bound;
    if rotations != [] {
      var last, before := rotations[|rotations| - 1], rotations[..|rotations| - 1];
      BoundCount(before, b, n);
      var bound := BindAll(rotations, b);
      if last.bone in b.bones {
        assert bound[..|bound| - 1] == BindAll(before, b);
        assert b.bones[last.bone].target in Targets(b.bones);
      }
    }
  }

  /** Binding a rotation read back from the target gives the target rotation. */
  lemma BoundInvertsSource(bone: BoundBone, t: Q.Quat)
    requires GoodBone(bone)
    ensures Bound(bone, SourceQuaternion(t, bone)) == t
  {
    hide Q.Mul; hide Q.Conj; hide Q.Unit;
    var c, n := bone.compensation, bone.neutral;
    var u := Q.Mul(Q.Conj(n), t);
    Q.Associative(Q.Conj(c), Q.Mul(u, c), Q.Conj(c));
    Q.CancelRight(c, u);
    Q.CancelLeft(c, u);
    Q.CancelLeft(n, t);
  }

  /** Comparing in target coordinates is comparing in source coordinates. */
  lemma BoundAgainstTarget(bone: BoundBone, q: Q.Quat, t: Q.Quat)
    requires GoodBone(bone)
    ensures Q.Dot(Bound(bone, q), t) == Q.Dot(q, SourceQuaternion(t, bone))
  {
    hide Bound; hide SourceQuaternion; hide Q.Dot; hide Q.Unit;
    BoundInvertsSource(bone, t);
    BoundIsometric(bone, q, SourceQuaternion(t, bone));
  }
}
