/** Bone chains posed in their own and in the target rig's basis.  Rotations compose down a
    chain as in the armature the binding is measured on: the pose of a bone is the pose of
    its parent, then the rest offset between the two, then the bone's own rotation. */
module RetargetChain {
  import opened Prelude
  import R = Reals
  import Q = Quaternions
  import opened Skeleton
  import opened Binding

  /** The compensation measured from two accumulated rest orientations. */
  function CompensationFromRest(m: R.Library, sourceRest: Q.Quat, targetRest: Q.Quat): Result<Q.Quat> {
    var source := Q.Normalized(m, sourceRest);
    if source.Err? then source
    else
      var target := Q.Normalized(m, targetRest);
      if target.Err? then target
      else Q.Normalized(m, Q.Mul(Q.Conj(target.value), source.value))
  }

  /** One bone of a chain, root first: its two rest orientations and the streamed rotation. */
  datatype Link = Link(sourceRest: Q.Quat, targetRest: Q.Quat, rotation: Q.Quat)

  predicate UnitRests(link: Link) { Q.Unit(link.sourceRest) && Q.Unit(link.targetRest) }

  /** A bone of one rig: its accumulated rest orientation and its own rotation. */
  datatype Posed = Posed(rest: Q.Quat, rotation: Q.Quat)

  /** The pose of the last bone of a chain. */
  function Pose(bones: seq<Posed>): Q.Quat {
    var n := |bones|;
    if n == 0 then Q.IDENTITY
    else
      var parentRest := if n == 1 then Q.IDENTITY else bones[n - 2].rest;
      Q.Mul(Q.Mul(Pose(bones[..n - 1]), Q.Mul(Q.Conj(parentRest), bones[n - 1].rest)), bones[n - 1].rotation)
  }

  function SourceBones(chain: seq<Link>): (r: seq<Posed>)
    ensures |r| == |chain| && forall i | 0 <= i < |r| :: r[i].rest == chain[i].sourceRest
  {
    if chain == [] then []
    else
      var last := chain[|chain| - 1];
      SourceBones(chain[..|chain| - 1]) + [Posed(last.sourceRest, last.rotation)]
  }

  /** The rotation the binding writes to the target bone of a link, with neutral identity. */
  function TargetRotation(m: R.Library, link: Link): Q.Quat {
    var c := CompensationFromRest(m, link.sourceRest, link.targetRest);
    if c.Err? then Q.IDENTITY
    else Bound(BoundBone(Other("target"), c.value, Q.IDENTITY), link.rotation)
  }

  function TargetBones(m: R.Library, chain: seq<Link>): (r: seq<Posed>)
    ensures |r| == |chain| && forall i | 0 <= i < |r| :: r[i].rest == chain[i].targetRest
  {
    if chain == [] then []
    else
      var last := chain[|chain| - 1];
      TargetBones(m, chain[..|chain| - 1]) + [Posed(last.targetRest, TargetRotation(m, last))]
  }

  function SourcePose(chain: seq<Link>): Q.Quat { Pose(SourceBones(chain)) }

  function TargetPose(m: R.Library, chain: seq<Link>): Q.Quat { Pose(TargetBones(m, chain)) }

  /** Building a compensation raises exactly when a rest orientation is too short to normalise;
      otherwise it is the conjugated target rest times the source rest, both normalised, and the
      last normalisation changes nothing. */
  lemma CompensationExactly(m: R.Library, s: Q.Quat, t: Q.Quat)
    requires R.Sound(m)
    ensures CompensationFromRest(m, s, t).Ok? <==>
      m.sqrt(Q.Dot(s, s)) >= Q.ZERO_ANGLE && m.sqrt(Q.Dot(t, t)) >= Q.ZERO_ANGLE
    ensures CompensationFromRest(m, s, t).Ok? ==>
      var s', t' := Q.Normalized(m, s), Q.Normalized(m, t);
      && s'.Ok? && t'.Ok? && CompensationFromRest(m, s, t) == Ok(Q.Mul(Q.Conj(t'.value), s'.value))
      && Q.Unit(Q.Mul(Q.Conj(t'.value), s'.value))
  {
    hide R.Sound; hide Q.Mul; hide Q.Conj; hide Q.Unit; hide Q.Normalized; hide Q.Dot;
    Q.NormalizedResult(m, s);
    Q.NormalizedResult(m, t);
    var s', t' := Q.Normalized(m, s), Q.Normalized(m, t);
    if s'.Ok? && t'.Ok? {
      Q.ConjUnit(t'.value);
      Q.UnitMul(Q.Conj(t'.value), s'.value);
      Q.NormalizedUnit(m, Q.Mul(Q.Conj(t'.value), s'.value));
    }
  }

  /** For unit rest orientations the compensation is `conj(target) * source`. */
  lemma CompensationUnit(m: R.Library, s: Q.Quat, t: Q.Quat)
    requires R.Sound(m) && Q.Unit(s) && Q.Unit(t)
    ensures CompensationFromRest(m, s, t) == Ok(Q.Mul(Q.Conj(t), s))
    ensures Q.Unit(Q.Mul(Q.Conj(t), s))
  {
    hide R.Sound; hide Q.Mul; hide Q.Conj; hide Q.Unit; hide Q.Normalized;
    Q.NormalizedUnit(m, s);
    Q.NormalizedUnit(m, t);
    Q.ConjUnit(t);
    Q.UnitMul(Q.Conj(t), s);
    Q.NormalizedUnit(m, Q.Mul(Q.Conj(t), s));
  }

  /** The rotation written to the target is `T* S q S* T`. */
  lemma TargetRotationIs(m: R.Library, link: Link)
    requires R.Sound(m) && UnitRests(link)
    ensures var s, t, q := link.sourceRest, link.targetRest, link.rotation;
      TargetRotation(m, link) == Q.Mul(Q.Conj(t), Q.Mul(s, Q.Mul(q, Q.Mul(Q.Conj(s), t))))
  {
    hide R.Sound; hide Q.Mul; hide Q.Conj; hide Q.Unit; hide CompensationFromRest;
    var s, t, q := link.sourceRest, link.targetRest, link.rotation;
    CompensationUnit(m, s, t);
    var c := Q.Mul(Q.Conj(t), s);
    Q.ConjMul(Q.Conj(t), s);
    Q.ConjUnit(t);
    var z := Q.Mul(q, Q.Conj(c));
    Q.MulIdentity(Q.Mul(c, z));
    Q.Associative(Q.Conj(t), s, z);
  }

  /** One link: if the parent moves by the same world rotation, so does the bone. */
  lemma OneLink(p: Q.Quat, sp: Q.Quat, tp: Q.Quat, s: Q.Quat, t: Q.Quat, q: Q.Quat)
    requires Q.Unit(tp) && Q.Unit(t)
    ensures var written := Q.Mul(Q.Conj(t), Q.Mul(s, Q.Mul(q, Q.Mul(Q.Conj(s), t))));
      Q.Mul(Q.Mul(Q.Mul(Q.Mul(p, Q.Conj(sp)), tp), Q.Mul(Q.Conj(tp), t)), written)
      == Q.Mul(Q.Mul(Q.Mul(Q.Mul(p, Q.Mul(Q.Conj(sp), s)), q), Q.Conj(s)), t)
  {
    hide *;
    var a := Q.Mul(p, Q.Conj(sp));
    var z := Q.Mul(Q.Conj(s), t);
    var y := Q.Mul(s, Q.Mul(q, z));
    Q.Associative(a, tp, Q.Mul(Q.Conj(tp), t));
    Q.CancelLeft(tp, t);
    Q.Associative(a, t, Q.Mul(Q.Conj(t), y));
    Q.CancelLeft(t, y);
    Q.Associative(p, Q.Conj(sp), s);
    var w := Q.Mul(Q.Mul(a, s), q);
    Q.Associative(w, Q.Conj(s), t);
    Q.Associative(Q.Mul(a, s), q, z);
    Q.Associative(a, s, Q.Mul(q, z));
  }

  /** Retargeting preserves motion: along a chain of any length the target bone's pose is the
      source bone's pose, with the source rest taken out and the target rest put in. */
  lemma {:induction false} RetargetPreservesMotion(m: R.Library, chain: seq<Link>)
    requires R.Sound(m) && chain != [] && forall link <- chain :: UnitRests(link)
    ensures var last := chain[|chain| - 1];
      TargetPose(m, chain) == Q.Mul(Q.Mul(SourcePose(chain), Q.Conj(last.sourceRest)), last.targetRest)
  {
    hide R.Sound; hide Q.Mul; hide Q.Conj; hide Q.Unit; hide TargetRotation;
    var n := |chain|;
    var last, before := chain[n - 1], chain[..n - 1];
    assert UnitRests(last) && forall link <- before :: UnitRests(link);
    BonesBefore(m, chain);
    TargetRotationIs(m, last);
    if n == 1 {
      var one := Q.IDENTITY;
      assert SourcePose(before) == one && TargetPose(m, before) == one;
      Q.MulIdentity(Q.Conj(one));
      Q.MulIdentity(one);
      Q.IdentityUnit();
      OneLink(one, one, one, last.sourceRest, last.targetRest, last.rotation);
    } else {
      RetargetPreservesMotion(m, before);
      var parent := chain[n - 2];
      assert before[|before| - 1] == parent && UnitRests(parent);
      OneLink(SourcePose(before), parent.sourceRest, parent.targetRest, last.sourceRest, last.targetRest,
              last.rotation);
    }
  }

  lemma BonesBefore(m: R.Library, chain: seq<Link>)
    requires chain != []
    ensures SourceBones(chain)[..|chain| - 1] == SourceBones(chain[..|chain| - 1])
    ensures TargetBones(m, chain)[..|chain| - 1] == TargetBones(m, chain[..|chain| - 1])
  {
    hide TargetRotation;
  }

  /** So every target bone turns, relative to its own rest, exactly as its source bone. */
  lemma SameWorldRotation(m: R.Library, chain: seq<Link>)
    requires R.Sound(m) && chain != [] && forall link <- chain :: UnitRests(link)
    ensures var last := chain[|chain| - 1];
      Q.Mul(TargetPose(m, chain), Q.Conj(last.targetRest)) == Q.Mul(SourcePose(chain), Q.Conj(last.sourceRest))
  {
    hide R.Sound; hide Q.Mul; hide Q.Conj; hide Q.Unit; hide TargetPose; hide SourcePose;
    var last := chain[|chain| - 1];
    assert UnitRests(last);
    RetargetPreservesMotion(m, chain);
    Q.CancelRight(last.targetRest, Q.Mul(SourcePose(chain), Q.Conj(last.sourceRest)));
  }
}
