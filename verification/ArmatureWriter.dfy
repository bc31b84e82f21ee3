/** Writing a plan to the bones of an armature (apply_timer.py). */
module ArmatureWriter {
  import opened Prelude
  import V = Vectors
  import Q = Quaternions
  import opened Skeleton
  import opened Binding

  class Bone {
    const name: Name
    var rotation: Q.Quat
    var quaternionMode: bool
    var keyframes: nat

    constructor (name: Name)
      ensures this.name == name
    {
      this.name, rotation, quaternionMode, keyframes := name, Q.IDENTITY, false, 0;
    }
  }

  class Armature {
    var posePresent: bool
    var bones: seq<Bone>
    var location: V.Vec

    /** Bone names are unique on an armature. */
    ghost predicate Valid()
      reads this`bones
    {
      forall i, j | 0 <= i < |bones| && 0 <= j < |bones| && bones[i].name == bones[j].name :: i == j
    }

    constructor (bones: seq<Bone>)
      ensures this.bones == bones && posePresent
    {
      this.bones, posePresent, location := bones, true, V.ZERO;
    }
  }

  predicate Clears(plan: PoseApplication, n: Name) { plan.clear.None? || n in plan.clear.value }

  /** The rotation a cleared bone resets to. */
  function Reset(plan: PoseApplication, n: Name): Q.Quat {
    if n in plan.neutral then plan.neutral[n] else Q.IDENTITY
  }

  function AfterClear(plan: PoseApplication, n: Name, before: Q.Quat): Q.Quat {
    if Clears(plan, n) then Reset(plan, n) else before
  }

  /** Where a bone ends: planned, else reset when cleared, else untouched. */
  function AfterApply(plan: PoseApplication, rotations: seq<BoneRotation>, n: Name, before: Q.Quat): Q.Quat {
    var planned := ByBone(rotations);
    if n in planned then planned[n] else AfterClear(plan, n, before)
  }

  /** Spelled out: the planned rotation; else, when the bone is cleared, its neutral rotation or
      none; else what it was. */
  lemma AppliedExactly(plan: PoseApplication, rotations: seq<BoneRotation>, n: Name, before: Q.Quat)
    ensures n in ByBone(rotations) ==> AfterApply(plan, rotations, n, before) == ByBone(rotations)[n]
    ensures n !in ByBone(rotations) && (plan.clear.None? || n in plan.clear.value) ==>
      AfterApply(plan, rotations, n, before) ==
        if n in plan.neutral then plan.neutral[n] else Q.Quat(1.0, 0.0, 0.0, 0.0)
    ensures n !in ByBone(rotations) && plan.clear.Some? && n !in plan.clear.value ==>
      AfterApply(plan, rotations, n, before) == before
  {
    hide ByBone;
  }

  method WriteQuaternion(bone: Bone, quaternion: Q.Quat, insertKeyframes: bool)
    modifies bone
    ensures bone.rotation == quaternion && bone.quaternionMode
    ensures bone.keyframes == old(bone.keyframes) + if insertKeyframes then 1 else 0
  {
    bone.quaternionMode := true;
    bone.rotation := quaternion;
    if insertKeyframes {
      bone.keyframes := bone.keyframes + 1;
    }
  }

  method BoneByName(armature: Armature, name: Name) returns (bone: Bone?)
    ensures bone != null ==> bone in armature.bones && bone.name == name
    ensures bone == null ==> forall b <- armature.bones :: b.name != name
  {
    for i := 0 to |armature.bones|
      invariant forall k | 0 <= k < i :: armature.bones[k].name != name
    {
      if armature.bones[i].name == name { return armature.bones[i]; }
    }
    bone := null;
  }

  /** Reset every bone of the clear set and leave all others alone. */
  method ClearBones(armature: Armature, plan: PoseApplication)
    requires armature.Valid()
    modifies armature.bones
    ensures forall b <- armature.bones ::
      && b.rotation == AfterClear(plan, b.name, old(b.rotation))
      && b.keyframes == old(b.keyframes)
      && b.quaternionMode == (old(b.quaternionMode) || Clears(plan, b.name))
  {
    if plan.clear.None? {
      for i := 0 to |armature.bones|
        invariant forall k | 0 <= k < |armature.bones| ::
          var b := armature.bones[k];
          && b.keyframes == old(b.keyframes)
          && b.rotation == (if k < i then Reset(plan, b.name) else old(b.rotation))
          && b.quaternionMode == (k < i || old(b.quaternionMode))
      {
        WriteQuaternion(armature.bones[i], Reset(plan, armature.bones[i].name), false);
      }
      return;
    }
    var left := plan.clear.value;
    while left != {}
      invariant left <= plan.clear.value
      invariant forall b <- armature.bones ::
        && b.keyframes == old(b.keyframes)
        && b.rotation == (if Clears(plan, b.name) && b.name !in left then Reset(plan, b.name) else old(b.rotation))
        && b.quaternionMode == ((Clears(plan, b.name) && b.name !in left) || old(b.quaternionMode))
      decreases left
    {
      var name :| name in left;
      left := left - {name};
      var bone := BoneByName(armature, name);
      if bone != null {
        WriteQuaternion(bone, Reset(plan, name), false);
        assert forall b <- armature.bones :: b.name == name ==> b == bone;
      }
    }
  }

  /** Applying a plan updates exactly the frame it names: each bone ends at its planned
      rotation if planned, else at its reset if cleared, else unchanged; keyframes are added
      once per planned rotation of an existing bone, and only when asked for. */
  method ApplyPlan(armature: Armature, plan: PoseApplication, insertKeyframes: bool)
    requires armature.Valid()
    modifies armature`location, armature.bones
    ensures !old(armature.posePresent) ==>
      armature.location == old(armature.location) && forall b <- armature.bones :: unchanged(b)
    ensures old(armature.posePresent) ==>
      && armature.location == (if plan.worldOffset.Some? then plan.worldOffset.value else old(armature.location))
      && forall b <- armature.bones ::
           && b.rotation == AfterApply(plan, plan.rotations, b.name, old(b.rotation))
           && b.keyframes == old(b.keyframes) + (if insertKeyframes then Count(plan.rotations, b.name) else 0)
           && b.quaternionMode == (old(b.quaternionMode) || Clears(plan, b.name) || b.name in ByBone(plan.rotations))
  {
    if !armature.posePresent { return; }
    ClearBones(armature, plan);
    for i := 0 to |plan.rotations|
      invariant armature.location == old(armature.location)
      invariant forall b <- armature.bones ::
        && b.rotation == AfterApply(plan, plan.rotations[..i], b.name, old(b.rotation))
        && b.keyframes == old(b.keyframes) + (if insertKeyframes then Count(plan.rotations[..i], b.name) else 0)
        && b.quaternionMode == (old(b.quaternionMode) || Clears(plan, b.name) || b.name in ByBone(plan.rotations[..i]))
    {
      var rotation := plan.rotations[i];
      assert plan.rotations[..i + 1][..i] == plan.rotations[..i];
      var bone := BoneByName(armature, rotation.bone);
      if bone != null {
        WriteQuaternion(bone, rotation.quaternion, insertKeyframes);
        assert forall b <- armature.bones :: b.name == rotation.bone ==> b == bone;
      }
    }
    assert plan.rotations[..|plan.rotations|] == plan.rotations;
    if plan.worldOffset.Some? {
      armature.location := plan.worldOffset.value;
    }
  }
}
