/** Joint names (skeleton.py) and the limb filters over them (filters.py).  A name is one of
    the 55 SMPL-X joint names, given by its position in the table, or any other string. */
module Skeleton {
  import opened Prelude

  datatype Name = Smplx(index: nat) | Other(text: string)

  const PELVIS := Smplx(0)
  const FIRST_BODY: nat := 1
  const FIRST_LEFT_HAND: nat := 25
  const FIRST_RIGHT_HAND: nat := 40

  /** The names at positions `from` up to `to`. */
  function Joints(from: nat, to: nat): set<Name> { set i | from <= i < to :: Smplx(i) }

  const LEFT_FINGERS := Joints(FIRST_LEFT_HAND, FIRST_RIGHT_HAND)
  const RIGHT_FINGERS := Joints(FIRST_RIGHT_HAND, 55)
  const LEFT_WRIST := Smplx(20)
  const RIGHT_WRIST := Smplx(21)

  /** spine1, spine2, spine3, neck, head and the two collars. */
  const TORSO := {Smplx(3), Smplx(6), Smplx(9), Smplx(12), Smplx(15), Smplx(13), Smplx(14)}

  datatype LimbFilter = LimbFilter(
    armsLeft: bool, armsRight: bool, handsLeft: bool, handsRight: bool, fingersLeft: bool, fingersRight: bool,
    legsLeft: bool, legsRight: bool, torso: bool, applyNothing: bool)

  const NO_FILTER := LimbFilter(false, false, false, false, false, false, false, false, false, false)

  predicate IsActive(f: LimbFilter) {
    || f.applyNothing
    || f.armsLeft || f.armsRight || f.handsLeft || f.handsRight || f.fingersLeft || f.fingersRight
    || f.legsLeft || f.legsRight || f.torso
  }

  /** Whether a whitelisted limb group contains the joint at this position. */
  predicate Covers(f: LimbFilter, i: nat) {
    || (25 <= i < 40 && (f.fingersLeft || f.handsLeft || f.armsLeft))
    || (40 <= i < 55 && (f.fingersRight || f.handsRight || f.armsRight))
    || (i == 20 && (f.handsLeft || f.armsLeft))
    || (i == 21 && (f.handsRight || f.armsRight))
    || ((i == 16 || i == 18) && f.armsLeft)
    || ((i == 17 || i == 19) && f.armsRight)
    || ((i == 1 || i == 4 || i == 7 || i == 10) && f.legsLeft)
    || ((i == 2 || i == 5 || i == 8 || i == 11) && f.legsRight)
    || ((i == 3 || i == 6 || i == 9 || 12 <= i <= 15) && f.torso)
  }

  function When(active: bool, bones: set<Name>): (r: set<Name>)
    ensures forall n :: n in r <==> active && n in bones
  {
    if active then bones else {}
  }

  /** The bone whitelist, or nothing when no filter is active. */
  function Allowed(f: LimbFilter): Option<set<Name>> {
    if !IsActive(f) then None
    else if f.applyNothing then Some({})
    else
      Some(
        When(f.fingersLeft, LEFT_FINGERS)
        + When(f.fingersRight, RIGHT_FINGERS)
        + When(f.handsLeft, {LEFT_WRIST} + LEFT_FINGERS)
        + When(f.handsRight, {RIGHT_WRIST} + RIGHT_FINGERS)
        + When(f.armsLeft, {Smplx(16), Smplx(18), LEFT_WRIST} + LEFT_FINGERS)
        + When(f.armsRight, {Smplx(17), Smplx(19), RIGHT_WRIST} + RIGHT_FINGERS)
        + When(f.legsLeft, {Smplx(1), Smplx(4), Smplx(7), Smplx(10)})
        + When(f.legsRight, {Smplx(2), Smplx(5), Smplx(8), Smplx(11)})
        + When(f.torso, TORSO))
  }

  /** One limb group let through when its flag is set. */
  method Grown(allowed: set<Name>, active: bool, bones: set<Name>) returns (r: set<Name>)
    ensures r == allowed + When(active, bones)
  {
    r := allowed;
    if active { r := r + bones; }
  }

  /** The whitelist as the program grows it, one limb group after the other. */
  method AllowedBones(f: LimbFilter) returns (r: Option<set<Name>>)
    ensures r == Allowed(f)
  {
    hide When; hide Joints;
    if !IsActive(f) { return None; }
    if f.applyNothing { return Some({}); }
    hide IsActive;
    var left, right := {LEFT_WRIST} + LEFT_FINGERS, {RIGHT_WRIST} + RIGHT_FINGERS;
    var allowed: set<Name> := {};
    allowed := Grown(allowed, f.fingersLeft, LEFT_FINGERS);
    allowed := Grown(allowed, f.fingersRight, RIGHT_FINGERS);
    allowed := Grown(allowed, f.handsLeft, left);
    allowed := Grown(allowed, f.handsRight, right);
    allowed := Grown(allowed, f.armsLeft, {Smplx(16), Smplx(18), LEFT_WRIST} + LEFT_FINGERS);
    allowed := Grown(allowed, f.armsRight, {Smplx(17), Smplx(19), RIGHT_WRIST} + RIGHT_FINGERS);
    allowed := Grown(allowed, f.legsLeft, {Smplx(1), Smplx(4), Smplx(7), Smplx(10)});
    allowed := Grown(allowed, f.legsRight, {Smplx(2), Smplx(5), Smplx(8), Smplx(11)});
    allowed := Grown(allowed, f.torso, TORSO);
    assert {} + When(f.fingersLeft, LEFT_FINGERS) == When(f.fingersLeft, LEFT_FINGERS);
    r := Some(allowed);
  }

  lemma JointsMember(from: nat, to: nat, n: Name)
    ensures n in Joints(from, to) <==> n.Smplx? && from <= n.index < to
  {}

  /** The whitelist holds exactly the joints of the whitelisted limb groups. */
  lemma AllowedMember(f: LimbFilter, n: Name)
    requires IsActive(f) && !f.applyNothing
    ensures n in Allowed(f).value <==> n.Smplx? && n.index < 55 && Covers(f, n.index)
  {
    hide Joints; hide When;
    JointsMember(FIRST_LEFT_HAND, FIRST_RIGHT_HAND, n);
    JointsMember(FIRST_RIGHT_HAND, 55, n);
  }

  /** The joints of the left side: leg, arm and fingers, by their positions in the table. */
  predicate OnLeft(i: nat) {
    i == 1 || i == 4 || i == 7 || i == 10 || i == 16 || i == 18 || i == 20 || 25 <= i < 40
  }

  predicate OnRight(i: nat) {
    i == 2 || i == 5 || i == 8 || i == 11 || i == 17 || i == 19 || i == 21 || 40 <= i < 55
  }

  /** Each flag whitelists joints of its own side only: a leg flag the leg, a finger flag the
      fingers, a hand flag also the wrist, an arm flag also shoulder and elbow. */
  lemma FlagsKeepTheirSide(f: LimbFilter, i: nat)
    requires IsActive(f) && !f.applyNothing && Smplx(i) in Allowed(f).value
    ensures OnLeft(i) ==>
      if i <= 10 then f.legsLeft else if i <= 18 then f.armsLeft
      else if i == 20 then f.armsLeft || f.handsLeft else f.armsLeft || f.handsLeft || f.fingersLeft
    ensures OnRight(i) ==>
      if i <= 11 then f.legsRight else if i <= 19 then f.armsRight
      else if i == 21 then f.armsRight || f.handsRight else f.armsRight || f.handsRight || f.fingersRight
    ensures OnLeft(i) || OnRight(i) || f.torso
  {
    hide Allowed;
    AllowedMember(f, Smplx(i));
  }

  /** An active filter never lets the pelvis through. */
  lemma PelvisNeedsNoFilter(f: LimbFilter)
    ensures Allowed(f).Some? ==> PELVIS !in Allowed(f).value
  {
    if IsActive(f) && !f.applyNothing { AllowedMember(f, PELVIS); }
  }

  /** The three limb checkboxes of the panel: all checked means no filter, none checked
      means nothing is applied (stream_operators.py). */
  function FilterFromCheckboxes(arms: bool, legs: bool, torso: bool): Option<LimbFilter> {
    if arms && legs && torso then None
    else Some(LimbFilter(arms, arms, false, false, false, false, legs, legs, torso, !(arms || legs || torso)))
  }

  /** A checkbox decides exactly its own limb group; the pelvis follows only when all are
      checked. */
  lemma CheckboxesDecide(arms: bool, legs: bool, torso: bool, i: nat)
    requires i <= 21 || FIRST_LEFT_HAND <= i < 55
    ensures var choice := FilterFromCheckboxes(arms, legs, torso);
      var allowed := Allowed(if choice.None? then NO_FILTER else choice.value);
      var applied := allowed.None? || Smplx(i) in allowed.value;
      applied <==>
        if i == 0 then arms && legs && torso
        else if 16 <= i then arms
        else if i == 3 || i == 6 || i == 9 || 12 <= i then torso
        else legs
  {
    var choice := FilterFromCheckboxes(arms, legs, torso);
    if choice.Some? && !choice.value.applyNothing {
      AllowedMember(choice.value, Smplx(i));
      hide Allowed;
    }
  }
}
