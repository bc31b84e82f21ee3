/** Pose frames shared by every process (frames.py).  `T` is the number type: JSON numbers
    on the wire, reals once decoded. */
module Frames {
  import opened Prelude

  const SCHEMA_VERSION := 1
  const NUM_BODY_JOINTS: nat := 21
  const NUM_HAND_JOINTS: nat := 15
  const NUM_BETAS: nat := 10
  const NUM_EXPRESSION: nat := 10

  datatype PosePayload<T> = PosePayload(
    globalOrient: seq<T>,
    bodyPose: seq<seq<T>>,
    leftHandPose: seq<seq<T>>,
    rightHandPose: seq<seq<T>>,
    jawPose: seq<T>,
    betas: seq<T>,
    expression: seq<T>,
    transl: seq<T>)

  datatype PoseFrame<T> = PoseFrame(
    schemaVersion: int,
    seqNumber: int,
    capturedAt: T,
    status: string,
    pose: Option<PosePayload<T>>)

  predicate Triples<T>(rows: seq<seq<T>>) { forall i | 0 <= i < |rows| :: |rows[i]| == 3 }

  predicate Rows<T>(rows: seq<seq<T>>, count: nat) { |rows| == count && Triples(rows) }

  /** The array lengths the contract fixes. */
  predicate WellShaped<T>(p: PosePayload<T>) {
    && |p.globalOrient| == 3 && |p.jawPose| == 3 && |p.transl| == 3
    && |p.betas| == NUM_BETAS && |p.expression| == NUM_EXPRESSION
    && Rows(p.bodyPose, NUM_BODY_JOINTS)
    && Rows(p.leftHandPose, NUM_HAND_JOINTS)
    && Rows(p.rightHandPose, NUM_HAND_JOINTS)
  }
}
