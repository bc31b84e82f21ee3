# PoseCap verification

A Dafny model of PoseCap, the addon, engine and installer that stream a person's pose from a
camera onto a Blender character, with proofs of what its central parts promise. Check it with
`dafny verify dfyconfig.toml`.

Four parts are modelled.

1. **The rotation pipeline.** A payload of axis-angle vectors becomes unit quaternions
   (`Quaternions`, `AxisAngle`), is smoothed per bone (`Smoothing`), restricted to the limbs the
   user and the backend allow (`Skeleton`), planned in source coordinates and rewritten into
   the basis of an untouched rig (`Application`, `Binding`, `RetargetChain`), and written to the
   bones of an armature by a timer (`ApplyTimer`, `ArmatureWriter`). The landmark backend builds
   orthonormal anatomical frames and extracts quaternions from matrices (`HintFrames`,
   `LandmarkPose`, `Matrices`, `MatrixQuaternion`, `QuaternionAction`). Three modules say what
   the pipeline computes without naming its parts: where a smoothed rotation lies
   (`SmoothingPath`, over `Trigonometry`), which row of a payload drives which bone (`PlanRows`),
   and what the landmark rows mean along spine, arms and legs (`BodyChains`). The central results are
   sign continuity of what is written over whole runs, exactness of the matrix extraction on all
   four branches, forward kinematics that recovers the frames, and retargeting that preserves
   motion along chains of any length.
2. **The latest-wins transport.** Frames are encoded and validated (`Codec`), framed by
   newlines, cut into arbitrary chunks and read again (`LineSplit`, `StreamClient`, `Delivery`),
   and handed over in a one-slot queue raced by two threads (`LatestSlot`), up to one theorem
   from produced to consumed frames (`Delivery.ProducedToConsumed`).
3. **The session lifecycle.** Start, stop, record and tick, with the engine dying, the client
   failing or reconnecting, the target missing and the apply call raising at any moment, as a
   state machine (`Lifecycle`) that the objects refine (`StreamSession`), the same over several
   scenes (`Scenes`) and down to bones and keys (`LiveSession`); and the key poses that clean up
   a recording (`KeyframeManager`).
4. **The installer transaction.** An inventory and a file system with a crash possible between
   any two atomic actions (`Selections`, `ComponentLifecycle`, `Setup`).

## Conventions

- Numbers are exact reals. Square root, sine, cosine and arc cosine are a parameter
  (`Reals.Library`); `Reals.Sound` lists the textbook facts about them that the proofs use.
  Division by zero has no real value: `Reals.Quotient` stands in for it, and the proofs show
  that no divisor is zero where the result is used. Thresholds are the program's.
- A raised exception is an `Err`, or a separate outcome where the caller tells failures apart.
  Error texts are shortened and carry no interpolated names.
- Joint, landmark, wire-member and path names are datatypes: a case for each name the program
  knows and one for any other text. `Smplx(i)` is the joint at position `i` of the joint table,
  `Other("")` the empty joint name.
- The outside world (what a socket returns, what the engine, the client and the
  target do, what an installer step leaves on disk, when the process dies) is a parameter that
  every theorem ranges over.
- The JSON text library is a parameter of `Delivery`: compact text holds no raw newline
  (section 7 of RFC 8259), and values that are exact in text read back as themselves.

## Where the program and its documentation differ

- `encode_pose_frame` documents that it never emits a line the decoder rejects. It checks only
  that status and pose agree: a wrong schema version, an unknown status without a pose, or
  arrays of the wrong length are emitted and then rejected (`Codec.EncoderEmitsRejectedLines`);
  `Codec.RoundTrip` gives the exact condition.
- A reconnect while recording comes back as "streaming" with the recording flag still on, so
  keyframes go on being written while the operator that ends recording is switched off
  (`Lifecycle.SilentRecordingReachable`, with the exact condition beside it).
- Each scene has its own lifecycle state while the active session is one for the whole program:
  a start in a second scene stops the first scene's session and leaves that scene saying
  "streaming" (`Scenes.SecondSceneDisplacesFirst`). That is the only way a scene loses its
  invariants (`Scenes.ScenesSafeExactly`).
- Deselecting a component whose backend manifest was never written is not finished by a later
  run when the process dies right after the new inventory is stored
  (`ComponentLifecycle.FinishedExactly`, with `AbortedInstall` as a state a setup reaches).
- Clearing all key poses leaves the selected index where it was. Once poses are marked again the
  index may be past the list, and a removal is then refused and does not bring it back
  (`KeyframeManager.SelectionLost`, `RemovalRefused`); `KeyframeManager.SelectionKeptThroughout`
  says exactly which runs of edits keep it on a row.

## Model

| member | source | states |
|---|---|---|
| `Quaternions.NormalizedResult` | core/src/posecap_core/binding.py:166-175 | normalising raises exactly when the norm is below the cut-off, and otherwise gives a unit quaternion along the input |
| `Quaternions.NormalizedUnit` | core/src/posecap_core/binding.py:166-175 | a unit quaternion is returned unchanged and never refused |
| `Quaternions.SignCompatible` | core/src/posecap_core/rotation.py:76-87 | sign matching returns the rotation in one of its two signs, never in the far hemisphere, and keeps unit length |
| `Quaternions.Associative` | core/src/posecap_core/rotation.py:62-73 | the product as written out is associative |
| `Quaternions.UnitMul` | core/src/posecap_core/rotation.py:62-73 | products of unit quaternions are unit quaternions |
| `Quaternions.DotLeft` | core/src/posecap_core/rotation.py:62-73 | multiplying two quaternions by the same unit quaternion on the left keeps their dot product |
| `Quaternions.DotRight` | core/src/posecap_core/rotation.py:62-73 | multiplying two quaternions by the same unit quaternion on the right keeps their dot product |
| `AxisAngle.ToQuaternionUnit` | core/src/posecap_core/rotation.py:24-33 | every Rodrigues vector becomes a unit quaternion |
| `AxisAngle.ToQuaternionExactly` | core/src/posecap_core/rotation.py:24-33 | the real part is the cosine of half the vector's length and the vector part its sine along the vector; below the cut-off the result is no rotation |
| `AxisAngle.FromQuaternionNormalizes` | core/src/posecap_core/rotation.py:36-59 | reading a quaternion raises exactly when it is too short, and otherwise reads the unit quaternion along it |
| `AxisAngle.ShortestVector` | core/src/posecap_core/rotation.py:36-59 | the vector read back is never longer than a half turn |
| `AxisAngle.RoundTrip` | core/src/posecap_core/rotation.py:24-59 | a unit quaternion never raises and comes back as its short-way representative, or as exactly no rotation when it lies inside the cut-off |
| `Smoothing.NewSmoother` | core/src/posecap_core/smoothing.py:41-55 | a configuration is refused exactly when a cut-off is not positive or beta is negative; a new smoother has that configuration, the given library and no states |
| `Smoothing.FactorRange` | core/src/posecap_core/smoothing.py:91-93 | the smoothing factor lies strictly between 0 and 1 |
| `Smoothing.FactorMonotone` | core/src/posecap_core/smoothing.py:91-93 | a longer interval or a higher cut-off never lowers the factor |
| `Smoothing.CutoffFloor` | core/src/posecap_core/smoothing.py:81 | the adaptive cut-off never falls below the configured minimum |
| `Smoothing.NlerpBetween` | core/src/posecap_core/smoothing.py:101-108 | nearly parallel quaternions: the blend is never zero, and its normalisation is a unit quaternion in the hemisphere of the start and no further from the end than the start was |
| `Smoothing.SineBetween` | core/src/posecap_core/smoothing.py:109-113 | the sine branch: the divisor is positive, and the result is a unit quaternion in the hemisphere of the start and no further from the end |
| `Smoothing.SlerpBetween` | core/src/posecap_core/smoothing.py:101-113 | interpolation between unit quaternions of one hemisphere on whichever branch: a unit quaternion, in the hemisphere of the start, no further from the end |
| `SmoothingPath.SlerpOnPath` | core/src/posecap_core/smoothing.py:101-113 | up to a dot product of 0.9995 the result is at the fraction of the angle from the start and at the rest of it from the end; above, it points along the chord's point at that fraction |
| `SmoothingPath.PathMoves` | core/src/posecap_core/smoothing.py:101-113 | for a positive fraction the result is strictly nearer to the end than the start was, unless both are equal |
| `SmoothingPath.AngleOfRotation` | core/src/posecap_core/smoothing.py:96-98 | the angle between two rotations is the one of the rotation that leads from one to the other: its matrix has trace one plus twice the cosine |
| `Smoothing.SmoothKeeps` | core/src/posecap_core/smoothing.py:57-88 | one sample keeps the stored quaternion unit and the speed non-negative, stays in the hemisphere of the previous output, and is never further from the sign-matched sample, whatever the timestamps are |
| `Smoothing.PoseSmoother.SmoothBone` | core/src/posecap_core/smoothing.py:57-88 | the object updates exactly the state of the given bone and returns its new filtered quaternion |
| `Smoothing.RunKeeps` | core/src/posecap_core/smoothing.py:57-88 | over every stream of unit quaternions, whatever the timestamps: each state is good, each output lies in the hemisphere of the one before and is no further from the sign-matched sample |
| `SmoothingPath.SmoothExactly` | core/src/posecap_core/smoothing.py:57-93 | one sample in numbers: interval with its fallback, angle to the nearer sign, speed mixed by the factor of its cut-off, rotation moved along the path by the factor of minimum plus beta times that speed |
| `SmoothingPath.RunExactly` | core/src/posecap_core/smoothing.py:57-93 | over every stream the first sample is taken as it is and each later one moves the state in those numbers |
| `SmoothingPath.RunMoves` | core/src/posecap_core/smoothing.py:57-88 | over every stream each output is strictly nearer to its sample than the output before, unless that was already there, and then it stays |
| `Smoothing.RunConstant` | core/src/posecap_core/smoothing.py:57-88 | a stream that shows one rotation in either sign is answered with its first sample forever |
| `Smoothing.RunSpeed` | core/src/posecap_core/smoothing.py:71-83 | the speed kept over a run is the scalar low-pass of the speeds of its motions |
| `Smoothing.ScalarDominates` | core/src/posecap_core/smoothing.py:3-12 | for the same motions the scalar speed estimate is at least the length of the vector low-pass |
| `Smoothing.NeverMoreLag` | core/src/posecap_core/smoothing.py:3-12 | the smoothing factor is never below the one of a filter that tracks the vector: no lag beyond the reference |
| `Smoothing.StreamNeverMoreLag` | core/src/posecap_core/smoothing.py:57-88 | at each sample of any stream, with any timestamps, the factor the sample is smoothed with is at least the one of a filter that tracks the vector, whatever velocities of those speeds it sees |
| `Skeleton.AllowedBones` | core/src/posecap_core/filters.py:67-96 | growing the whitelist limb group by limb group gives the specified set, nothing when no filter is active, and the empty set when nothing is to be applied |
| `Skeleton.AllowedMember` | core/src/posecap_core/filters.py:67-96 | the whitelist holds exactly the joints of the whitelisted limb groups |
| `Skeleton.FlagsKeepTheirSide` | core/src/posecap_core/filters.py:67-96 | each limb flag whitelists joints of its own side and limb only |
| `Skeleton.PelvisNeedsNoFilter` | core/src/posecap_core/filters.py:51-96 | an active filter never lets the pelvis through |
| `Skeleton.CheckboxesDecide` | addon/posecap_addon/stream_operators.py:247-261 | each of the three limb checkboxes decides exactly its own joints; the pelvis follows only when all are checked |
| `Binding.NewBoundBoneGood` | core/src/posecap_core/binding.py:33-45 | a bound bone is refused exactly for an empty name or a quaternion too short to normalise, and otherwise holds unit quaternions along the given ones |
| `Binding.NewBindingAccepts` | core/src/posecap_core/binding.py:54-61 | a binding is refused exactly when a joint name is empty or a target bone is bound twice |
| `Binding.SourceInvertsBound` | core/src/posecap_core/binding.py:139-157 | reading a bound rotation back in source coordinates gives the source rotation |
| `Binding.BoundInvertsSource` | core/src/posecap_core/binding.py:139-157 | binding a rotation that was read back from the target gives the target rotation |
| `Binding.BoundIsometric` | core/src/posecap_core/binding.py:139-146 | binding keeps dot products |
| `Binding.BoundAgainstTarget` | core/src/posecap_core/binding.py:139-157 | comparing with a target rotation in target coordinates is comparing in source coordinates |
| `Binding.SourcePreviousQuaternions` | core/src/posecap_core/binding.py:63-73 | the loop gives every bound joint with target history that history in source coordinates, and no other joint any |
| `Binding.BindUnitPlan` | core/src/posecap_core/binding.py:93-117 | for unit plans the final normalisation changes nothing and never raises, and the bound plan is unit again |
| `Binding.BoundKeys` | core/src/posecap_core/binding.py:107-111 | a bound plan writes exactly the targets of the plan's bound joints |
| `Binding.BoundByBone` | core/src/posecap_core/binding.py:107-111 | under the target of each planned bound joint a bound plan holds the bound rotation of that joint |
| `Binding.BoundCount` | core/src/posecap_core/binding.py:93-117 | a target is written as often as the plan drives its joint, and a bone outside the binding never |
| `Binding.HistoryInvertsBinding` | core/src/posecap_core/binding.py:63-73 | the history of a bound plan, read back, is exactly the plan's rotation for every bound joint |
| `Binding.PlansIsometric` | core/src/posecap_core/binding.py:107-111 | dot products between two plans of a joint are kept by binding both |
| `RetargetChain.CompensationExactly` | core/src/posecap_core/binding.py:76-90 | for any two rest orientations: refused exactly when one is too short to normalise, and otherwise the conjugated target rest times the source rest, both normalised, a unit quaternion |
| `RetargetChain.RetargetPreservesMotion` | core/src/posecap_core/binding.py:76-90 | along a chain of any length a target bone's pose is the source bone's pose with the source rest taken out and the target rest put in |
| `RetargetChain.SameWorldRotation` | spikes/0001-rest-delta-pose-binding/pipeline/rest_delta_fixture.py:230-256 | every target bone turns in the world, relative to its own rest, exactly as its source bone |
| `Application.FlipNeverRaises` | core/src/posecap_core/orientation.py:36-58 | reading the flipped orientation back never raises |
| `Application.FlipExactly` | core/src/posecap_core/orientation.py:36-58 | no rotation is left alone; any other is turned by the flip applied after it, taken the short way round, or becomes none inside the cut-off |
| `Application.FlipAxis` | core/src/posecap_core/orientation.py:23-33 | whatever the pitch, the flip is a turn about the camera's first axis by a half turn plus the pitch, or none when that is nearly no turn |
| `Application.WorldOffsetIsRigid` | core/src/posecap_core/application.py:161-168 | the change from camera to world axes keeps lengths, angles and handedness, turns down into down, and is relative to the origin |
| `Application.InputsExact` | core/src/posecap_core/application.py:99-135 | a frame drives exactly the joints that filter and backend let through, the pelvis only unfiltered, each once |
| `Application.PlanRotations` | core/src/posecap_core/application.py:106-135 | the four joint blocks, appended in order while the smoother is driven, give the rotations and smoother states of the specification |
| `Application.PlanPoseApplication` | core/src/posecap_core/application.py:62-147 | the whole plan, with the smoother's states afterwards, is that of the specification |
| `Application.PlanJointsKeeps` | core/src/posecap_core/application.py:171-186 | planning keeps the smoother good, plans unit quaternions, and never leaves the hemisphere of a joint's history |
| `Application.PlanSucceeds` | core/src/posecap_core/application.py:62-147 | planning a well-shaped payload never raises |
| `Application.PlanExact` | core/src/posecap_core/application.py:99-147 | each bone is planned at most once, and exactly the written bones are |
| `PlanRows.PlanTakes` | core/src/posecap_core/application.py:99-186 | each planned joint takes its own row: the global orientation for the pelvis, flipped on request, row i-1 of the body, i-25 of the left or i-40 of the right hand for joint i; smoothed, that rotation is the sample its bone takes; bound, it lies between compensation and neutral under the target |
| `PlanRows.PlansExactly` | core/src/posecap_core/application.py:99-135 | a joint is driven exactly when limb flags and backend let it through, the pelvis only with no flag set |
| `PlanRows.ClearsExactly` | core/src/posecap_core/application.py:137-147 | a plan clears exactly the bones that limb flags and backend let through, or the targets bound to them |
| `PlanRows.PlanOffset` | core/src/posecap_core/application.py:109-117 | the offset, bound or not, is the translation from the origin with camera forward as second and camera down as negative third axis, present exactly when asked for with the pelvis driven |
| `Application.PlanCleared` | core/src/posecap_core/application.py:137-147 | every planned bone lies in the clear set; a bound plan clears only bones of the binding and resets each to its neutral pose |
| `Application.PlanContinuous` | core/src/posecap_core/application.py:104-186 | whatever the history, a bone's new quaternion lies in the hemisphere of its previous one, in the coordinates that are written |
| `ArmatureWriter.BoneByName` | addon/posecap_addon/apply_timer.py:233-240 | a bone of that name, or nothing when there is none |
| `ArmatureWriter.WriteQuaternion` | addon/posecap_addon/apply_timer.py:243-247 | writes one rotation in quaternion mode and one key when asked for |
| `ArmatureWriter.ClearBones` | addon/posecap_addon/apply_timer.py:184-213 | every bone of the clear set is reset to its neutral or identity, every other bone keeps its rotation; no key is added |
| `ArmatureWriter.AppliedExactly` | addon/posecap_addon/apply_timer.py:161-213 | a bone ends at its planned rotation, else when cleared at its neutral or no rotation, else where it was |
| `ArmatureWriter.ApplyPlan` | addon/posecap_addon/apply_timer.py:161-171 | each bone ends planned, else reset if cleared, else untouched; keys are added once per planned rotation and only when recording; without a pose nothing changes |
| `ApplyTimer.CapabilitiesLimit` | addon/posecap_addon/apply_timer.py:219-230 | a backend without hands moves no finger, one without a body only wrists and fingers |
| `ApplyTimer.CapabilitiesExactly` | addon/posecap_addon/apply_timer.py:219-230 | body stands for exactly the pelvis and the 21 body joints, hands for exactly the wrists and fingers; without a list every joint is supported |
| `ApplyTimer.PoseApplyTimer.PlanFrame` | addon/posecap_addon/apply_timer.py:119-135 | the world origin is captured from the first frame only, and the plan names each written bone once |
| `ApplyTimer.PoseApplyTimer.ApplyFrame` | addon/posecap_addon/apply_timer.py:111-141 | state and outcome follow the step function; the armature is written exactly when a plan is applied, each written bone keyed once and only when recording |
| `ApplyTimer.PoseApplyTimer.Tick` | addon/posecap_addon/apply_timer.py:86-101 | a stopped timer asks for no further tick and changes nothing; without a frame nothing changes; with one, each bone ends as the applied plan says and is keyed once if it is written while recording, and nothing moves when no plan is applied |
| `ApplyTimer.StepKeeps` | addon/posecap_addon/apply_timer.py:111-141 | one frame from any good state keeps the smoother good, keeps the history on skipped frames, and writes the same bones in their hemispheres |
| `PlanRows.StepTakes` | addon/posecap_addon/apply_timer.py:111-141 | each joint of an applied frame takes its row of that frame, smoothed at the time the frame was captured, and the history holds what is written |
| `ApplyTimer.StepExactly` | addon/posecap_addon/apply_timer.py:111-150 | without a person nothing changes; without a target only the first frame warns and the origin waits; with one the warning is over, the origin is taken once and the plan becomes the history |
| `ApplyTimer.RunContinuous` | addon/posecap_addon/apply_timer.py:111-141 | for any sequence of ok, no-person and invalid-target frames, with or without binding or smoother, consecutive applied plans write the same bones with dot products of at least zero |
| `ApplyTimer.PoseApplyTimer.TickAll` | addon/posecap_addon/apply_timer.py:86-141 | over a run of ticks on an armature, recording or not: after each applied frame every bone the timer writes shows its planned rotation, nothing moves in between, and from one applied frame to the next no written bone leaves its hemisphere |
| `ApplyTimer.FirstOffsetIsZero` | addon/posecap_addon/apply_timer.py:119-120 | the first applied frame has a world offset of zero |
| `MatrixQuaternion.QuaternionFromDominantDiagonal` | core/src/posecap_core/landmark_pose.py:204-214 | the index arithmetic on array slots computes the per-axis formula |
| `MatrixQuaternion.FloorUnused` | core/src/posecap_core/landmark_pose.py:204-208 | with a trace of at most zero the square under the root is at least one: the floor changes no result and the divisor is at least two |
| `MatrixQuaternion.PositiveTraceExact` | core/src/posecap_core/landmark_pose.py:192-201 | the positive-trace branch yields all ten component products of the rotation |
| `MatrixQuaternion.DominantExact` | core/src/posecap_core/landmark_pose.py:204-214 | each of the three dominant-diagonal branches yields all ten component products of the rotation |
| `MatrixQuaternion.MatrixToQuaternionExact` | core/src/posecap_core/landmark_pose.py:183-214 | for every proper rotation matrix the quaternion is a unit quaternion whose rotation is that matrix, on whichever branch |
| `MatrixQuaternion.RotationDeterminesQuaternion` | core/src/posecap_core/landmark_pose.py:183-214 | a rotation determines its unit quaternion up to sign |
| `QuaternionAction.RotationOfProduct` | core/src/posecap_core/rotation.py:62-73 | the rotation of a product of unit quaternions is the product of their rotation matrices |
| `HintFrames.UnitVectorResult` | core/src/posecap_core/landmark_pose.py:176-180 | normalising raises exactly below the cut-off and gives a unit vector along the input |
| `HintFrames.FrameXY` | core/src/posecap_core/landmark_pose.py:160-165 | defined exactly when the first hint and the rest of the second are long enough; then a proper rotation with its first column along the first hint and the second hint on the side of its second column |
| `HintFrames.FrameXZ` | core/src/posecap_core/landmark_pose.py:168-173 | defined exactly when the first hint and the rest of the second are long enough; then a proper rotation with its first column along the first hint and the second hint on the side of its third column |
| `LandmarkPose.ReadRequired` | core/src/posecap_core/landmark_pose.py:120-153 | reading succeeds exactly when each of the 21 landmarks is present with three numbers, and then holds their positions |
| `LandmarkPose.GlobalFrames` | core/src/posecap_core/landmark_pose.py:74-117 | the table is filled for all 22 joints with the frame of each, and raises exactly when some joint has no stable frame |
| `LandmarkPose.SideFrames` | core/src/posecap_core/landmark_pose.py:94-116 | hip, knee, ankle, shoulder and elbow frame of one side, each built on the one before; fails exactly when one of them does |
| `LandmarkPose.FramesAreRotations` | core/src/posecap_core/landmark_pose.py:74-117 | every frame that is built is orthonormal and right-handed |
| `LandmarkPose.FramesFollowBones` | core/src/posecap_core/landmark_pose.py:74-117 | trunk, head and arm frames have their first axis along their landmarks, the right arm reversed; leg frames have their bones on the side of the axis that hints at them |
| `BodyChains.TrunkFrames` | core/src/posecap_core/landmark_pose.py:74-84 | pelvis, chest and head are the rotations with first axis along their left-right lines and the way up the spine, or to the nose, in the plane of the first two axes on the side of the second |
| `BodyChains.LegFrames` | core/src/posecap_core/landmark_pose.py:94-104 | hip and knee turn about the first axis of the frame above with the bone upwards in the plane of the first two axes, the ankle with the foot forwards in that of first and third |
| `BodyChains.ArmFrames` | core/src/posecap_core/landmark_pose.py:106-116 | shoulder and elbow have their first axis along the bone to the left of the body and take their twist from the second axis of the frame above |
| `BodyChains.StableExactly` | core/src/posecap_core/landmark_pose.py:74-117 | all frames are stable exactly when head, ankles and elbows are |
| `BodyChains.TrunkDefined` | core/src/posecap_core/landmark_pose.py:74-84 | pelvis, chest and head have a frame exactly when their left-right line is long enough and so is what the way up, or to the nose, has beside it |
| `BodyChains.HipDefined` | core/src/posecap_core/landmark_pose.py:95-102 | below a pelvis frame a hip has one exactly when the thigh is long enough beside the pelvis's first axis |
| `BodyChains.KneeDefined` | core/src/posecap_core/landmark_pose.py:95-102 | below a hip frame a knee has one exactly when the shin is long enough beside the hip's first axis |
| `BodyChains.AnkleDefined` | core/src/posecap_core/landmark_pose.py:95-102 | below a knee frame an ankle has one exactly when the foot is long enough beside the knee's first axis |
| `BodyChains.ShoulderDefined` | core/src/posecap_core/landmark_pose.py:106-113 | below a chest frame a shoulder has one exactly when the upper arm is long enough and so is the chest's second axis beside it |
| `BodyChains.ElbowDefined` | core/src/posecap_core/landmark_pose.py:106-113 | below a shoulder frame an elbow has one exactly when the forearm is long enough and so is the shoulder's second axis beside it |
| `LandmarkPose.LegsHinge` | core/src/posecap_core/landmark_pose.py:94-104 | hip, knee, ankle and foot keep the lateral axis of the pelvis, so their relative rotations leave that axis alone |
| `LandmarkPose.Convert` | core/src/posecap_core/landmark_pose.py:53-71 | conversion succeeds exactly on readable landmarks with stable frames, and emits each joint's rotation relative to its parent and nothing else |
| `LandmarkPose.ReceivedExact` | core/src/posecap_core/landmark_pose.py:183-189 | a rotation matrix survives the axis-angle form exactly when it is outside the cut-off or no rotation at all; otherwise it arrives as no rotation |
| `LandmarkPose.ForwardKinematics` | core/src/posecap_core/landmark_pose.py:53-71 | composing the emitted rotations along any path of the joint tree gives back the global frame of its last joint |
| `BodyChains.LegRows` | core/src/posecap_core/landmark_pose.py:24-46 | rows 0, 3, 6 and 9 carry left hip, knee, ankle and foot relative to the frame above, rows 1, 4, 7 and 10 the right ones |
| `BodyChains.SpineRows` | core/src/posecap_core/landmark_pose.py:24-46 | rows 2, 5, 8, 11 and 14 carry spine, neck and head, and the global orientation the pelvis |
| `BodyChains.ArmRows` | core/src/posecap_core/landmark_pose.py:24-46 | rows 12, 15, 17 and 19 carry left collar, shoulder, elbow and wrist, rows 13, 16, 18 and 20 the right ones |
| `BodyChains.LegRecovered` | core/src/posecap_core/landmark_pose.py:53-71 | composing those rows below the global orientation gives hip, knee, ankle and foot of that side, when the axis-angle form carries them |
| `BodyChains.SpineRecovered` | core/src/posecap_core/landmark_pose.py:53-71 | composing the spine rows gives pelvis, chest, neck and head |
| `BodyChains.ArmRecovered` | core/src/posecap_core/landmark_pose.py:53-71 | composing collar, shoulder, elbow and wrist rows below the upper spine gives the frames of that arm |
| `BodyChains.NothingElse` | core/src/posecap_core/landmark_pose.py:61-71 | hands, jaw, position, shape and expression are zero |
| `LandmarkPose.RecoveredExactly` | core/src/posecap_core/landmark_pose.py:53-71 | below a recovered parent a joint is recovered exactly when its rotation is outside the cut-off or none; otherwise it keeps the parent's orientation |
| `LandmarkPose.SharedFramesStayStill` | core/src/posecap_core/landmark_pose.py:84-116 | joints that share their parent's frame are emitted as exactly zero |
| `LineSplit.SplitComplete` | addon/posecap_addon/stream_client.py:185-195 | splitting loses nothing: framing the complete lines and appending the rest gives the stream back |
| `LineSplit.SplitUnique` | engine/src/posecap_engine/stream_server.py:75 | framed newline-free lines are split back into exactly themselves |
| `LineSplit.ScanAppend` | addon/posecap_addon/stream_client.py:160 | reading on from the bytes kept back is reading on from the whole stream |
| `LineSplit.CutAtLastNewline` | addon/posecap_addon/stream_client.py:185-195 | the cut at the last newline takes the newest line, counts the older ones and leaves the rest |
| `StreamClient.TcpPoseStreamClient.TakeNewestCompleteLine` | addon/posecap_addon/stream_client.py:185-195 | returns the last complete line, keeps exactly the bytes after it, and counts the other lines as dropped |
| `StreamClient.TcpPoseStreamClient.DrainAvailable` | addon/posecap_addon/stream_client.py:168-183 | appends exactly the bytes received before the first receive that would block, fails or ends, reports whether the stream ended, and leaves the socket blocking with the rest of the script ahead |
| `StreamClient.QueuedExactly` | addon/posecap_addon/stream_client.py:168-183 | what is queued are all chunks up to the first receive that would block, fails or finds the end; only after a block the stream goes on |
| `StreamClient.TcpPoseStreamClient.GatherWake` | addon/posecap_addon/stream_client.py:154-160 | one wake waits for the first bytes and takes everything available behind them; it reports a connection that is gone instead |
| `StreamClient.TcpPoseStreamClient.PublishNewest` | addon/posecap_addon/stream_client.py:161-164 | the newest complete line is decoded and published, older ones are counted as dropped, the bytes after the last newline are kept; false exactly when that line does not decode |
| `StreamClient.TcpPoseStreamClient.ReadFrames` | addon/posecap_addon/stream_client.py:141-166 | goes through the wakes that the connection's script determines, all of them unless it is stopped first or a newest line does not decode; publishes the decoded newest line of every wake that completes one, counts every other line as dropped and keeps the bytes after the last newline |
| `StreamClient.WakesDeliver` | addon/posecap_addon/stream_client.py:141-183 | the wakes of a connection together take exactly the bytes it delivers |
| `StreamClient.NewestIsSubsequence` | addon/posecap_addon/stream_client.py:141-166 | whatever the wakes, the lines handed on are an increasing subsequence of the complete lines that ends in the last |
| `StreamClient.NothingDropped` | addon/posecap_addon/stream_client.py:191-194 | nothing is dropped exactly when no wake completes more than one line |
| `StreamClient.ChunkingIrrelevant` | addon/posecap_addon/stream_client.py:141-195 | the newest line depends only on the bytes received, not on chunks and wakes |
| `StreamClient.ScriptsIrrelevant` | addon/posecap_addon/stream_client.py:141-195 | two connections that deliver the same bytes, however cut and however often nothing was queued, end with the same newest line, the same bytes kept back and the same number of lines handled |
| `LatestSlot.EveryInterleavingIsSafe` | addon/posecap_addon/stream_client.py:197-203 | under every interleaving a put never finds the slot full, at most one frame is taken out before it, the main thread sees increasing frames, and each published frame is consumed, overwritten or in the slot and only one of these |
| `LatestSlot.NewestIsReachable` | addon/posecap_addon/stream_client.py:81-86 | between two publications the main thread has or can get the newest frame |
| `LatestSlot.ReaderProgress` | addon/posecap_addon/stream_client.py:197-203 | the emptying loop ends whatever the main thread does: four steps of the reader complete a put |
| `LatestSlot.OneSlotQueue.PutLatest` | addon/posecap_addon/stream_client.py:197-203 | the loop under any interference ends with the value in the slot, and the old item went to the main thread or nowhere |
| `Codec.Floats` | contracts/src/posecap_contracts/codec.py:123-135 | the loop accepts exactly a list of the right number of numbers and returns them as reals |
| `Codec.DecodeExactly` | contracts/src/posecap_contracts/codec.py:53-146 | the decoder accepts exactly the wire schema, and what it returns is well formed |
| `Codec.DecodesMembers` | contracts/src/posecap_contracts/codec.py:53-146 | a decoded frame holds what the members of its names hold, array by array and number by number, with the lengths of the contract |
| `Codec.EncodesMembers` | contracts/src/posecap_contracts/codec.py:23-50 | the encoder refuses exactly a status that does not fit the presence of a pose; an encoded frame holds the frame's values under their own names |
| `Codec.RoundTrip` | contracts/src/posecap_contracts/codec.py:23-97 | what the encoder accepts decodes exactly when schema version, status and array lengths are right, and then to the frame with its numbers as reals |
| `Codec.EncoderEmitsRejectedLines` | contracts/src/posecap_contracts/codec.py:23-30 | the promise that the encoder never emits a line the decoder rejects fails for a wrong schema version, for an unknown status without a pose and for wrong lengths |
| `Codec.SecondHopIsLossless` | contracts/src/posecap_contracts/codec.py:53-97 | whatever decodes can be encoded again and comes back unchanged |
| `Delivery.WriteFrames` | engine/src/posecap_engine/stream_server.py:63-80 | the stream holds the framed lines of the frames before the first that cannot be sent and at most the beginning of that one; the ending says why it stopped |
| `Delivery.SentExactly` | engine/src/posecap_engine/stream_server.py:63-80 | a frame is sent exactly when it and all before it meet no gone parent or client, can be encoded and are written; then as its text and a line feed, and of a failed write the bytes that were written |
| `Delivery.EndsExactly` | engine/src/posecap_engine/stream_server.py:63-80 | the server finishes after the last frame, and otherwise stops for a gone parent, a gone client, a frame that cannot be encoded or a failed write, in this order |
| `Delivery.PrefixLines` | engine/src/posecap_engine/stream_server.py:75 | any beginning of what was sent holds the beginning of the sent lines, whole |
| `Delivery.EndToEnd` | addon/posecap_addon/stream_client.py:141-203 | whatever part of the stream arrived in whatever chunks: every line the reader takes decodes to the produced frame at its place, the places ascend, the last is the last frame that arrived whole, and nothing whole is missing once everything arrived |
| `Delivery.PublishedFrames` | addon/posecap_addon/stream_client.py:164 | the frames a reader of the stream publishes are exactly the produced ones at those ascending places, and no line ends its run |
| `Delivery.ReadStream` | addon/posecap_addon/stream_client.py:141-203 | a client reading what the server sent never stops over a line, publishes the produced frames at the places its wakes pick, and once everything was delivered and read its last frame is the last one sent |
| `Delivery.ProducedToConsumed` | addon/posecap_addon/stream_client.py:81-86 | under every interleaving of reader and main thread the frames taken from the slot are produced frames at ascending places, and once the reader is done the main thread has or can get the last frame that arrived whole |
| `Lifecycle.EveryRunIsSafe` | addon/posecap_addon/stream_session.py:129-186 | in every run of one scene recording implies the flag, stopped or starting implies it is off, the flag implies a live session, a session is live exactly outside the stopped state, at most one is, and it owns the only engine not told to stop |
| `Lifecycle.TickKeeps` | addon/posecap_addon/stream_session.py:129-162 | one tick keeps the record, ownership and warning invariants for every behaviour of engine, client, target and apply call |
| `Lifecycle.StartKeeps` | addon/posecap_addon/stream_operators.py:70-165 | a start keeps the record, ownership and warning invariants wherever it fails |
| `Lifecycle.StopKeeps` | addon/posecap_addon/stream_operators.py:168-179 | a stop keeps the record, ownership and warning invariants |
| `Lifecycle.StartClickedExactly` | addon/posecap_addon/stream_operators.py:70-165 | a start from the stopped state leaves the flag off; finished, the new session is active with the only running engine; failed, all is stopped, an engine it launched too; from any other state nothing happens |
| `Lifecycle.StopClickedExactly` | addon/posecap_addon/stream_operators.py:168-179 | a stop leaves state, flag and playback off and the active session stopped with its timer and engine, and touches nothing else |
| `Lifecycle.RecordClickedExactly` | addon/posecap_addon/recording.py:53-59 | while streaming, record sets the flag, the state and playback, and changes no session; otherwise nothing |
| `Lifecycle.StopRecordingClickedExactly` | addon/posecap_addon/recording.py:62-68 | while recording, ending it clears the flag, returns to streaming and pauses playback, and no key is added until recording is asked for again; otherwise nothing |
| `Lifecycle.TickedExactly` | addon/posecap_addon/stream_session.py:129-162 | a tick of the running session writes once exactly when it gets that far, keys it exactly with the flag on, and ends the session exactly for a dead engine, a client error or an apply call that raises |
| `Lifecycle.TickedLifecycle` | addon/posecap_addon/stream_session.py:91-150 | a tick that ends nothing leaves the state reconnecting, streaming, warning or recovered as connection, frame and target say |
| `Lifecycle.StopIsIdempotent` | addon/posecap_addon/stream_session.py:175-186 | stopping a session twice is stopping it once |
| `Lifecycle.StoppedForGood` | addon/posecap_addon/stream_session.py:129-131 | a stopped session asks for no further tick and never writes a pose or a key again, whatever happens |
| `Lifecycle.StartClearsRecording` | addon/posecap_addon/stream_operators.py:84-90 | every start from the stopped state leaves the flag off, whatever its outcome |
| `Lifecycle.NoKeysUnasked` | addon/posecap_addon/stream_operators.py:85-88 | from any state with the flag off, through any number of streams, no key is written until recording is asked for |
| `Lifecycle.SilentRecordingReachable` | addon/posecap_addon/stream_session.py:96-102 | a run of five events, with a reconnect during a recording, in which the state says streaming while the flag is on |
| `Lifecycle.SilentRecordingExactly` | addon/posecap_addon/stream_session.py:96-102 | streaming with the flag on is entered exactly by a tick of the live session that finds a frame and the client connected after a reconnect began while recording |
| `Lifecycle.SilentRecordingCannotBeStopped` | addon/posecap_addon/recording.py:38-43 | while the state says streaming with the flag on, the operator that ends recording is switched off and frames go on being keyed |
| `Lifecycle.WarningRecovers` | addon/posecap_addon/stream_operators.py:264-277 | a warning ends with the first applied frame, in the state the flag asks for |
| `Lifecycle.PlayingIsIdempotent` | addon/posecap_addon/recording.py:82-95 | the guarded toggle always reaches the requested playback state |
| `StreamSession.Addon.StopSession` | addon/posecap_addon/stream_session.py:175-186 | the object method stops session, timer and engine and clears the flag once, as the machine says |
| `StreamSession.Addon.StopActiveSession` | addon/posecap_addon/stream_session.py:49-55 | stops and forgets the active session |
| `StreamSession.Addon.LifecycleLatest` | addon/posecap_addon/stream_session.py:91-103 | the first frame leaves the starting state, a frame on a connected client the reconnecting one |
| `StreamSession.Addon.HandleApplyRecovery` | addon/posecap_addon/stream_operators.py:269-277 | leaves a warning for the state the flag asks for and any other state alone |
| `StreamSession.Addon.Tick` | addon/posecap_addon/stream_session.py:129-162 | the timer callback moves the objects as the machine says and asks for another tick exactly when the machine does |
| `StreamSession.Addon.StartLiveStream` | addon/posecap_addon/stream_operators.py:70-165 | a start moves the objects as the machine says and only ever adds fresh sessions and engines |
| `StreamSession.Addon.StopLiveStream` | addon/posecap_addon/stream_operators.py:168-179 | a stop moves the objects as the machine says: session, engine, flag, state and playback |
| `StreamSession.Addon.StartRecording` | addon/posecap_addon/recording.py:53-59 | starting a recording sets the flag and the state and starts playback |
| `StreamSession.Addon.StopRecording` | addon/posecap_addon/recording.py:62-68 | ending a recording clears the flag, returns to streaming and pauses playback |
| `StreamSession.Addon.SetAnimationPlaying` | addon/posecap_addon/recording.py:82-95 | playback ends in the requested state |
| `StreamSession.RunAddon` | addon/posecap_addon/stream_session.py:129-186 | a whole run of the objects ends in the world the machine reaches, and in a safe one |
| `LiveSession.StepApplies` | addon/posecap_addon/apply_timer.py:111-141 | a well-shaped pose with an available target is always applied, so the frame alone decides which case of the machine a tick is |
| `LiveSession.LiveApply.Tick` | addon/posecap_addon/stream_session.py:58-162 | session, timer and the armature its setting names at that moment: the addon moves as the machine says, the timer takes the frame as its step function says, and bones and keys change exactly when the tick gets as far as writing, then as the plan of that frame says, keyed just when the flag is on |
| `LiveSession.LiveApply.Handle` | addon/posecap_addon/stream_session.py:175-186 | whatever else happens, the addon moves as the machine says and a session it stops has its timer stopped |
| `LiveSession.LiveApply.Run` | addon/posecap_addon/stream_session.py:129-186 | over any run of own ticks and other events, the target setting changing at will, the addon ends as the machine says; once the session is stopped no bone, location or key of any armature changes, and with the flag off no key is added until recording is asked for |
| `Scenes.StageSafeExactly` | addon/posecap_addon/stream_operators.py:70-92 | with settings per scene a step keeps every scene's invariants exactly when it is not a start while another scene is not stopped |
| `Scenes.ScenesSafeExactly` | addon/posecap_addon/stream_session.py:49-55 | over any number of scenes and any run, every scene keeps its invariants throughout exactly when no stream is started in one scene while another is not stopped |
| `Scenes.SecondSceneDisplacesFirst` | addon/posecap_addon/stream_properties.py:63-65 | a run of three events after which the first scene says streaming while its session has been stopped by a start in the second |
| `Selections.JoinSplit` | packaging/linux_installer/component_lifecycle.py:66-67 | splitting at commas and joining again gives the text back |
| `Selections.ParseExactly` | packaging/linux_installer/component_lifecycle.py:64-69 | parsing accepts exactly the four spellings and yields base followed by the chosen components |
| `Selections.ParseJoin` | packaging/linux_installer/bootstrap_install.py:79-84 | a selection spelled out is parsed as itself |
| `ComponentLifecycle.OwnersAreDisjoint` | packaging/linux_installer/component_lifecycle.py:29-57 | no file has two owners, and nobody owns the retained downloads |
| `ComponentLifecycle.ManifestClearedLast` | packaging/linux_installer/component_lifecycle.py:44-54 | the backend manifest goes with the last owned path and not before |
| `ComponentLifecycle.BeginRemovesOnlyDeselected` | packaging/linux_installer/component_lifecycle.py:144-158 | whatever a begin removes before it ends or crashes belongs to an installed, deselected component: nothing retained, of the base, or selected |
| `ComponentLifecycle.InterruptedDeselection` | packaging/linux_installer/component_lifecycle.py:103-158 | however many begins without the component crash and wherever, the first that completes, at whatever selection without it and version, leaves no file of a component whose manifest was there |
| `ComponentLifecycle.FinishedExactly` | packaging/linux_installer/component_lifecycle.py:133-158 | a deselection is finished by every history of interrupted begins and whichever begin completes, at any selection without the component and any version, exactly when the manifest is there or there is nothing to remove |
| `ComponentLifecycle.AbortedInstall` | packaging/linux_installer/component_lifecycle.py:133-158 | an optional install aborted before its manifest is written leaves a state whose deselection is not finished by every history |
| `ComponentLifecycle.BeginRecords` | packaging/linux_installer/component_lifecycle.py:109-142 | a begin records exactly the selection, all of it installing |
| `ComponentLifecycle.BeginEntries` | packaging/linux_installer/component_lifecycle.py:103-142 | each entry of a begun inventory is installing at the version, its manifest pending, or not applicable for the base, and the version before is remembered |
| `ComponentLifecycle.BeginKeepsGood` | packaging/linux_installer/component_lifecycle.py:103-142 | however it ends, the stored inventory stays good and is never published as ready |
| `ComponentLifecycle.BaseReadyKeepsGood` | packaging/linux_installer/component_lifecycle.py:161-165 | marking the base ready publishes nothing and keeps the selection |
| `ComponentLifecycle.BaseReadySucceeds` | packaging/linux_installer/component_lifecycle.py:161-165 | marking the base ready never fails on an inventory in progress that a begin stored |
| `ComponentLifecycle.BaseReadyExactly` | packaging/linux_installer/component_lifecycle.py:161-165 | marking the base ready changes the state of the base's entry and nothing else |
| `ComponentLifecycle.CompleteExactly` | packaging/linux_installer/component_lifecycle.py:168-188 | completing is refused exactly for another selection, nothing in progress or a missing manifest; accepted, everything is ready and every optional component registered |
| `ComponentLifecycle.CompletedEntries` | packaging/linux_installer/component_lifecycle.py:168-188 | completing makes every entry ready and every manifest but the base's registered, and forgets the version before |
| `ComponentLifecycle.ResolvedSelection` | packaging/linux_installer/bootstrap_install.py:79-100 | a setup runs with the selection asked for; over nothing with base and mediapipe, and pear with a graphics card; an unreadable inventory is refused |
| `ComponentLifecycle.RepairReselects` | packaging/linux_installer/bootstrap_install.py:79-85 | a repair without components selects exactly what the inventory records |
| `Setup.InstallDir.RemoveOwned` | packaging/linux_installer/component_lifecycle.py:149-150 | the owned paths are removed one after the other, up to the crash |
| `Setup.InstallDir.Begin` | packaging/linux_installer/component_lifecycle.py:103-158 | the steps with evidence looked up in turn do exactly the recorded actions up to the crash |
| `Setup.InstallDir.BaseReady` | packaging/linux_installer/component_lifecycle.py:161-165 | refused or crashed, the stored inventory is unchanged |
| `Setup.InstallDir.Complete` | packaging/linux_installer/component_lifecycle.py:168-188 | a failed completion leaves the stored inventory unchanged |
| `Setup.BeginWrites` | packaging/linux_installer/component_lifecycle.py:103-142 | a begin that gets to act at all has stored the inventory of exactly the requested selection; refused or dead before, it has stored nothing |
| `Setup.InstallDir.BootstrapInstall` | packaging/linux_installer/bootstrap_install.py:37-76 | the disk and the exit are those of the specification; setup succeeds exactly when nothing fails, and then the inventory is published for the requested selection; the recorded selection is the requested one exactly when the begin got to act, and otherwise the inventory is the old one |
| `Setup.SuccessExactly` | packaging/linux_installer/bootstrap_install.py:37-76 | a setup that succeeds ran the base and every selected component successfully, leaves the files of the last of them with the marker, and has published the requested selection |
| `Setup.MarkerMeansSuccess` | packaging/linux_installer/bootstrap_install.py:45-60 | only a setup that succeeds puts the marker on disk |
| `Setup.OneMoreCall` | packaging/linux_installer/bootstrap_install.py:37-85 | a run is one setup after the other, and one more call records its selection exactly when that is valid, the version is known and the process lives to its first action |
| `Setup.RunSetups` | packaging/linux_installer/bootstrap_install.py:37-85 | over any sequence of setups that fail or die, from any good inventory or none: it stays good and records exactly the selection of the last setup whose begin got to act, a repair selects that again, and an unreadable inventory is never replaced |
| `KeyframeManager.FCurve.RetainPoints` | addon/posecap_addon/keyframe_manager.py:61-68 | the back-to-front loop leaves exactly the smoothed keys on keep frames in order, and the count adds up |
| `KeyframeManager.RetainOnly` | addon/posecap_addon/keyframe_manager.py:53-69 | over all curves: each is filtered and smoothed, and deleted plus surviving keys equal the original total |
| `KeyframeManager.KeptPositions` | addon/posecap_addon/keyframe_manager.py:62-68 | a key is kept exactly when its rounded frame is a keep frame |
| `KeyframeManager.KeptInOrder` | addon/posecap_addon/keyframe_manager.py:62-68 | the kept keys are those of these positions in their order, with frame and value as they were and smooth interpolation with automatic handles |
| `KeyframeManager.KeptNear` | addon/posecap_addon/keyframe_manager.py:62-68 | a kept key lies within half a frame of a keep frame |
| `KeyframeManager.NearIsKept` | addon/posecap_addon/keyframe_manager.py:62-68 | a key less than half a frame from a keep frame is kept |
| `KeyframeManager.KeptTwice` | addon/posecap_addon/keyframe_manager.py:53-69 | retaining twice is retaining once |
| `KeyframeManager.Scene.SetKeyPoseFrames` | addon/posecap_addon/keyframe_manager.py:30-39 | clearing and re-adding leaves the ordered, deduplicated frames |
| `KeyframeManager.AscendingUnique` | addon/posecap_addon/keyframe_manager.py:36 | there is only one strictly ascending list with given members, so the model's ordering is the library's sort of the set |
| `KeyframeManager.EditExactly` | addon/posecap_addon/keyframe_manager.py:170-195 | marking adds exactly the given frames, clearing removes all, selecting a row changes the index only, and marking and clearing leave the index |
| `KeyframeManager.EveryEditKeepsOrder` | addon/posecap_addon/keyframe_manager.py:170-195 | the list is strictly ascending after every sequence of edits |
| `KeyframeManager.RemovalSelectsNeighbour` | addon/posecap_addon/keyframe_manager.py:177-185 | removal takes out exactly the selected frame and leaves the index on a row, or at zero when the list is empty |
| `KeyframeManager.SelectionKeptExactly` | addon/posecap_addon/keyframe_manager.py:170-195 | with the index on a row, or zero on an empty list, an edit leaves it so exactly when it is neither a clear with a later row than the first selected nor the selection of a row outside the list |
| `KeyframeManager.SelectionKeptThroughout` | addon/posecap_addon/keyframe_manager.py:170-195 | over any run of edits the index stays on a row throughout exactly when no edit is a clear with a later row than the first selected or the selection of a row outside the list |
| `KeyframeManager.SelectionLost` | addon/posecap_addon/keyframe_manager.py:177-185 | a run of three edits, a clear, a mark and a refused removal, after which one pose is listed and the index is past it |
| `KeyframeManager.RemovalRefused` | addon/posecap_addon/keyframe_manager.py:181-182 | with the index outside the list a removal changes nothing, the index included |
| `KeyframeManager.MarkingTwice` | addon/posecap_addon/keyframe_manager.py:188-195 | marking frames that are marked changes nothing |
| `KeyframeManager.Scene.RemoveSelectedPose` | addon/posecap_addon/keyframe_manager.py:177-185 | removes the selected pose, or nothing when the index is outside the list |
| `KeyframeManager.Scene.AddAllActive` | addon/posecap_addon/keyframe_manager.py:188-195 | marks the keyed frames, or nothing without a target |
| `KeyframeManager.KeyedFrames` | addon/posecap_addon/keyframe_manager.py:42-50 | the rounded frames of the keys of the rotation curves, and no others |
| `KeyframeManager.RotationCurves` | addon/posecap_addon/keyframe_manager.py:42-50 | a curve holds rotations exactly when its path ends in the name of the rotation property |

## Left out

- Floating-point rounding, NaN and infinities, and 32-bit casts: every result is over exact reals.
- Blender's own objects, panels, property tables and messages: bones keep a rotation, a rotation mode and a count of keys; status texts are not modelled.
- LandmarkPose.Convert: the loop over joint names is over positions in the joint table; the check that numbers are finite has no counterpart over the reals.
- Forward kinematics holds below the cut-off only up to what `LandmarkPose.RecoveredExactly` says, because a rotation that small is emitted as none.
- Neutral rotations of a bound plan are a map from target to rotation rather than a list of pairs.
- Sockets, threads, `select`, timeouts, subprocesses and logging: a connection is a script of receive results, queue operations are atomic, and connecting, retrying, starting and closing the client are not modelled.
- StreamClient.TcpPoseStreamClient.ReadFrames: the stop request is counted in wakes rather than set by another thread.
- Delivery.WriteFrames: the watchdog, the check for a vanished client and a failing write are given per frame.
- JSON text, regular expressions, archives and hashes: JSON is a value tree.
- StreamSession.RunAddon: the objects belong to one scene, as do the theorems of `Lifecycle`; several scenes are a state machine only (`Scenes`).
- LiveSession.LiveApply.Tick: frames are well shaped, as the decoder leaves them, and an apply call raises, if it does, after its last write.
- Lifecycle.StartKeeps: on a failed start only the engine is claimed to be stopped; what becomes of the client and the pose writer is not.
- Lifecycle.EveryRunIsSafe: unregistering the addon, and writing its properties from scripts past the poll gates, are not modelled.
- The matrix retargeting writer, orientation conventions beyond the flip, preset and mapping tables, backend discovery, and the MediaPipe, PEAR, OpenCV and torch adapters: foreign calls or easy members.
- Inventories written by other programs that pass the schema check but lack fields this installer always writes; the temporary file of the atomic replace; symbolic links, which make the lexical check of the install root incomplete; and directory removals that fail half way.
- Setup.InstallDir.BootstrapInstall: what the three component installers do to the disk is arbitrary, so nothing is claimed about files between the begin and the completion beyond the manifests.
- Baking before keys are retained is Blender's and is not modelled.
