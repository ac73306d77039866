# DistanceGrab in Dafny

A model of the distance-grab interaction of the DistanceGrab VR demo (Unity with the
SteamVR interaction system). A hand points at a remote object and starts a grab. A free
object then flies towards the hand until SteamVR's ordinary grab takes it. An object
with a `DistanceLinearDrive` is instead tied to a rail between two anchors. While it is
held, its position on the rail follows the hand. When it is let go, it drifts on with a
damped velocity.

Modules, one per script plus the engine surface they use:

- `Unity` (`unity.dfy`): `Vec3` over reals, `Mathf.Clamp01`, `Mathf.Lerp` and
  `Vector3.Lerp` (both clamp their parameter to [0, 1]), the `Vector3.Normalize`
  cut-off, and a `Transform` class holding a position.
- `LinearDrive` (`linear_drive.dfy`): the `DistanceLinearDrive` class. Its fields are the
  source's. The five-slot `mappingChangeSamples` buffer is an `array<real>`. A ghost
  history `samplesSinceAttach` records every velocity sample written since the last
  attachment, and `Valid()` ties the slots to it. This module also holds the pure
  projection `CalculateLinearMapping` and the lemmas about projection, sums, means,
  the ring buffer and damping.
- `Grabbable` (`grabbable_object.dfy`): the `DistanceGrabbableObject` class, with its
  one-tick highlight latch and the `usesLinearMapping` classification.
- `GrabHand` (`grab_hand.dfy`): the `DistanceGrabHand` class. `FixedUpdate` is one tick
  of the state machine. It calls the drive and object methods, and returns the calls
  it made as a list of `Event`s, including the hand-over to SteamVR (`AttachObject`).
  Three of the source's four branches are helper methods with their own contracts:
  `PullTowardsHand` (the lerp), `Detach` (the release) and `Detect` (detection). The
  fourth, the held rail object, is a single call to the drive's `DistanceHandUpdate`
  inside `FixedUpdate`.
- Each tick's frame is `TickFootprint`: the flying object's transform, the held rail
  object's drive, the drive a release hands its samples to, or the object that
  detection hit. Nothing outside it changes.

The engine enters as parameters:

- `Time.time` and `Time.deltaTime` are parameters.
- The sphere cast becomes a `CastHit` input: no hit, or a hit carrying the object's
  `DistanceGrabbableObject` component. A null component stands for a collider without
  one, which makes the source throw a `NullReferenceException`.
- `GetGrabStarting`, `GetGrabEnding` and `currentAttachedObject` become booleans.
- `Vector3.Distance` is a function parameter `distance`. It needs a square root, which
  reals in Dafny do not provide. The "never moves away" property is therefore stated
  with squared magnitudes, which do not depend on that parameter.

Points where the code behaves otherwise than one might expect, and which the model
keeps as the code has them:

- The highlight is requested only for a hit whose `isDistGrabbable` is true
  (`DistanceGrabHand.cs:93-94`). It is not requested for every hit.
- `grabbableObject` is assigned at every eligible hit, attached or not
  (`DistanceGrabHand.cs:96`). The object stays referenced after a tick that only
  highlights it. So `isAttached ==> grabbableObject != null` holds, and the converse
  does not.
- A release during the free lerp does not call the drive. A release of a rail object
  calls `OnDetachment`. The choice depends on `usesLinearMapping`.
- Nothing guards against a zero journey length or a zero-length rail. Both are
  preconditions here.
- `CalculateLinearMapping` gives exactly 0 for a rail of non-zero length at most
  `Vector3.kEpsilon` (1e-5), because `Normalize` then returns the zero vector. A rail
  of length zero would make the source compute 0 / 0. That case is excluded by a
  precondition. The round-trip lemmas therefore assume a longer rail (`IsLongRail`).
- `Start` feeds the drive's own position through `UpdateLinearMapping`
  (`DistanceLinearDrive.cs:41-48`), after setting the offset to the inspector
  value. So the first value is Clamp01 of the inspector value plus the object's projection.

## Model

| member | source | states |
|---|---|---|
| `Unity.Clamp01` | DistanceGrab/Assets/Scripts/DistanceLinearDrive.cs:86 | the result lies in [0, 1], is the input when that lies in [0, 1], and is the nearer end otherwise |
| `Unity.Lerp` | DistanceGrab/Assets/Scripts/DistanceLinearDrive.cs:114 | Mathf.Lerp's result lies between its two end values whatever the parameter; a parameter of at most 0 gives the first value and one of at least 1 gives the second |
| `Unity.LerpVec` | DistanceGrab/Assets/Scripts/DistanceGrabHand.cs:62 | the definition of Vector3.Lerp, with the parameter clamped. A parameter of at most 0 gives the start and one of at least 1 gives the target. LerpVecRemaining and LerpVecApproaches state the rest |
| `Unity.LerpVecRemaining` | DistanceGrab/Assets/Scripts/DistanceGrabHand.cs:62 | after one Vector3.Lerp step the object's difference from the hand is (1 - clamped t) times the old difference |
| `Unity.LerpVecApproaches` | DistanceGrab/Assets/Scripts/DistanceGrabHand.cs:59-62 | one lerp step never increases the squared distance from the object to the hand |
| `Unity.ScaleShrinks` | DistanceGrab/Assets/Scripts/DistanceGrabHand.cs:62 | scaling a vector by a factor in [0, 1] does not lengthen it |
| `Unity.SqrMagnitudeScale` | DistanceGrab/Assets/Scripts/DistanceGrabHand.cs:62 | scaling by k scales the squared length by k squared |
| `LinearDrive.CalculateLinearMapping` | DistanceGrab/Assets/Scripts/DistanceLinearDrive.cs:97-106 | the definition of the projection. The start anchor projects to 0, and so does every point when the rail is at most Vector3.kEpsilon long. The four Projection lemmas below state the round trip |
| `LinearDrive.ProjectionOfRailPoint` | DistanceGrab/Assets/Scripts/DistanceLinearDrive.cs:97-106 | the point start + p (end - start) projects to p, for any p and a rail longer than Vector3.kEpsilon |
| `LinearDrive.ProjectionOfLerp` | DistanceGrab/Assets/Scripts/DistanceLinearDrive.cs:93-106 | round trip: projecting Vector3.Lerp(start, end, p) gives p for every p in [0, 1] |
| `LinearDrive.ProjectionOfAnchors` | DistanceGrab/Assets/Scripts/DistanceLinearDrive.cs:97-106 | the start anchor projects to 0 and the end anchor to 1 |
| `LinearDrive.ProjectionIgnoresPerpendicular` | DistanceGrab/Assets/Scripts/DistanceLinearDrive.cs:99-105 | moving the point at right angles to the rail leaves its projection unchanged |
| `LinearDrive.SampleVelocity` | DistanceGrab/Assets/Scripts/DistanceLinearDrive.cs:88 | the definition of the velocity sample, (1 / deltaTime)(new - old). It is zero when the value stayed put and has the sign of the change otherwise |
| `LinearDrive.Window` | DistanceGrab/Assets/Scripts/DistanceLinearDrive.cs:72 | the window averaged at release is the last min(count, 5) samples, a suffix of the history |
| `LinearDrive.SumConcat` | DistanceGrab/Assets/Scripts/DistanceLinearDrive.cs:75-78 | the sum the loop accumulates splits over a concatenation |
| `LinearDrive.SumBounds` | DistanceGrab/Assets/Scripts/DistanceLinearDrive.cs:75-78 | n samples in [lo, hi] sum to between n·lo and n·hi |
| `LinearDrive.MeanBounds` | DistanceGrab/Assets/Scripts/DistanceLinearDrive.cs:68-81 | the mean of samples that lie in [lo, hi] lies in [lo, hi], so the drift velocity set at release is within the range of the averaged samples |
| `LinearDrive.RingWrite` | DistanceGrab/Assets/Scripts/DistanceLinearDrive.cs:88-89 | writing sample v at slot count mod 5 and counting it keeps every one of the last five samples in slot (its index mod 5) |
| `LinearDrive.RingShort` | DistanceGrab/Assets/Scripts/DistanceLinearDrive.cs:72-78 | before the buffer wraps, its first count slots are exactly the samples since attachment |
| `LinearDrive.RingRotated` | DistanceGrab/Assets/Scripts/DistanceLinearDrive.cs:72-78 | once the buffer has wrapped, the five slots are the last five samples rotated by count mod 5 |
| `LinearDrive.RingSum` | DistanceGrab/Assets/Scripts/DistanceLinearDrive.cs:68-81 | the slots the source averages add up to the sum of the last min(count, 5) samples |
| `LinearDrive.DampedRate` | DistanceGrab/Assets/Scripts/DistanceLinearDrive.cs:114 | the definition of the damping. Mathf.Lerp(rate, 0, k·dt) keeps the fraction 1 - Clamp01(k·dt) of the rate, all of it when k·dt is at most 0. DampingStep states its bounds |
| `LinearDrive.DampingStep` | DistanceGrab/Assets/Scripts/DistanceLinearDrive.cs:114 | one damping step never increases the drift speed and never reverses it. A positive step strictly slows a drift that is not zero. A step of at least 1 stops it |
| `LinearDrive.DriftNeverGrowsOrFlips` | DistanceGrab/Assets/Scripts/DistanceLinearDrive.cs:109-115 | after any sequence of momentum Updates the drift speed is at most the released one and keeps its sign |
| `LinearDrive.DistanceLinearDrive.constructor` | DistanceGrab/Assets/Scripts/DistanceLinearDrive.cs:35-49 | Awake and Start: offset = inspector value and rate 0. Without repositionGameObject the five slots are zero, the history is empty, the count is 0 and the object stays put. With it, one UpdateLinearMapping of the object's own position runs: the value is clamped, slot 0 and the history hold that one sample, the other slots are zero, the count is 1 and the object is on the rail
| `LinearDrive.DistanceLinearDrive.OnAttachment` | DistanceGrab/Assets/Scripts/DistanceLinearDrive.cs:51-56 | offset = value - projection(hand), sampleCount = 0, change rate = 0, history emptied. The value, prevMapping and the slots are unchanged |
| `LinearDrive.DistanceLinearDrive.DistanceHandUpdate` | DistanceGrab/Assets/Scripts/DistanceLinearDrive.cs:58-61 | the same as UpdateLinearMapping, with the hand's position |
| `LinearDrive.DistanceLinearDrive.OnDetachment` | DistanceGrab/Assets/Scripts/DistanceLinearDrive.cs:63-66 | only mappingChangeRate changes. It becomes the mean of the last min(count, 5) samples since attachment |
| `LinearDrive.DistanceLinearDrive.CalculateMappingChangeRate` | DistanceGrab/Assets/Scripts/DistanceLinearDrive.cs:68-81 | the rate is the mean of slots 0..min(count, 5) - 1, is also the mean of the last min(count, 5) samples since attachment, and is 0 when no sample was taken. Nothing else changes |
| `LinearDrive.DistanceLinearDrive.UpdateLinearMapping` | DistanceGrab/Assets/Scripts/DistanceLinearDrive.cs:83-95 | prevMapping = old value, and value = Clamp01(offset + projection), which lies in [0, 1]. Exactly slot (old count mod 5) now holds (new - old) / deltaTime and the other slots are unchanged. The count goes up by 1 and the sample is appended to the history. With repositionGameObject the object sits on the rail at the value, and on a rail longer than Vector3.kEpsilon that point projects back to the value |
| `LinearDrive.DistanceLinearDrive.MoveOntoRail` | DistanceGrab/Assets/Scripts/DistanceLinearDrive.cs:91-94 | the object is placed at Vector3.Lerp(start, end, value), a point that, on a rail longer than Vector3.kEpsilon, projects back to the value |
| `LinearDrive.DistanceLinearDrive.Update` | DistanceGrab/Assets/Scripts/DistanceLinearDrive.cs:109-122 | a no-op when maintainMomemntum is false or the rate is 0. Otherwise the rate is damped by Mathf.Lerp towards 0 and the value advances by rate·deltaTime, clamped to [0, 1]. In both cases the rate's magnitude does not grow and its sign does not flip |
| `LinearDrive.AttachThenHoldStill` | DistanceGrab/Assets/Scripts/DistanceLinearDrive.cs:51-89 | no jump on grab: OnAttachment followed by a held tick at the same hand point leaves a value that lay in [0, 1] unchanged, and records a zero velocity |
| `Grabbable.DistanceGrabbableObject.constructor` | DistanceGrab/Assets/Scripts/DistanceGrabbableObject.cs:7-17 | a new component is not highlighted and has usesLinearMapping at its default, false |
| `Grabbable.DistanceGrabbableObject.Start` | DistanceGrab/Assets/Scripts/DistanceGrabbableObject.cs:19-24 | usesLinearMapping becomes true when a DistanceLinearDrive is present and is otherwise left as it was, so from the default it equals "a drive is present" |
| `Grabbable.DistanceGrabbableObject.FixedUpdate` | DistanceGrab/Assets/Scripts/DistanceGrabbableObject.cs:26-37 | the renderer shows the flag's value before the tick and the flag is cleared |
| `Grabbable.DistanceGrabbableObject.HighlightObject` | DistanceGrab/Assets/Scripts/DistanceGrabbableObject.cs:39-42 | sets the flag and changes nothing else |
| `Grabbable.HighlightTwice` | DistanceGrab/Assets/Scripts/DistanceGrabbableObject.cs:39-42 | two HighlightObject calls have the effect of one |
| `Grabbable.TwoTicksWithoutHighlight` | DistanceGrab/Assets/Scripts/DistanceGrabbableObject.cs:26-37 | with no HighlightObject between two ticks, the second leaves the renderer disabled |
| `GrabHand.FractionOfJourney` | DistanceGrab/Assets/Scripts/DistanceGrabHand.cs:60-61 | the definition of the fraction of the journey covered. It is 0 at the pull's start, 1 when pullSpeed · elapsed time equals the journey length, and at least 1 once it reaches or passes a positive journey length, so the lerp lands the object on the hand. It is never negative for a positive journey, a non-negative speed and a later time |
| `GrabHand.DistanceGrabHand.constructor` | DistanceGrab/Assets/Scripts/DistanceGrabHand.cs:28-37 | a new hand is not attached and holds no object |
| `GrabHand.DistanceGrabHand.FixedUpdate` | DistanceGrab/Assets/Scripts/DistanceGrabHand.cs:44-127 | one tick, changing nothing outside `TickFootprint`. Detection and attachment happen only when the hand is not attached and SteamVR's hand holds nothing; while it holds something, nothing changes. The highlight is requested exactly for an eligible hit. An attach happens exactly for an eligible hit on an object with an Interactable while a grab starts. The lerp branch moves the object no farther from the hand and lands it there once the fraction reaches 1. The rail branch leaves the hand as it was and updates the drive as DistanceHandUpdate does: value, slot, count, history and reposition. A release leaves the object and its transform where they were, and calls OnDetachment exactly for a rail object. That call changes only the drive's rate. `isAttached ==> grabbableObject != null` is kept
| `GrabHand.DistanceGrabHand.PullTowardsHand` | DistanceGrab/Assets/Scripts/DistanceGrabHand.cs:58-70 | journeyLength = distance(pullStartPos, hand), and the object moves to Vector3.Lerp(its position, hand, fraction covered), no farther from the hand. Below stopLerpDistance the hand emits AttachObject and becomes unattached, otherwise it stays attached |
| `GrabHand.DistanceGrabHand.Detach` | DistanceGrab/Assets/Scripts/DistanceGrabHand.cs:79-86 | isAttached := false and grabbableObject := null, and the lerp bookkeeping is kept. Only the hand and, for a rail object, its drive may change, so the released object stays where it is (no snap-back). OnDetachment is called exactly when the object uses linear mapping. The drive's rate then is the mean of its last samples, and its value, prevMapping, offset, count and history are unchanged
| `GrabHand.DistanceGrabHand.Detect` | DistanceGrab/Assets/Scripts/DistanceGrabHand.cs:89-125 | Only an eligible hit's object may change. No hit, an ineligible hit, or a hit without the component (which raises NullReference) leaves the hand unchanged. An eligible hit is remembered and highlighted, and its position, renderer and usesLinearMapping stay as they were. It is attached exactly when the object has an Interactable and a grab starts. A free object records startTime, pullStartPos and journeyLength, and its drive, if any, is unchanged. A rail object's drive gets OnAttachment, its slots are unchanged, and the lerp fields are kept. Without an attach the hand's other fields and the drive are unchanged

## Left out

- BodyCollision.cs is not part of this model: a per-frame capsule resize with no state.
- The sphere cast itself is not modelled. That covers `pointer`, `searchSphereRadius`,
  `maxGrabDistance` and `grabbableObjectsMask`. Its result is an input.
- Vector3.Distance is taken as a parameter. No property of it is assumed.
- Floating point: reals replace floats. A zero journey length (DistanceGrabHand.cs:61)
  and a zero-length rail (DistanceLinearDrive.cs:105) divide by zero in the source.
  Both are preconditions. `Time.deltaTime` is required positive where the source
  divides by it.
- `sampleCount` is a `nat`. The C# `int` would wrap after 2^31 held ticks and then index
  out of bounds. That case is not modelled.
- The anchors `startPosition` and `endPosition` are fixed positions. Anchors that move
  at run time are not modelled.
- The order in which Unity runs the components' `FixedUpdate` and `Update` within a frame
  is not modelled. Each method is a separate step.
- Guards the code does not have are not modelled:
  - an exclusive owner that stops two hands from attaching to the same object in one tick;
  - a check for a destroyed object during a pull;
  - snapping a small drift velocity to zero.
- A collider is taken to carry its object's components. Colliders on child objects are
  not distinguished.
- `hand.AttachObject`, SteamVR's `Interactable` and the Hand component's own logic are
  outside the model. The calls into them are recorded as `Event`s, or read as flags.
- `DistanceGrabHand.Start` only looks up the Hand component, and is not modelled.
  The drive's unused `attachmentFlags` and `interactable` fields are left out too.
