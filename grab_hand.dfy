/** DistanceGrabHand: the per-hand state machine of the distance grab. Each
    physics tick it either drives the object it has pulled (fly it towards the
    hand, or feed the hand to the object's rail drive) until the grab ends, or,
    when it holds nothing, looks for an object along the pointer, highlights
    it and starts a pull when a grab begins. */
module GrabHand {
  import opened Unity
  import opened LinearDrive
  import opened Grabbable

  /** The result of Physics.SphereCast along the pointer: nothing, or a
      collider together with the DistanceGrabbableObject component it carries
      (null when it carries none). */
  datatype CastHit = NoHit | Hit(script: DistanceGrabbableObject?)

  /** What the engine supplies for one tick. */
  datatype HandInput = HandInput(
    position: Vec3,          // transform.position of the hand
    time: real,              // Time.time
    deltaTime: real,         // Time.deltaTime
    grabStarting: bool,      // hand.GetGrabStarting() != GrabTypes.None
    grabEnding: bool,        // hand.GetGrabEnding() != GrabTypes.None
    holdingObject: bool,     // hand.currentAttachedObject != null
    cast: CastHit)

  /** The calls one tick makes, in order. AttachObject is the hand-over to
      SteamVR's own grab (hand.AttachObject with GrabTypes.Grip);
      NullReference is the exception the source raises for a hit without a
      DistanceGrabbableObject component, which ends the tick. */
  datatype Event =
    | Highlighted(target: DistanceGrabbableObject)
    | AttachObject(target: DistanceGrabbableObject)
    | AttachedToDrive(drive: DistanceLinearDrive)
    | HandUpdated(drive: DistanceLinearDrive)
    | DetachedFromDrive(drive: DistanceLinearDrive)
    | NullReference

  /** The share of the journey covered: the distance the pull speed covers
      between the pull's start and now, over the journey length. */
  function FractionOfJourney(startTime: real, time: real, pullSpeed: real, journeyLength: real): (r: real)
    requires journeyLength != 0.0
    ensures time == startTime ==> r == 0.0
    ensures (time - startTime) * pullSpeed == journeyLength ==> r == 1.0
    ensures journeyLength > 0.0 && pullSpeed >= 0.0 && time >= startTime ==> r >= 0.0
    ensures journeyLength > 0.0 && (time - startTime) * pullSpeed >= journeyLength ==> r >= 1.0
  {
    var covered := (time - startTime) * pullSpeed;
    CoveredFacts(time - startTime, pullSpeed);
    QuotientFacts(covered, journeyLength);
    covered / journeyLength
  }

  lemma CoveredFacts(elapsed: real, pullSpeed: real)
    ensures elapsed == 0.0 ==> elapsed * pullSpeed == 0.0
    ensures elapsed >= 0.0 && pullSpeed >= 0.0 ==> elapsed * pullSpeed >= 0.0
  {
    if elapsed >= 0.0 && pullSpeed >= 0.0 {
      MulNonNegative(elapsed, pullSpeed);
    }
  }

  lemma QuotientFacts(n: real, d: real)
    requires d != 0.0
    ensures n == 0.0 ==> n / d == 0.0
    ensures n == d ==> n / d == 1.0
    ensures n >= 0.0 && d > 0.0 ==> n / d >= 0.0
    ensures d > 0.0 && n >= d ==> n / d >= 1.0
  {
  }

  /** The objects a hit may touch. */
  function HitFootprint(cast: CastHit): set<object>
  {
    if cast.Hit? && cast.script != null then cast.script.Footprint() else {}
  }

  /** The hit names an object the hand may highlight and pull. */
  predicate IsEligibleHit(cast: CastHit)
  {
    cast.Hit? && cast.script != null && cast.script.isDistGrabbable
  }

  class DistanceGrabHand {
    const pullSpeed: real
    const stopLerpDistance: real

    var startTime: real
    var journeyLength: real
    var isAttached: bool
    var grabbableObject: DistanceGrabbableObject?
    var pullStartPos: Vec3
    var grabbableObjectScript: DistanceGrabbableObject?
    var distanceLinearDrive: DistanceLinearDrive?

    function HeldFootprint(): set<object>
      reads this
    {
      if grabbableObjectScript != null then grabbableObjectScript.Footprint() else {}
    }

    /** An attached hand holds an object, its script is that object, and a
        rail object's drive is the one the hand feeds. */
    ghost predicate Valid()
      reads this, HeldFootprint()
    {
      isAttached ==>
        grabbableObjectScript != null && grabbableObject == grabbableObjectScript &&
        grabbableObjectScript.Valid() &&
        (grabbableObjectScript.usesLinearMapping ==> distanceLinearDrive == grabbableObjectScript.linearDrive)
    }

    constructor (pullSpeed: real, stopLerpDistance: real)
      ensures Valid() && !isAttached && grabbableObject == null
      ensures this.pullSpeed == pullSpeed && this.stopLerpDistance == stopLerpDistance
    {
      this.pullSpeed := pullSpeed;
      this.stopLerpDistance := stopLerpDistance;
      isAttached := false;
      grabbableObject := null;
      grabbableObjectScript := null;
      distanceLinearDrive := null;
      startTime := 0.0;
      journeyLength := 0.0;
      pullStartPos := Zero;
    }

    /** The attached free object is still flying: this tick lerps it. */
    ghost predicate IsLerping(input: HandInput)
      reads this, HeldFootprint()
    {
      isAttached && !input.grabEnding && grabbableObjectScript != null &&
      !grabbableObjectScript.usesLinearMapping
    }

    /** What one tick may change besides the hand: the flying object's
        transform, the rail drive of a held rail object (its samples and the
        transform it repositions), the drive a release hands the samples to,
        or, when detection runs, the object that was hit. */
    function TickFootprint(input: HandInput): set<object>
      reads this, HeldFootprint()
    {
      if isAttached then
        if grabbableObjectScript == null then {}
        else if !input.grabEnding then
          if grabbableObjectScript.usesLinearMapping then
            grabbableObjectScript.DriveRepr() + {grabbableObjectScript.transform}
          else {grabbableObjectScript.transform}
        else if grabbableObjectScript.usesLinearMapping && distanceLinearDrive != null then {distanceLinearDrive}
        else {}
      else if !input.holdingObject && IsEligibleHit(input.cast) then HitFootprint(input.cast)
      else {}
    }

    /** FixedUpdate, one physics tick. `distance` is Vector3.Distance. */
    method FixedUpdate(input: HandInput, distance: (Vec3, Vec3) -> real) returns (events: seq<Event>)
      requires Valid()
      requires input.cast.Hit? && input.cast.script != null ==> input.cast.script.Valid()
      requires isAttached && grabbableObjectScript != null && grabbableObjectScript.usesLinearMapping ==>
        input.deltaTime > 0.0
      requires IsLerping(input) ==> distance(pullStartPos, input.position) != 0.0
      modifies this, TickFootprint(input)
      ensures Valid()
      ensures isAttached ==> grabbableObject != null
      // ---- attached, the grab goes on, free object: pull it towards the hand
      ensures old(IsLerping(input)) ==>
        var target := old(grabbableObject);
        var fraction := FractionOfJourney(old(startTime), input.time, pullSpeed, distance(old(pullStartPos), input.position));
        target != null &&
        journeyLength == distance(old(pullStartPos), input.position) &&
        target.transform.position == LerpVec(old(target.transform.position), input.position, fraction) &&
        SqrMagnitude(Sub(target.transform.position, input.position))
          <= SqrMagnitude(Sub(old(target.transform.position), input.position)) &&
        (fraction >= 1.0 ==> target.transform.position == input.position) &&
        startTime == old(startTime) && pullStartPos == old(pullStartPos) &&
        grabbableObjectScript == old(grabbableObjectScript) && distanceLinearDrive == old(distanceLinearDrive) &&
        if distance(target.transform.position, input.position) < stopLerpDistance then
          events == [AttachObject(target)] && !isAttached && grabbableObject == null
        else
          events == [] && isAttached && grabbableObject == target
      // ---- attached, the grab goes on, rail object: the drive follows the hand
      ensures old(isAttached) && !input.grabEnding && old(grabbableObjectScript.usesLinearMapping) ==>
        var drive := old(distanceLinearDrive);
        drive != null && events == [HandUpdated(drive)] && unchanged(this) &&
        drive.prevMapping == old(drive.linearMappingValue) &&
        drive.linearMappingValue == Clamp01(old(drive.initialMappingOffset) + drive.Mapping(input.position)) &&
        0.0 <= drive.linearMappingValue <= 1.0 &&
        drive.mappingChangeSamples[..]
          == old(drive.mappingChangeSamples[..])[old(drive.sampleCount) % NumMappingChangeSamples :=
               SampleVelocity(old(drive.linearMappingValue), drive.linearMappingValue, input.deltaTime)] &&
        drive.sampleCount == old(drive.sampleCount) + 1 &&
        drive.samplesSinceAttach
          == old(drive.samplesSinceAttach)
             + [SampleVelocity(old(drive.linearMappingValue), drive.linearMappingValue, input.deltaTime)] &&
        drive.initialMappingOffset == old(drive.initialMappingOffset) &&
        drive.mappingChangeRate == old(drive.mappingChangeRate) &&
        drive.transform.position
          == (if drive.repositionGameObject then LerpVec(drive.startPosition, drive.endPosition, drive.linearMappingValue)
              else old(drive.transform.position))
      // ---- attached, the grab ends: detach, and release a rail object's drive;
      //      the released object stays where the last tick left it
      ensures old(isAttached) && input.grabEnding ==>
        !isAttached && grabbableObject == null &&
        grabbableObjectScript == old(grabbableObjectScript) && distanceLinearDrive == old(distanceLinearDrive) &&
        startTime == old(startTime) && pullStartPos == old(pullStartPos) && journeyLength == old(journeyLength) &&
        grabbableObjectScript != null &&
        unchanged(grabbableObjectScript, grabbableObjectScript.transform) &&
        (if old(grabbableObjectScript.usesLinearMapping) then
           var drive := old(distanceLinearDrive);
           drive != null && events == [DetachedFromDrive(drive)] &&
           drive.mappingChangeRate == Mean(Window(drive.samplesSinceAttach)) &&
           drive.linearMappingValue == old(drive.linearMappingValue) &&
           drive.prevMapping == old(drive.prevMapping) &&
           drive.initialMappingOffset == old(drive.initialMappingOffset) &&
           drive.sampleCount == old(drive.sampleCount) &&
           drive.samplesSinceAttach == old(drive.samplesSinceAttach)
         else events == [])
      // ---- not attached: detection, unless SteamVR's hand already holds something
      ensures !old(isAttached) && input.holdingObject ==> events == [] && unchanged(this)
      ensures !old(isAttached) && !input.holdingObject ==> DetectionOutcome(input, distance, events)
      // ---- which calls happen at all
      ensures (exists o :: Highlighted(o) in events) <==>
        !old(isAttached) && !input.holdingObject && IsEligibleHit(input.cast)
      ensures isAttached && !old(isAttached) <==>
        !old(isAttached) && !input.holdingObject && IsEligibleHit(input.cast) && input.cast.script.hasInteractable && input.grabStarting
    {
      events := [];
      if isAttached {
        if !input.grabEnding {
          if !grabbableObjectScript.usesLinearMapping {
            events := PullTowardsHand(input, distance);
          } else {
            distanceLinearDrive.DistanceHandUpdate(input.position, input.deltaTime);
            events := [HandUpdated(distanceLinearDrive)];
          }
        } else {
          events := Detach();
        }
      } else if !input.holdingObject {
        events := Detect(input, distance);
      }
    }

    /** The lerp branch of FixedUpdate (source lines 58-70): move the free
        object by Vector3.Lerp from where it is towards the hand, by the
        fraction of the journey the pull speed has covered since the start,
        and hand it over to SteamVR's grab once it is close enough. */
    method PullTowardsHand(input: HandInput, distance: (Vec3, Vec3) -> real) returns (events: seq<Event>)
      requires Valid() && IsLerping(input)
      requires distance(pullStartPos, input.position) != 0.0
      modifies this, grabbableObject.transform
      ensures Valid()
      ensures var target := old(grabbableObject);
        var fraction := FractionOfJourney(old(startTime), input.time, pullSpeed, distance(old(pullStartPos), input.position));
        journeyLength == distance(old(pullStartPos), input.position) &&
        target.transform.position == LerpVec(old(target.transform.position), input.position, fraction) &&
        SqrMagnitude(Sub(target.transform.position, input.position))
          <= SqrMagnitude(Sub(old(target.transform.position), input.position)) &&
        (fraction >= 1.0 ==> target.transform.position == input.position) &&
        if distance(target.transform.position, input.position) < stopLerpDistance then
          events == [AttachObject(target)] && !isAttached && grabbableObject == null
        else
          events == [] && isAttached && grabbableObject == target
      ensures startTime == old(startTime) && pullStartPos == old(pullStartPos)
      ensures grabbableObjectScript == old(grabbableObjectScript)
      ensures distanceLinearDrive == old(distanceLinearDrive)
    {
      events := [];
      journeyLength := distance(pullStartPos, input.position);
      var fractionOfJourney := FractionOfJourney(startTime, input.time, pullSpeed, journeyLength);
      var from := grabbableObject.transform.position;
      grabbableObject.transform.position := LerpVec(from, input.position, fractionOfJourney);
      LerpVecApproaches(from, input.position, fractionOfJourney);

      // Close enough: hand the object over to the standard grab
      if distance(grabbableObject.transform.position, input.position) < stopLerpDistance {
        events := [AttachObject(grabbableObject)];
        grabbableObject := null;
        isAttached := false;
      }
    }

    /** The release branch of FixedUpdate (source lines 79-86): forget the
        object and, for a rail object, let its drive compute the drift. */
    method Detach() returns (events: seq<Event>)
      requires Valid() && isAttached
      modifies this, if grabbableObjectScript.usesLinearMapping then {distanceLinearDrive} else {}
      ensures Valid()
      ensures !isAttached && grabbableObject == null
      ensures grabbableObjectScript == old(grabbableObjectScript)
      ensures distanceLinearDrive == old(distanceLinearDrive)
      ensures startTime == old(startTime) && pullStartPos == old(pullStartPos)
      ensures journeyLength == old(journeyLength)
      ensures if old(grabbableObjectScript.usesLinearMapping) then
          var drive := old(distanceLinearDrive);
          drive != null && events == [DetachedFromDrive(drive)] &&
          drive.mappingChangeRate == Mean(Window(drive.samplesSinceAttach)) &&
          drive.linearMappingValue == old(drive.linearMappingValue) &&
          drive.prevMapping == old(drive.prevMapping) &&
          drive.initialMappingOffset == old(drive.initialMappingOffset) &&
          drive.sampleCount == old(drive.sampleCount) &&
          drive.samplesSinceAttach == old(drive.samplesSinceAttach)
        else events == []
    {
      events := [];
      grabbableObject := null;
      isAttached := false;

      if grabbableObjectScript.usesLinearMapping {
        distanceLinearDrive.OnDetachment();
        events := [DetachedFromDrive(distanceLinearDrive)];
      }
    }

    /** What detection does with the cast result, stated over the state
        before and after the tick. */
    twostate predicate DetectionOutcome(input: HandInput, distance: (Vec3, Vec3) -> real, new events: seq<Event>)
      reads this, HitFootprint(input.cast)
    {
      match input.cast
      case NoHit =>
        events == [] && unchanged(this)
      case Hit(o) =>
        if o == null then
          events == [NullReference] && unchanged(this)
        else if !o.isDistGrabbable then
          events == [] && unchanged(this)
        else
          grabbableObject == o && o.isHighlighted &&
          o.usesLinearMapping == old(o.usesLinearMapping) &&
          o.highlightRendererEnabled == old(o.highlightRendererEnabled) &&
          o.transform.position == old(o.transform.position) &&
          (isAttached <==> o.hasInteractable && input.grabStarting) &&
          (isAttached ==> grabbableObjectScript == o) &&
          (!isAttached ==>
             events == [Highlighted(o)] &&
             grabbableObjectScript == old(grabbableObjectScript) && distanceLinearDrive == old(distanceLinearDrive) &&
             startTime == old(startTime) && pullStartPos == old(pullStartPos) && journeyLength == old(journeyLength)) &&
          (o.linearDrive != null ==> unchanged(o.linearDrive.mappingChangeSamples)) &&
          (o.linearDrive != null && !(isAttached && o.usesLinearMapping) ==> unchanged(o.linearDrive)) &&
          (isAttached && !o.usesLinearMapping ==>
             events == [Highlighted(o)] && distanceLinearDrive == old(distanceLinearDrive) &&
             startTime == input.time && pullStartPos == old(o.transform.position) &&
             journeyLength == distance(pullStartPos, input.position)) &&
          (isAttached && o.usesLinearMapping ==>
             o.linearDrive != null && distanceLinearDrive == o.linearDrive &&
             events == [AttachedToDrive(o.linearDrive), Highlighted(o)] &&
             startTime == old(startTime) && pullStartPos == old(pullStartPos) && journeyLength == old(journeyLength) &&
             o.linearDrive.startPosition != o.linearDrive.endPosition &&
             o.linearDrive.initialMappingOffset
               == old(o.linearDrive.linearMappingValue) - o.linearDrive.Mapping(input.position) &&
             o.linearDrive.sampleCount == 0 && o.linearDrive.mappingChangeRate == 0.0 &&
             o.linearDrive.samplesSinceAttach == [] &&
             o.linearDrive.linearMappingValue == old(o.linearDrive.linearMappingValue) &&
             o.linearDrive.prevMapping == old(o.linearDrive.prevMapping))
    }

    /** The detection branch of FixedUpdate (source lines 91-125), entered
        when the hand is not attached and SteamVR's hand holds nothing. */
    method Detect(input: HandInput, distance: (Vec3, Vec3) -> real) returns (events: seq<Event>)
      requires Valid() && !isAttached
      requires input.cast.Hit? && input.cast.script != null ==> input.cast.script.Valid()
      modifies this, if IsEligibleHit(input.cast) then HitFootprint(input.cast) else {}
      ensures Valid()
      ensures DetectionOutcome(input, distance, events)
      ensures (exists o :: Highlighted(o) in events) <==> IsEligibleHit(input.cast)
    {
      events := [];
      match input.cast
      case NoHit =>
      case Hit(script) =>
        if script == null {
          events := [NullReference];
        } else if script.isDistGrabbable {
          grabbableObject := script;
          if script.hasInteractable && input.grabStarting {
            // Attach the object
            isAttached := true;
            grabbableObjectScript := script;

            if !script.usesLinearMapping {
              // Start the lerp
              startTime := input.time;
              pullStartPos := script.transform.position;
              journeyLength := distance(pullStartPos, input.position);
            } else {
              // Hand control over to the rail drive
              distanceLinearDrive := script.linearDrive;
              distanceLinearDrive.OnAttachment(input.position);
              events := [AttachedToDrive(distanceLinearDrive)];
            }
          }

          script.HighlightObject();
          events := events + [Highlighted(script)];
        }
    }
  }
}
