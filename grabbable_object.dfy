/** DistanceGrabbableObject: whether an object may be grabbed from a
    distance, whether it is driven along a rail, and the one-tick highlight
    latch that lights its highlight mesh while a hand points at it. */
module Grabbable {
  import opened Unity
  import opened LinearDrive

  class DistanceGrabbableObject {
    /** isDistGrabbable, set by the author. */
    const isDistGrabbable: bool
    /** Whether the game object carries an Interactable component. */
    const hasInteractable: bool
    /** The DistanceLinearDrive component of the game object, if any. */
    const linearDrive: DistanceLinearDrive?
    /** The transform of the game object. */
    const transform: Transform

    var isHighlighted: bool
    var usesLinearMapping: bool
    /** highlightMeshRenderer.enabled */
    var highlightRendererEnabled: bool

    /** The objects this component and its rail driver consist of. */
    function Footprint(): set<object>
    {
      {this, transform} + DriveRepr()
    }

    function DriveRepr(): set<object>
    {
      if linearDrive != null then {linearDrive, linearDrive.mappingChangeSamples} else {}
    }

    /** A drive on the object shares the object's transform, and
        usesLinearMapping is only ever set when such a drive exists. */
    ghost predicate Valid()
      reads this, DriveRepr()
    {
      (usesLinearMapping ==> linearDrive != null) &&
      (linearDrive != null ==> linearDrive.transform == transform && linearDrive.Valid())
    }

    /** The component as the scene creates it: not highlighted, and
        usesLinearMapping at its default, false. */
    constructor (isDistGrabbable: bool, hasInteractable: bool, linearDrive: DistanceLinearDrive?,
                 transform: Transform, highlightRendererEnabled: bool)
      requires linearDrive != null ==> linearDrive.transform == transform && linearDrive.Valid()
      ensures Valid()
      ensures this.isDistGrabbable == isDistGrabbable && this.hasInteractable == hasInteractable
      ensures this.linearDrive == linearDrive && this.transform == transform
      ensures !isHighlighted && !usesLinearMapping
      ensures this.highlightRendererEnabled == highlightRendererEnabled
    {
      this.isDistGrabbable := isDistGrabbable;
      this.hasInteractable := hasInteractable;
      this.linearDrive := linearDrive;
      this.transform := transform;
      this.highlightRendererEnabled := highlightRendererEnabled;
      isHighlighted := false;
      usesLinearMapping := false;
    }

    /** Start: the object uses linear mapping when it carries a
        DistanceLinearDrive; otherwise the flag is left as it was. */
    method Start()
      requires Valid()
      modifies this
      ensures Valid()
      ensures usesLinearMapping == (linearDrive != null || old(usesLinearMapping))
      ensures !old(usesLinearMapping) ==> (usesLinearMapping <==> linearDrive != null)
      ensures isHighlighted == old(isHighlighted) && highlightRendererEnabled == old(highlightRendererEnabled)
    {
      if linearDrive != null {
        usesLinearMapping := true;
      }
    }

    /** FixedUpdate: the renderer shows the flag as it stood before the tick,
        and the flag is cleared, so a highlight lasts exactly one tick. */
    method FixedUpdate()
      requires Valid()
      modifies this
      ensures Valid()
      ensures highlightRendererEnabled == old(isHighlighted)
      ensures !isHighlighted
      ensures usesLinearMapping == old(usesLinearMapping)
    {
      if isHighlighted {
        highlightRendererEnabled := true;
        isHighlighted := false;
      } else {
        highlightRendererEnabled := false;
      }
    }

    /** HighlightObject: request the highlight for the next FixedUpdate. */
    method HighlightObject()
      requires Valid()
      modifies this
      ensures Valid()
      ensures isHighlighted
      ensures usesLinearMapping == old(usesLinearMapping)
      ensures highlightRendererEnabled == old(highlightRendererEnabled)
    {
      isHighlighted := true;
    }
  }

  /** HighlightObject is idempotent: a second call leaves the state the first
      one produced. */
  method HighlightTwice(o: DistanceGrabbableObject)
    requires o.Valid()
    modifies o
    ensures o.Valid() && o.isHighlighted
    ensures o.usesLinearMapping == old(o.usesLinearMapping)
    ensures o.highlightRendererEnabled == old(o.highlightRendererEnabled)
  {
    o.HighlightObject();
    o.HighlightObject();
  }

  /** With no HighlightObject call between them, the second of two ticks
      leaves the highlight off, whatever the first one showed. */
  method TwoTicksWithoutHighlight(o: DistanceGrabbableObject)
    requires o.Valid()
    modifies o
    ensures o.Valid() && !o.highlightRendererEnabled && !o.isHighlighted
  {
    o.FixedUpdate();
    o.FixedUpdate();
  }
}
