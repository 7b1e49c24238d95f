/**
 * The base item (`tracked_item`): a named, positioned item that owns one
 * graphics handle. Its properties are plain fields here; each setter is a
 * method that writes exactly one of them, and the z-value property is
 * delegated to the handle.
 */
module TrackedItems {
  import opened Scene
  import opened Wrappers

  /** The exception object the callback stubs hand back instead of raising it. */
  datatype NotImplemented = NotImplementedError

  /**
   * What reading an item's stacking value can yield: a number, or the
   * handle's `zValue` method itself (not called).
   */
  datatype ZRead = Number(value: real) | GetterOf(handle: Handle)

  class TrackedItem {
    var name: string
    var position: Vec2
    var handle: Handle
    var trackingOffset: Vec2

    /**
     * Stores name, position and handle, in that order, and forwards the
     * z-value to the handle only when one is given. The tracking offset is
     * an initialiser argument with default (0, 0) here; see README, Findings.
     */
    constructor (name: string, handle: Handle, position: Vec2,
                 zValue: Option<real> := None, trackingOffset: Vec2 := Vec2(0.0, 0.0))
      modifies handle
      ensures this.name == name && this.position == position && this.handle == handle
      ensures this.trackingOffset == trackingOffset
      ensures handle.z == (if zValue.Some? then zValue.value else old(handle.z))
      ensures handle.rect == old(handle.rect) && handle.visible == old(handle.visible)
    {
      this.name := name;
      this.position := position;
      this.handle := handle;
      this.trackingOffset := trackingOffset;
      new;
      if zValue.Some? {
        handle.SetZValue(zValue.value);
      }
    }

    /** The callback for a ROS topic: a stub that returns the error object and changes nothing. */
    method RosCallback() returns (r: NotImplemented)
      ensures r == NotImplementedError
    {
      r := NotImplementedError;
    }

    /** The callback for the Vicon stream: a stub like RosCallback. */
    method ViconCallback() returns (r: NotImplemented)
      ensures r == NotImplementedError
    {
      r := NotImplementedError;
    }

    method SetName(value: string)
      modifies this`name
      ensures name == value
    {
      name := value;
    }

    method SetHandle(value: Handle)
      modifies this`handle
      ensures handle == value
    {
      handle := value;
    }

    method SetPosition(value: Vec2)
      modifies this`position
      ensures position == value
    {
      position := value;
    }

    method SetTrackingOffset(value: Vec2)
      modifies this`trackingOffset
      ensures trackingOffset == value
    {
      trackingOffset := value;
    }

    /**
     * The stacking value (the corrected getter; see README, Findings): the
     * number that calling the method the getter as written hands back gives.
     */
    function ZValue(): (r: real)
      reads this, handle
      ensures r == ZValueAsWritten().handle.z
    {
      handle.z
    }

    /** The getter as written: it hands back the handle's method instead of calling it. */
    function ZValueAsWritten(): (r: ZRead)
      reads this
      ensures r.GetterOf? && r.handle == handle
    {
      GetterOf(handle)
    }

    /** As written, no read of the stacking value is ever a number, whatever was set. */
    lemma ZValueAsWrittenNeverNumber(v: real)
      ensures ZValueAsWritten() != Number(v)
    {
    }

    /** Writing the stacking value writes the handle's and nothing of the item. */
    method SetZValue(value: real)
      modifies handle`z
      ensures ZValue() == value
      ensures unchanged(this)
    {
      handle.SetZValue(value);
    }
  }

  /** The error of reading an attribute that was never assigned. */
  datatype AttributeError = AttributeError(attribute: string)

  /**
   * The attributes a base item stores; `trackingOffset` is `None` while
   * `_tracking_offset` has not been assigned.
   */
  datatype StoredAttributes = StoredAttributes(name: string, position: Vec2, handle: Handle,
                                               trackingOffset: Option<Vec2>)

  /**
   * The base initialiser as written: it assigns the name, the position and
   * the handle, and never the tracking offset. (The stacking value lives in
   * the handle, as in the constructor.)
   */
  function InitAsWritten(name: string, handle: Handle, position: Vec2): (s: StoredAttributes)
    ensures s.name == name && s.position == position && s.handle == handle
    ensures s.trackingOffset.None?
  {
    StoredAttributes(name, position, handle, None)
  }

  /**
   * Reading the `tracking_offset` property: the stored offset, or
   * `AttributeError` on `_tracking_offset` when none was assigned.
   */
  function ReadTrackingOffset(s: StoredAttributes): (r: Result<Vec2, AttributeError>)
    ensures r.Success? <==> s.trackingOffset.Some?
    ensures r.Success? ==> r.value == s.trackingOffset.value
    ensures r.Failure? ==> r.error == AttributeError("_tracking_offset")
  {
    match s.trackingOffset
    case Some(offset) => Success(offset)
    case None => Failure(AttributeError("_tracking_offset"))
  }

  /** As written, reading the offset of a newly initialised base item raises `AttributeError`. */
  lemma TrackingOffsetUnsetAsWritten(name: string, handle: Handle, position: Vec2)
    ensures ReadTrackingOffset(InitAsWritten(name, handle, position)) == Failure(AttributeError("_tracking_offset"))
  {
  }

  /** The attributes the corrected constructor leaves: the offset is assigned. */
  function Stored(item: TrackedItem): (s: StoredAttributes)
    reads item
  {
    StoredAttributes(item.name, item.position, item.handle, Some(item.trackingOffset))
  }

  /** With the corrected constructor, reading the offset gives the stored one. */
  lemma TrackingOffsetReadable(item: TrackedItem)
    ensures ReadTrackingOffset(Stored(item)) == Success(item.trackingOffset)
  {
  }

  /**
   * Python's keyword binding for one call that passes every required
   * parameter: the call goes through when every keyword passed is one the
   * callee declares, and raises `TypeError` naming the others otherwise.
   * Missing required parameters and positional arguments are not modelled.
   */
  datatype Binding = Bound | UnexpectedKeywords(names: set<string>)

  function BindKeywords(accepted: set<string>, passed: set<string>): (b: Binding)
    ensures b == Bound <==> passed <= accepted
    ensures b.UnexpectedKeywords? ==> b.names != {} && b.names <= passed && b.names !! accepted
  {
    if passed <= accepted then Bound
    else
      var extra :| extra in passed && extra !in accepted;
      assert extra in passed - accepted;
      UnexpectedKeywords(passed - accepted)
  }

  /** The keywords the base initialiser declares in the source. */
  const InitKeywordsAsWritten: set<string> := {"name", "handle", "position", "zValue"}

  /** The keywords the base initialiser declares in this model: also the tracking offset. */
  const InitKeywords: set<string> := InitKeywordsAsWritten + {"tracking_offset"}
}
