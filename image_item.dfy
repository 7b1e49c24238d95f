/**
 * The image item: a base item whose handle is an image drawn in a
 * rectangle of the item's width and height, centred on the item's position.
 * The subclass relation is modelled by composition: `base` is the base-item
 * part of the same Python object.
 */
module ImageItems {
  import opened Scene
  import opened Wrappers
  import opened TrackedItems

  /** The class name the server reports as an item's type. */
  const ClassName: string := "image_item"

  /** The keywords the image item's initialiser passes on to the base initialiser. */
  const SuperInitKeywords: set<string> := {"name", "handle", "position", "zValue", "tracking_offset"}

  /** The rectangle of width `w` and height `h` whose origin is placed so that `p` is its centre. */
  function CenteredRect(p: Vec2, w: real, h: real): (r: Rect)
    ensures Centre(r) == p && r.w == w && r.h == h
  {
    Rect(p.x - w / 2.0, p.y - h / 2.0, w, h)
  }

  /** A rectangle is the centred rectangle of its own centre and size, and no other rectangle is. */
  lemma CenteredRectInverse(r: Rect, p: Vec2, w: real, h: real)
    ensures r == CenteredRect(p, w, h) <==> Centre(r) == p && r.w == w && r.h == h
  {
  }

  /** As written, the call to the base initialiser raises `TypeError` on `tracking_offset`. */
  lemma SuperInitRejectedAsWritten()
    ensures BindKeywords(InitKeywordsAsWritten, SuperInitKeywords) == UnexpectedKeywords({"tracking_offset"})
  {
    assert SuperInitKeywords - InitKeywordsAsWritten == {"tracking_offset"};
  }

  /** With the offset accepted by the base initialiser the call binds. */
  lemma SuperInitBinds()
    ensures BindKeywords(InitKeywords, SuperInitKeywords) == Bound
  {
  }

  class ImageItem {
    const base: TrackedItem
    var width: real
    var height: real

    /** The handle's rectangle is the item's size, centred on the item's position. */
    predicate Centred()
      reads this, base, base.handle
    {
      base.handle.rect == CenteredRect(base.position, width, height)
    }

    /**
     * Records the size, creates the image handle, places it centred on
     * `position`, then runs the base initialiser with the offset (default (0, 0)).
     */
    constructor (name: string, position: Vec2, width: real, height: real,
                 zValue: Option<real> := None, trackingOffset: Vec2 := Vec2(0.0, 0.0))
      ensures fresh(base) && fresh(base.handle)
      ensures base.name == name && base.position == position && base.trackingOffset == trackingOffset
      ensures this.width == width && this.height == height
      ensures base.handle.rect == CenteredRect(position, width, height)
      ensures base.handle.z == (if zValue.Some? then zValue.value else 0.0)
      ensures base.handle.visible
    {
      this.height := height;
      this.width := width;
      var h := new Handle();
      h.SetRect(CenteredRect(position, width, height));
      base := new TrackedItem(name, h, position, zValue, trackingOffset);
    }

    /**
     * One render step for this item: recompute the handle's rectangle from
     * the current position. Nothing but the rectangle changes, so a second
     * call on a centred item changes nothing.
     */
    method PositionUpdater()
      modifies base.handle`rect
      ensures base.handle.rect == CenteredRect(base.position, width, height)
      ensures Centred()
      ensures old(Centred()) ==> base.handle.rect == old(base.handle.rect)
      ensures unchanged(this, base)
    {
      base.handle.SetRect(CenteredRect(base.position, width, height));
    }
  }
}
