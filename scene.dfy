/**
 * The part of the plotting toolkit the items and the server talk to.
 * A graphics object is a `Handle` carrying the rectangle it is drawn in,
 * its stacking value and whether it is shown; the plot widget is the set of
 * handles attached to it. Drawing itself is not modelled.
 */
module Scene {

  /** A point of the canvas, the `[x, y]` arrays of the source. */
  datatype Vec2 = Vec2(x: real, y: real)

  /** The arguments of `setRect(x, y, width, height)`: lower-left corner and size. */
  datatype Rect = Rect(x: real, y: real, w: real, h: real)

  /** The centre of a rectangle. */
  function Centre(r: Rect): (c: Vec2)
    ensures c.x - r.x == r.w / 2.0 && c.y - r.y == r.h / 2.0
  {
    Vec2(r.x + r.w / 2.0, r.y + r.h / 2.0)
  }

  /** A graphics object of the toolkit. */
  class Handle {
    var rect: Rect
    var z: real
    var visible: bool

    /** A new graphics object: not yet placed, stacking value 0, shown. */
    constructor ()
      ensures rect == Rect(0.0, 0.0, 0.0, 0.0) && z == 0.0 && visible
    {
      rect := Rect(0.0, 0.0, 0.0, 0.0);
      z := 0.0;
      visible := true;
    }

    method SetRect(r: Rect)
      modifies this`rect
      ensures rect == r
    {
      rect := r;
    }

    method SetZValue(value: real)
      modifies this`z
      ensures z == value
    {
      z := value;
    }

    method Hide()
      modifies this`visible
      ensures !visible
    {
      visible := false;
    }

    method Show()
      modifies this`visible
      ensures visible
    {
      visible := true;
    }
  }

  /** The plot widget: the handles currently attached to the canvas. */
  class PlotWidget {
    var handles: set<Handle>

    constructor ()
      ensures handles == {}
    {
      handles := {};
    }

    method AddItem(h: Handle)
      modifies this
      ensures handles == old(handles) + {h}
    {
      handles := handles + {h};
    }

    /** Detaching a handle that is not attached does nothing. */
    method RemoveItem(h: Handle)
      modifies this
      ensures handles == old(handles) - {h}
    {
      handles := handles - {h};
    }
  }
}
