/**
 * The projection server's item registry: a dictionary from item name to
 * image item, whose items' handles are attached to the plot widget. The
 * methods here are the registry operations the server offers locally and
 * over remote calls, and the render tick.
 */
module CanvasServer {
  import opened Scene
  import opened Wrappers
  import opened TrackedItems
  import opened ImageItems

  /** The exceptions the registry operations raise, with the offending name. */
  datatype Error =
    | NameError(name: string)  // duplicate name on add, unknown name on remove
    | KeyError(name: string)   // unknown name on hide (a plain dictionary lookup)

  /** One entry of the enumeration: the item's name and the name of its class. */
  datatype ItemInfo = ItemInfo(name: string, kind: string)

  /** The base-item parts of the items of a registry. */
  ghost function BasesOf(m: map<string, ImageItem>): set<TrackedItem>
  {
    set k | k in m :: m[k].base
  }

  /** The handles of the items of a registry. */
  ghost function HandlesOf(m: map<string, ImageItem>): set<Handle>
    reads BasesOf(m)
  {
    set k | k in m :: m[k].base.handle
  }

  /** Every key of a registry is the name of the item it maps to. */
  ghost predicate Keyed(m: map<string, ImageItem>)
    reads BasesOf(m)
  {
    forall k :: k in m ==> m[k].base.name == k
  }

  /** No two entries of a registry share one handle. */
  ghost predicate Distinct(m: map<string, ImageItem>)
    reads BasesOf(m)
  {
    forall k, j :: k in m && j in m && k != j ==> m[k].base.handle != m[j].base.handle
  }

  /** Registering an item under its own name keeps the keys and the names in agreement. */
  lemma InsertKeyed(m: map<string, ImageItem>, item: ImageItem)
    requires Keyed(m)
    ensures Keyed(m[item.base.name := item])
  {
  }

  /** Registering under a new key adds exactly the item's handle to the registry's handles. */
  lemma {:induction false} InsertHandles(m: map<string, ImageItem>, n: string, item: ImageItem)
    requires n !in m
    ensures HandlesOf(m[n := item]) == HandlesOf(m) + {item.base.handle}
  {
    var m' := m[n := item];
    forall h | h in HandlesOf(m')
      ensures h in HandlesOf(m) + {item.base.handle}
    {
      var k :| k in m' && m'[k].base.handle == h;
      if k != n {
        assert m[k] == m'[k];
      }
    }
    forall h | h in HandlesOf(m)
      ensures h in HandlesOf(m')
    {
      var k :| k in m && m[k].base.handle == h;
      assert m'[k] == m[k];
    }
    assert m'[n].base.handle == item.base.handle;
  }

  /**
   * After registering under a new key no two entries share a handle exactly
   * when none did before and the new item's handle was not registered yet.
   */
  lemma {:induction false} InsertDistinct(m: map<string, ImageItem>, n: string, item: ImageItem)
    requires n !in m
    ensures Distinct(m[n := item]) <==> Distinct(m) && item.base.handle !in HandlesOf(m)
  {
    var m' := m[n := item];
    if Distinct(m') {
      forall k, j | k in m && j in m && k != j
        ensures m[k].base.handle != m[j].base.handle
      {
        assert m'[k] == m[k] && m'[j] == m[j];
      }
    }
    if item.base.handle in HandlesOf(m) {
      var k :| k in m && m[k].base.handle == item.base.handle;
      assert k != n && m'[k].base.handle == m'[n].base.handle;
    }
    if Distinct(m) && item.base.handle !in HandlesOf(m) {
      forall k, j | k in m' && j in m' && k != j
        ensures m'[k].base.handle != m'[j].base.handle
      {
        if k == n {
          assert m[j].base.handle in HandlesOf(m);
        } else if j == n {
          assert m[k].base.handle in HandlesOf(m);
        }
      }
    }
  }

  /** Deleting an entry keeps the keys and the names in agreement. */
  lemma RemoveKeyed(m: map<string, ImageItem>, n: string)
    requires Keyed(m)
    ensures Keyed(m - {n})
  {
  }

  /** Deleting an entry keeps the handles apart. */
  lemma RemoveDistinct(m: map<string, ImageItem>, n: string)
    requires Distinct(m)
    ensures Distinct(m - {n})
  {
  }

  /** Registering under a new key grows a registry by one entry. */
  lemma InsertCount(m: map<string, ImageItem>, n: string, item: ImageItem)
    requires n !in m
    ensures |m[n := item]| == |m| + 1
  {
  }

  /** Deleting a present key shrinks a registry by one entry. */
  lemma RemoveCount(m: map<string, ImageItem>, n: string)
    requires n in m
    ensures |m - {n}| == |m| - 1
  {
    assert (m - {n}).Keys == m.Keys - {n};
  }

  /**
   * Deleting an entry whose handle no other entry shares removes exactly
   * that handle from the registry's handles.
   */
  lemma {:induction false} RemoveHandles(m: map<string, ImageItem>, n: string)
    requires n in m && Distinct(m)
    ensures HandlesOf(m - {n}) == HandlesOf(m) - {m[n].base.handle}
  {
    var m' := m - {n};
    forall h | h in HandlesOf(m')
      ensures h in HandlesOf(m) - {m[n].base.handle}
    {
      var k :| k in m' && m'[k].base.handle == h;
      assert m[k] == m'[k] && k != n;
    }
    forall h | h in HandlesOf(m) - {m[n].base.handle}
      ensures h in HandlesOf(m')
    {
      var k :| k in m && m[k].base.handle == h;
      assert k != n && m'[k] == m[k];
    }
  }

  class ProjectionServer {
    var items: map<string, ImageItem>
    const plot: PlotWidget

    /** The base-item parts of the registered items. */
    ghost function Bases(): set<TrackedItem>
      reads this
    {
      BasesOf(items)
    }

    /** The handles of the registered items. */
    ghost function RegisteredHandles(): set<Handle>
      reads this, Bases()
    {
      HandlesOf(items)
    }

    /**
     * The registry's invariant: every key is the name of the item it maps
     * to, and every registered item's handle is attached to the plot.
     */
    ghost predicate Valid()
      reads this, plot, Bases()
    {
      Keyed(items) && HandlesOf(items) <= plot.handles
    }

    /** No two registered items share one handle. */
    ghost predicate HandlesDistinct()
      reads this, Bases()
    {
      Distinct(items)
    }

    /** A server over a plot widget (which may already hold a background image), with no items. */
    constructor (plot: PlotWidget)
      ensures this.plot == plot && items == map[]
      ensures Valid() && HandlesDistinct()
    {
      this.plot := plot;
      items := map[];
    }

    /** The liveness probe of the remote interface. */
    function TestConnection(): (payload: map<string, bool>)
      ensures payload.Keys == {"connection"} && payload["connection"]
    {
      map["connection" := true]
    }

    /**
     * Registers an item under its own name and attaches its handle. A name
     * already in use raises `NameError` and changes nothing.
     */
    method AddNewItem(item: ImageItem) returns (r: Outcome<Error>)
      requires Valid()
      modifies this, plot
      ensures Valid()
      ensures old(item.base.name) in old(items) ==>
                r == Fail(NameError(old(item.base.name))) &&
                items == old(items) && plot.handles == old(plot.handles)
      ensures old(item.base.name) !in old(items) ==>
                r == Pass && items == old(items)[item.base.name := item] &&
                plot.handles == old(plot.handles) + {item.base.handle}
      ensures HandlesDistinct() <==>
                old(HandlesDistinct()) && (r.Fail? || item.base.handle !in old(RegisteredHandles()))
    {
      if item.base.name in items {
        return Fail(NameError(item.base.name));
      }
      var n := item.base.name;
      var h := item.base.handle;
      InsertKeyed(items, item);
      InsertHandles(items, n, item);
      InsertDistinct(items, n, item);
      items := items[n := item];
      plot.AddItem(h);
      r := Pass;
    }

    /**
     * Detaches the named item's handle and deletes the entry, returning
     * true; an unknown name raises `NameError` and changes nothing. The
     * invariant survives when no other item shares the detached handle.
     */
    method RemoveItem(name: string) returns (r: Result<bool, Error>)
      requires Valid()
      modifies this, plot
      ensures name !in old(items) ==>
                r == Failure(NameError(name)) && items == old(items) && plot.handles == old(plot.handles)
      ensures name in old(items) ==>
                r == Success(true) && items == old(items) - {name} &&
                plot.handles == old(plot.handles) - {old(items)[name].base.handle}
      ensures old(HandlesDistinct()) ==> Valid() && HandlesDistinct()
    {
      if name !in items {
        return Failure(NameError(name));
      }
      var h := items[name].base.handle;
      RemoveKeyed(items, name);
      if HandlesDistinct() {
        RemoveHandles(items, name);
        RemoveDistinct(items, name);
      }
      plot.RemoveItem(h);
      items := items - {name};
      r := Success(true);
    }

    /**
     * Hides (or, with `hiding` false, shows) the named item's handle and
     * returns true. An unknown name raises `KeyError`. The registry and
     * the plot are not changed either way.
     */
    method HideItem(name: string, hiding: bool := true) returns (r: Result<bool, Error>)
      requires Valid()
      modifies (if name in items then {items[name].base.handle} else {})`visible
      ensures Valid() && items == old(items) && plot.handles == old(plot.handles)
      ensures name !in items ==> r == Failure(KeyError(name))
      ensures name in items ==>
                r == Success(true) && items[name].base.handle.visible == !hiding &&
                items[name].base.handle.rect == old(items[name].base.handle.rect) &&
                items[name].base.handle.z == old(items[name].base.handle.z)
      ensures HandlesDistinct() == old(HandlesDistinct())
    {
      if name !in items {
        return Failure(KeyError(name));
      }
      if hiding {
        items[name].base.handle.Hide();
      } else {
        items[name].base.handle.Show();
      }
      r := Success(true);
    }

    /**
     * The enumeration of the remote interface: for every registered name,
     * its name and its class name. An empty registry gives an empty map.
     */
    method GetAllPlotItems() returns (payload: map<string, ItemInfo>)
      ensures payload.Keys == items.Keys
      ensures forall k :: k in payload ==> payload[k] == ItemInfo(k, ClassName)
    {
      payload := map[];
      var pending := items.Keys;
      while pending != {}
        invariant pending <= items.Keys
        invariant payload.Keys == items.Keys - pending
        invariant forall k :: k in payload ==> payload[k] == ItemInfo(k, ClassName)
        decreases pending
      {
        var k :| k in pending;
        payload := payload[k := ItemInfo(k, ClassName)];
        pending := pending - {k};
      }
    }

    /**
     * One render tick: every registered item, hidden or shown, recomputes
     * its handle's rectangle from its position; the registry, the plot and
     * every position are left as they were. When no two items share a
     * handle, every item is centred on its position afterwards. The event
     * processing that follows is the toolkit's.
     */
    method PositionUpdate()
      requires Valid()
      modifies RegisteredHandles()`rect
      ensures Valid() && HandlesDistinct() == old(HandlesDistinct())
      ensures items == old(items) && plot.handles == old(plot.handles)
      ensures forall k :: k in items ==> items[k].base.position == old(items[k].base.position)
      ensures forall k :: k in items ==> items[k].base.handle.visible == old(items[k].base.handle.visible)
      ensures forall k :: k in items ==> items[k].base.handle.z == old(items[k].base.handle.z)
      ensures HandlesDistinct() ==> forall k :: k in items ==> items[k].Centred()
    {
      UpdateAllItems();
    }

    /** The loop of the render tick: `position_updater` on each registered item in turn. */
    method UpdateAllItems()
      modifies RegisteredHandles()`rect
      ensures items == old(items)
      ensures forall k :: k in items ==> items[k].base.handle.visible == old(items[k].base.handle.visible)
      ensures forall k :: k in items ==> items[k].base.handle.z == old(items[k].base.handle.z)
      ensures old(HandlesDistinct()) ==> forall k :: k in items ==> items[k].Centred()
    {
      ghost var distinct := HandlesDistinct();
      var keys := items.Keys;
      var pending := keys;
      while pending != {}
        invariant pending <= keys
        invariant forall k :: k in keys ==> items[k].base.handle.visible == old(items[k].base.handle.visible)
        invariant distinct ==> forall k :: k in keys - pending ==> items[k].Centred()
        decreases pending
      {
        var k :| k in pending;
        items[k].PositionUpdater();
        pending := pending - {k};
      }
    }
  }
}
