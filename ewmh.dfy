/**
 * The hint publisher's entry points over the window manager's state: the
 * X server's property store, the managed screens, the client registry's
 * orderings and the shared buffer used to serialise window lists.
 */
module Ewmh {
  import opened X11
  import opened Clients
  import opened Hints

  class WindowManager {
    /** Build configuration: virtual desktops compiled in. */
    const vwm: bool
    /** The configured window border width. */
    const borderWidth: nat

    /** The X server's window properties. */
    var props: Store
    /** The id the X server hands out for the next window it creates. */
    var nextWindow: Window
    /** The managed screens, indexed by screen number. */
    var screens: seq<Screen>
    /** The client registry's orderings: mapping, stacking (front to back) and tab cycle. */
    var mappingOrder: seq<Client>
    var stackingOrder: seq<Client>
    var tabOrder: seq<Client>
    /** The shared buffer window lists are serialised into. */
    var windowArray: array<Window>

    /**
     * Every window the model knows of was created before `nextWindow`: the
     * screens' windows (with distinct roots), the windows holding properties
     * and the listed clients' windows. No listed client owns a root or a
     * supporting window: the manager never manages its own windows. The
     * stacking order holds no more clients than the mapping order (the
     * registry keeps both over the same live clients).
     */
    ghost predicate Valid()
      reads this
    {
      && ScreensValid(screens, nextWindow)
      && StoreBelow(props, nextWindow)
      && ClientsBelow(mappingOrder, nextWindow)
      && ClientsBelow(stackingOrder, nextWindow)
      && ClientsBelow(tabOrder, nextWindow)
      && ClientsApart(mappingOrder, screens)
      && ClientsApart(stackingOrder, screens)
      && ClientsApart(tabOrder, screens)
      && |stackingOrder| <= |mappingOrder|
    }

    /** The `_NET_ACTIVE_WINDOW` keys of all roots. */
    ghost function ActiveKeys(): set<(Window, Atom)>
      reads this
    {
      set i | 0 <= i < |screens| :: (screens[i].root, NetActiveWindow)
    }

    /**
     * Start with no properties and no buffer (the null buffer is one of
     * length 0), over the registry's screens and client orders.
     */
    constructor (screens: seq<Screen>, mapping: seq<Client>, stacking: seq<Client>, tab: seq<Client>,
                 firstFree: Window, vwm: bool, borderWidth: nat)
      requires ScreensValid(screens, firstFree)
      requires ClientsBelow(mapping, firstFree) && ClientsBelow(stacking, firstFree) && ClientsBelow(tab, firstFree)
      requires ClientsApart(mapping, screens) && ClientsApart(stacking, screens) && ClientsApart(tab, screens)
      requires |stacking| <= |mapping|
      ensures Valid()
      ensures this.screens == screens && nextWindow == firstFree
      ensures this.vwm == vwm && this.borderWidth == borderWidth
      ensures props == map[] && mappingOrder == mapping && stackingOrder == stacking && tabOrder == tab
      ensures fresh(windowArray) && windowArray.Length == 0
    {
      this.vwm := vwm;
      this.borderWidth := borderWidth;
      this.screens := screens;
      nextWindow := firstFree;
      props := map[];
      mappingOrder, stackingOrder, tabOrder := mapping, stacking, tab;
      windowArray := new Window[0];
    }

    /**
     * Create screen `si`'s supporting window and publish the root hints:
     * the supported list, the desktop geometry and viewport, the work area
     * (the whole screen), the supporting-window check on both windows, and
     * the manager's name and process id on the supporting window.
     */
    method InitScreen(si: nat, pid: nat)
      requires Valid() && si < |screens|
      modifies this`props, this`screens, this`nextWindow
      ensures Valid()
      ensures nextWindow == old(nextWindow) + 1
      ensures screens == old(screens)[si := old(screens[si]).(supporting := old(nextWindow))]
      ensures screens[si].supporting != NoWindow
      ensures forall j :: 0 <= j < |old(screens)| ==>
                old(screens)[j].root != screens[si].supporting &&
                old(screens)[j].supporting != screens[si].supporting
      ensures forall k :: k in old(props) ==> k.0 != screens[si].supporting
      ensures forall c :: c in mappingOrder || c in stackingOrder || c in tabOrder ==>
                c.window != screens[si].supporting
      ensures forall k :: k in props <==>
                || k in old(props)
                || (k.0 == screens[si].root && k.1 in ScreenRootHints(screens[si], vwm))
                || (k.0 == screens[si].supporting && k.1 in SupportingHints(screens[si].supporting, pid))
      ensures forall k ::
                && k in old(props)
                && !(k.0 == screens[si].root && k.1 in ScreenRootHints(screens[si], vwm))
                && !(k.0 == screens[si].supporting && k.1 in SupportingHints(screens[si].supporting, pid))
                ==> props[k] == old(props)[k]
      ensures forall a :: a in ScreenRootHints(screens[si], vwm) ==>
                Holds(props, screens[si].root, a, ScreenRootHints(screens[si], vwm)[a])
      ensures forall a :: a in SupportingHints(screens[si].supporting, pid) ==>
                Holds(props, screens[si].supporting, a, SupportingHints(screens[si].supporting, pid)[a])
      ensures props == WriteAll(WriteAll(old(props), screens[si].root, ScreenRootHints(screens[si], vwm)),
                                screens[si].supporting, SupportingHints(screens[si].supporting, pid))
    {
      var supporting := CreateSupportingWindow(si);
      PublishScreenHints(screens[si], pid);
    }

    /** The X server creates screen `si`'s supporting window under a fresh id. */
    method CreateSupportingWindow(si: nat) returns (supporting: Window)
      requires Valid() && si < |screens|
      modifies this`screens, this`nextWindow
      ensures Valid()
      ensures supporting == old(nextWindow) && nextWindow == supporting + 1
      ensures screens == old(screens)[si := old(screens[si]).(supporting := supporting)]
      ensures supporting != NoWindow
      ensures forall j :: 0 <= j < |old(screens)| ==>
                old(screens)[j].root != supporting && old(screens)[j].supporting != supporting
      ensures forall k :: k in props ==> k.0 != supporting
      ensures forall c :: c in mappingOrder || c in stackingOrder || c in tabOrder ==> c.window != supporting
    {
      supporting := nextWindow;
      nextWindow := nextWindow + 1;
      screens := screens[si := screens[si].(supporting := supporting)];
    }

    /** Replace-mode writes of screen `s`'s root hints and its supporting window's identification. */
    method PublishScreenHints(s: Screen, pid: nat)
      requires Valid() && s.root < nextWindow && s.supporting < nextWindow
      requires s.root != s.supporting
      modifies this`props
      ensures Valid()
      ensures forall k :: k in props <==>
                || k in old(props)
                || (k.0 == s.root && k.1 in ScreenRootHints(s, vwm))
                || (k.0 == s.supporting && k.1 in SupportingHints(s.supporting, pid))
      ensures forall k ::
                && k in old(props)
                && !(k.0 == s.root && k.1 in ScreenRootHints(s, vwm))
                && !(k.0 == s.supporting && k.1 in SupportingHints(s.supporting, pid))
                ==> props[k] == old(props)[k]
      ensures forall a :: a in ScreenRootHints(s, vwm) ==> Holds(props, s.root, a, ScreenRootHints(s, vwm)[a])
      ensures forall a :: a in SupportingHints(s.supporting, pid) ==>
                Holds(props, s.supporting, a, SupportingHints(s.supporting, pid)[a])
      ensures props == WriteAll(WriteAll(old(props), s.root, ScreenRootHints(s, vwm)),
                                s.supporting, SupportingHints(s.supporting, pid))
    {
      props := WriteAll(props, s.root, ScreenRootHints(s, vwm));
      props := WriteAll(props, s.supporting, SupportingHints(s.supporting, pid));
    }

    /**
     * Delete every root hint the manager maintains on screen `si` and destroy
     * its supporting window, which takes that window's properties with it.
     */
    method DeinitScreen(si: nat)
      requires Valid() && si < |screens|
      modifies this`props
      ensures Valid()
      ensures forall k :: k in props <==>
                && k in old(props)
                && !(k.0 == screens[si].root && k.1 in ScreenRootAtoms(vwm))
                && k.0 != screens[si].supporting
      ensures forall k :: k in props ==> props[k] == old(props)[k]
      ensures forall k :: k in old(props) && NotManagerWindow(screens, k.0) ==> k in props
      ensures props == DestroyWindow(DeleteAll(old(props), screens[si].root, ScreenRootAtoms(vwm)), screens[si].supporting)
    {
      var s := screens[si];
      props := DeleteAll(props, s.root, ScreenRootAtoms(vwm));
      props := DestroyWindow(props, s.supporting);
    }

    /** Publish the client's allowed actions. */
    method InitClient(c: Client)
      requires Valid() && c.window < nextWindow && NotManagerWindow(screens, c.window)
      modifies this`props
      ensures Valid()
      ensures props == old(props)[(c.window, NetWmAllowedActions) := AtomList(AllowedActions(c))]
    {
      props := props[(c.window, NetWmAllowedActions) := AtomList(AllowedActions(c))];
    }

    /** Remove the client's allowed actions. */
    method DeinitClient(c: Client)
      requires Valid()
      modifies this`props
      ensures Valid()
      ensures props == old(props) - {(c.window, NetWmAllowedActions)}
    {
      props := props - {(c.window, NetWmAllowedActions)};
    }

    /** Remove the hints of a withdrawn client: its state, and its desktop in a virtual-desktop build. */
    method WithdrawClient(c: Client)
      requires Valid()
      modifies this`props
      ensures Valid()
      ensures props == old(props) - {(c.window, NetWmState)} - (if vwm then {(c.window, NetWmDesktop)} else {})
    {
      if vwm {
        props := props - {(c.window, NetWmDesktop)};
      }
      props := props - {(c.window, NetWmState)};
    }

    /** Move the selected client to the head of the tab-cycle order. */
    method SelectClient(c: Client)
      requires Valid() && c.window < nextWindow && NotManagerWindow(screens, c.window)
      modifies this`tabOrder
      ensures Valid()
      ensures tabOrder == MoveToHead(old(tabOrder), c)
    {
      tabOrder := MoveToHead(tabOrder, c);
    }

    /**
     * Size the shared buffer for the mapped clients: count them, take at
     * least one, round up to a multiple of 128 and reallocate.
     */
    method AllocWindowArray() returns (windows: array<Window>)
      modifies this`windowArray
      ensures fresh(windows) && windows == windowArray
      ensures windows.Length == WindowArrayCapacity(|mappingOrder|)
    {
      var count := 0;
      for j := 0 to |mappingOrder|
        invariant count == j
      {
        count := count + 1;
      }
      if count == 0 {
        count := count + 1;
      }
      count := RoundUp128(count);
      windowArray := new Window[count];
      windows := windowArray;
    }

    /** Copy the windows of screen `si`'s clients, in `order`, to the front of `windows`. */
    static method FillScreenWindows(order: seq<Client>, si: nat, windows: array<Window>) returns (n: nat)
      requires |order| <= windows.Length
      modifies windows
      ensures n <= windows.Length && windows[..n] == ScreenWindows(order, si)
    {
      n := 0;
      for j := 0 to |order|
        invariant n <= j
        invariant windows[..n] == ScreenWindows(order[..j], si)
      {
        assert order[..j + 1][..j] == order[..j];
        if order[j].screen == si {
          windows[n] := order[j].window;
          n := n + 1;
        }
      }
      assert order[..|order|] == order;
    }

    /** Publish `_NET_CLIENT_LIST` on screen `si`: its clients' windows in mapping order. */
    method SetNetClientList(si: nat)
      requires Valid() && si < |screens|
      modifies this`props, this`windowArray
      ensures Valid()
      ensures props == old(props)[(screens[si].root, NetClientList) := WindowList(ScreenWindows(mappingOrder, si))]
      ensures fresh(windowArray) && windowArray.Length == WindowArrayCapacity(|mappingOrder|)
    {
      var windows := AllocWindowArray();
      var n := FillScreenWindows(mappingOrder, si, windows);
      props := props[(screens[si].root, NetClientList) := WindowList(windows[..n])];
    }

    /**
     * Publish `_NET_CLIENT_LIST_STACKING` on screen `si`: its clients' windows
     * in stacking order, in the buffer sized from the mapping order.
     */
    method SetNetClientListStacking(si: nat)
      requires Valid() && si < |screens|
      modifies this`props, this`windowArray
      ensures Valid()
      ensures props == old(props)[(screens[si].root, NetClientListStacking) :=
                                    WindowList(ScreenWindows(stackingOrder, si))]
      ensures fresh(windowArray) && windowArray.Length == WindowArrayCapacity(|mappingOrder|)
    {
      var windows := AllocWindowArray();
      var n := FillScreenWindows(stackingOrder, si, windows);
      props := props[(screens[si].root, NetClientListStacking) := WindowList(windows[..n])];
    }

    /** Publish screen `si`'s current desktop (virtual-desktop builds only). */
    method SetNetCurrentDesktop(si: nat)
      requires Valid() && vwm && si < |screens|
      modifies this`props
      ensures Valid()
      ensures props == old(props)[(screens[si].root, NetCurrentDesktop) := CardinalList([screens[si].vdesk])]
    {
      props := props[(screens[si].root, NetCurrentDesktop) := CardinalList([screens[si].vdesk])];
    }

    /**
     * Publish the focused client, or none: on every screen's root,
     * `_NET_ACTIVE_WINDOW` is the client's window on its own screen and
     * None elsewhere.
     */
    method SetNetActiveWindow(c: Option<Client>)
      requires Valid()
      modifies this`props
      ensures Valid()
      ensures UpdatesOnly(old(props), props, ActiveKeys())
      ensures forall i :: 0 <= i < |screens| ==>
                props[(screens[i].root, NetActiveWindow)] == WindowList([ActiveFor(c, i)])
    {
      props := WriteActiveWindows(props, screens, nextWindow, c);
    }

    /** The loop over screens behind `SetNetActiveWindow`, on a snapshot of the store. */
    static method WriteActiveWindows(store: Store, screens: seq<Screen>, next: Window, c: Option<Client>)
      returns (r: Store)
      requires forall i :: 0 <= i < |screens| ==> screens[i].root < next
      requires forall i, j :: 0 <= i < j < |screens| ==> screens[i].root != screens[j].root
      requires StoreBelow(store, next)
      ensures StoreBelow(r, next)
      ensures UpdatesOnly(store, r, set i | 0 <= i < |screens| :: (screens[i].root, NetActiveWindow))
      ensures forall i :: 0 <= i < |screens| ==>
                r[(screens[i].root, NetActiveWindow)] == WindowList([ActiveFor(c, i)])
    {
      r := store;
      for i := 0 to |screens|
        invariant UpdatesOnly(store, r, set j | 0 <= j < i :: (screens[j].root, NetActiveWindow))
        invariant forall j :: 0 <= j < i ==>
                    r[(screens[j].root, NetActiveWindow)] == WindowList([ActiveFor(c, j)])
        invariant StoreBelow(r, next)
      {
        r := r[(screens[i].root, NetActiveWindow) := WindowList([ActiveFor(c, i)])];
      }
    }

    /** Publish the client's desktop (virtual-desktop builds only). */
    method SetNetWmDesktop(c: Client)
      requires Valid() && vwm && c.window < nextWindow && NotManagerWindow(screens, c.window)
      modifies this`props
      ensures Valid()
      ensures props == old(props)[(c.window, NetWmDesktop) := CardinalList([c.vdesk])]
    {
      props := props[(c.window, NetWmDesktop) := CardinalList([c.vdesk])];
    }

    /**
     * Read `_NET_WM_WINDOW_TYPE` on `w` and OR together the desktop and dock
     * bits of its atoms; an absent property gives 0.
     */
    method GetNetWmWindowType(w: Window) returns (t: bv32)
      ensures ReadAtoms(props, w, NetWmWindowType).None? ==> t == 0
      ensures ReadAtoms(props, w, NetWmWindowType).Some? ==>
                t == WindowType(ReadAtoms(props, w, NetWmWindowType).value)
    {
      t := 0;
      var aprop := ReadAtoms(props, w, NetWmWindowType);
      if aprop.Some? {
        var atoms := aprop.value;
        for i := 0 to |atoms|
          invariant t == WindowType(atoms[..i])
        {
          WindowTypeAppend(atoms[..i], atoms[i]);
          assert atoms[..i + 1] == atoms[..i] + [atoms[i]];
          if atoms[i] == NetWmWindowTypeDesktop {
            t := t | WindowTypeDesktop;
          }
          if atoms[i] == NetWmWindowTypeDock {
            t := t | WindowTypeDock;
          }
        }
        assert atoms[..|atoms|] == atoms;
      }
    }

    /** Fill the three-slot state buffer from the client's saved size. */
    static method NetWmStateAtoms(c: Client) returns (state: seq<Atom>)
      ensures state == WmState(c.oldw, c.oldh)
    {
      var buf := new Atom[3];
      var i := 0;
      if c.oldh != 0 {
        buf[i] := NetWmStateMaximizedVert;
        i := i + 1;
      }
      if c.oldw != 0 {
        buf[i] := NetWmStateMaximizedHorz;
        i := i + 1;
      }
      if c.oldh != 0 && c.oldw != 0 {
        buf[i] := NetWmStateFullscreen;
        i := i + 1;
      }
      state := buf[..i];
    }

    /** Publish the client's state as inferred from its saved size. */
    method SetNetWmState(c: Client)
      requires Valid() && c.window < nextWindow && NotManagerWindow(screens, c.window)
      modifies this`props
      ensures Valid()
      ensures props == old(props)[(c.window, NetWmState) := AtomList(WmState(c.oldw, c.oldh))]
    {
      var state := NetWmStateAtoms(c);
      props := props[(c.window, NetWmState) := AtomList(state)];
    }

    /** Publish uniform frame extents, each the border width. */
    method SetNetFrameExtents(w: Window)
      requires Valid() && w < nextWindow
      modifies this`props
      ensures Valid()
      ensures props == old(props)[(w, NetFrameExtents) := CardinalList(FrameExtents(borderWidth))]
    {
      props := props[(w, NetFrameExtents) := CardinalList(FrameExtents(borderWidth))];
    }
  }
}
