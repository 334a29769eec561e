/**
 * The part of the X protocol that the hint publisher touches: atoms,
 * window ids, typed property values, and a window's property store.
 */
module X11 {

  /** An X window id; 0 is the protocol's `None`. */
  type Window = nat

  const NoWindow: Window := 0

  /**
   * The atoms the hint publisher interns, each a distinct constant.
   * `Foreign` stands for any other atom a client may put in a property.
   */
  datatype Atom =
    // root window properties and related messages
    | NetSupported
    | NetClientList
    | NetClientListStacking
    | NetNumberOfDesktops
    | NetDesktopGeometry
    | NetDesktopViewport
    | NetCurrentDesktop
    | NetActiveWindow
    | NetWorkarea
    | NetSupportingWmCheck
    // other root window messages
    | NetCloseWindow
    | NetMoveresizeWindow
    | NetRestackWindow
    | NetRequestFrameExtents
    // application window properties
    | NetWmName
    | NetWmDesktop
    | NetWmWindowType
    | NetWmWindowTypeDesktop
    | NetWmWindowTypeDock
    | NetWmState
    | NetWmStateMaximizedVert
    | NetWmStateMaximizedHorz
    | NetWmStateFullscreen
    | NetWmStateHidden
    | NetWmAllowedActions
    | NetWmActionMove
    | NetWmActionResize
    | NetWmActionMaximizeHorz
    | NetWmActionMaximizeVert
    | NetWmActionFullscreen
    | NetWmActionChangeDesktop
    | NetWmActionClose
    | NetWmPid
    | NetFrameExtents
    | Foreign(id: nat)

  /** A property value together with its X type (all 32-bit except STRING). */
  datatype Property =
    | AtomList(atoms: seq<Atom>)
    | WindowList(windows: seq<Window>)
    | CardinalList(values: seq<nat>)
    | Text(chars: string)

  /**
   * The server's properties: writing in replace mode overwrites the entry
   * for (window, atom), deleting removes it.
   */
  type Store = map<(Window, Atom), Property>

  datatype Option<T> = None | Some(value: T)

  /**
   * What reading `a` on `w` with expected type ATOM yields: the atom list,
   * or nothing when the property is absent or holds another type.
   */
  function ReadAtoms(store: Store, w: Window, a: Atom): (r: Option<seq<Atom>>)
    ensures r.Some? <==> (w, a) in store && store[(w, a)].AtomList?
    ensures r.Some? ==> store[(w, a)] == AtomList(r.value)
  {
    if (w, a) in store && store[(w, a)].AtomList? then Some(store[(w, a)].atoms) else None
  }

  /** Window `w` holds value `v` for property `a`. */
  predicate Holds(store: Store, w: Window, a: Atom, v: Property) {
    (w, a) in store && store[(w, a)] == v
  }

  /** Every window that holds a property has an id below `next`: it was created before `next` was handed out. */
  ghost predicate StoreBelow(store: Store, next: Window) {
    forall k :: k in store ==> k.0 < next
  }

  /**
   * `after` differs from `before` at most on `keys`, and holds every key of
   * `keys`: a batch of replace-mode writes to exactly those properties.
   */
  ghost predicate UpdatesOnly(before: Store, after: Store, keys: set<(Window, Atom)>) {
    && (forall k :: k in after <==> k in before || k in keys)
    && (forall k :: k in before && k !in keys ==> after[k] == before[k])
  }

  /** Replace-mode writes, on window `w`, of every property in `m`. */
  function WriteAll(store: Store, w: Window, m: map<Atom, Property>): (r: Store)
    ensures forall k :: k in r <==> k in store || (k.0 == w && k.1 in m)
    ensures forall a :: a in m ==> Holds(r, w, a, m[a])
    ensures forall k :: k in store && !(k.0 == w && k.1 in m) ==> r[k] == store[k]
  {
    store + map a | a in m :: (w, a) := m[a]
  }

  /** Deletes, on window `w`, of every property named in `atoms`. */
  function DeleteAll(store: Store, w: Window, atoms: set<Atom>): (r: Store)
    ensures forall k :: k in r <==> k in store && !(k.0 == w && k.1 in atoms)
    ensures forall k :: k in r ==> r[k] == store[k]
  {
    map k | k in store && !(k.0 == w && k.1 in atoms) :: store[k]
  }

  /** Destroying window `w` discards all of its properties. */
  function DestroyWindow(store: Store, w: Window): (r: Store)
    ensures forall k :: k in r <==> k in store && k.0 != w
    ensures forall k :: k in r ==> r[k] == store[k]
  {
    map k | k in store && k.0 != w :: store[k]
  }

  /** Deleting a set of properties undoes writes to any of them. */
  lemma DeleteUndoesWrite(store: Store, w: Window, m: map<Atom, Property>, atoms: set<Atom>)
    requires m.Keys <= atoms
    ensures DeleteAll(WriteAll(store, w, m), w, atoms) == DeleteAll(store, w, atoms)
  {
    var left := DeleteAll(WriteAll(store, w, m), w, atoms);
    var right := DeleteAll(store, w, atoms);
    forall k | k in left
      ensures k in right && left[k] == right[k]
    {
      assert !(k.0 == w && k.1 in m);
    }
    assert left == right;
  }

  /**
   * Destroying a window undoes writes to it, even when deletions on another
   * window happened in between.
   */
  lemma DestroyUndoesWrite(store: Store, w: Window, m: map<Atom, Property>, v: Window, atoms: set<Atom>)
    ensures DestroyWindow(DeleteAll(WriteAll(store, w, m), v, atoms), w)
            == DestroyWindow(DeleteAll(store, v, atoms), w)
  {
    var left := DestroyWindow(DeleteAll(WriteAll(store, w, m), v, atoms), w);
    var right := DestroyWindow(DeleteAll(store, v, atoms), w);
    forall k | k in left
      ensures k in right && left[k] == right[k]
    {
      assert !(k.0 == w && k.1 in m);
    }
    assert left == right;
  }
}
