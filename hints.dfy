/**
 * The values the hint publisher derives from client and screen records:
 * the allowed-actions list, the window-state list, the window-type mask,
 * the supported-hints list, the per-screen active window, the frame
 * extents and the capacity of the shared window buffer.
 */
module Hints {
  import opened X11
  import opened Clients

  /** The six actions every client is offered, in publication order. */
  const CoreActions: seq<Atom> := [
    NetWmActionMove,
    NetWmActionMaximizeHorz,
    NetWmActionMaximizeVert,
    NetWmActionFullscreen,
    NetWmActionChangeDesktop,
    NetWmActionClose
  ]

  /** The client's size hints pin both width and height to one non-zero value. */
  predicate FixedSize(c: Client) {
    c.maxWidth != 0 && c.maxWidth == c.minWidth && c.maxHeight != 0 && c.maxHeight == c.minHeight
  }

  /**
   * `_NET_WM_ALLOWED_ACTIONS` for a client: the six core actions, followed
   * by resize unless the client's size is fixed, in which case the trailing
   * entry is cut off.
   */
  function AllowedActions(c: Client): (r: seq<Atom>)
    ensures |r| == if FixedSize(c) then 6 else 7
    ensures r[..6] == CoreActions
    ensures !FixedSize(c) ==> r[6] == NetWmActionResize
    ensures NetWmActionResize in r <==> !FixedSize(c)
  {
    var all := CoreActions + [NetWmActionResize];
    var n := if FixedSize(c) then |all| - 1 else |all|;
    all[..n]
  }

  /** Fixed publication order of the state atoms. */
  function StateRank(a: Atom): nat {
    match a
    case NetWmStateMaximizedVert => 0
    case NetWmStateMaximizedHorz => 1
    case _ => 2
  }

  /**
   * `_NET_WM_STATE` inferred from the saved pre-maximise size: a saved
   * height means vertically maximised, a saved width horizontally
   * maximised, and both together are also reported as fullscreen.
   */
  function WmState(oldw: int, oldh: int): (r: seq<Atom>)
    ensures |r| <= 3
    ensures NetWmStateMaximizedVert in r <==> oldh != 0
    ensures NetWmStateMaximizedHorz in r <==> oldw != 0
    ensures NetWmStateFullscreen in r <==> oldh != 0 && oldw != 0
    ensures forall a :: a in r ==>
              a == NetWmStateMaximizedVert || a == NetWmStateMaximizedHorz || a == NetWmStateFullscreen
    ensures forall i, j :: 0 <= i < j < |r| ==> StateRank(r[i]) < StateRank(r[j])
  {
    (if oldh != 0 then [NetWmStateMaximizedVert] else [])
    + (if oldw != 0 then [NetWmStateMaximizedHorz] else [])
    + (if oldh != 0 && oldw != 0 then [NetWmStateFullscreen] else [])
  }

  /** The four cases of the inferred state, written out. */
  lemma WmStateCases(oldw: int, oldh: int)
    ensures oldh != 0 && oldw == 0 ==> WmState(oldw, oldh) == [NetWmStateMaximizedVert]
    ensures oldh == 0 && oldw != 0 ==> WmState(oldw, oldh) == [NetWmStateMaximizedHorz]
    ensures oldh != 0 && oldw != 0 ==>
              WmState(oldw, oldh) == [NetWmStateMaximizedVert, NetWmStateMaximizedHorz, NetWmStateFullscreen]
    ensures oldh == 0 && oldw == 0 ==> WmState(oldw, oldh) == []
  {
  }

  /** Bits of the window-type mask. */
  const WindowTypeDesktop: bv32 := 1
  const WindowTypeDock: bv32 := 2

  /** The bit one atom of `_NET_WM_WINDOW_TYPE` contributes to the mask. */
  function TypeBit(a: Atom): bv32 {
    if a == NetWmWindowTypeDesktop then WindowTypeDesktop
    else if a == NetWmWindowTypeDock then WindowTypeDock
    else 0
  }

  /**
   * The window-type mask of an atom list: the desktop bit when the desktop
   * atom occurs anywhere, the dock bit when the dock atom does, nothing else.
   */
  function WindowType(atoms: seq<Atom>): (t: bv32)
    ensures (t & WindowTypeDesktop != 0) <==> NetWmWindowTypeDesktop in atoms
    ensures (t & WindowTypeDock != 0) <==> NetWmWindowTypeDock in atoms
    ensures t & !(WindowTypeDesktop | WindowTypeDock) == 0
  {
    (if NetWmWindowTypeDesktop in atoms then WindowTypeDesktop else 0)
    | (if NetWmWindowTypeDock in atoms then WindowTypeDock else 0)
  }

  /** OR-ing in one more atom's bit gives the mask of the longer list. */
  lemma WindowTypeAppend(atoms: seq<Atom>, a: Atom)
    ensures WindowType(atoms + [a]) == WindowType(atoms) | TypeBit(a)
  {
    assert forall x :: x in atoms + [a] <==> x in atoms || x == a;
  }

  /** Atoms other than the two window types contribute nothing. */
  lemma WindowTypeIgnoresOthers(atoms: seq<Atom>, a: Atom)
    requires a != NetWmWindowTypeDesktop && a != NetWmWindowTypeDock
    ensures WindowType(atoms + [a]) == WindowType(atoms)
  {
    WindowTypeAppend(atoms, a);
  }

  /** The groups `_NET_SUPPORTED` is assembled from, in publication order. */
  const ListHints: seq<Atom> := [NetClientList, NetClientListStacking]
  const GeometryHints: seq<Atom> := [NetDesktopGeometry, NetDesktopViewport]
  const RootStatusHints: seq<Atom> := [NetActiveWindow, NetWorkarea, NetSupportingWmCheck]
  const RootMessages: seq<Atom> := [NetCloseWindow, NetMoveresizeWindow, NetRestackWindow, NetRequestFrameExtents]
  const ClientHints: seq<Atom> := [
    NetWmWindowType, NetWmWindowTypeDesktop, NetWmWindowTypeDock,
    NetWmState, NetWmStateMaximizedVert, NetWmStateMaximizedHorz, NetWmStateFullscreen, NetWmStateHidden,
    NetWmAllowedActions]
  const ActionHints: seq<Atom> := [
    NetWmActionMove, NetWmActionResize, NetWmActionMaximizeHorz, NetWmActionMaximizeVert,
    NetWmActionFullscreen, NetWmActionChangeDesktop, NetWmActionClose,
    NetFrameExtents]

  /**
   * `_NET_SUPPORTED`: the hints advertised on every root, with the virtual
   * desktop hints only in a build with virtual desktops.
   */
  function Supported(vwm: bool): (r: seq<Atom>)
    ensures |r| == if vwm then 31 else 28
  {
    if vwm then
      ListHints + [NetNumberOfDesktops] + GeometryHints + [NetCurrentDesktop] + RootStatusHints
      + RootMessages + [NetWmDesktop] + ClientHints + ActionHints
    else
      ListHints + GeometryHints + RootStatusHints + RootMessages + ClientHints + ActionHints
  }

  /** No group lists `a`, so `_NET_SUPPORTED` lists it only as a virtual-desktop extra. */
  lemma AbsentFromGroups(vwm: bool, a: Atom)
    requires a !in ListHints && a !in GeometryHints && a !in RootStatusHints
    requires a !in RootMessages && a !in ClientHints && a !in ActionHints
    ensures a in Supported(vwm) <==>
              vwm && (a == NetNumberOfDesktops || a == NetCurrentDesktop || a == NetWmDesktop)
  {
  }

  /** `_NET_SUPPORTED` advertises every action and state atom published on clients. */
  lemma SupportedClientAtoms(vwm: bool)
    ensures forall a :: a in CoreActions ==> a in Supported(vwm)
    ensures NetWmActionResize in Supported(vwm)
    ensures NetWmStateMaximizedVert in Supported(vwm) && NetWmStateMaximizedHorz in Supported(vwm)
    ensures NetWmStateFullscreen in Supported(vwm)
  {
  }

  /** `_NET_SUPPORTED` advertises the properties the list and client hooks maintain. */
  lemma SupportedMaintained(vwm: bool)
    ensures NetClientList in Supported(vwm) && NetClientListStacking in Supported(vwm)
    ensures NetActiveWindow in Supported(vwm) && NetFrameExtents in Supported(vwm)
    ensures NetWmAllowedActions in Supported(vwm) && NetWmState in Supported(vwm)
  {
  }

  /** The virtual-desktop hints are advertised exactly in a virtual-desktop build. */
  lemma SupportedVirtualDesktops(vwm: bool)
    ensures (NetNumberOfDesktops in Supported(vwm)) == vwm
    ensures (NetCurrentDesktop in Supported(vwm)) == vwm
    ensures (NetWmDesktop in Supported(vwm)) == vwm
  {
    AbsentFromGroups(vwm, NetNumberOfDesktops);
    AbsentFromGroups(vwm, NetCurrentDesktop);
    AbsentFromGroups(vwm, NetWmDesktop);
  }

  /**
   * `_NET_SUPPORTED` leaves out itself and the two properties of the
   * supporting window.
   */
  lemma SupportedOmits(vwm: bool)
    ensures NetSupported !in Supported(vwm)
    ensures NetWmName !in Supported(vwm) && NetWmPid !in Supported(vwm)
  {
    AbsentFromGroups(vwm, NetSupported);
    AbsentFromGroups(vwm, NetWmName);
    AbsentFromGroups(vwm, NetWmPid);
  }

  /** Every atom published on a client window is advertised in `_NET_SUPPORTED`. */
  lemma ClientAtomsAdvertised(c: Client, vwm: bool)
    ensures forall a :: a in AllowedActions(c) ==> a in Supported(vwm)
    ensures forall a :: a in WmState(c.oldw, c.oldh) ==> a in Supported(vwm)
  {
    SupportedClientAtoms(vwm);
    var r := AllowedActions(c);
    forall a | a in r ensures a in Supported(vwm) {
      var k :| 0 <= k < |r| && r[k] == a;
      if k < 6 {
        assert a == r[..6][k];
      }
    }
  }

  /** The root properties `ewmh_init_screen` writes. */
  function ScreenInitRootAtoms(vwm: bool): set<Atom> {
    {NetSupported, NetDesktopGeometry, NetDesktopViewport, NetWorkarea, NetSupportingWmCheck}
    + (if vwm then {NetNumberOfDesktops, NetCurrentDesktop} else {})
  }

  /** `_NET_NUMBER_OF_DESKTOPS` in a build with virtual desktops. */
  const NumDesktops: nat := 8

  /** The manager's name, published on each supporting window. */
  const WmName: string := "evilwm"

  /**
   * The root hints `ewmh_init_screen` publishes for screen `s` (whose
   * supporting window is already created): the desktop is the whole screen,
   * seen from the origin, and the work area is all of it.
   */
  function ScreenRootHints(s: Screen, vwm: bool): (m: map<Atom, Property>)
    ensures m.Keys == ScreenInitRootAtoms(vwm)
    ensures NetSupported in m && m[NetSupported] == AtomList(Supported(vwm))
    ensures NetDesktopGeometry in m && m[NetDesktopGeometry] == CardinalList([s.width, s.height])
    ensures NetDesktopViewport in m && m[NetDesktopViewport] == CardinalList([0, 0])
    ensures NetWorkarea in m && m[NetWorkarea] == CardinalList([0, 0, s.width, s.height])
    ensures NetSupportingWmCheck in m && m[NetSupportingWmCheck] == WindowList([s.supporting])
    ensures vwm ==> NetNumberOfDesktops in m && m[NetNumberOfDesktops] == CardinalList([NumDesktops])
    ensures vwm ==> NetCurrentDesktop in m && m[NetCurrentDesktop] == CardinalList([s.vdesk])
  {
    // the geometry and viewport are the two halves of the work area
    var workarea := [0, 0, s.width, s.height];
    assert workarea[..2] == [0, 0] && workarea[2..] == [s.width, s.height];
    if vwm then
      map[NetSupported := AtomList(Supported(vwm)),
          NetNumberOfDesktops := CardinalList([NumDesktops]),
          NetDesktopGeometry := CardinalList(workarea[2..]),
          NetDesktopViewport := CardinalList(workarea[..2]),
          NetCurrentDesktop := CardinalList([s.vdesk]),
          NetWorkarea := CardinalList(workarea),
          NetSupportingWmCheck := WindowList([s.supporting])]
    else
      map[NetSupported := AtomList(Supported(vwm)),
          NetDesktopGeometry := CardinalList(workarea[2..]),
          NetDesktopViewport := CardinalList(workarea[..2]),
          NetWorkarea := CardinalList(workarea),
          NetSupportingWmCheck := WindowList([s.supporting])]
  }

  /** The properties `ewmh_init_screen` writes on the supporting window. */
  const SupportingAtoms: set<Atom> := {NetSupportingWmCheck, NetWmName, NetWmPid}

  /**
   * The supporting window's own hints: the check points at the supporting
   * window itself, and it carries the manager's name and process id.
   */
  function SupportingHints(supporting: Window, pid: nat): (m: map<Atom, Property>)
    ensures m.Keys == SupportingAtoms
    ensures NetSupportingWmCheck in m && m[NetSupportingWmCheck] == WindowList([supporting])
    ensures NetWmName in m && m[NetWmName] == Text(WmName)
    ensures NetWmPid in m && m[NetWmPid] == CardinalList([pid])
  {
    map[NetSupportingWmCheck := WindowList([supporting]), NetWmName := Text(WmName), NetWmPid := CardinalList([pid])]
  }

  /** The root properties `ewmh_deinit_screen` deletes. */
  function ScreenRootAtoms(vwm: bool): set<Atom> {
    {NetSupported, NetClientList, NetClientListStacking, NetDesktopGeometry, NetDesktopViewport,
     NetActiveWindow, NetWorkarea, NetSupportingWmCheck}
    + (if vwm then {NetNumberOfDesktops, NetCurrentDesktop} else {})
  }

  /**
   * Deinitialising a screen deletes every root property initialising it
   * wrote, and the lists and active window maintained since.
   */
  lemma DeinitCoversInit(vwm: bool)
    ensures ScreenInitRootAtoms(vwm) <= ScreenRootAtoms(vwm)
    ensures NetClientList in ScreenRootAtoms(vwm) && NetClientListStacking in ScreenRootAtoms(vwm)
    ensures NetActiveWindow in ScreenRootAtoms(vwm)
  {
  }

  /**
   * Deinitialising a screen right after initialising it leaves the same
   * store as deinitialising it alone: everything initialisation wrote is
   * deleted again, and nothing else it touched survives either way.
   */
  lemma DeinitUndoesInit(store: Store, s: Screen, vwm: bool, pid: nat)
    ensures var initialised := WriteAll(WriteAll(store, s.root, ScreenRootHints(s, vwm)),
                                        s.supporting, SupportingHints(s.supporting, pid));
            DestroyWindow(DeleteAll(initialised, s.root, ScreenRootAtoms(vwm)), s.supporting)
            == DestroyWindow(DeleteAll(store, s.root, ScreenRootAtoms(vwm)), s.supporting)
  {
    var rootWritten := WriteAll(store, s.root, ScreenRootHints(s, vwm));
    DestroyUndoesWrite(rootWritten, s.supporting, SupportingHints(s.supporting, pid), s.root, ScreenRootAtoms(vwm));
    DeinitCoversInit(vwm);
    DeleteUndoesWrite(store, s.root, ScreenRootHints(s, vwm), ScreenRootAtoms(vwm));
  }

  /**
   * `_NET_ACTIVE_WINDOW` for screen `i` when `c` is focused (or nothing is):
   * the client's window on its own screen and None everywhere else.
   */
  function ActiveFor(c: Option<Client>, i: nat): (w: Window)
    ensures c.Some? && c.value.screen == i ==> w == c.value.window
    ensures w != NoWindow ==> c.Some? && c.value.screen == i
  {
    if c.Some? && i == c.value.screen then c.value.window else NoWindow
  }

  /** At most one screen shows a non-None active window. */
  lemma ActiveOnOneScreen(c: Option<Client>, i: nat, j: nat)
    requires ActiveFor(c, i) != NoWindow && ActiveFor(c, j) != NoWindow
    ensures i == j
  {
  }

  /** `_NET_FRAME_EXTENTS`: left, right, top and bottom all equal the border width. */
  function FrameExtents(borderWidth: nat): (r: seq<nat>)
    ensures |r| == 4 && forall k :: 0 <= k < 4 ==> r[k] == borderWidth
  {
    [borderWidth, borderWidth, borderWidth, borderWidth]
  }

  /** `n` rounded up to the next multiple of 128 (the source's `(n + 127) & ~127`). */
  function RoundUp128(n: nat): (r: nat)
    ensures r % 128 == 0 && n <= r < n + 128
  {
    (n + 127) / 128 * 128
  }

  /**
   * Capacity of the shared window buffer when `n` clients are mapped:
   * `max(1, n)` rounded up to a multiple of 128.
   */
  function WindowArrayCapacity(n: nat): (cap: nat)
    ensures cap >= 1 && cap >= n && cap % 128 == 0
    ensures cap < (if n == 0 then 1 else n) + 128
  {
    RoundUp128(if n == 0 then 1 else n)
  }

  /** The capacity follows the client count down as well as up: it is not growth-only. */
  lemma WindowArrayCapacityShrinks()
    ensures WindowArrayCapacity(129) == 256 && WindowArrayCapacity(1) == 128
  {
  }
}
