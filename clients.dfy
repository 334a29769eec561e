/**
 * The records the hint publisher reads from the window manager's client
 * registry, and the two list operations it performs on them: filtering an
 * ordered client list down to one screen's windows, and moving a client to
 * the head of the tab-cycle list.
 */
module Clients {
  import opened X11

  /**
   * A managed client. `screen` is the index of its screen; `oldw`/`oldh`
   * are the saved pre-maximise width and height (0 when not maximised).
   */
  datatype Client = Client(
    window: Window,
    screen: nat,
    vdesk: nat,
    minWidth: int,
    minHeight: int,
    maxWidth: int,
    maxHeight: int,
    oldw: int,
    oldh: int)

  /** A managed screen: its root, the manager's supporting window, its size in pixels and its current desktop. */
  datatype Screen = Screen(root: Window, supporting: Window, width: nat, height: nat, vdesk: nat)

  /**
   * The screens' windows are proper ids allocated below `next`, no two
   * screens share a root, and no screen's supporting window is a root.
   */
  ghost predicate ScreensValid(screens: seq<Screen>, next: Window) {
    && 0 < next
    && (forall i :: 0 <= i < |screens| ==>
          screens[i].root != NoWindow && screens[i].root < next && screens[i].supporting < next)
    && (forall i, j :: 0 <= i < j < |screens| ==> screens[i].root != screens[j].root)
    && (forall i, j :: 0 <= i < |screens| && 0 <= j < |screens| ==> screens[i].supporting != screens[j].root)
  }

  /** `w` is none of the manager's own windows: no screen's root and no screen's supporting window. */
  ghost predicate NotManagerWindow(screens: seq<Screen>, w: Window) {
    forall i :: 0 <= i < |screens| ==> w != screens[i].root && w != screens[i].supporting
  }

  /** No client in `order` owns one of the manager's own windows. */
  ghost predicate ClientsApart(order: seq<Client>, screens: seq<Screen>) {
    forall c :: c in order ==> NotManagerWindow(screens, c.window)
  }

  /** Every client in `order` owns a window created before `next` was handed out. */
  ghost predicate ClientsBelow(order: seq<Client>, next: Window) {
    forall c :: c in order ==> c.window < next
  }

  /** The windows, in list order, of the clients in `order` that belong to screen `s`. */
  function ScreenWindows(order: seq<Client>, s: nat): (r: seq<Window>)
    ensures |r| <= |order|
  {
    if order == [] then []
    else
      var last := order[|order| - 1];
      ScreenWindows(order[..|order| - 1], s) + (if last.screen == s then [last.window] else [])
  }

  /** The positions in `order` of the clients that belong to screen `s`, in increasing order. */
  function ScreenPositions(order: seq<Client>, s: nat): seq<nat>
  {
    if order == [] then []
    else
      var n := |order| - 1;
      ScreenPositions(order[..n], s) + (if order[n].screen == s then [n] else [])
  }

  /** Every position is within `order` and holds a client of screen `s`. */
  lemma {:induction false} ScreenPositionsBounded(order: seq<Client>, s: nat)
    ensures forall k :: 0 <= k < |ScreenPositions(order, s)| ==>
              ScreenPositions(order, s)[k] < |order| && order[ScreenPositions(order, s)[k]].screen == s
  {
    if order != [] {
      var n := |order| - 1;
      var p := ScreenPositions(order[..n], s);
      ScreenPositionsBounded(order[..n], s);
      forall k | 0 <= k < |p| ensures p[k] < |order| && order[p[k]].screen == s {
        assert order[p[k]] == order[..n][p[k]];
      }
    }
  }

  /** The positions are strictly increasing, so they follow `order`. */
  lemma {:induction false} ScreenPositionsIncreasing(order: seq<Client>, s: nat)
    ensures forall k, l :: 0 <= k < l < |ScreenPositions(order, s)| ==>
              ScreenPositions(order, s)[k] < ScreenPositions(order, s)[l]
  {
    if order != [] {
      var n := |order| - 1;
      ScreenPositionsIncreasing(order[..n], s);
      ScreenPositionsBounded(order[..n], s);
    }
  }

  /** Every client of screen `s` has its position listed. */
  lemma {:induction false} ScreenPositionsComplete(order: seq<Client>, s: nat)
    ensures forall j :: 0 <= j < |order| && order[j].screen == s ==> j in ScreenPositions(order, s)
  {
    if order != [] {
      var n := |order| - 1;
      ScreenPositionsComplete(order[..n], s);
      forall j | 0 <= j < n && order[j].screen == s ensures j in ScreenPositions(order, s) {
        assert order[..n][j] == order[j];
      }
    }
  }

  /**
   * The published list is the subsequence of `order` picked out by
   * `ScreenPositions`: element k is the window of the client at the k-th
   * position of screen `s`.
   */
  lemma {:induction false} ScreenWindowsAt(order: seq<Client>, s: nat)
    ensures |ScreenWindows(order, s)| == |ScreenPositions(order, s)|
    ensures forall k :: 0 <= k < |ScreenWindows(order, s)| ==>
              ScreenPositions(order, s)[k] < |order| &&
              ScreenWindows(order, s)[k] == order[ScreenPositions(order, s)[k]].window
  {
    if order != [] {
      var n := |order| - 1;
      ScreenWindowsAt(order[..n], s);
      ScreenPositionsBounded(order[..n], s);
    }
  }

  /** A window is published for screen `s` exactly when some client of `s` in `order` owns it. */
  lemma {:induction false} ScreenWindowsMembership(order: seq<Client>, s: nat, w: Window)
    ensures w in ScreenWindows(order, s) <==>
              exists j :: 0 <= j < |order| && order[j].screen == s && order[j].window == w
  {
    if order != [] {
      var n := |order| - 1;
      ScreenWindowsMembership(order[..n], s, w);
      if w in ScreenWindows(order[..n], s) {
        var j :| 0 <= j < n && order[..n][j].screen == s && order[..n][j].window == w;
        assert order[j] == order[..n][j];
      }
      if exists j :: 0 <= j < |order| && order[j].screen == s && order[j].window == w {
        var j :| 0 <= j < |order| && order[j].screen == s && order[j].window == w;
        if j < n {
          assert order[..n][j] == order[j];
        }
      }
    }
  }

  /** Filtering distributes over concatenation of client lists. */
  lemma {:induction false} ScreenWindowsAppend(a: seq<Client>, b: seq<Client>, s: nat)
    ensures ScreenWindows(a + b, s) == ScreenWindows(a, s) + ScreenWindows(b, s)
  {
    if b != [] {
      var n := |b| - 1;
      assert (a + b)[..|a + b| - 1] == a + b[..n];
      ScreenWindowsAppend(a, b[..n], s);
    } else {
      assert a + b == a;
    }
  }

  /** `order` with its first occurrence of `c` taken out. */
  function RemoveFirst(order: seq<Client>, c: Client): (r: seq<Client>)
    ensures |r| == if c in order then |order| - 1 else |order|
    ensures c !in order ==> r == order
    ensures forall x :: x in r ==> x in order
  {
    if order == [] then []
    else if order[0] == c then order[1..]
    else [order[0]] + RemoveFirst(order[1..], c)
  }

  /** Taking out an occurrence of `c` removes one `c` and keeps every other client. */
  lemma {:induction false} RemoveFirstMultiset(order: seq<Client>, c: Client)
    requires c in order
    ensures multiset(RemoveFirst(order, c)) + multiset{c} == multiset(order)
  {
    var head, tail := order[0], order[1..];
    assert order == [head] + tail;
    if head != c {
      RemoveFirstMultiset(tail, c);
    }
  }

  /** The position of the first occurrence of `c` in `order`. */
  function FirstIndex(order: seq<Client>, c: Client): (i: nat)
    requires c in order
    ensures i < |order| && order[i] == c && c !in order[..i]
  {
    if order[0] == c then 0 else 1 + FirstIndex(order[1..], c)
  }

  /** RemoveFirst cuts out exactly the first `c` and keeps the rest in order. */
  lemma {:induction false} RemoveFirstSplit(order: seq<Client>, c: Client)
    requires c in order
    ensures RemoveFirst(order, c) == order[..FirstIndex(order, c)] + order[FirstIndex(order, c) + 1..]
  {
    if order[0] != c {
      var tail := order[1..];
      RemoveFirstSplit(tail, c);
      var i := FirstIndex(tail, c);
      assert order[..i + 1] == [order[0]] + tail[..i];
      assert order[i + 2..] == tail[i + 1..];
      calc {
        RemoveFirst(order, c);
        [order[0]] + RemoveFirst(tail, c);
        [order[0]] + (tail[..i] + tail[i + 1..]);
        ([order[0]] + tail[..i]) + tail[i + 1..];
      }
    }
  }

  /**
   * Move `c` to the head of the tab-cycle list: remove its first
   * occurrence and prepend it.
   */
  function MoveToHead(order: seq<Client>, c: Client): (r: seq<Client>)
    ensures |r| > 0 && r[0] == c
    ensures c in order ==> multiset(r) == multiset(order)
    ensures c in order ==> r == [c] + order[..FirstIndex(order, c)] + order[FirstIndex(order, c) + 1..]
    ensures c !in order ==> r == [c] + order
    ensures forall x :: x in r ==> x == c || x in order
  {
    if c in order then RemoveFirstMultiset(order, c); RemoveFirstSplit(order, c); [c] + RemoveFirst(order, c)
    else [c] + order
  }
}
