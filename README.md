# evilwm EWMH hint publisher, modelled in Dafny

This project models evilwm's `ewmh.c`, the part of the window manager that publishes Extended Window Manager Hints (the freedesktop.org EWMH specification) on root and client windows. It covers:

- the derivation of `_NET_WM_ALLOWED_ACTIONS` from a client's size hints
- the derivation of `_NET_WM_STATE` from the saved pre-maximise size
- the `_NET_WM_WINDOW_TYPE` desktop/dock mask
- `_NET_CLIENT_LIST` and `_NET_CLIENT_LIST_STACKING`, filtered per screen into the shared window buffer that `alloc_window_array` sizes
- the per-screen `_NET_ACTIVE_WINDOW`
- the root and supporting-window hints set up and torn down per screen (including `_NET_SUPPORTED`)
- `_NET_FRAME_EXTENTS`
- the small per-client hooks (deinit, withdraw, select, desktop)

The model has four modules, one file each:

- `x11.dfy` (`X11`): the X server as the model sees it.
  - Atoms are distinct constants, windows are ids, and property values carry their X type.
  - The property store is a map from (window, atom) to a value.
  - `WriteAll`, `DeleteAll` and `DestroyWindow` are replace-mode writes, deletes and window destruction on that map.
  - `ReadAtoms` models reading an ATOM-typed property.
- `clients.dfy` (`Clients`): the client and screen records the hooks read, with two list operations and their lemmas.
  - The screen filter (`ScreenWindows`), with the positions it picks (`ScreenPositions`).
  - Move-to-head for the tab order (`MoveToHead`).
- `hints.dfy` (`Hints`): the code in `ewmh.c` that only computes values, written as functions. Each function's contract or its lemmas state what the value means.
- `ewmh.dfy` (`Ewmh`): the class `WindowManager`, which owns the state that `ewmh.c` reads and changes:
  - the property store
  - the next free window id
  - the screens
  - the mapping, stacking and tab orders
  - the shared `window_array` buffer, as an `array<Window>`.

  Each hook is a method with a `modifies` frame. Loops stay loops:
  - the counting loop in `alloc_window_array`
  - the buffer fill in the two list hooks
  - the OR loop over the window-type atoms
  - the loop over screens for the active window.

  Each method's `ensures` gives the new state or the result, mostly in terms of the `Hints`/`Clients` functions.

The `#ifdef VWM` build switch is the constant `vwm` of `WindowManager`. The border width `opt_bw` is the constant `borderWidth`.

## Model

| member | source | states |
|---|---|---|
| Hints.AllowedActions | ewmh.c:257-277 | 6 entries exactly when max width and max height are non-zero and equal the minimums, otherwise 7. The first six are always move, maximise-horizontal, maximise-vertical, fullscreen, change-desktop, close, in that order. When present, resize is the seventh. Resize is listed iff the size is not fixed. |
| Ewmh.WindowManager.InitClient | ewmh.c:257-277 | Replaces `_NET_WM_ALLOWED_ACTIONS` on the client's window with `AllowedActions(c)` and changes nothing else. |
| Ewmh.WindowManager.DeinitClient | ewmh.c:279-281 | Removes exactly the client's `_NET_WM_ALLOWED_ACTIONS`. |
| Ewmh.WindowManager.WithdrawClient | ewmh.c:283-288 | Removes the client's `_NET_WM_STATE`, plus `_NET_WM_DESKTOP` in a virtual-desktop build, and nothing else. |
| Clients.MoveToHead | ewmh.c:290-292 | The selected client heads the tab order. When the client was in the list, the result is a permutation of the old list: the client is cut out of its first position and the other clients keep their order. Otherwise the client is prepended to it. |
| Clients.RemoveFirst | ewmh.c:290-292 | Removal makes the list one shorter when the client is listed, and leaves it unchanged otherwise. Every client left was in the old list. |
| Clients.ScreenWindows | ewmh.c:296-303 | The windows published for a screen are never more than the clients in the list. |
| Clients.RemoveFirstMultiset | ewmh.c:290-292 | Removing a listed client takes out one copy of it and keeps every other client. |
| Clients.RemoveFirstSplit | ewmh.c:290-292 | Removal cuts out exactly the first occurrence and keeps the rest in order. |
| Ewmh.WindowManager.SelectClient | ewmh.c:290-292 | The tab order becomes `MoveToHead` of the old tab order. |
| Ewmh.WindowManager.FillScreenWindows | ewmh.c:296-303 | The counter stays within the buffer. The filled prefix is exactly the screen-filtered windows of the given order. |
| Clients.ScreenPositionsBounded | ewmh.c:296-303 | Every picked position lies within the list and holds a client of the screen. |
| Clients.ScreenPositionsIncreasing | ewmh.c:296-303 | Picked positions strictly increase, so the published list keeps the list's relative order. |
| Clients.ScreenPositionsComplete | ewmh.c:296-303 | Every client of the screen is picked. |
| Clients.ScreenWindowsAt | ewmh.c:296-303 | Entry k of the published list is the window of the client at the k-th picked position: it is the subsequence of that screen's clients. |
| Clients.ScreenWindowsMembership | ewmh.c:296-303 | A window is published for a screen iff some client of that screen in the list owns it. |
| Clients.ScreenWindowsAppend | ewmh.c:296-303 | Filtering distributes over concatenation of client lists. |
| Ewmh.WindowManager.SetNetClientList | ewmh.c:294-307 | `_NET_CLIENT_LIST` on the screen's root becomes that screen's windows in mapping order. The buffer is reallocated at `WindowArrayCapacity` of the mapping count. |
| Ewmh.WindowManager.SetNetClientListStacking | ewmh.c:309-322 | `_NET_CLIENT_LIST_STACKING` becomes that screen's windows in stacking order. The buffer is sized from the mapping order. The stacking list never outgrows the mapping list, so the fill stays in bounds. |
| Ewmh.WindowManager.SetNetCurrentDesktop | ewmh.c:324-331 | In a virtual-desktop build, `_NET_CURRENT_DESKTOP` on the root becomes the screen's desktop. |
| Hints.ActiveFor | ewmh.c:333-346 | On screen i: the focused client's window if the client is on screen i, otherwise None. |
| Hints.ActiveOnOneScreen | ewmh.c:333-346 | At most one screen shows a window other than None. |
| Ewmh.WindowManager.SetNetActiveWindow | ewmh.c:333-346 | Every screen's root holds `ActiveFor(c, i)`. Only those keys are written. Every other property is unchanged. |
| Ewmh.WindowManager.WriteActiveWindows | ewmh.c:335-345 | The loop over screens leaves each root's `_NET_ACTIVE_WINDOW` at `ActiveFor(c, i)` and touches no other key. With distinct roots, a later screen never overwrites an earlier one. |
| Ewmh.WindowManager.SetNetWmDesktop | ewmh.c:348-355 | In a virtual-desktop build, `_NET_WM_DESKTOP` on the client becomes its desktop. |
| Hints.WindowType | ewmh.c:357-371 | The desktop bit is set iff the desktop atom occurs in the list. The dock bit is set iff the dock atom occurs. No other bit is ever set. |
| Hints.WindowTypeAppend | ewmh.c:362-367 | OR-ing one more atom's bit gives the mask of the longer list. |
| Hints.WindowTypeIgnoresOthers | ewmh.c:362-367 | Atoms other than the two window types leave the mask unchanged. |
| Ewmh.WindowManager.GetNetWmWindowType | ewmh.c:357-371 | The loop's result is `WindowType` of the property's atoms, or 0 when the property is absent or not ATOM-typed. |
| Hints.WmState | ewmh.c:373-381 | At most 3 entries. Vertical appears iff `oldh != 0`, horizontal iff `oldw != 0`, fullscreen iff both. No other atom appears. The entries come in vertical, horizontal, fullscreen order. |
| Hints.WmStateCases | ewmh.c:373-381 | The four cases written out, including the empty list when both are zero. |
| Ewmh.WindowManager.NetWmStateAtoms | ewmh.c:374-381 | Filling the three-slot array never overruns it and yields `WmState(oldw, oldh)`. |
| Ewmh.WindowManager.SetNetWmState | ewmh.c:373-385 | `_NET_WM_STATE` on the client becomes `WmState(oldw, oldh)`. |
| Hints.FrameExtents | ewmh.c:387-393 | Four values, each the border width. |
| Ewmh.WindowManager.SetNetFrameExtents | ewmh.c:387-393 | `_NET_FRAME_EXTENTS` on the window becomes `FrameExtents(borderWidth)`. |
| Hints.RoundUp128 | ewmh.c:402-403 | The result is a multiple of 128, at least n and less than n + 128. |
| Hints.WindowArrayCapacity | ewmh.c:395-406 | The capacity is ≥ 1, ≥ n, a multiple of 128, and less than max(1, n) + 128. |
| Hints.WindowArrayCapacityShrinks | ewmh.c:395-406 | The capacity follows the count down (129 mapped clients give 256, 1 gives 128), so it is not growth-only. |
| Ewmh.WindowManager.AllocWindowArray | ewmh.c:395-406 | The counting loop counts the mapping order. The buffer is replaced by a fresh array of `WindowArrayCapacity(count)`. |
| Hints.Supported | ewmh.c:148-192 | `_NET_SUPPORTED` has 31 entries in a virtual-desktop build and 28 otherwise. |
| Hints.SupportedVirtualDesktops | ewmh.c:148-192 | The desktop-count, current-desktop and client-desktop atoms are advertised exactly in a virtual-desktop build. |
| Hints.SupportedOmits | ewmh.c:148-192 | `_NET_SUPPORTED` lists neither itself nor `_NET_WM_NAME` nor `_NET_WM_PID`. |
| Hints.SupportedMaintained | ewmh.c:148-192 | The client lists, active window, frame extents, allowed actions and state are advertised. |
| Hints.ClientAtomsAdvertised | ewmh.c:148-192 | Every atom published in a client's allowed actions or state is advertised. |
| Hints.ScreenRootHints | ewmh.c:193-227 | The root receives exactly the init atoms. Geometry = [w, h], viewport = [0, 0], work area = [0, 0, w, h], check = [supporting], and in a virtual-desktop build 8 desktops and the screen's current desktop. |
| Hints.SupportingHints | ewmh.c:228-236 | The supporting window receives exactly the check (pointing at itself), the name "evilwm" and the process id. |
| Ewmh.WindowManager.CreateSupportingWindow | ewmh.c:201 | The supporting window gets a fresh id. It is distinct from every existing root and supporting window, from every window holding a property and from every listed client's window. |
| Ewmh.WindowManager.PublishScreenHints | ewmh.c:202-236 | All of both hint maps are written and nothing else changes. |
| Ewmh.WindowManager.InitScreen | ewmh.c:146-237 | Creates the supporting window, then publishes `ScreenRootHints` on the root and `SupportingHints` on the supporting window. Every other property is unchanged. The new supporting window held no property before and belongs to no listed client. |
| Hints.DeinitCoversInit | ewmh.c:239-255 | Deinit deletes every root atom init wrote, as well as the client lists and the active window. |
| Ewmh.WindowManager.DeinitScreen | ewmh.c:239-255 | Exactly the screen's root hints and the supporting window's properties disappear. Every other property keeps its value. In particular every property of a window that is no screen's root or supporting window survives, so the properties of listed clients survive. |
| Hints.DeinitUndoesInit | ewmh.c:146-255 | Deinitialising right after initialising leaves the same store as deinitialising alone. |
| X11.DeleteUndoesWrite | ewmh.c:240-253 | Deleting a set of properties undoes replace-mode writes to any of them. |
| X11.DestroyUndoesWrite | ewmh.c:254 | Destroying a window undoes writes to it. |
| X11.WriteAll | ewmh.c:202-236 | Batched writes on one window: exactly those keys are set to the given values and the rest are kept. |
| X11.DeleteAll | ewmh.c:240-253 | Batched deletes on one window: exactly those keys go and the rest keep their values. |
| X11.DestroyWindow | ewmh.c:254 | Every property of the window goes and the rest keep their values. |
| X11.ReadAtoms | ewmh.c:361 | Some list exactly when the property exists and is ATOM-typed, and then that list. |

## Left out

- Atom interning in `ewmh_init` and the atom table (ewmh.c:74-144): atoms are distinct constants of the `Atom` datatype. `Foreign` stands for any other atom a client may set.
- X transport: `XChangeProperty`, `XDeleteProperty` and `XDestroyWindow` are updates of the property map. The format field is reduced to the value's type, and the 32-bit element width is not modelled. `XFree` and the round trip to the server are not modelled.
- `XCreateSimpleWindow` is a counter that hands out fresh ids. The created window's geometry and parent are not modelled.
- `getpid` is the `pid` parameter of `InitScreen`. `DisplayWidth`/`DisplayHeight` are the screen record's `width` and `height`.
- `get_property` lives in misc.c, which is not part of this model. `ReadAtoms` takes it to return nothing when the property is absent or not of type ATOM. In either case the mask is 0.
- `list_to_head` lives in list.c, which is not part of this model. `MoveToHead` takes it to remove the first occurrence and prepend.
- The client lists are linked lists in the source and sequences here.
- A client's `screen` pointer is represented by its screen index. Comparing `c->screen == s` becomes index equality, which matches `i == c->screen->screen` in the active-window hook.
- `EWMH_WINDOW_TYPE_DESKTOP` and `EWMH_WINDOW_TYPE_DOCK` are defined in evilwm.h, which is not part of this model. They are taken to be bits 0 and 1.
- The mapping and stacking orders hold the same live clients; this is kept by the client registry, outside `ewmh.c`. The class invariant `Valid` keeps only the consequence the stacking hook relies on: the stacking list is no longer than the mapping list.
- Window ids are handed out in increasing order. `Valid` also keeps every screen's windows, every window holding a property and every listed client's window below the next free id. The hooks that write to a client's window require that window to exist, that is, to lie below the next free id. They also require it to be none of the manager's own root and supporting windows, which evilwm never manages. `Valid` keeps the same for every listed client, and keeps every screen's supporting window apart from every root.
- Hints.RoundUp128: computes `(n + 127) / 128 * 128` on unbounded integers. It does not model the 32-bit `unsigned int` wrap of `(count + 127) & ~127`, which only differs for counts within 127 of 2^32.
- Ewmh.WindowManager.AllocWindowArray: `realloc` is a fresh array. The model does not keep the old contents, which the hooks overwrite before reading, and does not model allocation failure.
- Ewmh.WindowManager.InitScreen and Ewmh.WindowManager.DeinitScreen: the property writes and deletes of one window are applied as one batch. Their order is not modelled; the keys are distinct, so the final store is the same.
- The `#ifdef VWM` variants are the boolean `vwm`, not conditional compilation.
- `alloc_window_array` reallocates on every call, so the buffer can shrink (see `Hints.WindowArrayCapacityShrinks`).
- `_NET_SUPPORTED` omits itself, `_NET_WM_NAME` and `_NET_WM_PID`, and lists `_NET_WM_DESKTOP` only in a virtual-desktop build (see `Hints.SupportedOmits`).
- Clients.MoveToHead, Clients.RemoveFirst and the hooks that take a client: clients are compared as whole records, not by pointer identity as in the source. The orders are assumed to hold each client's current record, so a record equals the listed one exactly when it is the same client.
