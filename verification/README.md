# borderless-window chrome, modelled in Dafny

`borderless-window.c` gives a Win32 window custom chrome. It keeps native resizing,
snapping, maximizing and the compositor's shadow, but it removes the title bar and
border that the system would paint. It does this by intercepting the window's
non-client messages. This project models the decision logic behind those messages.
It covers five parts:

- **Clip-region synthesizer** (`update_region`): the window region for the
  maximized, non-composited and composited cases. A region is applied only when it
  changes, and the all-zero rectangle is applied as "no region".
- **Composition and theme trackers** (`handle_compositionchanged`,
  `handle_themechanged`).
- **Non-client geometry negotiator** (`handle_nccalcsize`, `has_autohide_appbar`):
  the client rectangle, including the one-unit compensation for auto-hide appbars.
- **Hit-test resolver** (`handle_nchittest`): nine zones, with corners taking
  precedence over edges.
- **Resize reactor** (`handle_windowposchanged`) and the routing switch of
  `borderless_window_proc`.

Every system query is a plain parameter of the model: `IsMaximized`,
`GetWindowInfo`, `GetClientRect`, `GetSystemMetrics`, the monitor rectangle, the
shell's appbar queries, `IsWindows8Point1OrGreater`, `DwmIsCompositionEnabled` and
`IsThemeActive`. With that done, every rule is a pure function over integer
rectangles. A system call borderless-window.c makes (`SetWindowRgn`, the DWM frame request,
`InvalidateRect`) is returned as a value in the result.

Integer widths follow the C code on 64-bit Windows, where both `LONG` and `unsigned`
are 32 bits wide:

- `width` and `height` are `unsigned` (`Win32.u32`).
- A comparison between a `LONG` and an `unsigned` expression is done in unsigned
  32-bit arithmetic (`Win32.UnsignedAtLeast`).
- An unsigned expression stored into a RECT field is converted back to a `LONG`
  (`Win32.ToLong`) where it can wrap at realistic sizes: the invalidated strips.
  The one other such store, `top + cyWindowBorders` in `CalcSize.MaximizedClient`
  (`cyWindowBorders` is a `UINT`), is taken as a plain integer sum, which agrees with
  the unsigned sum read back as a `LONG` whenever the resulting top fits a `LONG`.

Modules: `Win32` holds the conversions, `Rect` and the constants. `Chrome` holds the
state, the region and the trackers. The other modules are `HitTest`, `CalcSize`,
`Reactor` and `Dispatch`.

In three places the code does something other than what one might expect, and the model follows the code:

- On WM_DESTROY the code only posts a quit message. The state block is freed after
  the message loop ends, not when the window is destroyed.
- On a maximized WM_NCCALCSIZE, the new top is the top of the rectangle *before*
  DefWindowProc ran, plus `cyWindowBorders`. It is not derived from the top that
  DefWindowProc proposed.
- WM_NCACTIVATE calls DefWindowProc with lParam -1. That value makes DefWindowProc
  skip the border repaint; it does not force one.

## Model

| member | source | states |
|---|---|---|
| Chrome.ComputeRegion | borderless-window.c:48-74 | Maximized: the region is the client rectangle moved to window-relative coordinates, so it has the client's width and height. Otherwise: the 32767 square when composition is off, and the zero rectangle when it is on. |
| Chrome.ApplyOnChange | borderless-window.c:76-83 | No SetWindowRgn call happens exactly when the new region equals the stored one. Otherwise the call puts the new region in effect, and it is the NULL region exactly when the new region is the zero rectangle. |
| Chrome.UpdateRegion | borderless-window.c:44-84 | The region is stored unconditionally and no other field changes. An apply happens if and only if the region changed. The apply leaves the stored region in effect, and it is NULL exactly for the all-zero rectangle; any other rectangle, empty or not, is applied as a rect region. |
| Chrome.UpdateRegionIdempotent | borderless-window.c:76-78 | A second update_region call with unchanged inputs issues no apply call and leaves the state unchanged. |
| Chrome.NonMaximizedRegionIsGeometryIndependent | borderless-window.c:60-74 | For a window that is not maximized, the region and the apply decision do not depend on the window geometry. A composited window whose stored region is the zero rectangle issues no apply call. |
| Chrome.MaximizedRegionInsideWindow | borderless-window.c:48-59 | When the client rectangle lies inside the window rectangle, the maximized region lies inside the window's own extent. It does not depend on the composition flag. |
| Chrome.Replay | borderless-window.c:44-84 | Over a run of update_region calls, the log of SetWindowRgn calls is exactly the run's change points: every computed region that differs from the region stored just before it, in order. Only the stored region changes, it ends as the last computed region, and the zero rectangle is never applied as a rect region. |
| Chrome.ChangePointsShape | borderless-window.c:76-83 | A run has no more change points than calls. The first change point differs from the starting region, consecutive change points differ, and the last one is the last computed region. A run with no change point computes the starting region at every call. |
| Chrome.SteadyRunHasNoChangePoints | borderless-window.c:76-78 | A run that only ever computes the region already stored makes no SetWindowRgn call. |
| Chrome.ReplayAppliesOnlyChanges | borderless-window.c:76-83 | The log has no more entries than calls. No apply repeats the region already in effect. The stored region equals the last apply, or the starting region if nothing was applied. |
| Chrome.ReplayEndsOnLastRegion | borderless-window.c:48-74 | After a non-empty run, the stored region is the one computed by the last call. |
| Chrome.ReplayOfIdenticalInputs | borderless-window.c:44-84 | A run of calls with identical inputs applies at most once. |
| Chrome.ReplayRegionUpdates | borderless-window.c:44-84 | The run as a procedure: its log is exactly the change points of the computed regions, so it holds one apply per call whose region differs from the stored one and no other. It never repeats the region in effect and never applies the zero rectangle as a rect region. The stored region always equals the last apply, or the initial region if nothing was applied, and no other field changes. A run of identical calls applies at most once. |
| Chrome.CompositionChanged | borderless-window.c:92-107 | The new flag is stored before the region is recomputed, so the region is computed from the new flag. The shadow margins (0, 0, 1, 0) and the non-client rendering policy are requested exactly when composition is on. A window that is not maximized ends with the zero region exactly when composition is on. An apply, if issued, puts the recomputed region in effect, as NULL exactly for the all-zero rectangle. |
| Chrome.StartupCompositionCheck | borderless-window.c:487-502 | On the zero-filled start-up state of a window that is not maximized, the first composition check issues no apply when composition is on, and applies the 32767 square when it is off. |
| Chrome.ThemeChanged | borderless-window.c:342-345 | Stores the theme flag and changes nothing else. |
| HitTest.Code | borderless-window.c:303-323 | Every zone maps to HTCLIENT or to one of HTLEFT..HTBOTTOMRIGHT, and each of the nine zones maps to its own code and no other zone does: the interior to HTCLIENT, the left edge to HTLEFT, and so on through the bottom-right corner to HTBOTTOMRIGHT. |
| HitTest.NcHitTest | borderless-window.c:288-324 | A maximized window is interior everywhere. The top band, using signed comparisons, resolves to TOPLEFT, then TOPRIGHT by the unsigned comparison, then TOP. Top zones occur only in the top band. Bottom zones occur only below the top band and inside the bottom band by the unsigned comparison. Sides and interior occur only outside both bands. |
| HitTest.NcHitTestMatchesBands | borderless-window.c:296-323 | When the metrics are non-negative and the window is at least as wide as the corner handles and as tall as the frame, the unsigned arithmetic never wraps. In that case the resolver equals the band-grid reference definition. |
| HitTest.BandZoneCharacterization | borderless-window.c:303-323 | Each of the nine zones holds exactly the points of its bands. Corners use the diagonal width, the top band is checked before the bottom band, and sides use the frame size. |
| HitTest.CornersWinOverEdges | borderless-window.c:303-317 | A point in the top band that is also within the left frame is TOPLEFT. A point in the bottom band (and not the top), past the left handle and within the right frame is BOTTOMRIGHT. |
| HitTest.NarrowWindowHasNoTopRightCorner | borderless-window.c:301-308 | If the window is narrower than the corner handles, `width - diagonal_width` wraps. A top-band point past the left handle then resolves to TOP, where the band grid says TOPRIGHT. |
| HitTest.UnsignedAtLeastAgrees | borderless-window.c:306 | For a LONG at least as large as the threshold, and a threshold that fits, the unsigned comparison agrees with the integer comparison. |
| HitTest.ExampleZones | borderless-window.c:288-324 | With a frame of 8 and corner handles 19 wide on a 200x200 window: (5,5) is TOPLEFT, (5,100) is LEFT, (100,5) is TOP and (100,100) is the interior; when maximized, (5,5) is the interior. |
| CalcSize.EdgeCode | borderless-window.c:271-278 | Each edge is passed to the shell as its ABE_* code (0 to 3), and distinct edges get distinct codes. |
| CalcSize.HasAutohideAppbar | borderless-window.c:211-229 | On Windows 8.1 or later, the answer is the per-monitor query for the edge's ABE_* code. Before that, a monitor with a non-zero left or top reports no appbar, and the primary monitor uses the primary-only query. |
| CalcSize.FirstAutohideEdge | borderless-window.c:270-279 | The result is an edge that has an appbar, with no appbar on any earlier edge of the list. The result is None exactly when no edge in the list has one. |
| CalcSize.MaximizedClient | borderless-window.c:245-257 | Left, right and bottom come from DefWindowProc's proposal. The top is the original top plus cyWindowBorders. |
| CalcSize.NcCalcSize | borderless-window.c:231-286 | A window that is not maximized gets its original rectangle, so the whole window is client area. A maximized window gets the adjusted proposal. If that equals the monitor, the result is the monitor inset on the first edge with an appbar in the order bottom, left, top, right, or the monitor itself if no edge has one. |
| CalcSize.CompensationMovesOneEdgeInward | borderless-window.c:263-279 | Take a monitor-filling maximized client rectangle with an appbar on some edge. The compensation moves exactly one edge inward by one unit. The result stays inside the monitor and no longer equals it. |
| CalcSize.NoAppbarNoCompensation | borderless-window.c:270-279 | With no auto-hide appbar on any edge, the adjusted proposal is returned unchanged. |
| CalcSize.PreWindows81SecondaryMonitor | borderless-window.c:221-224 | Before Windows 8.1, a window maximized on a monitor away from the origin is never compensated. |
| CalcSize.OnlyLeftAppbar | borderless-window.c:270-279 | With an appbar only on the left edge, exactly the left edge moves inward by one unit. |
| Reactor.WindowPosChanged | borderless-window.c:347-381 | Covers the handler together with the SWP_FRAMECHANGED test `Win32.HasFrameChanged`. The width and height are always overwritten with the new client size, and the flags and other fields are kept. The region is recomputed if and only if the size changed or SWP_FRAMECHANGED is set. Two strips are invalidated exactly when the size changed. An apply, if issued, puts the recomputed region in effect, as NULL exactly for the all-zero rectangle. |
| Reactor.StripsInIntegers | borderless-window.c:360-380 | States the strips built by `Reactor.ColumnStrip` and `Reactor.RowStrip`. For sizes that fit in a LONG, the column strip spans [min(old_w, new_w) - 1, min(old_w, new_w)), over the old height if the width grew and the new height otherwise. The row strip is the same on the other axis. A zero old size gives -1 after the unsigned wrap. |
| Reactor.GrowingWidthInvalidatesOldColumn | borderless-window.c:362-365 | Growing from W0 to W1 > W0 invalidates `{W0-1, 0, W0, old_h}`, over the old height. |
| Reactor.UnchangedPositionIsNoOp | borderless-window.c:355-358 | With the same size and no frame change, the state is unchanged, nothing is applied and nothing is invalidated. |
| Dispatch.Route | borderless-window.c:398-474 | WM_NCCREATE attaches a state exactly when none is attached yet, and no other message and no window with a state ever re-attaches; without a state everything else goes to default handling. With a state, each dedicated handler runs exactly for its own message: WM_CLOSE destroys, WM_DESTROY posts quit, and the composition change, key-down, left-button, NCACTIVATE, NCCALCSIZE, NCHITTEST, PAINT, THEMECHANGED and WINDOWPOSCHANGED messages each reach their handler and no other message does. WM_NCPAINT is suppressed exactly when composition is off. WM_SETICON and WM_SETTEXT take the invisible path exactly when composition and theme are both off. The undocumented caption and frame messages are always suppressed, and nothing else is. |
| Dispatch.RouteReadsOnlyFlags | borderless-window.c:441-464 | Two states with the same composition and theme flags route every message alike. |
| Dispatch.CompositedWindowKeepsDefaultPainting | borderless-window.c:441-464 | With composition on, WM_NCPAINT, WM_SETICON and WM_SETTEXT go to default handling. |

## Left out

- `wWinMain` (borderless-window.c:476-516) is left out. It covers class registration, window creation, the layered-window setup and the message loop, which are process bootstrap and I/O.
- `handle_paint`, `handle_keydown` and `handle_message_invisible` are left out. The first two are diagnostic drawing and key commands; the third toggles the window style. Only the routing decision to call them is modelled (`Paint`, `DebugKey`, `DefaultWhileInvisible`).
- `handle_nccreate` and the lifetime of the state block are not modelled. This covers `calloc`/`free` and storing the pointer in the GWLP_USERDATA slot. The dispatcher sees the state as `Option<ChromeState>`.
- The effects of the Win32, DWM and shell calls are not modelled. Their answers are parameters, and the calls the code makes are returned as values: `RegionOp`, `FrameRequest` and the invalidated rectangles. What DefWindowProc computes is the `proposed` parameter of `CalcSize.NcCalcSize`.
- The order of system calls within one handler is not modelled. `Chrome.CompositionChanged` returns the DWM frame request and the region apply as separate fields, so it does not state that the DWM calls come before `SetWindowRgn` (borderless-window.c:101-106).
- The HWND is not part of the state, because it is opaque.
- Overflow of RECT coordinates (32-bit LONG) is not modelled. Rectangle arithmetic uses unbounded integers, because screen coordinates stay far from the limits. The unsigned arithmetic on the cached width and height *is* modelled, because it can wrap at realistic sizes.
- HitTest.NcHitTest: the point is taken already converted by ScreenToClient. Its ensures state the top band in full, the band membership of each zone, and the maximized case; the left/right choice within the bottom and middle bands is not stated there. The exact mapping for every band is stated in plain integers by `HitTest.NcHitTestMatchesBands`, for windows at least as large as their handles.
