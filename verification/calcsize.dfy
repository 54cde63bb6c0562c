/**
  The non-client geometry negotiator (`handle_nccalcsize` and
  `has_autohide_appbar`). DefWindowProc's proposal, GetWindowInfo's
  cyWindowBorders, the monitor rectangle and the shell's auto-hide appbar
  queries are all parameters, so the negotiation is a pure rectangle transform.
 */
module CalcSize {
  import opened Wrappers
  import opened Win32

  /** The screen edges an appbar can dock to. */
  datatype Edge = EdgeLeft | EdgeTop | EdgeRight | EdgeBottom

  /** The ABE_* code SHAppBarMessage receives for an edge. */
  function EdgeCode(e: Edge): (c: int)
    ensures ABE_LEFT <= c <= ABE_BOTTOM
    ensures c == ABE_LEFT <==> e == EdgeLeft
    ensures c == ABE_TOP <==> e == EdgeTop
    ensures c == ABE_RIGHT <==> e == EdgeRight
  {
    match e
    case EdgeLeft => ABE_LEFT
    case EdgeTop => ABE_TOP
    case EdgeRight => ABE_RIGHT
    case EdgeBottom => ABE_BOTTOM
  }

  /**
    The shell as far as the negotiator can see it. `autohideOnMonitor` answers
    ABM_GETAUTOHIDEBAREX (an ABE_* edge code of a given monitor), `autohideOnPrimary`
    answers ABM_GETAUTOHIDEBAR (an ABE_* edge code of the primary monitor only), and
    `windows81OrGreater` selects which of the two queries is available.
   */
  datatype Shell = Shell(
    windows81OrGreater: bool,
    autohideOnMonitor: (int, Rect) -> bool,
    autohideOnPrimary: int -> bool)

  /**
    has_autohide_appbar: whether an auto-hide appbar is registered on `edge` of
    monitor `mon`. Before Windows 8.1 only the primary monitor (the one at the
    origin) can be asked, so any other monitor reports none.
   */
  function HasAutohideAppbar(edge: Edge, mon: Rect, shell: Shell): (found: bool)
    ensures shell.windows81OrGreater ==> (found <==> shell.autohideOnMonitor(EdgeCode(edge), mon))
    ensures !shell.windows81OrGreater && (mon.left != 0 || mon.top != 0) ==> !found
    ensures !shell.windows81OrGreater && mon.left == 0 && mon.top == 0 ==>
      (found <==> shell.autohideOnPrimary(EdgeCode(edge)))
  {
    if shell.windows81OrGreater then
      shell.autohideOnMonitor(EdgeCode(edge), mon)
    else if mon.left != 0 || mon.top != 0 then
      false
    else
      shell.autohideOnPrimary(EdgeCode(edge))
  }

  /** The order in which the edges are probed for an auto-hide appbar. */
  const PROBE_ORDER: seq<Edge> := [EdgeBottom, EdgeLeft, EdgeTop, EdgeRight]

  /**
    Reference definition of the probe: the first edge of `edges` that has an
    auto-hide appbar on `mon`, if any.
   */
  function FirstAutohideEdge(edges: seq<Edge>, mon: Rect, shell: Shell): (r: Option<Edge>)
    ensures r.Some? ==> r.value in edges && HasAutohideAppbar(r.value, mon, shell)
    ensures r.Some? ==> exists k :: 0 <= k < |edges| && edges[k] == r.value
                          && forall j :: 0 <= j < k ==> !HasAutohideAppbar(edges[j], mon, shell)
    ensures r.None? <==> forall j :: 0 <= j < |edges| ==> !HasAutohideAppbar(edges[j], mon, shell)
    decreases |edges|
  {
    if |edges| == 0 then None
    else if HasAutohideAppbar(edges[0], mon, shell) then Some(edges[0])
    else
      var rest := FirstAutohideEdge(edges[1..], mon, shell);
      if rest.Some? then
        ghost var k :| 0 <= k < |edges[1..]| && edges[1..][k] == rest.value
                       && forall j :: 0 <= j < k ==> !HasAutohideAppbar(edges[1..][j], mon, shell);
        assert edges[k + 1] == rest.value;
        assert forall j :: 0 <= j < k + 1 ==> !HasAutohideAppbar(edges[j], mon, shell) by {
          forall j | 0 <= j < k + 1
            ensures !HasAutohideAppbar(edges[j], mon, shell)
          {
            if j > 0 {
              assert edges[j] == edges[1..][j - 1];
            }
          }
        }
        rest
      else
        assert forall j :: 1 <= j < |edges| ==> edges[j] == edges[1..][j - 1];
        rest
  }

  /** Pull edge `e` of `r` inward by one unit. */
  function InsetEdge(r: Rect, e: Edge): Rect {
    match e
    case EdgeBottom => r.(bottom := r.bottom - 1)
    case EdgeLeft => r.(left := r.left + 1)
    case EdgeTop => r.(top := r.top + 1)
    case EdgeRight => r.(right := r.right - 1)
  }

  /**
    The maximized client rectangle before the auto-hide compensation: DefWindowProc's
    left, right and bottom, with the top moved down from the original rectangle's top
    by the window border thickness to remove the title bar.
   */
  function MaximizedClient(original: Rect, proposed: Rect, cyWindowBorders: int): (r: Rect)
    ensures r.left == proposed.left && r.right == proposed.right && r.bottom == proposed.bottom
    ensures r.top - original.top == cyWindowBorders
  {
    Rect(proposed.left, original.top + cyWindowBorders, proposed.right, proposed.bottom)
  }

  /**
    handle_nccalcsize: `original` is the rectangle before DefWindowProc ran and
    `proposed` the client rectangle it wrote. A non-maximized window's client area
    is the whole window. A maximized one keeps the proposal but loses the title bar;
    if that fills the monitor exactly, the first edge (bottom, left, top, right) with
    an auto-hide appbar is pulled in by one unit so the shell does not treat the
    window as fullscreen.
   */
  function NcCalcSize(original: Rect, proposed: Rect, maximized: bool, cyWindowBorders: int,
                      monitor: Rect, shell: Shell): (r: Rect)
    ensures !maximized ==> r == original
    ensures maximized && MaximizedClient(original, proposed, cyWindowBorders) != monitor ==>
      r == MaximizedClient(original, proposed, cyWindowBorders)
    ensures maximized && MaximizedClient(original, proposed, cyWindowBorders) == monitor ==>
      r == (match FirstAutohideEdge(PROBE_ORDER, monitor, shell)
            case None => monitor
            case Some(e) => InsetEdge(monitor, e))
  {
    if maximized then
      var client := MaximizedClient(original, proposed, cyWindowBorders);
      if client == monitor then
        if HasAutohideAppbar(EdgeBottom, monitor, shell) then client.(bottom := client.bottom - 1)
        else if HasAutohideAppbar(EdgeLeft, monitor, shell) then client.(left := client.left + 1)
        else if HasAutohideAppbar(EdgeTop, monitor, shell) then client.(top := client.top + 1)
        else if HasAutohideAppbar(EdgeRight, monitor, shell) then client.(right := client.right - 1)
        else client
      else
        client
    else
      original
  }

  /**
    The compensation changes exactly one edge of a monitor-filling client rectangle
    by one unit inward whenever some edge has an auto-hide appbar, so the result is
    never the monitor rectangle again; and it stays inside the monitor.
   */
  lemma CompensationMovesOneEdgeInward(original: Rect, proposed: Rect,
                                           cyWindowBorders: int, monitor: Rect, shell: Shell)
    requires MaximizedClient(original, proposed, cyWindowBorders) == monitor
    requires exists e :: HasAutohideAppbar(e, monitor, shell)
    ensures var r := NcCalcSize(original, proposed, true, cyWindowBorders, monitor, shell);
            && r != monitor
            && r.Inside(monitor)
            && (r.left - monitor.left) + (r.top - monitor.top)
               + (monitor.right - r.right) + (monitor.bottom - r.bottom) == 1
  {
    var e :| HasAutohideAppbar(e, monitor, shell);
    var k := match e
      case EdgeBottom => 0
      case EdgeLeft => 1
      case EdgeTop => 2
      case EdgeRight => 3;
    assert PROBE_ORDER[k] == e;
    assert !(forall j :: 0 <= j < |PROBE_ORDER| ==> !HasAutohideAppbar(PROBE_ORDER[j], monitor, shell));
    assert FirstAutohideEdge(PROBE_ORDER, monitor, shell).Some?;
  }

  /** With no auto-hide appbar on any edge, a maximized window keeps the adjusted proposal. */
  lemma NoAppbarNoCompensation(original: Rect, proposed: Rect, cyWindowBorders: int,
                               monitor: Rect, shell: Shell)
    requires forall e :: !HasAutohideAppbar(e, monitor, shell)
    ensures NcCalcSize(original, proposed, true, cyWindowBorders, monitor, shell)
            == MaximizedClient(original, proposed, cyWindowBorders)
  {
  }

  /**
    Before Windows 8.1 a window maximized on a monitor away from the origin is never
    compensated, whatever the primary monitor's appbars are.
   */
  lemma PreWindows81SecondaryMonitor(original: Rect, proposed: Rect, cyWindowBorders: int,
                                     monitor: Rect, shell: Shell)
    requires !shell.windows81OrGreater
    requires monitor.left != 0 || monitor.top != 0
    ensures NcCalcSize(original, proposed, true, cyWindowBorders, monitor, shell)
            == MaximizedClient(original, proposed, cyWindowBorders)
  {
  }

  /**
    A concrete auto-hide case: a monitor-filling maximized window with
    an auto-hide appbar only on the left edge gets its left edge moved in by one unit
    and nothing else changed.
   */
  lemma OnlyLeftAppbar(original: Rect, proposed: Rect, cyWindowBorders: int,
                       monitor: Rect, shell: Shell)
    requires MaximizedClient(original, proposed, cyWindowBorders) == monitor
    requires forall e :: HasAutohideAppbar(e, monitor, shell) <==> e == EdgeLeft
    ensures NcCalcSize(original, proposed, true, cyWindowBorders, monitor, shell)
            == monitor.(left := monitor.left + 1)
  {
    assert HasAutohideAppbar(EdgeLeft, monitor, shell);
    assert !HasAutohideAppbar(EdgeBottom, monitor, shell);
  }
}
