/** A minimal Option, for "maybe an apply call" and "maybe a window state". */
module Wrappers {
  datatype Option<+T> = None | Some(value: T)
}

/**
  Per-window chrome state (`struct window`) and the clip-region synthesizer
  (`update_region`), with the composition and theme trackers that feed it.
  Every system query is a parameter: whether the window is maximized, and the
  window/client screen rectangles that GetWindowInfo reports.
 */
module Chrome {
  import opened Wrappers
  import opened Win32

  /** `struct window` without the opaque HWND. `rgn` is the last region stored. */
  datatype ChromeState = ChromeState(
    width: u32,
    height: u32,
    rgn: Rect,
    themeEnabled: bool,
    compositionEnabled: bool)

  /** The zero-filled block `calloc` hands to the window before creation. */
  const INITIAL_STATE: ChromeState := ChromeState(0, 0, ZERO_RECT, false, false)

  /** What GetWindowInfo reports: the window and client rectangles in screen coordinates. */
  datatype WindowInfo = WindowInfo(window: Rect, client: Rect)

  /** The oversized clip used for non-composited windows. */
  const LARGE_REGION: Rect := Rect(0, 0, 32767, 32767)

  /** One SetWindowRgn call: either "no region" (NULL) or a rectangular region. */
  datatype RegionOp = ClearRegion | SetRectRegion(r: Rect)

  /** The clip rectangle a RegionOp leaves in effect; "no region" reads as the zero rect. */
  function Effect(op: RegionOp): Rect {
    match op
    case ClearRegion => ZERO_RECT
    case SetRectRegion(r) => r
  }

  /**
    The region update_region stores: for a maximized window the client rectangle
    relative to the window's top-left corner, otherwise the large rectangle when
    composition is off and the zero rectangle when it is on.
   */
  function ComputeRegion(maximized: bool, compositionEnabled: bool, wi: WindowInfo): (r: Rect)
    ensures maximized ==> r == wi.client.Offset(-wi.window.left, -wi.window.top)
    ensures maximized ==> r.Width() == wi.client.Width() && r.Height() == wi.client.Height()
    ensures !maximized && !compositionEnabled ==> r == LARGE_REGION
    ensures !maximized && compositionEnabled ==> r == ZERO_RECT
  {
    if maximized then
      Rect(wi.client.left - wi.window.left,
           wi.client.top - wi.window.top,
           wi.client.right - wi.window.left,
           wi.client.bottom - wi.window.top)
    else if !compositionEnabled then
      LARGE_REGION
    else
      ZERO_RECT
  }

  /**
    The SetWindowRgn call (if any) that replaces region `stored` with `computed`:
    nothing when they are equal, NULL for the zero rect, a rect region otherwise.
   */
  function ApplyOnChange(stored: Rect, computed: Rect): (op: Option<RegionOp>)
    ensures op.None? <==> computed == stored
    ensures op.Some? ==> Effect(op.value) == computed
    ensures op.Some? ==> (op.value.ClearRegion? <==> computed == ZERO_RECT)
  {
    if computed == stored then None
    else if computed == ZERO_RECT then Some(ClearRegion)
    else Some(SetRectRegion(computed))
  }

  /** Result of one update_region call: the new state and the apply call it issued. */
  datatype RegionUpdate = RegionUpdate(state: ChromeState, applied: Option<RegionOp>)

  /**
    update_region: store the computed region unconditionally; issue a SetWindowRgn
    only when it differs from the stored one.
   */
  function UpdateRegion(s: ChromeState, maximized: bool, wi: WindowInfo): (u: RegionUpdate)
    ensures u.state == s.(rgn := ComputeRegion(maximized, s.compositionEnabled, wi))
    ensures u.applied.None? <==> u.state.rgn == s.rgn
    ensures u.applied.Some? ==> Effect(u.applied.value) == u.state.rgn
    ensures u.applied.Some? ==> (u.applied.value.ClearRegion? <==> u.state.rgn == ZERO_RECT)
  {
    var computed := ComputeRegion(maximized, s.compositionEnabled, wi);
    RegionUpdate(s.(rgn := computed), ApplyOnChange(s.rgn, computed))
  }

  /** Calling update_region again with the same inputs issues no apply call. */
  lemma UpdateRegionIdempotent(s: ChromeState, maximized: bool, wi: WindowInfo)
    ensures var u := UpdateRegion(s, maximized, wi);
            var v := UpdateRegion(u.state, maximized, wi);
            v.applied.None? && v.state == u.state
  {
  }

  /**
    The all-zero region and "no region" are the same thing: a composited,
    non-maximized window whose stored region is the zero rect (as after creation)
    issues no apply call, and a non-maximized window's region does not depend on
    its geometry, so resizing never changes it.
   */
  lemma NonMaximizedRegionIsGeometryIndependent(s: ChromeState, wi1: WindowInfo, wi2: WindowInfo)
    ensures UpdateRegion(s, false, wi1) == UpdateRegion(s, false, wi2)
    ensures s.compositionEnabled && s.rgn == ZERO_RECT ==> UpdateRegion(s, false, wi1).applied.None?
  {
  }

  /**
    For a maximized window whose client area lies within its window rectangle, the
    region lies within the window's own (window-relative) extent: it only cuts off
    the non-client border that overhangs the screen.
   */
  lemma MaximizedRegionInsideWindow(wi: WindowInfo)
    requires wi.client.Inside(wi.window)
    ensures ComputeRegion(true, false, wi).Inside(Rect(0, 0, wi.window.Width(), wi.window.Height()))
    ensures ComputeRegion(true, true, wi) == ComputeRegion(true, false, wi)
  {
  }

  /** The inputs update_region reads besides the state: the maximize flag and GetWindowInfo. */
  datatype RegionInput = RegionInput(maximized: bool, info: WindowInfo)

  /** The regions update_region computes for each input of a run, composition fixed. */
  function Regions(compositionEnabled: bool, inputs: seq<RegionInput>): (rs: seq<Rect>)
    ensures |rs| == |inputs|
    decreases |inputs|
  {
    if |inputs| == 0 then []
    else [ComputeRegion(inputs[0].maximized, compositionEnabled, inputs[0].info)]
         + Regions(compositionEnabled, inputs[1..])
  }

  /** The region computed for the call at position `k` of a run. */
  lemma {:induction false} RegionsAt(compositionEnabled: bool, inputs: seq<RegionInput>, k: int)
    requires 0 <= k < |inputs|
    ensures Regions(compositionEnabled, inputs)[k]
            == ComputeRegion(inputs[k].maximized, compositionEnabled, inputs[k].info)
    decreases |inputs|
  {
    if k > 0 {
      RegionsAt(compositionEnabled, inputs[1..], k - 1);
    }
  }

  /** Identical update_region inputs compute identical regions. */
  lemma IdenticalInputsIdenticalRegions(compositionEnabled: bool, inputs: seq<RegionInput>)
    requires forall i :: 0 <= i < |inputs| ==> inputs[i] == inputs[0]
    ensures forall i :: 0 <= i < |inputs| ==>
      Regions(compositionEnabled, inputs)[i] == Regions(compositionEnabled, inputs)[0]
  {
    forall i | 0 <= i < |inputs|
      ensures Regions(compositionEnabled, inputs)[i] == Regions(compositionEnabled, inputs)[0]
    {
      RegionsAt(compositionEnabled, inputs, i);
      RegionsAt(compositionEnabled, inputs, 0);
    }
  }

  /** The clip rectangles a log of SetWindowRgn calls puts in effect, in order. */
  function Effects(log: seq<RegionOp>): (es: seq<Rect>)
    ensures |es| == |log|
    decreases |log|
  {
    if |log| == 0 then [] else [Effect(log[0])] + Effects(log[1..])
  }

  /** The effect recorded at position `k` of a log is that of the call at `k`. */
  lemma {:induction false} EffectsAt(log: seq<RegionOp>, k: int)
    requires 0 <= k < |log|
    ensures Effects(log)[k] == Effect(log[k])
    decreases |log|
  {
    if k > 0 {
      EffectsAt(log[1..], k - 1);
    }
  }

  /** The effects of two logs run one after the other. */
  lemma {:induction false} EffectsAppend(a: seq<RegionOp>, b: seq<RegionOp>)
    ensures Effects(a + b) == Effects(a) + Effects(b)
    decreases |a|
  {
    if |a| == 0 {
      assert a + b == b;
    } else {
      assert (a + b)[0] == a[0] && (a + b)[1..] == a[1..] + b;
      EffectsAppend(a[1..], b);
      var e := [Effect(a[0])];
      assert Effects(a + b) == e + (Effects(a[1..]) + Effects(b));
      assert e + (Effects(a[1..]) + Effects(b)) == (e + Effects(a[1..])) + Effects(b);
    }
  }

  /**
    Reference definition of the applies a run makes: starting from region `prev`,
    every computed region that differs from the one stored just before it.
   */
  function ChangePoints(prev: Rect, rs: seq<Rect>): seq<Rect>
    decreases |rs|
  {
    if |rs| == 0 then []
    else (if rs[0] == prev then [] else [rs[0]]) + ChangePoints(rs[0], rs[1..])
  }

  /**
    The change points of a run are no more than its calls; none repeats the region
    in effect before it; the last one is the last computed region; and with no change
    point every computed region equals the starting one.
   */
  lemma {:induction false} ChangePointsShape(prev: Rect, rs: seq<Rect>)
    ensures var cp := ChangePoints(prev, rs);
            && |cp| <= |rs|
            && (|cp| > 0 ==> cp[0] != prev && cp[|cp| - 1] == rs[|rs| - 1])
            && (forall i :: 0 < i < |cp| ==> cp[i] != cp[i - 1])
            && (|cp| == 0 ==> forall i :: 0 <= i < |rs| ==> rs[i] == prev)
    decreases |rs|
  {
    if |rs| > 0 {
      ChangePointsShape(rs[0], rs[1..]);
      var tail := ChangePoints(rs[0], rs[1..]);
      if |tail| == 0 {
        forall i | 1 <= i < |rs|
          ensures rs[i] == rs[0]
        {
          assert rs[i] == rs[1..][i - 1];
        }
      } else {
        assert rs[|rs| - 1] == rs[1..][|rs[1..]| - 1];
      }
    }
  }

  /** A run that only ever recomputes the region already in effect applies nothing. */
  lemma {:induction false} SteadyRunHasNoChangePoints(prev: Rect, rs: seq<Rect>)
    requires forall i :: 0 <= i < |rs| ==> rs[i] == prev
    ensures ChangePoints(prev, rs) == []
    decreases |rs|
  {
    if |rs| > 0 {
      var rest := rs[1..];
      assert forall i :: 0 <= i < |rest| ==> rest[i] == rs[i + 1];
      SteadyRunHasNoChangePoints(prev, rest);
    }
  }

  /** A run whose computed regions are all equal has at most one change point. */
  lemma ChangePointsOfConstantRun(prev: Rect, rs: seq<Rect>)
    requires forall i :: 0 <= i < |rs| ==> rs[i] == rs[0]
    ensures |ChangePoints(prev, rs)| <= 1
  {
    if |rs| > 0 {
      var rest := rs[1..];
      assert forall i :: 0 <= i < |rest| ==> rest[i] == rs[i + 1];
      SteadyRunHasNoChangePoints(rs[0], rest);
    }
  }

  /** A log whose effects are the change points of a run inherits their shape. */
  lemma LogOfChangePoints(prev: Rect, rs: seq<Rect>, log: seq<RegionOp>)
    requires Effects(log) == ChangePoints(prev, rs)
    ensures |log| <= |rs|
    ensures |log| == 0 ==> forall i :: 0 <= i < |rs| ==> rs[i] == prev
    ensures |log| > 0 ==> Effect(log[|log| - 1]) == rs[|rs| - 1] && Effect(log[0]) != prev
    ensures forall i :: 0 < i < |log| ==> Effect(log[i]) != Effect(log[i - 1])
  {
    ChangePointsShape(prev, rs);
    forall i | 0 <= i < |log|
      ensures Effect(log[i]) == ChangePoints(prev, rs)[i]
    {
      EffectsAt(log, i);
    }
  }

  /** The outcome of a run of update_region calls: the final state and the apply log. */
  datatype Replayed = Replayed(state: ChromeState, log: seq<RegionOp>)

  /**
    A run of update_region calls on one window with the composition flag fixed, one
    call per input in order. The log of SetWindowRgn calls is exactly the run's change
    points; only the stored region changes; it ends as the last computed region; and no
    call applies the zero rectangle as a rect region.
   */
  function Replay(s: ChromeState, inputs: seq<RegionInput>): (r: Replayed)
    ensures Effects(r.log) == ChangePoints(s.rgn, Regions(s.compositionEnabled, inputs))
    ensures r.state == s.(rgn := r.state.rgn)
    ensures |inputs| == 0 ==> r.state == s
    ensures |inputs| > 0 ==> r.state.rgn == Regions(s.compositionEnabled, inputs)[|inputs| - 1]
    ensures forall i :: 0 <= i < |r.log| ==> r.log[i] != SetRectRegion(ZERO_RECT)
    decreases |inputs|
  {
    if |inputs| == 0 then Replayed(s, [])
    else
      var u := UpdateRegion(s, inputs[0].maximized, inputs[0].info);
      var rest := Replay(u.state, inputs[1..]);
      var head := if u.applied.Some? then [u.applied.value] else [];
      var regs := Regions(s.compositionEnabled, inputs);
      assert regs[0] == u.state.rgn && regs[1..] == Regions(s.compositionEnabled, inputs[1..]);
      assert Effects(head) == if regs[0] == s.rgn then [] else [regs[0]];
      assert head != [SetRectRegion(ZERO_RECT)];
      EffectsAppend(head, rest.log);
      Replayed(rest.state, head + rest.log)
  }

  /**
    No apply in a run repeats the region already in effect, and the stored region
    always matches the last apply, or the starting region when nothing was applied.
   */
  lemma ReplayAppliesOnlyChanges(s0: ChromeState, inputs: seq<RegionInput>)
    ensures var r := Replay(s0, inputs);
            && |r.log| <= |inputs|
            && (|r.log| == 0 ==> r.state.rgn == s0.rgn)
            && (|r.log| > 0 ==> Effect(r.log[|r.log| - 1]) == r.state.rgn && Effect(r.log[0]) != s0.rgn)
            && (forall i :: 0 < i < |r.log| ==> Effect(r.log[i]) != Effect(r.log[i - 1]))
  {
    var r := Replay(s0, inputs);
    var regs := Regions(s0.compositionEnabled, inputs);
    LogOfChangePoints(s0.rgn, regs, r.log);
    if |r.log| > 0 {
      assert |inputs| > 0 && r.state.rgn == regs[|inputs| - 1];
    }
  }

  /** A run ends with the region computed by its last call. */
  lemma ReplayEndsOnLastRegion(s0: ChromeState, inputs: seq<RegionInput>)
    requires |inputs| > 0
    ensures Replay(s0, inputs).state.rgn
            == ComputeRegion(inputs[|inputs| - 1].maximized, s0.compositionEnabled, inputs[|inputs| - 1].info)
  {
    RegionsAt(s0.compositionEnabled, inputs, |inputs| - 1);
  }

  /** A run of identical update_region calls applies at most once. */
  lemma ReplayOfIdenticalInputs(s0: ChromeState, inputs: seq<RegionInput>)
    requires forall i :: 0 <= i < |inputs| ==> inputs[i] == inputs[0]
    ensures |Replay(s0, inputs).log| <= 1
  {
    IdenticalInputsIdenticalRegions(s0.compositionEnabled, inputs);
    ChangePointsOfConstantRun(s0.rgn, Regions(s0.compositionEnabled, inputs));
  }

  /**
    A run of update_region calls as the window sees it, returning the final state
    and the log of SetWindowRgn calls in order. The log holds exactly the run's change
    points, so it never repeats the region already in effect; the stored region
    always matches the last apply; and a run with identical inputs applies at most
    once.
   */
  method ReplayRegionUpdates(s0: ChromeState, inputs: seq<RegionInput>)
    returns (s: ChromeState, log: seq<RegionOp>)
    ensures Effects(log) == ChangePoints(s0.rgn, Regions(s0.compositionEnabled, inputs))
    ensures |log| <= |inputs|
    ensures s == s0.(rgn := s.rgn)
    ensures |inputs| == 0 ==> s == s0
    ensures |inputs| > 0 ==>
      s.rgn == ComputeRegion(inputs[|inputs| - 1].maximized, s0.compositionEnabled, inputs[|inputs| - 1].info)
    ensures |log| == 0 ==> s.rgn == s0.rgn
    ensures |log| > 0 ==> Effect(log[|log| - 1]) == s.rgn && Effect(log[0]) != s0.rgn
    ensures forall i :: 0 < i < |log| ==> Effect(log[i]) != Effect(log[i - 1])
    ensures forall i :: 0 <= i < |log| ==> log[i] != SetRectRegion(ZERO_RECT)
    ensures (forall i :: 0 <= i < |inputs| ==> inputs[i] == inputs[0]) ==> |log| <= 1
  {
    var r := Replay(s0, inputs);
    ReplayAppliesOnlyChanges(s0, inputs);
    if |inputs| > 0 {
      ReplayEndsOnLastRegion(s0, inputs);
    }
    if forall i :: 0 <= i < |inputs| ==> inputs[i] == inputs[0] {
      ReplayOfIdenticalInputs(s0, inputs);
    }
    s, log := r.state, r.log;
  }

  /** DwmExtendFrameIntoClientArea margins: left, right, top, bottom. */
  datatype Margins = Margins(cxLeftWidth: int, cxRightWidth: int, cyTopHeight: int, cyBottomHeight: int)

  /** The smallest frame that still lets the compositor draw a shadow. */
  const SHADOW_MARGINS: Margins := Margins(0, 0, 1, 0)

  /** Compositor requests issued when composition turns on. */
  datatype FrameRequest = FrameRequest(margins: Margins, ncRenderingEnabled: bool)

  /** Result of handle_compositionchanged. */
  datatype CompositionUpdate = CompositionUpdate(
    state: ChromeState,
    frame: Option<FrameRequest>,
    applied: Option<RegionOp>)

  /**
    handle_compositionchanged: `enabled` is what DwmIsCompositionEnabled reports
    (false when the query fails). The flag is stored first and the region is then
    recomputed from the NEW flag, so it is never stale; the frame is extended by
    the shadow margins only when composition is on.
   */
  function CompositionChanged(s: ChromeState, enabled: bool, maximized: bool, wi: WindowInfo)
    : (c: CompositionUpdate)
    ensures c.state.compositionEnabled == enabled
    ensures c.state == s.(compositionEnabled := enabled, rgn := c.state.rgn)
    ensures c.state.rgn == ComputeRegion(maximized, enabled, wi)
    ensures c.frame.Some? <==> enabled
    ensures c.frame.Some? ==> c.frame.value == FrameRequest(SHADOW_MARGINS, true)
    ensures c.applied.None? <==> c.state.rgn == s.rgn
    ensures c.applied.Some? ==>
      Effect(c.applied.value) == c.state.rgn && (c.applied.value.ClearRegion? <==> c.state.rgn == ZERO_RECT)
    ensures !maximized ==> (c.state.rgn == ZERO_RECT <==> enabled)
  {
    var s1 := s.(compositionEnabled := enabled);
    var u := UpdateRegion(s1, maximized, wi);
    CompositionUpdate(u.state, if enabled then Some(FrameRequest(SHADOW_MARGINS, true)) else None, u.applied)
  }

  /**
    Start-up: wWinMain runs handle_compositionchanged on the zero-filled block before
    showing the window. A window that starts non-maximized with composition on keeps
    "no region" without any SetWindowRgn call; with composition off it gets the large
    region as its one apply.
   */
  lemma StartupCompositionCheck(enabled: bool, wi: WindowInfo)
    ensures var c := CompositionChanged(INITIAL_STATE, enabled, false, wi);
            c.applied == (if enabled then None else Some(SetRectRegion(LARGE_REGION)))
  {
  }

  /** handle_themechanged: store what IsThemeActive reports; nothing else changes. */
  function ThemeChanged(s: ChromeState, active: bool): (t: ChromeState)
    ensures t.themeEnabled == active
    ensures t.(themeEnabled := s.themeEnabled) == s
  {
    s.(themeEnabled := active)
  }
}
