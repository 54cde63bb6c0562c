/**
  The resize reactor (`handle_windowposchanged`): caches the new client size,
  re-runs region synthesis when the size or the frame changed, and picks the
  two one-unit strips (right column, bottom row) to invalidate. The cached
  sizes are `unsigned`; the strips are RECTs of LONG built from unsigned
  expressions, so `old_width - 1` wraps and is then read back as a LONG.
 */
module Reactor {
  import opened Wrappers
  import opened Win32
  import opened Chrome

  /** The right-edge strip to invalidate after a width or height change. */
  function ColumnStrip(oldWidth: u32, oldHeight: u32, newWidth: u32, newHeight: u32): Rect {
    if newWidth > oldWidth then
      Rect(ToLong(ToUnsigned(oldWidth as int - 1)), 0, ToLong(oldWidth), ToLong(oldHeight))
    else
      Rect(ToLong(ToUnsigned(newWidth as int - 1)), 0, ToLong(newWidth), ToLong(newHeight))
  }

  /** The bottom-edge strip to invalidate after a width or height change. */
  function RowStrip(oldWidth: u32, oldHeight: u32, newWidth: u32, newHeight: u32): Rect {
    if newHeight > oldHeight then
      Rect(0, ToLong(ToUnsigned(oldHeight as int - 1)), ToLong(oldWidth), ToLong(oldHeight))
    else
      Rect(0, ToLong(ToUnsigned(newHeight as int - 1)), ToLong(newWidth), ToLong(newHeight))
  }

  /** What one WM_WINDOWPOSCHANGED does. */
  datatype PosChanged = PosChanged(
    state: ChromeState,
    regionRecomputed: bool,
    applied: Option<RegionOp>,
    invalidated: seq<Rect>)

  /**
    handle_windowposchanged: `client` is what GetClientRect reports, `flags` the
    WINDOWPOS flags; `maximized` and `wi` are what update_region would query.
   */
  function WindowPosChanged(s: ChromeState, client: Rect, flags: u32, maximized: bool, wi: WindowInfo)
    : (p: PosChanged)
    ensures p.state.width == ToUnsigned(client.right) && p.state.height == ToUnsigned(client.bottom)
    ensures p.state == s.(width := p.state.width, height := p.state.height, rgn := p.state.rgn)
    ensures var changed := p.state.width != s.width || p.state.height != s.height;
            && (p.regionRecomputed <==> changed || HasFrameChanged(flags))
            && (|p.invalidated| == if changed then 2 else 0)
    ensures p.regionRecomputed ==>
      p.state.rgn == ComputeRegion(maximized, s.compositionEnabled, wi)
      && (p.applied.None? <==> p.state.rgn == s.rgn)
    ensures !p.regionRecomputed ==> p.state.rgn == s.rgn && p.applied.None?
    ensures p.applied.Some? ==>
      Effect(p.applied.value) == p.state.rgn && (p.applied.value.ClearRegion? <==> p.state.rgn == ZERO_RECT)
  {
    var newWidth := ToUnsigned(client.right);
    var newHeight := ToUnsigned(client.bottom);
    var changed := newWidth != s.width || newHeight != s.height;
    var resized := s.(width := newWidth, height := newHeight);
    var recompute := changed || HasFrameChanged(flags);
    var u := if recompute then UpdateRegion(resized, maximized, wi) else RegionUpdate(resized, None);
    var strips :=
      if changed then
        [ColumnStrip(s.width, s.height, newWidth, newHeight), RowStrip(s.width, s.height, newWidth, newHeight)]
      else [];
    PosChanged(u.state, recompute, u.applied, strips)
  }

  /** Sizes that came from a non-negative LONG, as every GetClientRect size does. */
  predicate LongSize(v: int) {
    0 <= v < LONG_LIMIT
  }

  function Min(a: int, b: int): int {
    if a <= b then a else b
  }

  /**
    In plain integers the strips are the last column and last row of the smaller
    extent on each axis: a window that grew invalidates its old border line (spanning
    the old size), one that shrank or kept its size invalidates its new border line
    (spanning the new size). A zero old width yields a strip starting at -1.
   */
  lemma StripsInIntegers(s: ChromeState, client: Rect, flags: u32, maximized: bool, wi: WindowInfo)
    requires LongSize(s.width as int) && LongSize(s.height as int)
    requires LongSize(client.right) && LongSize(client.bottom)
    requires client.right != s.width as int || client.bottom != s.height as int
    ensures var p := WindowPosChanged(s, client, flags, maximized, wi);
            var ow, oh := s.width as int, s.height as int;
            var nw, nh := client.right, client.bottom;
            && p.regionRecomputed
            && p.invalidated[0].left == Min(ow, nw) - 1 && p.invalidated[0].right == Min(ow, nw)
            && p.invalidated[0].top == 0
            && p.invalidated[0].bottom == (if nw > ow then oh else nh)
            && p.invalidated[1].top == Min(oh, nh) - 1 && p.invalidated[1].bottom == Min(oh, nh)
            && p.invalidated[1].left == 0
            && p.invalidated[1].right == (if nh > oh then ow else nw)
  {
    assert ToUnsigned(client.right) as int == client.right;
    assert ToUnsigned(client.bottom) as int == client.bottom;
    var ow, oh := s.width as int, s.height as int;
    if ow == 0 {
      assert ToUnsigned(ow - 1) as int == WORD_RANGE - 1;
    }
    if oh == 0 {
      assert ToUnsigned(oh - 1) as int == WORD_RANGE - 1;
    }
    if client.right == 0 {
      assert ToUnsigned(client.right - 1) as int == WORD_RANGE - 1;
    }
    if client.bottom == 0 {
      assert ToUnsigned(client.bottom - 1) as int == WORD_RANGE - 1;
    }
  }

  /**
    A concrete resize case: growing the width from W0 to W1 > W0
    invalidates the column [W0 - 1, W0) over the old height, not the new one.
   */
  lemma GrowingWidthInvalidatesOldColumn(s: ChromeState, client: Rect, flags: u32, maximized: bool,
                                         wi: WindowInfo)
    requires LongSize(s.width as int) && LongSize(s.height as int)
    requires LongSize(client.right) && LongSize(client.bottom)
    requires client.right > s.width as int
    ensures WindowPosChanged(s, client, flags, maximized, wi).invalidated[0]
            == Rect(s.width as int - 1, 0, s.width as int, s.height as int)
  {
    StripsInIntegers(s, client, flags, maximized, wi);
  }

  /** A notification that changes neither size nor frame leaves the state untouched. */
  lemma UnchangedPositionIsNoOp(s: ChromeState, client: Rect, flags: u32, maximized: bool, wi: WindowInfo)
    requires client.right == s.width as int && client.bottom == s.height as int
    requires !HasFrameChanged(flags)
    ensures WindowPosChanged(s, client, flags, maximized, wi) == PosChanged(s, false, None, [])
  {
  }
}
