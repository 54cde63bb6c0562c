/**
  The routing switch of `borderless_window_proc`: given whether a state block is
  attached and the message identifier, which handler runs and whether the
  message then falls through to DefWindowProc.
 */
module Dispatch {
  import opened Wrappers
  import opened Win32
  import opened Chrome

  /** What the window procedure does with one message. */
  datatype Action =
    | Default                    // DefWindowProc with the original arguments
    | AttachThenDefault          // handle_nccreate, then DefWindowProc
    | DestroyWindow              // WM_CLOSE: DestroyWindow, return 0
    | PostQuit                   // WM_DESTROY: PostQuitMessage, return 0
    | RecheckComposition         // handle_compositionchanged, return 0
    | DebugKey                   // handle_keydown; DefWindowProc if it declines
    | StartDrag                  // WM_LBUTTONDOWN: caption drag, return 0
    | DefaultWithoutBorderRepaint // DefWindowProc with lParam -1
    | CalcSize                   // handle_nccalcsize, return 0
    | ResolveHitTest             // return handle_nchittest's code
    | Suppress                   // return 0 without default handling
    | Paint                      // handle_paint, return 0
    | DefaultWhileInvisible      // handle_message_invisible
    | ThemeChangedThenDefault    // handle_themechanged, then DefWindowProc
    | PositionChanged            // handle_windowposchanged, return 0

  /**
    borderless_window_proc's routing. Without a state block only WM_NCCREATE does
    anything (it attaches the block); everything else gets default handling.
   */
  function Route(data: Option<ChromeState>, msg: int): (a: Action)
    ensures a == AttachThenDefault <==> data.None? && msg == WM_NCCREATE
    ensures data.None? ==> a in {Default, AttachThenDefault}
    ensures data.Some? && msg == WM_NCPAINT ==>
      (a == Suppress <==> !data.value.compositionEnabled)
    ensures data.Some? && (msg == WM_SETICON || msg == WM_SETTEXT) ==>
      (a == DefaultWhileInvisible <==> !data.value.compositionEnabled && !data.value.themeEnabled)
    ensures data.Some? && (msg == WM_NCUAHDRAWCAPTION || msg == WM_NCUAHDRAWFRAME) ==> a == Suppress
    ensures a == DefaultWhileInvisible ==> data.Some? && (msg == WM_SETICON || msg == WM_SETTEXT)
    ensures a == Suppress ==>
      data.Some? && msg in {WM_NCPAINT, WM_NCUAHDRAWCAPTION, WM_NCUAHDRAWFRAME}
    ensures data.Some? ==>
      && (a == DestroyWindow <==> msg == WM_CLOSE)
      && (a == PostQuit <==> msg == WM_DESTROY)
      && (a == RecheckComposition <==> msg == WM_DWMCOMPOSITIONCHANGED)
      && (a == DebugKey <==> msg == WM_KEYDOWN)
      && (a == StartDrag <==> msg == WM_LBUTTONDOWN)
      && (a == DefaultWithoutBorderRepaint <==> msg == WM_NCACTIVATE)
      && (a == CalcSize <==> msg == WM_NCCALCSIZE)
      && (a == ResolveHitTest <==> msg == WM_NCHITTEST)
      && (a == Paint <==> msg == WM_PAINT)
      && (a == ThemeChangedThenDefault <==> msg == WM_THEMECHANGED)
      && (a == PositionChanged <==> msg == WM_WINDOWPOSCHANGED)
  {
    match data
    case None => if msg == WM_NCCREATE then AttachThenDefault else Default
    case Some(w) =>
      if msg == WM_CLOSE then DestroyWindow
      else if msg == WM_DESTROY then PostQuit
      else if msg == WM_DWMCOMPOSITIONCHANGED then RecheckComposition
      else if msg == WM_KEYDOWN then DebugKey
      else if msg == WM_LBUTTONDOWN then StartDrag
      else if msg == WM_NCACTIVATE then DefaultWithoutBorderRepaint
      else if msg == WM_NCCALCSIZE then CalcSize
      else if msg == WM_NCHITTEST then ResolveHitTest
      else if msg == WM_NCPAINT then (if !w.compositionEnabled then Suppress else Default)
      else if msg == WM_NCUAHDRAWCAPTION || msg == WM_NCUAHDRAWFRAME then Suppress
      else if msg == WM_PAINT then Paint
      else if msg == WM_SETICON || msg == WM_SETTEXT then
        (if !w.compositionEnabled && !w.themeEnabled then DefaultWhileInvisible else Default)
      else if msg == WM_THEMECHANGED then ThemeChangedThenDefault
      else if msg == WM_WINDOWPOSCHANGED then PositionChanged
      else Default
  }

  /**
    Routing reads nothing of the state but its two flags: two windows with the same
    composition and theme flags route every message alike.
   */
  lemma RouteReadsOnlyFlags(w1: ChromeState, w2: ChromeState, msg: int)
    requires w1.compositionEnabled == w2.compositionEnabled && w1.themeEnabled == w2.themeEnabled
    ensures Route(Some(w1), msg) == Route(Some(w2), msg)
  {
  }

  /**
    With composition on, nothing borderless_window_proc routes ever blocks the shadow-drawing
    paths: non-client paint and icon/text changes fall through to default handling.
   */
  lemma CompositedWindowKeepsDefaultPainting(w: ChromeState, msg: int)
    requires w.compositionEnabled
    requires msg in {WM_NCPAINT, WM_SETICON, WM_SETTEXT}
    ensures Route(Some(w), msg) == Default
  {
  }
}
