/**
  The slice of the Win32 vocabulary the borderless-window chrome relies on:
  32-bit integer conversions, RECT, and the numeric constants it compares
  against (hit-test codes, message identifiers, appbar edges, flags).
 */
module Win32 {

  /** Number of values of a 32-bit word. */
  const WORD_RANGE: int := 0x1_0000_0000
  /** Lowest value a 32-bit LONG cannot hold. */
  const LONG_LIMIT: int := 0x8000_0000

  /** C `unsigned` (32 bits on Windows). */
  newtype u32 = x: int | 0 <= x < 0x1_0000_0000

  /** True when `v` fits a 32-bit signed LONG. */
  predicate IsLong(v: int) {
    -LONG_LIMIT <= v < LONG_LIMIT
  }

  /** Conversion of any integer value to `unsigned`: reduction modulo 2^32. */
  function ToUnsigned(v: int): (u: u32)
    ensures 0 <= v < WORD_RANGE ==> u as int == v
    ensures -WORD_RANGE <= v < 0 ==> u as int == v + WORD_RANGE
  {
    (v % WORD_RANGE) as u32
  }

  /** Conversion of an `unsigned` value to a LONG field (two's complement, as MSVC does). */
  function ToLong(u: u32): (l: int)
    ensures IsLong(l)
    ensures u as int < LONG_LIMIT ==> l == u as int
    ensures u as int >= LONG_LIMIT ==> l == u as int - WORD_RANGE
  {
    if u as int < LONG_LIMIT then u as int else u as int - WORD_RANGE
  }

  /**
    `a >= b` where `a` is a LONG and `b` an `unsigned` expression: with both 32 bits
    wide, C converts both operands to `unsigned long` before comparing.
   */
  predicate UnsignedAtLeast(a: int, b: int) {
    ToUnsigned(a) >= ToUnsigned(b)
  }

  /** RECT: left/top inclusive, right/bottom exclusive. */
  datatype Rect = Rect(left: int, top: int, right: int, bottom: int)
  {
    function Width(): int { right - left }
    function Height(): int { bottom - top }

    /** This rectangle moved by (dx, dy). */
    function Offset(dx: int, dy: int): Rect {
      Rect(left + dx, top + dy, right + dx, bottom + dy)
    }

    /** Every point of `this` lies in `outer`. */
    predicate Inside(outer: Rect) {
      outer.left <= left && outer.top <= top && right <= outer.right && bottom <= outer.bottom
    }
  }

  /** The all-zero RECT, `(RECT) { 0 }`. */
  const ZERO_RECT: Rect := Rect(0, 0, 0, 0)

  // Hit-test result codes (winuser.h).
  const HTCLIENT: int := 1
  const HTLEFT: int := 10
  const HTRIGHT: int := 11
  const HTTOP: int := 12
  const HTTOPLEFT: int := 13
  const HTTOPRIGHT: int := 14
  const HTBOTTOM: int := 15
  const HTBOTTOMLEFT: int := 16
  const HTBOTTOMRIGHT: int := 17

  // Window messages (winuser.h; the two undocumented ones as defined in borderless-window.c).
  const WM_DESTROY: int := 0x0002
  const WM_SETTEXT: int := 0x000C
  const WM_PAINT: int := 0x000F
  const WM_CLOSE: int := 0x0010
  const WM_WINDOWPOSCHANGED: int := 0x0047
  const WM_SETICON: int := 0x0080
  const WM_NCCREATE: int := 0x0081
  const WM_NCCALCSIZE: int := 0x0083
  const WM_NCHITTEST: int := 0x0084
  const WM_NCPAINT: int := 0x0085
  const WM_NCACTIVATE: int := 0x0086
  const WM_NCUAHDRAWCAPTION: int := 0x00AE
  const WM_NCUAHDRAWFRAME: int := 0x00AF
  const WM_KEYDOWN: int := 0x0100
  const WM_LBUTTONDOWN: int := 0x0201
  const WM_THEMECHANGED: int := 0x031A
  const WM_DWMCOMPOSITIONCHANGED: int := 0x031E

  // Appbar edges (shellapi.h).
  const ABE_LEFT: int := 0
  const ABE_TOP: int := 1
  const ABE_RIGHT: int := 2
  const ABE_BOTTOM: int := 3

  /** SetWindowPos flag reported in WINDOWPOS.flags when the frame changed. */
  const SWP_FRAMECHANGED: int := 0x0020

  /** `flags & SWP_FRAMECHANGED` is non-zero. */
  predicate HasFrameChanged(flags: u32) {
    (flags as int / SWP_FRAMECHANGED) % 2 == 1
  }
}
