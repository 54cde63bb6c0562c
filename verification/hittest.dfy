/**
  The hit-test resolver (`handle_nchittest`): a window-local point, the cached
  client width and height and the system frame metrics decide which of nine
  zones the point is in. The width and height are `unsigned`, so the right and
  bottom thresholds are computed and compared in 32-bit unsigned arithmetic,
  exactly as the C expression does.
 */
module HitTest {
  import opened Win32

  /** The nine zones a hit test can answer. */
  datatype Zone = Client | Left | Right | Top | TopLeft | TopRight | Bottom | BottomLeft | BottomRight

  /** The LRESULT code the window procedure returns for a zone. */
  function Code(z: Zone): (c: int)
    ensures c == HTCLIENT || HTLEFT <= c <= HTBOTTOMRIGHT
    ensures z == Client <==> c == HTCLIENT
    ensures z == Left <==> c == HTLEFT
    ensures z == Right <==> c == HTRIGHT
    ensures z == Top <==> c == HTTOP
    ensures z == TopLeft <==> c == HTTOPLEFT
    ensures z == TopRight <==> c == HTTOPRIGHT
    ensures z == Bottom <==> c == HTBOTTOM
    ensures z == BottomLeft <==> c == HTBOTTOMLEFT
    ensures z == BottomRight <==> c == HTBOTTOMRIGHT
  {
    match z
    case Client => HTCLIENT
    case Left => HTLEFT
    case Right => HTRIGHT
    case Top => HTTOP
    case TopLeft => HTTOPLEFT
    case TopRight => HTTOPRIGHT
    case Bottom => HTBOTTOM
    case BottomLeft => HTBOTTOMLEFT
    case BottomRight => HTBOTTOMRIGHT
  }

  /** GetSystemMetrics values: SM_CXFRAME, SM_CXPADDEDBORDER, SM_CXBORDER. */
  datatype FrameMetrics = FrameMetrics(cxFrame: int, cxPaddedBorder: int, cxBorder: int)
  {
    /** Thickness of the resize band, used on both axes. */
    function FrameSize(): int { cxFrame + cxPaddedBorder }
    /** Width of the corner handles along the top and bottom bands. */
    function DiagonalWidth(): int { FrameSize() * 2 + cxBorder }
  }

  /**
    handle_nchittest with ScreenToClient already applied: (x, y) is the point in
    window-local coordinates. A maximized window is interior everywhere.
   */
  function NcHitTest(maximized: bool, x: int, y: int, width: u32, height: u32, m: FrameMetrics)
    : (z: Zone)
    ensures maximized ==> z == Client
    ensures !maximized && y < m.FrameSize() ==>
      z == (if x < m.DiagonalWidth() then TopLeft
            else if UnsignedAtLeast(x, width as int - m.DiagonalWidth()) then TopRight
            else Top)
    ensures z in {Top, TopLeft, TopRight} ==> y < m.FrameSize()
    ensures z in {Left, Right, Client} && !maximized ==>
      m.FrameSize() <= y && !UnsignedAtLeast(y, height as int - m.FrameSize())
    ensures z in {Bottom, BottomLeft, BottomRight} ==>
      !maximized && m.FrameSize() <= y && UnsignedAtLeast(y, height as int - m.FrameSize())
  {
    if maximized then Client
    else
      var frame := m.FrameSize();
      var diagonal := m.DiagonalWidth();
      if y < frame then
        if x < diagonal then TopLeft
        else if UnsignedAtLeast(x, width as int - diagonal) then TopRight
        else Top
      else if UnsignedAtLeast(y, height as int - frame) then
        if x < diagonal then BottomLeft
        else if UnsignedAtLeast(x, width as int - diagonal) then BottomRight
        else Bottom
      else if x < frame then Left
      else if UnsignedAtLeast(x, width as int - frame) then Right
      else Client
  }

  // ---------------------------------------------------------------------------
  // Reference definition: the window as a grid of bands, in plain integers.

  /** Where a coordinate falls along one axis of length `extent` with band thickness `t`. */
  datatype Band = Near | Middle | Far

  function BandOf(v: int, extent: int, t: int): Band {
    if v < t then Near else if v >= extent - t then Far else Middle
  }

  /**
    The zone read geometrically: the vertical band (thickness
    frame) picks top, bottom or neither; along the top and bottom the horizontal
    band of thickness diagonal picks the corner; elsewhere the horizontal band of
    thickness frame picks a side.
   */
  function BandZone(x: int, y: int, width: int, height: int, m: FrameMetrics): Zone {
    match BandOf(y, height, m.FrameSize())
    case Near =>
      (match BandOf(x, width, m.DiagonalWidth())
       case Near => TopLeft
       case Far => TopRight
       case Middle => Top)
    case Far =>
      (match BandOf(x, width, m.DiagonalWidth())
       case Near => BottomLeft
       case Far => BottomRight
       case Middle => Bottom)
    case Middle =>
      (match BandOf(x, width, m.FrameSize())
       case Near => Left
       case Far => Right
       case Middle => Client)
  }

  /** Metrics are non-negative and the window is at least as large as its handles. */
  predicate SaneWindow(x: int, y: int, width: u32, height: u32, m: FrameMetrics) {
    && m.cxFrame >= 0 && m.cxPaddedBorder >= 0 && m.cxBorder >= 0
    && IsLong(x) && IsLong(y)
    && m.DiagonalWidth() <= width as int
    && m.FrameSize() <= height as int
  }

  /** For a LONG `a` at least `t`, the C comparison agrees with integer comparison. */
  lemma UnsignedAtLeastAgrees(a: int, extent: int, t: int)
    requires IsLong(a) && 0 <= t <= a
    requires t <= extent < WORD_RANGE
    ensures UnsignedAtLeast(a, extent - t) <==> a >= extent - t
  {
    assert ToUnsigned(a) as int == a;
    assert ToUnsigned(extent - t) as int == extent - t;
  }

  /**
    When the window is at least as large as its resize handles, the unsigned
    arithmetic never wraps and the resolver is exactly the band grid.
   */
  lemma NcHitTestMatchesBands(x: int, y: int, width: u32, height: u32, m: FrameMetrics)
    requires SaneWindow(x, y, width, height, m)
    ensures NcHitTest(false, x, y, width, height, m) == BandZone(x, y, width as int, height as int, m)
  {
    var frame := m.FrameSize();
    var diagonal := m.DiagonalWidth();
    if x >= diagonal {
      UnsignedAtLeastAgrees(x, width as int, diagonal);
    }
    if x >= frame {
      UnsignedAtLeastAgrees(x, width as int, frame);
    }
    if y >= frame {
      UnsignedAtLeastAgrees(y, height as int, frame);
    }
  }

  /**
    The grid read back as zones: each zone is exactly the set of points in its
    bands; corners use the diagonal width along the top and bottom bands, the
    top band is checked before the bottom one, and the sides and interior need
    the point to be outside both bands.
   */
  lemma BandZoneCharacterization(x: int, y: int, width: int, height: int, m: FrameMetrics)
    ensures var z := BandZone(x, y, width, height, m);
            var f := m.FrameSize();
            var d := m.DiagonalWidth();
            && (z == TopLeft <==> y < f && x < d)
            && (z == TopRight <==> y < f && d <= x && x >= width - d)
            && (z == Top <==> y < f && d <= x < width - d)
            && (z == BottomLeft <==> f <= y && y >= height - f && x < d)
            && (z == BottomRight <==> f <= y && y >= height - f && d <= x && x >= width - d)
            && (z == Bottom <==> f <= y && y >= height - f && d <= x < width - d)
            && (z == Left <==> f <= y < height - f && x < f)
            && (z == Right <==> f <= y < height - f && f <= x && x >= width - f)
            && (z == Client <==> f <= y < height - f && f <= x < width - f)
  {
  }

  /**
    Corners beat edges: a sane, non-maximized point inside the top band and within
    the frame of the left edge is the top-left corner, and one in the bottom band
    (but not the top), past the left corner handle and within the frame of the
    right edge is the bottom-right corner.
   */
  lemma CornersWinOverEdges(x: int, y: int, width: u32, height: u32, m: FrameMetrics)
    requires SaneWindow(x, y, width, height, m)
    ensures y < m.FrameSize() && x < m.FrameSize() ==>
      NcHitTest(false, x, y, width, height, m) == TopLeft
    ensures m.FrameSize() <= y && y >= height as int - m.FrameSize()
            && m.DiagonalWidth() <= x && x >= width as int - m.FrameSize() ==>
      NcHitTest(false, x, y, width, height, m) == BottomRight
  {
    NcHitTestMatchesBands(x, y, width, height, m);
  }

  /**
    The unsigned wrap in handle_nchittest: for a window narrower than the corner handles,
    `width - diagonal_width` wraps to a huge value and no point of the top band is
    ever the top-right corner, although the grid would say so.
   */
  lemma NarrowWindowHasNoTopRightCorner(x: int, y: int, width: u32, height: u32, m: FrameMetrics)
    requires m.cxFrame >= 0 && m.cxPaddedBorder >= 0 && m.cxBorder >= 0
    requires m.DiagonalWidth() < LONG_LIMIT
    requires (width as int) < m.DiagonalWidth() <= x < LONG_LIMIT
    requires y < m.FrameSize()
    ensures NcHitTest(false, x, y, width, height, m) == Top
    ensures BandZone(x, y, width as int, height as int, m) == TopRight
  {
    assert ToUnsigned(x) as int == x;
    assert ToUnsigned(width as int - m.DiagonalWidth()) as int == width as int - m.DiagonalWidth() + WORD_RANGE;
  }

  /** Concrete zones with frame 8, corner handles 19 wide, a 200x200 window. */
  lemma ExampleZones()
    ensures var m := FrameMetrics(4, 4, 3);
            && NcHitTest(false, 5, 5, 200, 200, m) == TopLeft
            && NcHitTest(false, 5, 100, 200, 200, m) == Left
            && NcHitTest(false, 100, 5, 200, 200, m) == Top
            && NcHitTest(false, 100, 100, 200, 200, m) == Client
            && NcHitTest(true, 5, 5, 200, 200, m) == Client
  {
  }
}
