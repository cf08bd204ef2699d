/** The custom title bar shared by both windows of the shell: three
    window-control dots in the header strip, the search for the dot under
    the pointer, the commands a click on a dot sends, the non-client hit
    test that makes the strip draggable, and the decoding of pointer
    coordinates from a message's `lparam`. The two windows differ only in
    the constants of ChromeConfig. */
module Chrome {
  import opened Basics
  import Colour

  const DOT_RADIUS: int := 8
  const DOT_MARGIN: int := 8
  const DOT_COUNT: nat := 3

  const HTCLIENT: int := 1
  const HTCAPTION: int := 2

  const SW_MAXIMIZE: int := 3
  const SW_MINIMIZE: int := 6
  const SW_RESTORE: int := 9

  /** The constants in which the two windows differ. */
  datatype ChromeConfig = ChromeConfig(panelHeight: int, dotMarginRight: int)

  /** A header strip tall enough to hold a dot. */
  predicate WellFormed(cfg: ChromeConfig) {
    cfg.panelHeight > DOT_RADIUS * 2
  }

  /** What a handler asks the host to repaint. */
  datatype Invalidation = WholeWindow | Area(rect: Rect)

  /** What a pointer-move handler asks of the host besides its state
      change: a repaint, and whether to request a one-shot leave event. */
  datatype MoveEffects = MoveEffects(invalidate: Option<Invalidation>, trackLeave: bool)

  /** The host calls a click on a dot produces: `PostQuitMessage(code)` or
      `ShowWindow(hwnd, cmd)`. */
  datatype Command = PostQuit(exitCode: int) | ShowWindow(showCmd: int)

  /** `get_dots`: close (red), minimize (yellow), maximize (green). */
  function DotColours(): (cs: seq<bv32>)
    ensures |cs| == DOT_COUNT
  {
    [Colour.Rgb(255, 95, 86), Colour.Rgb(255, 189, 46), Colour.Rgb(39, 201, 63)]
  }

  /** Left edge of dot `i`; x grows with the index, so dot 0 (close) is
      the leftmost of the three. */
  function DotX(cfg: ChromeConfig, winW: int, i: nat): int {
    winW - cfg.dotMarginRight - (DOT_RADIUS * 2 + DOT_MARGIN) * (3 - i)
  }

  /** Top edge of every dot: centred vertically in the strip, with the
      spare pixel of an odd strip below the dot. */
  function DotY(cfg: ChromeConfig): (y: int)
    ensures WellFormed(cfg) ==>
      0 <= y && (cfg.panelHeight - 16 - 2 * y == 0 || cfg.panelHeight - 16 - 2 * y == 1)
  {
    TruncDiv(cfg.panelHeight - DOT_RADIUS * 2, 2)
  }

  /** The inclusive box the handlers test for dot `i`: a 16-pixel square
      at (DotX, DotY). In a well-formed strip every dot lies inside the
      strip and left of the point `dotMarginRight` pixels from the right
      edge. */
  function DotBox(cfg: ChromeConfig, winW: int, i: nat): (b: Rect)
    ensures WellFormed(cfg) && i < DOT_COUNT ==>
      0 <= b.top && b.bottom < cfg.panelHeight && b.right < winW - cfg.dotMarginRight
  {
    Rect(DotX(cfg, winW, i), DotY(cfg), DotX(cfg, winW, i) + DOT_RADIUS * 2, DotY(cfg) + DOT_RADIUS * 2)
  }

  /** The three dot boxes in the order the handlers scan them: from left
      to right, each box ending before the next one begins. */
  function DotBoxes(cfg: ChromeConfig, winW: int): (boxes: seq<Rect>)
    ensures |boxes| == DOT_COUNT
    ensures forall i :: 0 <= i < DOT_COUNT ==> boxes[i] == DotBox(cfg, winW, i)
    ensures forall i, j :: 0 <= i < j < DOT_COUNT ==> boxes[i].right < boxes[j].left
  {
    [DotBox(cfg, winW, 0), DotBox(cfg, winW, 1), DotBox(cfg, winW, 2)]
  }

  /** The dot every handler finds under a point: the first dot whose box
      contains it when the point is above the bottom of the strip, and
      none otherwise. */
  function DotAt(cfg: ChromeConfig, winW: int, x: int, y: int): (d: Option<nat>)
    ensures d.Some? ==> d.value < DOT_COUNT && y < cfg.panelHeight && DotBox(cfg, winW, d.value).Contains(x, y)
    ensures d.Some? ==> forall j :: 0 <= j < d.value ==> !DotBox(cfg, winW, j).Contains(x, y)
    ensures d.None? <==> y >= cfg.panelHeight || forall j :: 0 <= j < DOT_COUNT ==> !DotBox(cfg, winW, j).Contains(x, y)
  {
    if y < cfg.panelHeight then FirstContaining(DotBoxes(cfg, winW), x, y) else None
  }

  /** The three dots are side by side: x strictly increases with the
      index, neighbours are 24 apart with an 8-pixel gap, no two boxes
      share a point, and every box lies inside the header strip. */
  lemma DotGeometry(cfg: ChromeConfig, winW: int, i: nat, j: nat)
    requires WellFormed(cfg)
    requires i < j < DOT_COUNT
    ensures DotX(cfg, winW, i) < DotX(cfg, winW, j)
    ensures DotBox(cfg, winW, i).right + DOT_MARGIN == DotX(cfg, winW, i + 1)
    ensures DotBox(cfg, winW, i).DisjointFrom(DotBox(cfg, winW, j))
    ensures 0 <= DotY(cfg) && DotBox(cfg, winW, j).bottom < cfg.panelHeight
  {
    assert DotX(cfg, winW, i) + 16 < DotX(cfg, winW, j);
    assert DotY(cfg) * 2 <= cfg.panelHeight - 16;
  }

  /** Since every dot lies inside the strip, the strip test in front of
      the scan never changes the answer, and a point inside dot `i` is
      always reported as dot `i`. */
  lemma DotAtIsTheContainingDot(cfg: ChromeConfig, winW: int, x: int, y: int, i: nat)
    requires WellFormed(cfg)
    requires i < DOT_COUNT && DotBox(cfg, winW, i).Contains(x, y)
    ensures DotAt(cfg, winW, x, y) == Some(i)
  {
    forall j | 0 <= j < i
      ensures !DotBox(cfg, winW, j).Contains(x, y)
    {
      DotGeometry(cfg, winW, j, i);
    }
    if i < 2 { DotGeometry(cfg, winW, i, 2); } else { DotGeometry(cfg, winW, 0, 2); }
    FirstContainingIs(DotBoxes(cfg, winW), x, y, i);
  }

  /** The dot loop of the handlers: skip it below the strip, otherwise
      try the dots in index order and stop at the first hit. */
  method FindDot(cfg: ChromeConfig, winW: int, x: int, y: int) returns (d: Option<nat>)
    ensures d == DotAt(cfg, winW, x, y)
  {
    d := None;
    if y < cfg.panelHeight {
      var dotY := TruncDiv(cfg.panelHeight - DOT_RADIUS * 2, 2);
      var i := 0;
      while i < DOT_COUNT
        invariant 0 <= i <= DOT_COUNT
        invariant forall j :: 0 <= j < i ==> !DotBox(cfg, winW, j).Contains(x, y)
      {
        var dotX := winW - cfg.dotMarginRight - (DOT_RADIUS * 2 + DOT_MARGIN) * (3 - i);
        if x >= dotX && x <= dotX + DOT_RADIUS * 2 && y >= dotY && y <= dotY + DOT_RADIUS * 2 {
          FirstContainingIs(DotBoxes(cfg, winW), x, y, i);
          return Some(i);
        }
        i := i + 1;
      }
    }
  }

  /** Left-button release at the point `lparam` carries, decoded as
      unsigned words (`ClientPoint`): a click on dot 0 quits, on dot 1
      minimizes, on dot 2 restores a maximized window and maximizes any
      other, and does nothing when the placement query failed (`placement`
      is the `showCmd` the query returned, None when it failed). A click on
      no dot sends nothing. The window state is not touched. */
  method ButtonUp(cfg: ChromeConfig, winW: int, lparam: int, placement: Option<int>) returns (cmd: Option<Command>)
    ensures var (x, y) := ClientPoint(lparam); var d := DotAt(cfg, winW, x, y);
      && (d == Some(0) ==> cmd == Some(PostQuit(0)))
      && (d == Some(1) ==> cmd == Some(ShowWindow(SW_MINIMIZE)))
      && (d == Some(2) && placement == Some(SW_MAXIMIZE) ==> cmd == Some(ShowWindow(SW_RESTORE)))
      && (d == Some(2) && placement.Some? && placement.value != SW_MAXIMIZE ==> cmd == Some(ShowWindow(SW_MAXIMIZE)))
      && (d == Some(2) && placement.None? ==> cmd == None)
      && (d.None? ==> cmd == None)
  {
    cmd := None;
    var x := LoWord(lparam);
    var y := HiWord(lparam);
    var d := FindDot(cfg, winW, x, y);
    match d {
      case None =>
      case Some(i) =>
        if i == 0 {
          cmd := Some(PostQuit(0));
        } else if i == 1 {
          cmd := Some(ShowWindow(SW_MINIMIZE));
        } else if i == 2 {
          match placement {
            case None =>
            case Some(showCmd) =>
              cmd := if showCmd == SW_MAXIMIZE then Some(ShowWindow(SW_RESTORE)) else Some(ShowWindow(SW_MAXIMIZE));
          }
        }
    }
  }

  /** Non-client hit test on a point in client coordinates: a point of the
      strip is draggable caption unless it lies on a dot, and every point
      on a dot or below the strip is ordinary client area. No resize code
      is ever returned. */
  method NcHitTest(cfg: ChromeConfig, winW: int, x: int, y: int) returns (code: int)
    ensures code == HTCLIENT || code == HTCAPTION
    ensures code == HTCAPTION <==> y < cfg.panelHeight && forall j :: 0 <= j < DOT_COUNT ==> !DotBox(cfg, winW, j).Contains(x, y)
  {
    if y < cfg.panelHeight {
      var d := FindDot(cfg, winW, x, y);
      if d.Some? {
        return HTCLIENT;
      }
      return HTCAPTION;
    }
    return HTCLIENT;
  }

  /** `(lparam & 0xFFFF) as i32`: the unsigned low word. */
  function LoWord(lparam: int): (w: int)
    ensures 0 <= w <= 0xFFFF
  {
    lparam % 0x1_0000
  }

  /** `((lparam >> 16) & 0xFFFF) as i32`: the unsigned high word (the
      arithmetic shift is a floor division by 2^16). */
  function HiWord(lparam: int): (w: int)
    ensures 0 <= w <= 0xFFFF
  {
    (lparam / 0x1_0000) % 0x1_0000
  }

  /** `word as i16 as i32`: the word read as a two's-complement 16-bit
      value; same low 16 bits, and negative exactly when bit 15 is set. */
  function SignExtend16(word: int): (v: int)
    requires 0 <= word <= 0xFFFF
    ensures -0x8000 <= v <= 0x7FFF
    ensures v == word || v == word - 0x1_0000
    ensures v < 0 <==> word >= 0x8000
  {
    if word < 0x8000 then word else word - 0x1_0000
  }

  /** The pointer of a client-area mouse message (move, button up):
      both coordinates lie in [0, 65535]. */
  function ClientPoint(lparam: int): (p: (int, int))
    ensures 0 <= p.0 <= 0xFFFF && 0 <= p.1 <= 0xFFFF
  {
    (LoWord(lparam), HiWord(lparam))
  }

  /** The pointer of a non-client hit-test message, in screen
      coordinates: both lie in [-32768, 32767]. */
  function ScreenPoint(lparam: int): (p: (int, int))
    ensures -0x8000 <= p.0 <= 0x7FFF && -0x8000 <= p.1 <= 0x7FFF
  {
    (SignExtend16(LoWord(lparam)), SignExtend16(HiWord(lparam)))
  }

  /** The host's packing of a point into `lparam` (the Win32 MAKELPARAM
      of the two 16-bit words); the inverse the decoders must undo. */
  function MakeLParam(x: int, y: int): int {
    (y % 0x1_0000) * 0x1_0000 + x % 0x1_0000
  }

  /** Unsigned decoding recovers every point with coordinates in
      [0, 65535]. */
  lemma ClientPointRoundTrip(x: int, y: int)
    requires 0 <= x <= 0xFFFF && 0 <= y <= 0xFFFF
    ensures ClientPoint(MakeLParam(x, y)) == (x, y)
  {
    var lp := MakeLParam(x, y);
    assert lp == y * 0x1_0000 + x;
    assert lp / 0x1_0000 == y;
    assert lp % 0x1_0000 == x;
  }

  /** Sign-extending decoding recovers every point with coordinates in
      [-32768, 32767], negative ones included. */
  lemma ScreenPointRoundTrip(x: int, y: int)
    requires -0x8000 <= x <= 0x7FFF && -0x8000 <= y <= 0x7FFF
    ensures ScreenPoint(MakeLParam(x, y)) == (x, y)
  {
    var ux := if x < 0 then x + 0x1_0000 else x;
    var uy := if y < 0 then y + 0x1_0000 else y;
    assert x % 0x1_0000 == ux && y % 0x1_0000 == uy;
    assert MakeLParam(x, y) == MakeLParam(ux, uy);
    ClientPointRoundTrip(ux, uy);
  }
}
