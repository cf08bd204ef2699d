/** The older standalone window: a 40-pixel header strip with the dots 24
    pixels in from the right edge, a state of just the hovered dot and the
    leave-tracking flag, whole-window repaints, and darkened hover
    colours. Dot search, clicks and the non-client hit test are the
    shared ones of Chrome under this window's constants. */
module StandaloneWindow {
  import opened Basics
  import Colour
  import opened Chrome

  const PANEL_HEIGHT: int := 40
  const DOT_MARGIN_RIGHT: int := 24

  const Config: ChromeConfig := ChromeConfig(PANEL_HEIGHT, DOT_MARGIN_RIGHT)

  /** Where the dots of this window sit: dot i spans
      x in [winW - 24 - 24(3-i), winW - 24 - 24(3-i) + 16] and y in [12, 28],
      inside the 40-pixel strip and left of the right edge. */
  lemma DotBoxesAt(winW: int, i: nat)
    requires i < DOT_COUNT
    ensures DotBox(Config, winW, i) == Rect(winW - 24 - 24 * (3 - i), 12, winW - 24 - 24 * (3 - i) + 16, 28)
    ensures DotBox(Config, winW, i).bottom < PANEL_HEIGHT && DotBox(Config, winW, i).right < winW
  {
  }

  /** A channel of the hovered dot: `c.saturating_sub(30)` on `u8`. It
      never brightens, falls by at most 30, and falls by less only by
      stopping at 0. */
  function DarkenChannel(c: bv8): (r: bv8)
    ensures r <= c && c - r <= 30
    ensures r == 0 || c - r == 30
  {
    if c < 30 then 0 else c - 30
  }

  /** The hover colour of a dot: every channel darkened. */
  function Darken(colour: bv32): (r: bv32)
    ensures Colour.Red(r) == DarkenChannel(Colour.Red(colour))
    ensures Colour.Green(r) == DarkenChannel(Colour.Green(colour))
    ensures Colour.Blue(r) == DarkenChannel(Colour.Blue(colour))
    ensures r >> 24 == 0
  {
    Colour.Rgb(DarkenChannel(Colour.Red(colour)), DarkenChannel(Colour.Green(colour)), DarkenChannel(Colour.Blue(colour)))
  }

  /** The fill colour `WM_PAINT` uses for dot `i`: darkened for the
      hovered dot, which then differs from its base colour, and the base
      colour for the others. */
  function DotFill(hoverDot: Option<nat>, i: nat): (c: bv32)
    requires i < DOT_COUNT
    ensures hoverDot != Some(i) ==> c == DotColours()[i]
    ensures hoverDot == Some(i) ==> c == Darken(DotColours()[i]) && c != DotColours()[i]
    ensures hoverDot == Some(i) ==>
      Colour.Red(c) <= Colour.Red(DotColours()[i]) &&
      Colour.Green(c) <= Colour.Green(DotColours()[i]) &&
      Colour.Blue(c) <= Colour.Blue(DotColours()[i])
  {
    var base := DotColours()[i];
    if hoverDot == Some(i) then Darken(base) else base
  }

  /** The state `main` attaches to the window. */
  class WindowState {
    var hoverDot: Option<nat>
    var trackingMouse: bool

    /** A hovered dot is one of the three. */
    ghost predicate Valid()
      reads this
    {
      hoverDot.Some? ==> hoverDot.value < DOT_COUNT
    }

    /** Nothing hovered, leave tracking not armed. */
    constructor ()
      ensures Valid()
      ensures hoverDot == None && !trackingMouse
    {
      hoverDot := None;
      trackingMouse := false;
    }

    /** `WM_MOUSEMOVE`: the hovered dot becomes the dot under the pointer
      (none below the strip); the whole window is repainted exactly when
      that changed; leave tracking is requested when it was not armed and
      is armed afterwards. */
    method MouseMove(winW: int, lparam: int) returns (e: MoveEffects)
      requires Valid()
      modifies this
      ensures Valid()
      ensures var (x, y) := ClientPoint(lparam); hoverDot == DotAt(Config, winW, x, y)
      ensures e.invalidate == if hoverDot != old(hoverDot) then Some(WholeWindow) else None
      ensures e.trackLeave == !old(trackingMouse)
      ensures trackingMouse
    {
      var x := LoWord(lparam);
      var y := HiWord(lparam);
      var newHoverDot := FindDot(Config, winW, x, y);
      var invalidate := None;
      if hoverDot != newHoverDot {
        hoverDot := newHoverDot;
        invalidate := Some(WholeWindow);
      }
      var trackLeave := false;
      if !trackingMouse {
        trackLeave := true;
        trackingMouse := true;
      }
      e := MoveEffects(invalidate, trackLeave);
    }

    /** `WM_MOUSELEAVE`: the hover is cleared and the whole window
      repainted if a dot was hovered; leave tracking is disarmed in every
      case. */
    method MouseLeave() returns (invalidate: Option<Invalidation>)
      requires Valid()
      modifies this
      ensures Valid()
      ensures hoverDot == None && !trackingMouse
      ensures invalidate == if old(hoverDot).Some? then Some(WholeWindow) else None
    {
      invalidate := None;
      if hoverDot.Some? {
        hoverDot := None;
        invalidate := Some(WholeWindow);
      }
      trackingMouse := false;
    }
  }
}
