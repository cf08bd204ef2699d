/** The window of the Window library: a 48-pixel header strip with the
    dots flush against the right edge, a per-window state updated by the
    pointer handlers, repaints limited to the dot cluster, brightened
    hover colours, and a greeting chosen from the clock at creation. */
module EngineWindow {
  import opened Basics
  import Colour
  import UiLayout
  import opened Chrome

  const PANEL_HEIGHT: int := 48
  const DOT_MARGIN_RIGHT: int := 0

  const Config: ChromeConfig := ChromeConfig(PANEL_HEIGHT, DOT_MARGIN_RIGHT)

  /** Where the dots of this window sit for a client width `winW`: dot i
      spans x in [winW - 24(3-i), winW - 24(3-i) + 16] and y in [16, 32]. */
  lemma DotBoxesAt(winW: int, i: nat)
    requires i < DOT_COUNT
    ensures DotBox(Config, winW, i) == Rect(winW - 24 * (3 - i), 16, winW - 24 * (3 - i) + 16, 32)
    ensures DotBox(Config, winW, i).bottom < PANEL_HEIGHT
  {
  }

  /** The region the handlers repaint when the hovered dot changes: the
      dot cluster widened by one dot margin on each side, over the full
      height of the header strip and nothing below it. It covers every
      dot, so the old and the new hover state are both redrawn. */
  function ClusterRect(winW: int): (r: Rect)
    ensures r.left == DotBox(Config, winW, 0).left - DOT_MARGIN
    ensures r.right == DotBox(Config, winW, DOT_COUNT - 1).right + DOT_MARGIN
    ensures r.top == 0 && r.bottom == PANEL_HEIGHT
    ensures forall i :: 0 <= i < DOT_COUNT ==> DotBox(Config, winW, i).Within(r)
  {
    Rect(winW - (DOT_RADIUS * 2 + DOT_MARGIN) * 3 - 8, 0, winW, PANEL_HEIGHT)
  }

  /** A channel of the hovered dot: `min(c + 60, 255)` computed on `u32`.
      It never darkens, rises by at most 60, and stops short of 60 only by
      saturating at 255. */
  function BrightenChannel(c: bv8): (r: bv8)
    ensures c <= r && r - c <= 60
    ensures r == 255 || r - c == 60
  {
    var v := (c as bv32) + 60;
    (if v < 255 then v else 255) as bv8
  }

  /** The hover colour of a dot: every channel brightened. */
  function Brighten(colour: bv32): (r: bv32)
    ensures Colour.Red(r) == BrightenChannel(Colour.Red(colour))
    ensures Colour.Green(r) == BrightenChannel(Colour.Green(colour))
    ensures Colour.Blue(r) == BrightenChannel(Colour.Blue(colour))
    ensures r >> 24 == 0
  {
    Colour.Rgb(BrightenChannel(Colour.Red(colour)), BrightenChannel(Colour.Green(colour)), BrightenChannel(Colour.Blue(colour)))
  }

  /** The fill colour `draw_header_panel` uses for dot `i`: brightened for
      the hovered dot, which then differs from its base colour, and the base
      colour for the others. */
  function DotFill(hoverDot: Option<nat>, i: nat): (c: bv32)
    requires i < DOT_COUNT
    ensures hoverDot != Some(i) ==> c == DotColours()[i]
    ensures hoverDot == Some(i) ==> c == Brighten(DotColours()[i]) && c != DotColours()[i]
    ensures hoverDot == Some(i) ==>
      Colour.Red(DotColours()[i]) <= Colour.Red(c) &&
      Colour.Green(DotColours()[i]) <= Colour.Green(c) &&
      Colour.Blue(DotColours()[i]) <= Colour.Blue(c)
  {
    var base := DotColours()[i];
    if Some(i) == hoverDot then Brighten(base) else base
  }

  /** `now % 13`: the greeting picked from the clock (seconds since the
      epoch) when the window is created. */
  function GreetIndex(nowSecs: nat): (i: nat)
    ensures i < 13
    ensures (nowSecs - i) % 13 == 0
  {
    nowSecs % 13
  }

  /** The greeting painted for `greetIdx`: the lookup reduces the index
      by the list length, so it is in bounds for every index. */
  function GreetingText(greetIdx: nat): (s: string)
    ensures s in UiLayout.Greetings()
    ensures greetIdx < 13 ==> s == UiLayout.Greetings()[greetIdx]
  {
    var greetings := UiLayout.Greetings();
    var k := greetIdx % |greetings|;
    assert greetIdx < 13 ==> k == greetIdx;
    greetings[k]
  }

  /** The rule `draw_wizard_block` draws above the buttons, as
      (left, right, y): its own constants for the left margin and for
      four 140-pixel buttons with 14-pixel gaps, 18 pixels above the
      button row. It is drawn with the layout of the same window size, and
      then spans exactly the main button row, from the first button's
      left edge to the last one's right edge, at the layout's rule
      height. */
  function WizardRule(winW: int, winH: int, layout: UiLayout.WizardLayout): (r: (int, int, int))
    requires layout == UiLayout.LayoutWizardAndButtons(winW, winH)
    ensures var bs := UiLayout.MakeMainButtons(winW, winH).buttons;
      r == (bs[0].x, bs[3].x + bs[3].w, layout.lineY)
  {
    var buttonCount := 4;
    var buttonW := 140;
    var buttonGap := 14;
    var lineX := 32;
    (lineX, lineX + (buttonCount * buttonW + (buttonCount - 1) * buttonGap), layout.buttonsY - 18)
  }

  /** The state `run_window` attaches to the window. */
  class WindowState {
    var hoverDot: Option<nat>
    var trackingMouse: bool
    var greetIdx: nat
    var hoverButton: Option<nat>

    /** A hovered dot is one of the three. */
    ghost predicate Valid()
      reads this
    {
      hoverDot.Some? ==> hoverDot.value < DOT_COUNT
    }

    /** Nothing hovered, leave tracking not armed, greeting from the clock. */
    constructor (nowSecs: nat)
      ensures Valid()
      ensures hoverDot == None && !trackingMouse && hoverButton == None
      ensures greetIdx == GreetIndex(nowSecs)
    {
      hoverDot := None;
      trackingMouse := false;
      greetIdx := GreetIndex(nowSecs);
      hoverButton := None;
    }

    /** `WM_MOUSEMOVE`: the hovered dot becomes the dot under the pointer
      (none below the strip); the dot cluster is repainted exactly when
      that changed; leave tracking is requested when it was not armed and
      is armed afterwards. The greeting and the hovered button are not
      touched. */
    method MouseMove(winW: int, lparam: int) returns (e: MoveEffects)
      requires Valid()
      modifies this`hoverDot, this`trackingMouse
      ensures Valid()
      ensures var (x, y) := ClientPoint(lparam); hoverDot == DotAt(Config, winW, x, y)
      ensures e.invalidate == if hoverDot != old(hoverDot) then Some(Area(ClusterRect(winW))) else None
      ensures e.trackLeave == !old(trackingMouse)
      ensures trackingMouse
    {
      var x := LoWord(lparam);
      var y := HiWord(lparam);
      var newHoverDot := FindDot(Config, winW, x, y);
      var invalidate := None;
      if hoverDot != newHoverDot {
        hoverDot := newHoverDot;
        invalidate := Some(Area(ClusterRect(winW)));
      }
      var trackLeave := false;
      if !trackingMouse {
        trackLeave := true;
        trackingMouse := true;
      }
      e := MoveEffects(invalidate, trackLeave);
    }

    /** `WM_MOUSELEAVE`: the hover is cleared and the dot cluster repainted
      if a dot was hovered; leave tracking is disarmed in every case. */
    method MouseLeave(winW: int) returns (invalidate: Option<Invalidation>)
      requires Valid()
      modifies this`hoverDot, this`trackingMouse
      ensures Valid()
      ensures hoverDot == None && !trackingMouse
      ensures invalidate == if old(hoverDot).Some? then Some(Area(ClusterRect(winW))) else None
    {
      invalidate := None;
      if hoverDot.Some? {
        hoverDot := None;
        invalidate := Some(Area(ClusterRect(winW)));
      }
      trackingMouse := false;
    }
  }

  /** Moving onto the minimize dot of a new 800-wide window hovers it and
      repaints the cluster; leaving the window clears the hover again. */
  method HoverThenLeave()
  {
    var state := new WindowState(0);
    var lparam := 0x0018_02F8;  // x = 760, y = 24
    DotBoxesAt(800, 1);
    DotAtIsTheContainingDot(Config, 800, 760, 24, 1);
    assert ClientPoint(lparam) == (760, 24);
    assert DotAt(Config, 800, 760, 24) == Some(1);
    var e := state.MouseMove(800, lparam);
    assert state.hoverDot == Some(1);
    assert e.invalidate == Some(Area(Rect(720, 0, 800, 48)));
    assert e.trackLeave && state.trackingMouse;
    var inv := state.MouseLeave(800);
    assert state.hoverDot == None && !state.trackingMouse;
    assert inv.Some?;
  }
}
