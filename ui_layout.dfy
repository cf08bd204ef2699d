/** The layout engine of the UI library: the wizard card, the message line,
    the horizontal rule and the fixed row of four main buttons, all derived
    from the window width, plus the button hit test of a wizard block. */
module UiLayout {
  import opened Basics
  import Colour

  /** The icons a main button can carry (the source keeps them as the
      strings "document", "folder", "import" and "guide"). */
  datatype IconKind = Document | Folder | Import | Guide

  datatype Button = Button(
    caption: string,
    x: int, y: int, w: int, h: int,
    hovered: bool,
    hasIcon: bool,
    iconType: Option<IconKind>)
  {
    /** The box `hit_test` compares against: both edges included. */
    function Box(): Rect {
      Rect(x, y, x + w, y + h)
    }
  }

  datatype ButtonRow = ButtonRow(buttons: seq<Button>)

  datatype WizardBlock = WizardBlock(
    step: string,
    title: string,
    description: string,
    info: string,
    buttonRow: ButtonRow)

  datatype WizardLayout = WizardLayout(
    wizardX: int, wizardY: int, wizardW: int, wizardH: int,
    msgY: int, lineY: int, buttonsY: int,
    lineX: int, lineRight: int)

  datatype Theme = Theme(
    bg: bv32, panel: bv32,
    wizardBg: bv32, wizardBorder: bv32,
    text: bv32, textSecondary: bv32,
    buttonBg: bv32, buttonBorder: bv32)

  /** `Theme::default`: the fixed palette. */
  const DefaultTheme: Theme := Theme(
    Colour.Rgb(32, 34, 37), Colour.Rgb(54, 57, 63),
    Colour.Rgb(38, 40, 45), Colour.Rgb(255, 255, 255),
    Colour.Rgb(255, 255, 255), Colour.Rgb(200, 200, 200),
    Colour.Rgb(44, 47, 51), Colour.Rgb(255, 255, 255))

  const LEFT_MARGIN: int := 32
  const BUTTON_W: int := 140
  const BUTTON_H: int := 38
  const BUTTON_GAP: int := 14

  /** The greeting sentences. */
  const Greeting0: string := "Welcome to Solka Engine — your path to new heights!"
  const Greeting1: string := "Solka Engine inspires great projects and new ideas!"
  const Greeting2: string := "May Solka Engine bring you luck and success in every code!"
  const Greeting3: string := "Solka Engine — your cosmic companion in the world of creativity!"
  const Greeting4: string := "With Solka Engine, your dreams of cool apps become reality!"
  const Greeting5: string := "Solka Engine: where the best projects and boldest ideas are born!"
  const Greeting6: string := "Inspiration is near — Solka Engine always supports your flight!"
  const Greeting7: string := "Solka Engine — your portal to the world of innovation and creativity!"
  const Greeting8: string := "With Solka Engine, you are always one step ahead!"
  const Greeting9: string := "Solka Engine: your reliable friend in the world of code and ideas!"
  const Greeting10: string := "Let Solka Engine open new horizons for you!"
  const Greeting11: string := "Solka Engine — your source of inspiration and strength!"
  const Greeting12: string := "With Solka Engine, the impossible becomes possible!"

  /** `greetings`: the sentences in the order the shell indexes them. */
  function Greetings(): (g: seq<string>)
    ensures |g| == 13
  {
    [
      Greeting0, Greeting1, Greeting2, Greeting3, Greeting4,
      Greeting5, Greeting6, Greeting7, Greeting8, Greeting9,
      Greeting10, Greeting11, Greeting12
    ]
  }

  /** `layout_wizard_and_buttons`. The card is 540 wide and centred with
      Rust's truncating division, so the card is rounded left for a window
      wider than 540 and rounded right for a narrower one; every vertical
      position is a constant chain below the header and greeting block;
      the rule is inset by the same margin from both window edges. The
      height is not used. */
  function LayoutWizardAndButtons(winW: int, winH: int): (l: WizardLayout)
    ensures l.wizardY == 143 && l.wizardH == 178 && l.msgY == 339 && l.lineY == 345 && l.buttonsY == 363
    ensures l.wizardY + l.wizardH + 18 == l.msgY && l.msgY + 6 == l.lineY && l.lineY + 18 == l.buttonsY
    ensures l.wizardW == 540
    ensures winW >= 540 ==> 2 * l.wizardX + l.wizardW == winW || 2 * l.wizardX + l.wizardW == winW - 1
    ensures winW < 540 ==> 2 * l.wizardX + l.wizardW == winW || 2 * l.wizardX + l.wizardW == winW + 1
    ensures l.lineX == LEFT_MARGIN && winW - l.lineRight == l.lineX
  {
    var lowerBlockW := 540;
    var lowerBlockH := 140;
    var greetIconSize := 56;
    var greetBgSize := 62;
    var greetIconY := 48 + 18;
    var greetBgY := greetIconY - TruncDiv(greetBgSize - greetIconSize, 2);
    var greetBgH := greetBgSize;
    var wizardX := TruncDiv(winW - lowerBlockW, 2);
    var wizardY := greetBgY + greetBgH + 18;
    var wizardH := lowerBlockH + 38;
    var msgY := wizardY + wizardH + 18;
    var lineY := msgY + 6;
    WizardLayout(wizardX, wizardY, lowerBlockW, wizardH, msgY, lineY, lineY + 18, LEFT_MARGIN, winW - LEFT_MARGIN)
  }

  /** The layout depends on the width only. */
  lemma LayoutIgnoresHeight(winW: int, h1: int, h2: int)
    ensures LayoutWizardAndButtons(winW, h1) == LayoutWizardAndButtons(winW, h2)
  {
  }

  /** The card is centred to within one pixel whatever the width. */
  lemma WizardCentred(winW: int, winH: int)
    ensures var l := LayoutWizardAndButtons(winW, winH);
      -1 <= winW - (2 * l.wizardX + l.wizardW) <= 1
  {
  }

  /** For any client width an `i32` can hold, every field of the layout,
      and every intermediate difference, stays within `i32`, so the
      source's arithmetic never overflows. */
  lemma LayoutFitsI32(winW: int, winH: int)
    requires 0 <= winW <= I32_MAX
    ensures var l := LayoutWizardAndButtons(winW, winH);
      IsI32(winW - 540) && IsI32(l.wizardX) && IsI32(l.lineRight) &&
      0 <= l.wizardY && l.buttonsY + BUTTON_H <= I32_MAX
  {
    var l := LayoutWizardAndButtons(winW, winH);
    assert -270 <= l.wizardX <= winW;
  }

  const ButtonLabels: seq<string> := ["Create Project", "Open Project", "Import Project", "Guide"]

  /** The `(has_icon, icon_type)` match of `make_main_buttons`, including
      its fallback arm for an index beyond the four labels. */
  function IconFor(i: nat): (bool, Option<IconKind>) {
    match i
    case 0 => (true, Some(Document))
    case 1 => (true, Some(Folder))
    case 2 => (true, Some(Import))
    case 3 => (true, Some(Guide))
    case _ => (false, None)
  }

  /** The closure body of `make_main_buttons` for index `i`. */
  function MainButton(i: nat, y: int): Button
    requires i < |ButtonLabels|
  {
    var (hasIcon, iconType) := IconFor(i);
    Button(ButtonLabels[i], LEFT_MARGIN + i * (BUTTON_W + BUTTON_GAP), y, BUTTON_W, BUTTON_H, false, hasIcon, iconType)
  }

  /** `make_main_buttons`: four buttons in the order Create, Open, Import,
      Guide, each 140 by 38 on the button-row line, starting at the left
      margin with a 14-pixel gap between neighbours. Nothing is clamped to
      the window: the last right edge is 634 for every width. */
  function MakeMainButtons(winW: int, winH: int): (row: ButtonRow)
    ensures |row.buttons| == 4
    ensures forall i :: 0 <= i < 4 ==>
      var b := row.buttons[i];
      b.caption == ButtonLabels[i] && b.x == 32 + 154 * i && b.y == 363 &&
      b.w == 140 && b.h == 38 && !b.hovered && b.hasIcon
    ensures row.buttons[0].iconType == Some(Document) && row.buttons[1].iconType == Some(Folder)
    ensures row.buttons[2].iconType == Some(Import) && row.buttons[3].iconType == Some(Guide)
    ensures forall i :: 0 <= i < 3 ==> row.buttons[i].x + row.buttons[i].w + BUTTON_GAP == row.buttons[i + 1].x
    ensures row.buttons[0].x == LEFT_MARGIN && row.buttons[3].x + row.buttons[3].w == 634
  {
    var layout := LayoutWizardAndButtons(winW, winH);
    ButtonRow(seq(|ButtonLabels|, i requires 0 <= i < |ButtonLabels| => MainButton(i, layout.buttonsY)))
  }

  /** The boxes of a row, in row order. */
  function Boxes(buttons: seq<Button>): (boxes: seq<Rect>)
    ensures |boxes| == |buttons|
    ensures forall i :: 0 <= i < |buttons| ==> boxes[i] == buttons[i].Box()
  {
    seq(|buttons|, i requires 0 <= i < |buttons| => buttons[i].Box())
  }

  /** Main-button x strictly increases with the index and no two button
      boxes share a point. */
  lemma MainButtonsOrdered(winW: int, winH: int, i: nat, j: nat)
    requires i < j < 4
    ensures var bs := MakeMainButtons(winW, winH).buttons;
      bs[i].x < bs[j].x && bs[i].Box().DisjointFrom(bs[j].Box())
  {
    var bs := MakeMainButtons(winW, winH).buttons;
    assert bs[i].x + 140 < bs[j].x;
  }

  /** The texts of the setup wizard card. */
  const WizardStep: string := "Step 1 of 1"
  const WizardTitle: string := "Setup Wizard"
  const WizardDescription: string := "To create your first project, click the Create Project button below. Follow the steps in the wizard to complete setup"
  const WizardInfo: string := ""

  /** `make_wizard`: the card's texts with an empty button row (its
      arguments are unused), so its hit test can never report a button. */
  function MakeWizard(winW: int, winH: int, greetIdx: nat): (block: WizardBlock)
    ensures block.buttonRow.buttons == []
    ensures forall x: int, y: int :: FirstContaining(Boxes(block.buttonRow.buttons), x, y) == None
  {
    WizardBlock(WizardStep, WizardTitle, WizardDescription, WizardInfo, ButtonRow([]))
  }

  /** `WizardBlock::hit_test`: scans the row in order and stops at the
      first button whose inclusive box holds the point. */
  method HitTest(block: WizardBlock, x: int, y: int) returns (r: Option<nat>)
    ensures r == FirstContaining(Boxes(block.buttonRow.buttons), x, y)
    ensures r.Some? ==> r.value < |block.buttonRow.buttons| && block.buttonRow.buttons[r.value].Box().Contains(x, y)
  {
    var buttons := block.buttonRow.buttons;
    var i := 0;
    while i < |buttons|
      invariant 0 <= i <= |buttons|
      invariant forall j :: 0 <= j < i ==> !buttons[j].Box().Contains(x, y)
    {
      var btn := buttons[i];
      if x >= btn.x && x <= btn.x + btn.w && y >= btn.y && y <= btn.y + btn.h {
        FirstContainingIs(Boxes(buttons), x, y, i);
        return Some(i);
      }
      i := i + 1;
    }
    return None;
  }
}
