# Solka Engine window chrome — a Dafny model

Solka Engine's desktop shell draws its own borderless window. A header
strip has three window-control dots (close, minimize, maximize/restore).
Below it sit a greeting, a "wizard" card and a row of four main buttons.
This project models the integer logic behind that chrome and proves
properties of it:

- the layout engine of the UI library (`Solka-Engine-UI/src/lib.rs`);
- the hit tests and pointer state machine of the window library
  (`Solka-Engine-Window/src/lib.rs`). They are lifted out of its window
  procedure;
- the same logic in the older standalone window (`src/main.rs`), which
  uses different constants.

Modules, one per source component:

- `Basics` (basics.dfy): Option, Rust's truncating `/`, the `i32` range,
  inclusive rectangles, and `FirstContaining`. That function specifies the
  first-match search that every hit-test loop performs.
- `Colour` (colour.dfy): the `rgb` COLORREF packing on `u32` (`bv32`).
- `UiLayout` (ui_layout.dfy): the UI library. It holds the layout, the
  main buttons, the wizard block and its hit-test loop, the greetings and
  the default theme.
- `Chrome` (chrome.dfy): the title bar that both windows share. It is
  parameterised by `ChromeConfig(panelHeight, dotMarginRight)` and holds
  the dot geometry, the dot-search loop `FindDot`, the button-up dispatch,
  the non-client hit test and the `lparam` decoding.
- `EngineWindow` (engine_window.dfy): the window library, with
  `Config = ChromeConfig(48, 0)`. Its class `WindowState` has the fields
  `hoverDot`, `trackingMouse`, `greetIdx` and `hoverButton`; the
  mouse-move and mouse-leave handlers update `hoverDot` and
  `trackingMouse` in place and leave the other two alone. A hover change
  repaints only the dot cluster inside the header strip (`ClusterRect`). The module also covers hover
  brightening, greeting selection and the rule drawn above the buttons.
- `StandaloneWindow` (standalone_window.dfy): `src/main.rs`, with
  `Config = ChromeConfig(40, 24)`. Its `WindowState` has only `hoverDot`
  and `trackingMouse`. A hover change repaints the whole window, and the
  hovered dot is darkened. Its clicks and non-client hit test are
  `Chrome.ButtonUp` and `Chrome.NcHitTest` run with this `Config`.

Host calls become values. `InvalidateRect` becomes an `Invalidation`
(`WholeWindow` for a null rectangle, `Area(rect)` otherwise).
`TrackMouseEvent` becomes `MoveEffects.trackLeave`. `PostQuitMessage` and
`ShowWindow` become a `Command`. The result of `GetWindowPlacement` is an
input: the `showCmd` it returned, or None when the call failed.
`GetClientRect` gives the width as an input. The clock's seconds are an
input too.

On these points the model follows the code:

- Dot index 0 (close) is the leftmost dot, because x grows with the index.
- Leaving the window while a dot is hovered repaints the dot cluster (window library) or the
  whole window (standalone). It does not repaint the header strip, and
  the hovered button is never cleared.
- Buttons are never hovered or clicked. No handler hit-tests them,
  `hover_button` is never written, and no button command exists.
- The rule drawn above the buttons uses its own constants (x from 32 to
  634), not `line_x`/`line_right` of the layout. It still coincides with
  the button row; the contract of `WizardRule` states this.

## Model

| member | source | states |
|---|---|---|
| `Basics.TruncDiv` | Solka-Engine-UI/src/lib.rs:130 | Rust `/` for a positive divisor: the remainder has the sign of the dividend and is smaller than the divisor |
| `Basics.FirstContaining` | Solka-Engine-UI/src/lib.rs:77-84 | the first-match search: Some(i) only if box i holds the point and no earlier box does; None exactly when no box holds it |
| `Basics.FirstContainingIs` | Solka-Engine-UI/src/lib.rs:77-84 | a box that holds the point, with no earlier box holding it, is the one the search reports |
| `Colour.Rgb` | Solka-Engine-UI/src/lib.rs:87-89 | r, g and b land in bits 0-7, 8-15 and 16-23; each channel can be read back, and the top byte is zero |
| `Colour.RgbOfChannels` | Solka-Engine-UI/src/lib.rs:87-89 | reverse round trip: a colour with an empty top byte is rebuilt from its three channels |
| `UiLayout.Greetings` | Solka-Engine-UI/src/lib.rs:91-107 | there are exactly 13 greetings |
| `UiLayout.LayoutWizardAndButtons` | Solka-Engine-UI/src/lib.rs:121-150 | vertical fields are fixed (143, 178, 339, 345, 363) with steps 18, 6 and 18; the card is 540 wide and centred with truncation (the card is rounded left for wide windows and right for narrow ones); the rule is inset 32 from both edges |
| `UiLayout.LayoutIgnoresHeight` | Solka-Engine-UI/src/lib.rs:121-150 | the layout does not depend on the window height |
| `UiLayout.WizardCentred` | Solka-Engine-UI/src/lib.rs:130-132 | for every width, \|win_w - (2·wizard_x + 540)\| ≤ 1 |
| `UiLayout.LayoutFitsI32` | Solka-Engine-UI/src/lib.rs:121-138 | for every client width from 0 to i32::MAX, the layout arithmetic stays within `i32` |
| `UiLayout.MakeMainButtons` | Solka-Engine-UI/src/lib.rs:152-180 | exactly 4 buttons labelled Create/Open/Import Project and Guide, with icons document/folder/import/guide; has_icon is true and hovered is false; button i is at x = 32 + 154·i, y = 363, size 140×38; neighbours are 14 apart; the row runs from 32 to 634 whatever the width |
| `UiLayout.MainButtonsOrdered` | Solka-Engine-UI/src/lib.rs:160-176 | x strictly increases along the row, and no two button boxes overlap |
| `UiLayout.MakeWizard` | Solka-Engine-UI/src/lib.rs:182-190 | the wizard's button row is empty, so its hit test finds nothing at any point |
| `UiLayout.HitTest` | Solka-Engine-UI/src/lib.rs:77-84 | the loop returns the first button, in row order, whose inclusive box holds the point, or None when no box does |
| `Chrome.DotColours` | Solka-Engine-Window/src/lib.rs:155-161 | there are exactly three dot colours |
| `Chrome.DotY` | Solka-Engine-Window/src/lib.rs:919 | in a strip taller than a dot, the top of every dot is non-negative and leaves equal space above and below, with an odd spare pixel below |
| `Chrome.DotBox` | Solka-Engine-Window/src/lib.rs:919-925 | the 16×16 inclusive box at (dot_x, dot_y), with dot_x from `DotX` (lib.rs:923); in a strip taller than a dot, each of the three boxes lies inside the strip (0 ≤ top, bottom < panel height) and ends left of win_w - DOT_MARGIN_RIGHT |
| `Chrome.DotBoxes` | Solka-Engine-Window/src/lib.rs:919-925 | the scan visits the boxes from left to right: every box ends before each later box begins |
| `Chrome.DotAt` | Solka-Engine-Window/src/lib.rs:919-930 | the hovered dot is the first dot whose box holds the point, and only when y is above the header bottom; otherwise None |
| `Chrome.DotGeometry` | Solka-Engine-Window/src/lib.rs:919-925 | dot x increases with the index in steps of 24 with 8-pixel gaps; the boxes are pairwise disjoint and lie inside the strip (0 ≤ top, bottom < panel height) |
| `Chrome.DotAtIsTheContainingDot` | Solka-Engine-Window/src/lib.rs:921-929 | a point inside dot i's box is always reported as dot i, so the strip check never changes the result |
| `Chrome.FindDot` | Solka-Engine-Window/src/lib.rs:919-930 | the `for`/`break` dot loop computes `DotAt` |
| `Chrome.ButtonUp` | Solka-Engine-Window/src/lib.rs:960-994 | for the unsigned point decoded from `lparam`: dot 0 → PostQuit(0); dot 1 → ShowWindow(SW_MINIMIZE = 6); dot 2 → SW_RESTORE (9) if showCmd is SW_MAXIMIZE (3), else SW_MAXIMIZE, and nothing if the placement query failed; no dot → nothing; no state is touched (the same code is at src/main.rs:422-455, run with the standalone Config) |
| `Chrome.NcHitTest` | Solka-Engine-Window/src/lib.rs:1023-1048 | returns only HTCLIENT (1) or HTCAPTION (2); HTCAPTION exactly for a point above the strip bottom (negative y included) that is on no dot; HTCLIENT on a dot and at or below the strip bottom (same code at src/main.rs:470-494) |
| `Chrome.LoWord` | Solka-Engine-Window/src/lib.rs:913 | the low word of `lparam` is in [0, 65535] |
| `Chrome.HiWord` | Solka-Engine-Window/src/lib.rs:914 | the high word of `lparam` is in [0, 65535] |
| `Chrome.SignExtend16` | Solka-Engine-Window/src/lib.rs:1029-1032 | `as i16 as i32` gives a value in [-32768, 32767] with the same low 16 bits; it is negative exactly when bit 15 is set |
| `Chrome.ClientPoint` | src/main.rs:387-388 | mouse-move and button-up coordinates (as `MouseMove` and `ButtonUp` decode them) are in [0, 65535] |
| `Chrome.ScreenPoint` | src/main.rs:476-477 | non-client hit-test coordinates are in [-32768, 32767] |
| `Chrome.ClientPointRoundTrip` | src/main.rs:387-388 | unsigned decoding undoes MAKELPARAM for every point in [0, 65535]² |
| `Chrome.ScreenPointRoundTrip` | src/main.rs:475-478 | sign-extending decoding undoes MAKELPARAM for every point in [-32768, 32767]², negative ones included |
| `EngineWindow.DotBoxesAt` | Solka-Engine-Window/src/lib.rs:9-13 | with PANEL_HEIGHT 48 and DOT_MARGIN_RIGHT 0, dot i spans x ∈ [w-24(3-i), w-24(3-i)+16] and y ∈ [16, 32], below y = 48 |
| `EngineWindow.ClusterRect` | Solka-Engine-Window/src/lib.rs:935-944 | the repaint rectangle is the dot cluster widened by one 8-pixel dot margin on each side (from dot 0's left edge to dot 2's right edge), spanning exactly the 48-pixel header strip and nothing below it; it contains all three dot boxes, so the old and the new hover state are both redrawn |
| `EngineWindow.BrightenChannel` | Solka-Engine-Window/src/lib.rs:478-480 | min(c+60, 255): never lower than c, at most c+60, and below c+60 only when saturated at 255 |
| `EngineWindow.Brighten` | Solka-Engine-Window/src/lib.rs:477-482 | every channel of the hover colour is the brightened channel, and the top byte is zero |
| `EngineWindow.DotFill` | Solka-Engine-Window/src/lib.rs:471-482 | the hovered dot is filled with exactly the brightened base colour, which differs from the base (every channel ≥ its base); the other dots keep their base colour |
| `EngineWindow.GreetIndex` | Solka-Engine-Window/src/lib.rs:789-792 | the greeting index is < 13 and congruent to the seconds modulo 13 |
| `EngineWindow.GreetingText` | Solka-Engine-Window/src/lib.rs:455-456 | the painted greeting is always one of the list (the lookup is in bounds for any index), and is entry i for i < 13 |
| `EngineWindow.WizardRule` | Solka-Engine-Window/src/lib.rs:311-316 | drawn with the layout of the same window size (its only caller, lib.rs:904-906), the rule spans exactly the main button row, from the first button's left edge to the last one's right edge, at y = buttons_y - 18 = line_y |
| `EngineWindow.WindowState.constructor` | Solka-Engine-Window/src/lib.rs:793-798 | start state: no hovered dot or button, tracking off, greeting index from the clock |
| `EngineWindow.WindowState.MouseMove` | Solka-Engine-Window/src/lib.rs:912-958 | hover_dot becomes `DotAt` of the decoded point; the cluster rectangle is repainted iff hover_dot changed; leave tracking is requested iff it was off, and is then on; greet_idx and hover_button keep their values (frame) |
| `EngineWindow.WindowState.MouseLeave` | Solka-Engine-Window/src/lib.rs:995-1017 | hover_dot becomes None and tracking off; the cluster is repainted only if a dot was hovered |
| `StandaloneWindow.DotBoxesAt` | src/main.rs:392-398 | with PANEL_HEIGHT 40 and DOT_MARGIN_RIGHT 24, dot i spans x ∈ [w-24-24(3-i), +16] and y ∈ [12, 28], inside the strip and left of the right edge |
| `StandaloneWindow.DarkenChannel` | src/main.rs:367-369 | saturating c-30: never above c, at most 30 below, and less than 30 below only when clamped at 0 |
| `StandaloneWindow.Darken` | src/main.rs:365-373 | every channel of the hover colour is the darkened channel, and the top byte is zero |
| `StandaloneWindow.DotFill` | src/main.rs:360-373 | the hovered dot is filled with exactly the darkened base colour, which differs from the base (every channel ≤ its base); the other dots keep their base colour |
| `StandaloneWindow.WindowState.constructor` | src/main.rs:231-234 | start state: no hovered dot, tracking off |
| `StandaloneWindow.WindowState.MouseMove` | src/main.rs:386-421 | hover_dot becomes `DotAt` of the decoded point under the standalone constants; the whole window is repainted iff it changed; leave tracking is requested iff it was off, and is then on |
| `StandaloneWindow.WindowState.MouseLeave` | src/main.rs:456-464 | hover_dot becomes None and tracking off; the whole window is repainted only if a dot was hovered |

## Left out

- Window creation, class registration, the message loop, `run_window`/`main` and `center_window`: Win32 calls with no logic of the core.
- All GDI drawing (brushes, pens, fonts, icons, text), and every position that depends on measured text. Only the pure parts are modelled: dot colours, hover tints and the rule position.
- `ScreenToClient`, which the host performs: `NcHitTest` takes client coordinates. `ScreenPoint` models the decoding that comes before it.
- `to_wide` (UTF-16 encoding by the OS) and `SystemTime::now`; the seconds are an input.
- The per-window pointer slot (`GWLP_USERDATA`) and the `Box::from_raw` in `WM_DESTROY`. On the path where no state is attached yet, mouse-move and mouse-leave change nothing; that path is not modelled, because the state object always exists. Button-up and the non-client hit test never read the state, so `ButtonUp` and `NcHitTest` model that path exactly.
- `WM_SIZE`, `WM_ERASEBKGND`, `WM_NCCALCSIZE` and `WM_CREATE`. They hold no logic beyond a fixed return value or a whole-window repaint.
- `draw_wizard_message_and_line` and `draw_left_line` (never called), `RESIZE_BORDER_WIDTH` and the resize hit-test codes (unused), and the `add` placeholder.
- UiLayout.HitTest: coordinates are unbounded integers, so an `i32` wrap of `btn.x + btn.w` for an extreme button is not modelled. Every button the shell builds ends by x = 634 and y = 401.
- Chrome.FindDot: no `i32` overflow is modelled in the dot arithmetic. With the shell's widths and 16-bit pointer words, every value stays far inside `i32`.
