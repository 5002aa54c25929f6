/** The switch panel: a grid of five buttons per row, one per entry of the
    game's switch table, and the hit test that turns a mouse position back
    into a switch code. */
module Switches {
  import opened Wrappers
  import opened Text
  import opened Draw
  import opened Db
  import opened Arith

  const SWITCH_WIDTH: nat := 140
  const SWITCH_HEIGHT: nat := 20
  const MARGIN: nat := 2
  const PANEL_COLUMNS: nat := 5

  const I32_MIN: int := -0x8000_0000
  const I32_MAX: int := 0x7fff_ffff
  const USIZE_MODULUS: nat := 0x1_0000_0000_0000_0000

  predicate IsI32(v: int) {
    I32_MIN <= v <= I32_MAX
  }

  /** Rust's `/` on signed integers: the quotient is truncated toward zero. */
  function TruncDiv(a: int, b: nat): (q: int)
    requires b > 0
    ensures a >= 0 ==> 0 <= q <= a && q * b <= a < q * b + b
    ensures a < 0 ==> a <= q <= 0 && q * b - b < a <= q * b
  {
    if a >= 0 then
      DivBounds(a, b);
      a / b
    else
      DivBounds(-a, b);
      -((-a) / b)
  }

  /** `i as usize` for an `i32` on a 64-bit target: a negative value wraps. */
  function UsizeCast(i: int): nat {
    i % USIZE_MODULUS
  }

  /** `keys().nth(n)`: the code at insertion position n, if any. */
  function NthCode(switches: SwitchIndex, n: nat): (r: Option<nat>)
    ensures r.Some? <==> n < |switches|
    ensures r.Some? ==> r.value == switches[n].code
  {
    if n < |switches| then Some(switches[n].code) else None
  }

  /** The panel ordinal the hit test computes for (x, y). */
  function SwitchOrdinal(x: int, y: int): int {
    TruncDiv(x, SWITCH_WIDTH + MARGIN) + TruncDiv(y, SWITCH_HEIGHT + MARGIN) * PANEL_COLUMNS
  }

  /** `switch_id_for_mouse`: the code (not the ordinal) of the switch whose
      panel position the point falls on; there is no bound on the column. */
  function SwitchIdForMouse(x: int, y: int, switches: SwitchIndex): (r: Option<nat>)
    requires IsI32(x) && IsI32(y) && |switches| <= I32_MAX
    ensures r.Some? <==> 0 <= SwitchOrdinal(x, y) < |switches|
    ensures r.Some? ==> r.value == switches[SwitchOrdinal(x, y)].code
  {
    var column := TruncDiv(x, SWITCH_WIDTH + MARGIN);
    var row := TruncDiv(y, SWITCH_HEIGHT + MARGIN);
    var index := column + row * PANEL_COLUMNS;
    if index < |switches| then NthCode(switches, UsizeCast(index)) else None
  }

  /** The button of ordinal i: column i % 5, row i / 5, on a 142 by 22 pitch. */
  function SwitchRect(atX: nat, atY: nat, i: nat): Rect {
    Rect(atX + (i % PANEL_COLUMNS) * (SWITCH_WIDTH + MARGIN),
         atY + (i / PANEL_COLUMNS) * (SWITCH_HEIGHT + MARGIN),
         SWITCH_WIDTH, SWITCH_HEIGHT)
  }

  /** The button of ordinal i together with the margin to its right and below. */
  function SwitchSlot(atX: nat, atY: nat, i: nat): Rect {
    Rect(SwitchRect(atX, atY, i).x, SwitchRect(atX, atY, i).y,
         SWITCH_WIDTH + MARGIN, SWITCH_HEIGHT + MARGIN)
  }

  /** Every point of a drawn switch's slot, margin included, is read back as
      that switch's code. */
  lemma HitTestRoundTrip(switches: SwitchIndex, i: nat, px: int, py: int)
    requires i < |switches| <= I32_MAX
    requires IsI32(px) && IsI32(py)
    requires InRect(SwitchSlot(0, 0, i), px, py)
    ensures SwitchIdForMouse(px, py, switches) == Some(switches[i].code)
  {
    DivWithin(px, SWITCH_WIDTH + MARGIN, i % PANEL_COLUMNS);
    DivWithin(py, SWITCH_HEIGHT + MARGIN, i / PANEL_COLUMNS);
    assert SwitchOrdinal(px, py) == i;
  }

  /** With no bound on the column, a point in the sixth column, just right of
      the panel, reads the first switch of the next row. */
  lemma HitTestColumnFiveAliases(switches: SwitchIndex, x: int, y: int)
    requires |switches| <= I32_MAX
    requires 710 <= x < 852 && 0 <= y <= I32_MAX - 22
    ensures SwitchIdForMouse(x, y, switches) == NthCode(switches, 5 + 5 * (y / 22))
    ensures SwitchIdForMouse(x, y, switches) == SwitchIdForMouse(0, y + 22, switches)
  {
    DivWithin(x, SWITCH_WIDTH + MARGIN, 5);
    DivWithin(y + 22, SWITCH_HEIGHT + MARGIN, y / 22 + 1);
  }

  /** Truncation toward zero folds the strip just left of and just above the
      panel onto column 0 and row 0. */
  lemma HitTestNegativeTruncates(switches: SwitchIndex, x: int, y: int)
    requires |switches| <= I32_MAX
    requires -142 < x < 142 && -22 < y < 22
    ensures SwitchIdForMouse(x, y, switches) == NthCode(switches, 0)
  {
  }

  /** Further left, the ordinal turns negative and no switch is hit. */
  lemma HitTestFarLeftMisses(switches: SwitchIndex, x: int, y: int)
    requires |switches| <= I32_MAX
    requires I32_MIN <= x <= -142 && -22 < y < 22
    ensures SwitchIdForMouse(x, y, switches) == None
  {
  }

  /** The hit test yields codes, not ordinals: in the Terminator 2 table the
      button at ordinal 18 (column 3, row 3) is switch 21. */
  lemma T2Ordinal18IsCode21()
    ensures SwitchIdForMouse(3 * 142, 3 * 22, T2_SWITCHES) == Some(21)
  {
    T2SwitchesShape();
    HitTestRoundTrip(T2_SWITCHES, 18, 3 * 142, 3 * 22);
  }

  // ---------------- rendering ----------------

  const FONT_COLOR := Color(200, 200, 200, 255)
  const PRESSED_COLOR := Rgb(100, 40, 40)
  const RELEASED_COLOR := Rgb(40, 10, 10)
  const UNKNOWN_COLOR := Rgb(20, 20, 20)

  /** The button colour of a switch: pressed, released, or never touched. */
  function ButtonColor(states: map<nat, bool>, code: nat): (c: Color)
    ensures c == PRESSED_COLOR <==> code in states && states[code]
    ensures c == RELEASED_COLOR <==> code in states && !states[code]
    ensures c == UNKNOWN_COLOR <==> code !in states
  {
    if code in states then (if states[code] then PRESSED_COLOR else RELEASED_COLOR) else UNKNOWN_COLOR
  }

  /** `format!("{}: {}", code, label)`. */
  function Caption(entry: SwitchEntry): string {
    NatToDecimal(entry.code) + ": " + entry.text
  }

  /** A caption starts with its code in decimal followed by ':', so it can be
      read back to the code whatever the label says. */
  lemma CaptionStartsWithCode(entry: SwitchEntry)
    ensures var k := |NatToDecimal(entry.code)|;
            k < |Caption(entry)| && Caption(entry)[k] == ':' &&
            (forall i | 0 <= i < k :: IsDigit(Caption(entry)[i])) &&
            DecimalValue(Caption(entry)[..k]) == entry.code
  {
    var k := |NatToDecimal(entry.code)|;
    assert Caption(entry)[..k] == NatToDecimal(entry.code);
    DecimalRoundTrip(entry.code);
  }

  /** Captions of switches with different codes differ, even when the labels
      are equal (as for the two "?" switches of Terminator 2). */
  lemma CaptionsDistinguishCodes(a: SwitchEntry, b: SwitchEntry)
    requires a.code != b.code
    ensures Caption(a) != Caption(b)
  {
    CaptionStartsWithCode(a);
    CaptionStartsWithCode(b);
  }

  /** The button and the caption of the first n switches, in table order. */
  function SwitchPrefix(atX: nat, atY: nat, switches: SwitchIndex, states: map<nat, bool>, n: nat): (cmds: seq<Command>)
    requires n <= |switches|
    ensures |cmds| == 2 * n
    ensures forall i | 0 <= i < n ::
              && cmds[2 * i] == Fill(SwitchRect(atX, atY, i), ButtonColor(states, switches[i].code))
              && cmds[2 * i + 1] == Label(SwitchRect(atX, atY, i).x, SwitchRect(atX, atY, i).y, Caption(switches[i]), FONT_COLOR)
  {
    if n == 0 then []
    else
      var rect := SwitchRect(atX, atY, n - 1);
      SwitchPrefix(atX, atY, switches, states, n - 1)
      + [Fill(rect, ButtonColor(states, switches[n - 1].code)),
         Label(rect.x, rect.y, Caption(switches[n - 1]), FONT_COLOR)]
  }

  /** `render_switches`: one button per table entry, coloured by its state,
      with its caption copied onto the button's top-left corner. */
  method RenderSwitches(atX: nat, atY: nat, canvas: Canvas, switches: SwitchIndex, states: map<nat, bool>)
    modifies canvas
    ensures canvas.commands == old(canvas.commands) + SwitchPrefix(atX, atY, switches, states, |switches|)
  {
    for index := 0 to |switches|
      invariant canvas.commands == old(canvas.commands) + SwitchPrefix(atX, atY, switches, states, index)
    {
      var x := index % PANEL_COLUMNS;
      var y := index / PANEL_COLUMNS;
      var rect := Rect(atX + x * (SWITCH_WIDTH + MARGIN), atY + y * (SWITCH_HEIGHT + MARGIN), SWITCH_WIDTH, SWITCH_HEIGHT);
      var code := switches[index].code;
      var buttonColor := if code in states then (if states[code] then PRESSED_COLOR else RELEASED_COLOR) else UNKNOWN_COLOR;
      canvas.FillRect(rect, buttonColor);
      var text := NatToDecimal(code) + ": " + switches[index].text;
      canvas.DrawLabel(atX + x * (SWITCH_WIDTH + MARGIN), atY + y * (SWITCH_HEIGHT + MARGIN), text, FONT_COLOR);
    }
  }
}
