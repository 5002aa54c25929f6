/** The display and indicator renderers: a dot-matrix frame drawn as 3x3
    squares on a 4-pixel pitch, the lamp and solenoid grids, the mechanism
    bars, and the (unfinished) alphanumeric dump. */
module Dmd {
  import opened Wrappers
  import opened Libpinmame
  import opened Draw
  import opened Arith

  /** Side of one drawn dot; the pitch is one more. */
  const PIXEL_SIZE: nat := 3

  /** `dmd_width`: the on-screen width of the dot matrix. */
  function DmdWidth(layout: DisplayLayout): nat {
    layout.width * (PIXEL_SIZE + 1)
  }

  /** `dmd_height`: the on-screen height of the dot matrix. */
  function DmdHeight(layout: DisplayLayout): nat {
    layout.height * (PIXEL_SIZE + 1)
  }

  // ---------------- pixel colours ----------------

  /** The colour of one frame value: a four-shade palette for depth 2; for any
      other depth, four bands of four values each. Values outside the palette
      are `unreachable!` in the source. */
  function PixelColor(depth: int, value: byte): (r: Outcome<Color>)
    ensures depth == 2 ==> (r.Done? <==> value < 4)
    ensures depth != 2 ==> (r.Done? <==> value < 16)
  {
    if depth == 2 then
      if value == 0 then Done(Rgb(40, 20, 0))
      else if value == 1 then Done(Rgb(120, 80, 0))
      else if value == 2 then Done(Rgb(215, 130, 0))
      else if value == 3 then Done(Rgb(250, 160, 0))
      else Panic("depth 2 should only have 0-3")
    else
      if value <= 3 then Done(Rgb(40, 20, 0))
      else if value <= 7 then Done(Rgb(255, 140, 0))
      else if value <= 11 then Done(Rgb(255, 152, 0))
      else if value <= 15 then Done(Rgb(255, 165, 0))
      else Panic("depth 4 should only have 0-15")
  }

  /** Sum of the three channels, a crude brightness. */
  function Brightness(c: Color): nat {
    c.r + c.g + c.b
  }

  /** At depth 2 a larger value is a strictly brighter shade, so the four
      values are four distinct colours from darkest (0) to brightest (3). */
  lemma Depth2Ordered(v: byte, w: byte)
    requires v < w < 4
    ensures PixelColor(2, v).Done? && PixelColor(2, w).Done?
    ensures Brightness(PixelColor(2, v).value) < Brightness(PixelColor(2, w).value)
    ensures PixelColor(2, v).value != PixelColor(2, w).value
  {
  }

  /** At any other depth two values share a colour exactly when they fall in
      the same band of four. */
  lemma Depth4Bands(depth: int, v: byte, w: byte)
    requires depth != 2 && v < 16 && w < 16
    ensures PixelColor(depth, v).Done? && PixelColor(depth, w).Done?
    ensures PixelColor(depth, v).value == PixelColor(depth, w).value <==> v / 4 == w / 4
    ensures v / 4 < w / 4 ==> Brightness(PixelColor(depth, v).value) < Brightness(PixelColor(depth, w).value)
  {
  }

  // ---------------- the dot matrix ----------------

  /** The frame index of column x, row y: frames are row-major. */
  function PixelIndex(layout: DisplayLayout, x: nat, y: nat): nat {
    y * layout.width + x
  }

  /** The square drawn for column x, row y. */
  function PixelRect(atX: nat, atY: nat, x: nat, y: nat): Rect {
    Rect(atX + x * (PIXEL_SIZE + 1), atY + y * (PIXEL_SIZE + 1), PIXEL_SIZE, PIXEL_SIZE)
  }

  /** Column x, row y can be drawn: its index is inside the frame and its
      value inside the palette. */
  predicate PixelDrawable(data: seq<byte>, layout: DisplayLayout, x: nat, y: nat) {
    PixelIndex(layout, x, y) < |data| && PixelColor(layout.depth, data[PixelIndex(layout, x, y)]).Done?
  }

  /** Every pixel of the first `columns` columns can be drawn. */
  predicate ColumnsDrawable(data: seq<byte>, layout: DisplayLayout, columns: nat) {
    forall x: nat, y: nat | x < columns && y < layout.height :: PixelDrawable(data, layout, x, y)
  }

  /** The whole frame can be drawn without a panic. */
  predicate FrameDrawable(data: seq<byte>, layout: DisplayLayout) {
    ColumnsDrawable(data, layout, layout.width)
  }

  function PixelCommand(atX: nat, atY: nat, data: seq<byte>, layout: DisplayLayout, x: nat, y: nat): Command
    requires PixelDrawable(data, layout, x, y)
  {
    Fill(PixelRect(atX, atY, x, y), PixelColor(layout.depth, data[PixelIndex(layout, x, y)]).value)
  }

  /** The squares of the first n rows of column x, top to bottom. */
  function ColumnCommands(atX: nat, atY: nat, data: seq<byte>, layout: DisplayLayout, x: nat, n: nat): (cmds: seq<Command>)
    requires forall y: nat | y < n :: PixelDrawable(data, layout, x, y)
    ensures |cmds| == n
    ensures forall y: nat | y < n :: cmds[y] == PixelCommand(atX, atY, data, layout, x, y)
  {
    if n == 0 then [] else ColumnCommands(atX, atY, data, layout, x, n - 1) + [PixelCommand(atX, atY, data, layout, x, n - 1)]
  }

  /** The squares of the first n columns, column by column. */
  function FrameCommands(atX: nat, atY: nat, data: seq<byte>, layout: DisplayLayout, n: nat): seq<Command>
    requires ColumnsDrawable(data, layout, n)
  {
    if n == 0 then []
    else FrameCommands(atX, atY, data, layout, n - 1) + ColumnCommands(atX, atY, data, layout, n - 1, layout.height)
  }

  /** `render_dmd`: draws column by column, each column top to bottom, and
      panics at the first index outside the frame or value outside the palette. */
  method RenderDmd(atX: nat, atY: nat, data: seq<byte>, layout: DisplayLayout, canvas: Canvas) returns (r: Outcome<()>)
    modifies canvas
    ensures r.Done? <==> FrameDrawable(data, layout)
    ensures r.Done? ==> canvas.commands == old(canvas.commands) + FrameCommands(atX, atY, data, layout, layout.width)
  {
    for x: nat := 0 to layout.width
      invariant ColumnsDrawable(data, layout, x)
      invariant canvas.commands == old(canvas.commands) + FrameCommands(atX, atY, data, layout, x)
    {
      for y: nat := 0 to layout.height
        invariant forall y': nat | y' < y :: PixelDrawable(data, layout, x, y')
        invariant canvas.commands == old(canvas.commands) + FrameCommands(atX, atY, data, layout, x)
                                     + ColumnCommands(atX, atY, data, layout, x, y)
      {
        var index := y * layout.width + x;
        if index >= |data| {
          assert !PixelDrawable(data, layout, x, y);
          return Panic("index out of bounds");
        }
        var color := PixelColor(layout.depth, data[index]);
        if color.Panic? {
          assert !PixelDrawable(data, layout, x, y);
          return Panic(color.reason);
        }
        canvas.FillRect(PixelRect(atX, atY, x, y), color.value);
      }
    }
    return Done(());
  }

  /** A frame renders exactly when it holds at least width*height values and
      each of those is inside the palette. */
  lemma FrameDrawableIff(data: seq<byte>, layout: DisplayLayout)
    ensures FrameDrawable(data, layout) <==>
            (|data| >= layout.width * layout.height &&
             forall i | 0 <= i < layout.width * layout.height :: PixelColor(layout.depth, data[i]).Done?)
  {
    if FrameDrawable(data, layout) {
      DrawableFrameIsLongEnough(data, layout);
      forall i | 0 <= i < layout.width * layout.height
        ensures PixelColor(layout.depth, data[i]).Done?
      {
        FramePixelOfIndex(data, layout, i);
      }
    } else {
      var x: nat, y: nat :| x < layout.width && y < layout.height && !PixelDrawable(data, layout, x, y);
      PixelIndexInFrame(layout, x, y);
    }
  }

  lemma DrawableFrameIsLongEnough(data: seq<byte>, layout: DisplayLayout)
    requires FrameDrawable(data, layout)
    ensures |data| >= layout.width * layout.height
  {
    var w, h := layout.width, layout.height;
    if w > 0 && h > 0 {
      assert PixelDrawable(data, layout, w - 1, h - 1);
      MulPred(h, w);
    }
  }

  lemma FramePixelOfIndex(data: seq<byte>, layout: DisplayLayout, i: nat)
    requires FrameDrawable(data, layout)
    requires i < layout.width * layout.height
    ensures i < |data| && PixelColor(layout.depth, data[i]).Done?
  {
    var w, h := layout.width, layout.height;
    var x, y := i % w, i / w;
    assert i == y * w + x;
    assert y < h by {
      if y >= h { MulLe(h, y, w); }
    }
    assert PixelDrawable(data, layout, x, y);
  }

  /** A pixel of the frame has an index below width*height. */
  lemma PixelIndexInFrame(layout: DisplayLayout, x: nat, y: nat)
    requires x < layout.width && y < layout.height
    ensures PixelIndex(layout, x, y) < layout.width * layout.height
  {
    var w, h := layout.width, layout.height;
    MulLe(y, h - 1, w);
    MulPred(h, w);
  }

  /** Pixel (x, y) is the command at position x*height + y of a rendered frame:
      the commands are column-major, one per pixel. */
  lemma {:induction false} FrameCommandAt(atX: nat, atY: nat, data: seq<byte>, layout: DisplayLayout, n: nat, x: nat, y: nat)
    requires ColumnsDrawable(data, layout, n)
    requires x < n && y < layout.height
    ensures |FrameCommands(atX, atY, data, layout, n)| == n * layout.height
    ensures x * layout.height + y < n * layout.height
    ensures FrameCommands(atX, atY, data, layout, n)[x * layout.height + y] == PixelCommand(atX, atY, data, layout, x, y)
  {
    var h := layout.height;
    FrameLength(atX, atY, data, layout, n);
    FrameLength(atX, atY, data, layout, n - 1);
    var prev := FrameCommands(atX, atY, data, layout, n - 1);
    var col := ColumnCommands(atX, atY, data, layout, n - 1, h);
    assert FrameCommands(atX, atY, data, layout, n) == prev + col;
    var i := x * h + y;
    if x == n - 1 {
      assert i == |prev| + y;
      assert (prev + col)[i] == col[y];
    } else {
      FrameCommandAt(atX, atY, data, layout, n - 1, x, y);
      assert (prev + col)[i] == prev[i];
    }
  }

  lemma {:induction false} FrameLength(atX: nat, atY: nat, data: seq<byte>, layout: DisplayLayout, n: nat)
    requires ColumnsDrawable(data, layout, n)
    ensures |FrameCommands(atX, atY, data, layout, n)| == n * layout.height
  {
    if n > 0 {
      FrameLength(atX, atY, data, layout, n - 1);
      MulPred(n, layout.height);
    }
  }

  /** Every drawn square lies inside the DMD area of `dmd_width` by `dmd_height`
      pixels at (atX, atY). */
  lemma PixelInsideDmd(atX: nat, atY: nat, layout: DisplayLayout, x: nat, y: nat)
    requires x < layout.width && y < layout.height
    ensures atX <= PixelRect(atX, atY, x, y).x
    ensures PixelRect(atX, atY, x, y).x + PIXEL_SIZE < atX + DmdWidth(layout)
    ensures atY <= PixelRect(atX, atY, x, y).y
    ensures PixelRect(atX, atY, x, y).y + PIXEL_SIZE < atY + DmdHeight(layout)
  {
    assert x * 4 + 4 <= layout.width * 4;
    assert y * 4 + 4 <= layout.height * 4;
  }

  // ---------------- lamp and solenoid grids ----------------

  const GRID_COLUMNS: nat := 20
  const GRID_ROWS: nat := 10
  const ON_COLOR := Rgb(255, 255, 100)
  const OFF_COLOR := Rgb(20, 20, 10)

  function StateColor(on: bool): Color {
    if on then ON_COLOR else OFF_COLOR
  }

  function Min(a: nat, b: nat): nat {
    if a <= b then a else b
  }

  /** How many devices a grid draws for `len` states: numbering starts at 1,
      so entry 0 is never drawn, and the grid has 200 cells. */
  function DrawnCount(len: nat): (n: nat)
    ensures n <= GRID_COLUMNS * GRID_ROWS
    ensures n < len || n == 0
    ensures n == GRID_COLUMNS * GRID_ROWS || n + 1 >= len
  {
    if len == 0 then 0 else Min(len - 1, GRID_COLUMNS * GRID_ROWS)
  }

  /** The cell of grid slot k (device k + 1): columns of ten, top to bottom. */
  function GridRect(atX: nat, atY: nat, size: nat, k: nat): Rect {
    Rect(atX + (k / GRID_ROWS) * (size + 1), atY + (k % GRID_ROWS) * (size + 1), size, size)
  }

  /** The cells of devices 1 .. n, in drawing order. */
  function GridPrefix(atX: nat, atY: nat, states: seq<bool>, size: nat, n: nat): (cmds: seq<Command>)
    requires n < |states| || n == 0
    ensures |cmds| == n
    ensures forall k | 0 <= k < n :: cmds[k] == Fill(GridRect(atX, atY, size, k), StateColor(states[k + 1]))
  {
    if n == 0 then [] else GridPrefix(atX, atY, states, size, n - 1) + [Fill(GridRect(atX, atY, size, n - 1), StateColor(states[n]))]
  }

  /** What a grid draws for `states`. */
  function GridCommands(atX: nat, atY: nat, states: seq<bool>, size: nat): seq<Command> {
    GridPrefix(atX, atY, states, size, DrawnCount(|states|))
  }

  /** The grid slot under the point (px, py), counting down each column. */
  function GridSlotAt(atX: nat, atY: nat, size: nat, px: int, py: int): int {
    ((px - atX) / (size + 1)) * GRID_ROWS + (py - atY) / (size + 1)
  }

  /** A point inside the cell of slot k is read back as slot k, so the cells
      of distinct devices never overlap. */
  lemma GridCellRoundTrip(atX: nat, atY: nat, size: nat, k: nat, px: int, py: int)
    requires InRect(GridRect(atX, atY, size, k), px, py)
    ensures GridSlotAt(atX, atY, size, px, py) == k
  {
    var d := size + 1;
    DivWithin(px - atX, d, k / GRID_ROWS);
    DivWithin(py - atY, d, k % GRID_ROWS);
  }

  /** The slots fit the 20 by 10 grid: every drawn cell is in columns 0..19. */
  lemma GridColumnsFit(atX: nat, atY: nat, states: seq<bool>, size: nat, k: nat)
    requires k < DrawnCount(|states|)
    ensures k / GRID_ROWS < GRID_COLUMNS && k % GRID_ROWS < GRID_ROWS
  {
  }

  /** `render_lights` and `render_solenoids`: 20 columns of 10 cells, breaking
      out of a column once the states are exhausted. */
  method RenderGrid(atX: nat, atY: nat, states: seq<bool>, canvas: Canvas, size: nat)
    modifies canvas
    ensures canvas.commands == old(canvas.commands) + GridCommands(atX, atY, states, size)
  {
    ghost var total: nat := if |states| == 0 then 0 else |states| - 1;
    var index: nat := 1;
    for x: nat := 0 to GRID_COLUMNS
      invariant index == 1 + Min(GRID_ROWS * x, total)
      invariant canvas.commands == old(canvas.commands) + GridPrefix(atX, atY, states, size, index - 1)
    {
      for y: nat := 0 to GRID_ROWS
        invariant index == 1 + Min(GRID_ROWS * x + y, total)
        invariant canvas.commands == old(canvas.commands) + GridPrefix(atX, atY, states, size, index - 1)
      {
        if index >= |states| {
          break;
        }
        canvas.FillRect(Rect(atX + x * (size + 1), atY + y * (size + 1), size, size), StateColor(states[index]));
        assert (index - 1) / GRID_ROWS == x && (index - 1) % GRID_ROWS == y;
        index := index + 1;
      }
    }
  }

  /** `render_lights`. */
  method RenderLights(atX: nat, atY: nat, lamps: seq<bool>, canvas: Canvas, lampSize: nat)
    modifies canvas
    ensures canvas.commands == old(canvas.commands) + GridCommands(atX, atY, lamps, lampSize)
  {
    RenderGrid(atX, atY, lamps, canvas, lampSize);
  }

  /** `render_solenoids`. */
  method RenderSolenoids(atX: nat, atY: nat, solenoids: seq<bool>, canvas: Canvas, solenoidSize: nat)
    modifies canvas
    ensures canvas.commands == old(canvas.commands) + GridCommands(atX, atY, solenoids, solenoidSize)
  {
    RenderGrid(atX, atY, solenoids, canvas, solenoidSize);
  }

  // ---------------- mechanism bars ----------------

  const MECH_BAR_HEIGHT: nat := 10
  const MECH_BAR_MULTIPLIER: nat := 2
  const MECH_FILL := Rgb(50, 150, 50)
  const MECH_OUTLINE := Rgb(150, 250, 150)
  const U32_MODULUS: nat := 0x1_0000_0000

  /** `v as u32 * MECH_BAR_MULTIPLIER` for an `i32` v: the cast reinterprets
      the bits and the product wraps at 2^32. */
  function BarWidth(v: int): nat {
    ((v % U32_MODULUS) * MECH_BAR_MULTIPLIER) % U32_MODULUS
  }

  /** A position or length in 0 .. 2^31 - 1 is drawn twice as wide. */
  lemma BarWidthOfNonNegative(v: int)
    requires 0 <= v < 0x8000_0000
    ensures BarWidth(v) == 2 * v
  {
  }

  /** A negative position wraps round to a bar nearly 2^32 pixels wide. */
  lemma BarWidthOfNegative(v: int)
    requires -0x8000_0000 <= v < 0
    ensures BarWidth(v) == U32_MODULUS + 2 * v
  {
    assert v % U32_MODULUS == U32_MODULUS + v;
    assert (U32_MODULUS + v) * 2 == U32_MODULUS + (U32_MODULUS + 2 * v);
  }

  /** The bar of mechanism i, `width` pixels wide. */
  function MechRect(atX: nat, atY: nat, i: nat, width: nat): Rect {
    Rect(atX, atY + i * MECH_BAR_HEIGHT, width, MECH_BAR_HEIGHT)
  }

  /** The fill and the outline of the first n mechanisms, in order. */
  function MechPrefix(atX: nat, atY: nat, mechs: seq<MechInfo>, n: nat): (cmds: seq<Command>)
    requires n <= |mechs|
    ensures |cmds| == 2 * n
    ensures forall i | 0 <= i < n ::
              && cmds[2 * i] == Fill(MechRect(atX, atY, i, BarWidth(mechs[i].pos)), MECH_FILL)
              && cmds[2 * i + 1] == Outline(MechRect(atX, atY, i, BarWidth(mechs[i].length)), MECH_OUTLINE)
  {
    if n == 0 then []
    else
      MechPrefix(atX, atY, mechs, n - 1)
      + [Fill(MechRect(atX, atY, n - 1, BarWidth(mechs[n - 1].pos)), MECH_FILL),
         Outline(MechRect(atX, atY, n - 1, BarWidth(mechs[n - 1].length)), MECH_OUTLINE)]
  }

  /** `render_mechs`: per mechanism, a filled bar as long as its position and
      an outline as long as its travel, stacked 10 pixels apart. */
  method RenderMechs(atX: nat, atY: nat, mechs: seq<MechInfo>, canvas: Canvas)
    modifies canvas
    ensures canvas.commands == old(canvas.commands) + MechPrefix(atX, atY, mechs, |mechs|)
  {
    for i := 0 to |mechs|
      invariant canvas.commands == old(canvas.commands) + MechPrefix(atX, atY, mechs, i)
    {
      canvas.FillRect(Rect(atX, atY + i * MECH_BAR_HEIGHT, BarWidth(mechs[i].pos), MECH_BAR_HEIGHT), MECH_FILL);
      canvas.DrawRect(Rect(atX, atY + i * MECH_BAR_HEIGHT, BarWidth(mechs[i].length), MECH_BAR_HEIGHT), MECH_OUTLINE);
    }
  }

  // ---------------- alphanumeric segment displays ----------------

  const TEMPLATE_ROWS: nat := 8
  const TEMPLATE_COLUMNS: nat := 9
  const SEGMENT_BITS: nat := 16
  const TODO_WARNING := "TODO: dump alphanumeric not implemented yet"

  /** Where each of the 16 segments A..P of a 16-segment character sits. */
  const SEGMENTS_16C: seq<string> := [
    " AAAAA   ",
    "FI J KB  ",
    "F IJK B  ",
    " GG LL   ",
    "E ONM C  ",
    "EO N MC P",
    " DDDDD  H",
    "       H "]

  /** The same for the split-segment (SEG16S) layout. */
  const SEGMENTS_16S: seq<string> := [
    " AA BB   ",
    "HI J KC  ",
    "H IJK C  ",
    " PP LL   ",
    "G ONM D  ",
    "GO N MD  ",
    " FF EE   ",
    "         "]

  /** A template: 8 rows of 9 characters. */
  predicate TemplateShaped(t: seq<string>) {
    |t| == TEMPLATE_ROWS && forall r | 0 <= r < |t| :: |t[r]| == TEMPLATE_COLUMNS
  }

  /** The template of a display type: SEG16S only for exactly that type. */
  function SelectTemplate(c: Constants, displayType: bv32): (t: seq<string>)
    ensures TemplateShaped(t)
  {
    if displayType == c.displayTypeSeg16s then SEGMENTS_16S else SEGMENTS_16C
  }

  /** The split template is chosen exactly for SEG16S; any other type, even one
      sharing bits with it, gets the 16-segment template. */
  lemma SelectTemplateExact(c: Constants, displayType: bv32)
    ensures SelectTemplate(c, displayType) == SEGMENTS_16S <==> displayType == c.displayTypeSeg16s
    ensures SelectTemplate(c, displayType) == SEGMENTS_16C <==> displayType != c.displayTypeSeg16s
  {
    assert SEGMENTS_16S[0] != SEGMENTS_16C[0] by {
      assert SEGMENTS_16S[0][3] != SEGMENTS_16C[0][3];
    }
  }

  /** The code of the segment letter for bit k ('A' + k). */
  function Letter(k: nat): int {
    'A' as int + k
  }

  /** The segment bit a template character stands for: letter - 'A' for A..P. */
  function SegmentBit(ch: char): (b: Option<nat>)
    ensures b.Some? ==> b.value < SEGMENT_BITS && ch as int == Letter(b.value)
    ensures b.None? ==> forall k | 0 <= k < SEGMENT_BITS :: ch as int != Letter(k)
  {
    if 'A' <= ch <= 'P' then Some(ch as int - 'A' as int) else None
  }

  /** The innermost loop of `dump_alphanumeric`: the first of the 16 segment
      letters equal to `ch`. */
  method FindSegmentBit(ch: char) returns (bit: Option<nat>)
    ensures bit == SegmentBit(ch)
  {
    bit := None;
    for b: nat := 0 to SEGMENT_BITS
      invariant bit == None
      invariant forall k | 0 <= k < b :: ch as int != Letter(k)
    {
      if ch as int == Letter(b) {
        bit := Some(b);
        break;
      }
    }
  }

  /** Bit b of a 16-bit value is set. */
  predicate BitSet(value: bv16, b: nat)
    requires b < SEGMENT_BITS
  {
    value & (1 << b) != 0
  }

  /** What the C reference implementation prints for one template cell: a
      segment letter becomes '*' when its bit is set and ' ' when not; any
      other character is kept. */
  function ReferenceCell(ch: char, value: bv16): (out: char)
    ensures SegmentBit(ch).Some? ==> (out == '*' <==> BitSet(value, SegmentBit(ch).value))
    ensures SegmentBit(ch).None? ==> out == ch
  {
    match SegmentBit(ch)
    case None => ch
    case Some(b) => if BitSet(value, b) then '*' else ' '
  }

  /** The template cell that shows segment b. */
  function SegmentCell(t: seq<string>, r: nat, c: nat, b: nat): bool
    requires TemplateShaped(t)
  {
    r < TEMPLATE_ROWS && c < TEMPLATE_COLUMNS && SegmentBit(t[r][c]) == Some(b)
  }

  /** Every one of the 16 segments appears in the 16-segment template, so in
      the reference dump each bit of a value lights at least one cell. */
  lemma Segments16cShowEveryBit(b: nat, value: bv16)
    requires b < SEGMENT_BITS
    ensures exists r: nat, c: nat :: SegmentCell(SEGMENTS_16C, r, c, b) &&
              (ReferenceCell(SEGMENTS_16C[r][c], value) == '*' <==> BitSet(value, b))
  {
    var cells := [(0, 1), (1, 6), (4, 6), (6, 1), (4, 0), (1, 0), (3, 1), (6, 8),
                  (1, 1), (1, 3), (1, 5), (3, 4), (4, 4), (4, 3), (4, 2), (5, 8)];
    var (r, c) := cells[b];
    assert SegmentCell(SEGMENTS_16C, r, c, b);
  }

  /** The same for the split-segment template. */
  lemma Segments16sShowEveryBit(b: nat, value: bv16)
    requires b < SEGMENT_BITS
    ensures exists r: nat, c: nat :: SegmentCell(SEGMENTS_16S, r, c, b) &&
              (ReferenceCell(SEGMENTS_16S[r][c], value) == '*' <==> BitSet(value, b))
  {
    var cells := [(0, 1), (0, 4), (1, 6), (4, 6), (6, 4), (6, 1), (4, 0), (1, 0),
                  (1, 1), (1, 3), (1, 5), (3, 4), (4, 4), (4, 3), (4, 2), (3, 1)];
    var (r, c) := cells[b];
    assert SegmentCell(SEGMENTS_16S, r, c, b);
  }

  /** `dump_alphanumeric`: for each of the layout's `length` character
      positions it picks the template and scans every cell for its segment
      letter, then logs one "not implemented" warning; nothing is printed and
      the display data is not interpreted. */
  method DumpAlphanumeric(c: Constants, index: int, layout: DisplayLayout) returns (warnings: seq<string>)
    ensures |warnings| == layout.length
    ensures forall i | 0 <= i < |warnings| :: warnings[i] == TODO_WARNING
  {
    warnings := [];
    for pos := 0 to layout.length
      invariant |warnings| == pos
      invariant forall i | 0 <= i < pos :: warnings[i] == TODO_WARNING
    {
      var segments := SelectTemplate(c, layout.displayType);
      for row := 0 to TEMPLATE_ROWS {
        for column := 0 to TEMPLATE_COLUMNS {
          var _ := FindSegmentBit(segments[row][column]);
        }
      }
      warnings := warnings + [TODO_WARNING];
    }
  }
}
