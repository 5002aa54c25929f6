# pinmame-tester, modelled in Dafny

pinmame-tester is a small Rust test program for the libpinmame pinball
emulator. It runs one ROM, Terminator 2 (`t2_l8`), or Medieval Madness by swapping
the game name and the switch table (two lines). It shows the following in an SDL window:

- the dot-matrix display (DMD);
- the lamp and solenoid matrices as two grids of coloured cells;
- each mechanism as a bar;
- a panel of clickable switch buttons.

Keyboard events feed a keyboard-state array that the engine polls. Mouse
clicks on the panel press, release or toggle switches. The engine reports
through callbacks:

- display layouts and frames;
- mechanisms;
- state changes;
- log lines.

The main loop polls changed lamps and solenoids every tick.

This project models that logic and proves what it promises. The modules are:

- `Tester` and the callbacks (`device.dfy`);
- the main loop (`runner.dfy`);
- the event handling as pure functions (`input.dfy`);
- the display, grid, mech-bar and alphanumeric renderers (`dmd.dfy`);
- the switch panel and its hit test (`switches.dfy`);
- the two switch tables (`db.dfy`);
- the typed wrapper around the engine's C interface (`pinmame.dfy`).

The rest are shared pieces:

- `libpinmame.dfy`: the engine's records and enum constants;
- `draw.dfy`: the canvas, as a recorded list of draw commands;
- `text.dfy`: decimal rendering for switch captions;
- `arith.dfy`: multiplication and division facts;
- `wrappers.dfy`: `Option`, `Result` and `Outcome`.

Modelling choices:

- **Canvas.** The canvas is a class whose `commands` sequence grows by one command per SDL call. Each render method is proved to append exactly what a specification function computes. Lemmas about those functions state the geometry: where each pixel, cell, bar and button goes, and with which colour.
- **Panics.** A Rust panic (`unreachable!`, a failed `unwrap`, an out-of-range index on data the tester does not control) is an `Outcome.Panic` value.
- **Trusted inputs.** What the engine guarantees is a `requires`; the source would panic or read out of bounds otherwise. These are:
  - the lamp and solenoid numbers in the changed lists are below the grid lengths;
  - `mech_no` names an announced mechanism, and the mapped keycodes are at most MENU (`Input.EnvFits`);
  - the keycode the engine polls is at most MENU, so it indexes the keyboard-state array (`Device.Tester.IsKeyPressed`);
  - a DMD frame buffer holds at least width*height bytes (`Device.Tester.OnDisplayUpdated`);
  - the engine writes at most `max` entries into a changed-list buffer and reports at most `max` (`Pinmame.GetChangedLamps`, `Pinmame.GetChangedSolenoids`);
  - mouse coordinates are `i32`, the panel top `4*height + 160` fits in an `i32`, and so does a mouse y minus it, and the switch table has at most 2^31 - 1 entries for `len() as i32` (`Input.EnvFits`, `Input.EventFits`, `Switches.SwitchIdForMouse`).
- **Integer arithmetic.** Rust's integer behaviour is written out:
  - `/` on `i32` truncates toward zero (`Switches.TruncDiv`);
  - `i32 as usize` wraps modulo 2^64;
  - `i32 as u32 * 2` wraps modulo 2^32 (`Dmd.BarWidth`).
- **Engine constants.** The enum constants of libpinmame are not visible to this model. They are fields of `Libpinmame.Constants`, whose `Valid()` states the assumptions made about libpinmame's enums: within each enum the members have distinct values, and the ESCAPE and Q keycodes are no larger than MENU. C itself does not guarantee either; the bindings define them so.
- **Keyboard map.** `keyboard::map_keycode` is a map from SDL keys to PinMAME keycodes, passed in.
- **Foreign calls.**
  - The engine's `set_switch` calls are returned as a list of `SetSwitch` requests.
  - The game lists, the changed lists and the statuses that foreign calls produce are parameters.
  - The panics and constant values in the engine's state callback are modelled, but exiting the process is returned as a value.

The frame channel is a `std::sync::mpsc` channel. A latest-frame-wins channel
would replace an unread frame with a newer one; the code's mpsc channel is an
unbounded FIFO instead: every frame sent is queued, and each tick takes at
most the oldest one. The model follows the code (`Device.FrameChannel`,
`Runner.MainLoop.FrameStep`). `Device.ChannelDeliversInOrder` shows that any
number of frames sent before polling are all delivered, in order.

## Model

| member | source | states |
|---|---|---|
| Pinmame.StatusFrom | src/pinmame.rs:34-48 | the conversion succeeds exactly for the seven known status codes, and the variant it gives has that code; any other code panics |
| Pinmame.StatusRoundTrip | src/pinmame.rs:34-48 | with distinct codes, converting the code of a variant gives back that variant |
| Pinmame.StatusFromInjective | src/pinmame.rs:34-48 | two known codes that convert to the same variant are the same code, so the seven variants are seven distinct results |
| Pinmame.PauseResult | src/pinmame.rs:130-143 | `Ok(())` exactly when the status is OK, otherwise `Err` carrying the raw status unchanged |
| Pinmame.Pause | src/pinmame.rs:130-136 | `pause` asks the engine with flag 1, and is `Ok` iff that answer is OK, else `Err` with the raw answer |
| Pinmame.Continue | src/pinmame.rs:137-143 | `continue_` asks the engine with flag 0, and is `Ok` iff that answer is OK, else `Err` with the raw answer |
| Pinmame.DmdModeValueInjective | src/pinmame.rs:89-96 | Brightness and Raw reach the engine as different constants: the values agree iff the modes do |
| Pinmame.GamesUserData.constructor | src/pinmame.rs:150 | the user data starts with no games |
| Pinmame.GamesUserData.GamesCallback | src/pinmame.rs:258-264 | each callback appends its game at the end |
| Pinmame.GetGames | src/pinmame.rs:149-162 | an OK status returns every delivered game in callback order; a known non-OK status is `Err(status)`; an unknown status panics, and only then |
| Pinmame.GameUserData.constructor | src/pinmame.rs:166 | the user data starts with no game |
| Pinmame.GameUserData.GameCallback | src/pinmame.rs:246-252 | a callback replaces the stored game with the one found |
| Pinmame.GetGame | src/pinmame.rs:164-179 | an OK status returns the game of the last callback; OK with no callback panics in `unwrap`; a known non-OK status is `Err(status)`; an unknown status panics |
| Pinmame.GetChangedLamps | src/pinmame.rs:206-224 | a count of -1 gives an empty list; another negative count panics; otherwise the result is the first `num` entries of the `max_lamps` buffer, the engine's entries followed by zero entries; a negative `max_lamps` panics |
| Pinmame.GetChangedSolenoids | src/pinmame.rs:226-240 | the same protocol over a buffer of `max_solenoids` entries |
| Pinmame.OnLogMessage | src/pinmame.rs:306-324 | a message containing "ERROR" is an error on the pinmame target, whatever its level; otherwise a known level keeps the message and target; an unknown level gives only the warning "Unknown log level: N" on the module's own target |
| Pinmame.LogSeverityClassification | src/pinmame.rs:306-324 | the line is an error iff the message contains "ERROR" or the level is ERROR; it is a warning iff neither holds and the level is none of the three known ones; otherwise its severity is the one its level names |
| Pinmame.UnknownLevelIgnoresMessage | src/pinmame.rs:312-323 | for an unknown level, the logged line is the same whatever the message, because the text is dropped |
| Pinmame.ErrorTextAtDebugLevel | src/pinmame.rs:308-311 | a debug-level line mentioning ERROR is logged as an error |
| Db.MmColumnsIncreasing | src/db.rs:12-77 | within each switch-matrix column of the Medieval Madness table, codes increase entry by entry |
| Db.MmSwitchesIncreasing | src/db.rs:12-77 | the whole Medieval Madness table has codes increasing entry by entry, in insertion order |
| Db.MmSwitchesEndpoints | src/db.rs:9-80 | Medieval Madness has 59 entries; entries 0, 9, 18 and 58 have codes 1, 10, 21 and 75 |
| Db.T2ColumnsIncreasing | src/db.rs:85-152 | within each column of the Terminator 2 table, codes increase entry by entry |
| Db.T2SwitchesIncreasing | src/db.rs:85-152 | the whole Terminator 2 table has codes increasing entry by entry, in insertion order |
| Db.T2SwitchesEndpoints | src/db.rs:82-155 | Terminator 2 has 61 entries; entries 0, 9, 18 and 60 have codes 1, 10, 21 and 78 |
| Db.MmSwitchesShape | src/db.rs:9-80 | in Medieval Madness, the 59 codes are distinct, strictly increasing and all in 1..75; ordinals 0..9 are codes 1..10; ordinal 18 is code 21, and from there on every code exceeds its ordinal |
| Db.T2SwitchesShape | src/db.rs:82-155 | in Terminator 2, the 61 codes are distinct, strictly increasing and all in 1..78; ordinals 0..9 are codes 1..10; ordinal 18 is code 21, and from there on every code exceeds its ordinal |
| Db.T2NamesNotUnique | src/db.rs:88-93 | codes 4 and 9 of Terminator 2 are both named "?", so only the code identifies a switch |
| Text.NatToDecimal | src/switches.rs:40 | the decimal form of a code is a non-empty string of digits, with a leading '0' only for 0 |
| Text.DecimalRoundTrip | src/switches.rs:40 | reading the decimal form back gives the number |
| Text.NatToDecimalInjective | src/switches.rs:40 | different codes print as different digit strings |
| Switches.TruncDiv | src/switches.rs:73-74 | a quotient truncated toward zero: for a >= 0 it is the floor quotient; for a < 0 it lies in [a, 0] with q*b - b < a <= q*b |
| Switches.NthCode | src/switches.rs:79 | `keys().nth(n)` is the code at insertion position n when n is below the length, else none |
| Switches.SwitchIdForMouse | src/switches.rs:72-83 | the result is some code iff the ordinal `x/142 + 5*(y/22)` (truncating) lies in 0..len-1, and then it is the code of that entry, not the ordinal |
| Switches.HitTestRoundTrip | src/switches.rs:72-83 | every point of the 142 by 22 slot of ordinal i below the length, the 2-pixel margin included, is read back as the code of entry i |
| Switches.HitTestColumnFiveAliases | src/switches.rs:73-76 | with no column bound, x in [710, 852) is column 5 and hits ordinal 5 + 5*row, the first button of the next row |
| Switches.HitTestNegativeTruncates | src/switches.rs:73-76 | points in (-142, 142) by (-22, 22), including slightly negative ones, truncate to ordinal 0 |
| Switches.HitTestFarLeftMisses | src/switches.rs:76-81 | at x <= -142 in the first row the ordinal is negative and no switch is hit |
| Switches.T2Ordinal18IsCode21 | src/switches.rs:72-83 | in Terminator 2, the button at column 3, row 3 (ordinal 18) yields code 21 |
| Switches.ButtonColor | src/switches.rs:27-31 | pressed colour iff the state is true, released colour iff it is false, unknown colour iff the switch has no state |
| Switches.CaptionStartsWithCode | src/switches.rs:40 | the caption begins with the code's digits, whose value is the code, followed by ':' |
| Switches.CaptionsDistinguishCodes | src/switches.rs:40 | switches with different codes get different captions, even with equal names |
| Switches.SwitchPrefix | src/switches.rs:18-47 | button i is a fill of its rectangle (column i%5, row i/5, on a 142 by 22 pitch) in the colour of its state, followed by its caption at the same corner, button after button in table order |
| Switches.RenderSwitches | src/switches.rs:10-70 | the panel appends exactly the commands of every entry of the table, in order |
| Draw.Canvas.Clear | src/main.rs:626-627 | clearing appends one clear command in the colour set and changes nothing else |
| Draw.Canvas.FillRect | src/dmd.rs:52-58 | a filled rectangle appends one fill command |
| Draw.Canvas.DrawRect | src/dmd.rs:220-226 | an outlined rectangle appends one outline command |
| Draw.Canvas.DrawLabel | src/switches.rs:60-67 | a caption copied to the canvas appends one label command at its top-left corner |
| Dmd.PixelColor | src/dmd.rs:34-50 | at depth 2, a colour exists exactly for values 0..3; at any other depth, for values 0..15; other values panic |
| Dmd.Depth2Ordered | src/dmd.rs:34-41 | at depth 2, a larger value gives a strictly brighter and different colour, so there are four distinct shades |
| Dmd.Depth4Bands | src/dmd.rs:42-49 | at other depths, two values share a colour iff they fall in the same band of four, and a higher band is strictly brighter |
| Dmd.ColumnCommands | src/dmd.rs:29-58 | the squares of one column, one per row, top to bottom |
| Dmd.RenderDmd | src/dmd.rs:21-62 | rendering succeeds iff every pixel's index is inside the frame and its value has a colour; then it appends the frame's squares column by column |
| Dmd.FrameDrawableIff | src/dmd.rs:28-50 | a frame can be drawn iff it holds at least width*height values and each of the first width*height has a colour at the layout's depth |
| Dmd.DrawableFrameIsLongEnough | src/dmd.rs:28-32 | a drawable frame has at least width*height values |
| Dmd.FramePixelOfIndex | src/dmd.rs:28-50 | in a drawable frame, every index below width*height is in bounds and has a colour |
| Dmd.PixelIndexInFrame | src/dmd.rs:31 | the row-major index `y*width + x` of a pixel is below width*height |
| Dmd.FrameLength | src/dmd.rs:28-60 | n columns draw n*height squares |
| Dmd.FrameCommandAt | src/dmd.rs:28-60 | pixel (x, y) is the command at position x*height + y: a 3 by 3 square at (at_x + 4x, at_y + 4y) coloured by `data[y*width + x]` |
| Dmd.PixelInsideDmd | src/dmd.rs:13-58 | every square drawn lies inside the `dmd_width` by `dmd_height` area, which is 4*width by 4*height |
| Dmd.DrawnCount | src/dmd.rs:239-259 | a grid draws at most 200 cells, only for indices below the length, and stops early only at the length |
| Dmd.GridPrefix | src/dmd.rs:239-259 | cell k shows device k + 1, at column k/10, row k%10 on a (size + 1) pitch, on or off by its state |
| Dmd.GridCellRoundTrip | src/dmd.rs:251-256 | a point inside the cell of slot k maps back to slot k, so cells do not overlap |
| Dmd.GridColumnsFit | src/dmd.rs:240-244 | every drawn slot lies in the 20 by 10 grid |
| Dmd.RenderGrid | src/dmd.rs:231-261 | the counting loop with its early break appends exactly the grid's cells: devices 1 .. min(len - 1, 200), index 0 never drawn |
| Dmd.RenderLights | src/dmd.rs:231-261 | the lamp grid appends exactly the grid cells of the lamp states |
| Dmd.RenderSolenoids | src/dmd.rs:263-294 | the solenoid grid appends exactly the grid cells of the solenoid states |
| Dmd.BarWidthOfNonNegative | src/dmd.rs:217 | a position or length in 0 .. 2^31 - 1 is drawn twice as wide |
| Dmd.BarWidthOfNegative | src/dmd.rs:217 | a negative value wraps through `as u32` to a width of 2^32 + 2v |
| Dmd.MechPrefix | src/dmd.rs:210-227 | mechanism i is a fill 2*pos wide and an outline 2*length wide, both 10 high at (at_x, at_y + 10i), in the fill and outline colours |
| Dmd.RenderMechs | src/dmd.rs:202-229 | the loop appends exactly the bars of every mechanism, in order |
| Dmd.SelectTemplate | src/dmd.rs:134-160 | the chosen template has 8 rows of 9 characters |
| Dmd.SelectTemplateExact | src/dmd.rs:156-160 | the split-segment template is chosen iff the type equals SEG16S exactly; any other type, even one with the SEG16S bit, gets the 16-segment template |
| Dmd.SegmentBit | src/dmd.rs:179-185 | a character stands for bit b iff it is the letter 'A' + b for some b < 16; otherwise for no bit |
| Dmd.FindSegmentBit | src/dmd.rs:179-185 | the 16-step loop with its break finds exactly the bit of the character, or none |
| Dmd.ReferenceCell | src/dmd.rs:103-111 | in the C reference dump, a segment cell is '*' iff its bit is set in the 16-bit value; other cells stay unchanged |
| Dmd.Segments16cShowEveryBit | src/dmd.rs:134-143 | each of the 16 bits has a cell in the 16-segment template that lights exactly when that bit is set |
| Dmd.Segments16sShowEveryBit | src/dmd.rs:145-154 | each of the 16 bits has a cell in the split-segment template that lights exactly when that bit is set |
| Dmd.DumpAlphanumeric | src/dmd.rs:123-200 | the live code scans the template for every character position and logs exactly one "not implemented" warning per position, `length` in all |
| Input.ClickOnDrawnSwitch | src/main.rs:499-507 | a click anywhere in a drawn button's slot on the panel, placed at y = 4*height + 160, hits that button's code |
| Input.KeyDownKeys | src/main.rs:451-475 | a key press keeps the keyboard array's length |
| Input.KeyUpKeys | src/main.rs:476-484 | a key release keeps the keyboard array's length |
| Input.KeyDownPresses | src/main.rs:451-475 | a press sets the mapped keycode, Escape and Q also set their own PinMAME keycodes, and any other entry is unchanged |
| Input.KeyDownThenUp | src/main.rs:451-484 | pressing then releasing a key other than Escape and Q leaves its mapped entry cleared and all else as before |
| Input.MouseDownEffect | src/main.rs:508-523 | left sets the hit switch to true; right toggles it, absent counting as false; other buttons change nothing and send nothing; the engine is sent exactly the new value; no other switch changes |
| Input.RightClickTwice | src/main.rs:514-521 | two right clicks restore the switch's value, an absent switch becoming present and false |
| Input.LeftClickIsMomentary | src/main.rs:509-549 | a left press then release leaves the switch false and sends 1 then 0 |
| Input.Step | src/main.rs:448-555 | one event keeps the keyboard length, and ends the loop iff it is a quit event, Escape or Q |
| Input.StepAppendsPushes | src/main.rs:448-555 | an event's set_switch requests come after earlier ones and do not depend on them |
| Input.Run | src/main.rs:447-556 | a batch of events keeps the keyboard length |
| Input.RunQuits | src/main.rs:447-556 | a batch ends the loop iff one of its events is a quit event |
| Input.NothingAfterQuit | src/main.rs:447-556 | events after the first quitting one have no effect at all |
| Input.StepPushesInTable | src/main.rs:499-551 | one event adds set_switch requests only for codes of the switch table |
| Input.PushesAreTableCodes | src/main.rs:447-556 | a whole batch asks the engine to set only switches of the table, after the earlier requests |
| Device.FrameChannel.constructor | src/main.rs:308 | a new channel is empty with its sender alive |
| Device.FrameChannel.Send | src/main.rs:131-137 | a sent frame joins the back of the queue |
| Device.FrameChannel.TryRecv | src/main.rs:588-597 | receiving yields the oldest pending frame and removes it; with nothing pending it is Empty while the sender lives, Disconnected after |
| Device.FrameChannel.DropSender | src/main.rs:593-595 | dropping the sender keeps the queued frames and marks the sender gone |
| Device.ChannelDeliversInOrder | src/main.rs:588-597 | after any sequence of frames is sent, poll i delivers frame i, none dropped or reordered; once they are drained, a poll reports Empty with a live sender and Disconnected after the sender is dropped, so queued frames are delivered before a disconnect is seen |
| Device.ApplyLevels | src/main.rs:560-570 | applying a changed list keeps the grid's length |
| Device.LevelsUntouched | src/main.rs:563-569 | a device the list does not name keeps its level |
| Device.LevelsLastWins | src/main.rs:563-569 | the last entry for a device decides its level, as `state != 0` |
| Device.LevelsExample | src/main.rs:564-567 | a lamp set to 0 then 255 ends on; one set to 255 then 0 ends off |
| Device.OnStateUpdated | src/main.rs:47-80 | state 0 exits the process with status 1; any other state configures mechanism 0 with the tester's default configuration |
| Device.DefaultMechConfigShape | src/main.rs:56-74 | the default has the non-linear, reverse and one-solenoid flags, solenoid 11, length and steps 240, and 20 switch slots of switch 32 over 0..5 |
| Device.Tester.constructor | src/main.rs:321-331 | the tester starts with no layout, no mechanisms, empty grids, no switch states and every key up; its keyboard array reaches keycode MENU |
| Device.Tester.SizeGrids | src/main.rs:426-432 | with both maxima non-negative, lamps and solenoids become all-false vectors of `max_lamps` and `max_solenoids` entries; a negative maximum panics (capacity overflow) before its vector is assigned, so a negative solenoid maximum leaves the lamps already sized |
| Device.Tester.OnDisplayAvailable | src/main.rs:82-105 | the announced layout replaces the stored one, whatever the index, and nothing else changes |
| Device.Tester.OnDisplayUpdated | src/main.rs:107-148 | with data and the DMD bit, exactly the first width*height bytes are queued as one frame; with data but no DMD bit, only the alphanumeric warnings are produced; without data, nothing happens |
| Device.Tester.OnMechAvailable | src/main.rs:177-204 | mechanisms are appended in arrival order |
| Device.Tester.OnMechUpdated | src/main.rs:207-224 | only entry `mech_no` is replaced |
| Device.Tester.IsKeyPressed | src/main.rs:257-269 | the engine gets 1 iff the key is down, else 0 |
| Device.Tester.ApplyChangedLamps | src/main.rs:560-570 | the loop leaves the lamps as the changed list applied in order, and nothing else changes |
| Device.Tester.ApplyChangedSolenoids | src/main.rs:573-583 | the loop leaves the solenoids as the changed list applied in order, and nothing else changes |
| Device.Tester.HandleEvent | src/main.rs:448-555 | one event updates the keyboard array and the switch map, and emits the requests and quit flag, exactly as the pure `Step` prescribes |
| Runner.PanelDrawnAtPanelTop | src/main.rs:650-652 | the panel is drawn at the y the mouse handler offsets by, 4*height + 160 |
| Runner.RenderIndicators | src/main.rs:629-657 | appends the lamp grid, the solenoid grid at x = 300, the mech bars and the switch panel, at their offsets below the DMD |
| Runner.Render | src/main.rs:617-661 | rendering succeeds iff the frame is drawable, and then appends a black clear, the DMD and the indicator commands |
| Runner.MainLoop.constructor | src/main.rs:443 | the frame shown until the first arrives is 128*32 zeros, and the loop state is consistent: the tester sends into the loop's receiver |
| Runner.MainLoop.FrameStep | src/main.rs:588-597 | a pending frame replaces the current one, so at most one is taken per tick; an empty channel keeps the frame; a dropped sender reports disconnection |
| Runner.MainLoop.ProcessEvents | src/main.rs:447-556 | the event loop leaves the keyboard, the switches, the requests and the quit flag as `Run` prescribes, and changes no other state |
| Runner.MainLoop.Tick | src/main.rs:445-610 | one pass quits iff an event quits, leaving lamps, solenoids, frame and canvas untouched. Otherwise it applies both changed lists. With no layout it continues without drawing. With a layout: it takes exactly the oldest pending frame, if any, leaving the rest queued, and otherwise keeps the current frame; without a layout, or on quit, the queue is untouched; the sender's liveness never changes; it reports a disconnection only with nothing pending and no sender; it panics only on an undrawable frame; and it otherwise appends the whole screen |

## Left out

- SDL itself is not modelled, namely window creation, `setup_sdl2`, scale factors, `present` and the event pump. Events are given to the model as a list.
- Audio is not modelled: the audio-available and audio-updated callbacks and the audio queue are device I/O.
- Fonts and textures are not modelled. A caption is a label command at the button's corner.
- The f32 clipping of captions at src/switches.rs:49-65 is left out, because it is floating point.
- The `Err` results of SDL's `fill_rect`, `draw_rect` and `copy` are left out: the canvas always accepts a command. So are the errors propagated by `?` from `font.render(..)` and `create_texture_from_surface(..)` at src/switches.rs:41-47, since fonts and textures are not modelled.
- Draw commands record the arguments given to `Rect::new`, not the rectangle SDL finally draws. The sdl2 crate is not part of this model; any adjustment it makes to a zero or oversized width or height (for example the bar of a mech at position 0, or the wrapped width of a negative position, `Dmd.BarWidthOfNegative`) is not modelled.
- The foreign calls into libpinmame are not modelled. These are `PinmameRun`, `PinmameSetConfig`, `PinmameSetSwitch`, `PinmameStop` and the other setters. Their results are parameters, and `set_switch` calls are returned as requests.
- `get_switch(16)` and its `println!` on every mouse press are left out. They are a foreign read and console output.
- `Game::from` and its `CStr` conversions are left out; games arrive already converted.
- Pinmame.GetGame: the `CString::new(p_name).unwrap()` at src/pinmame.rs:164 is not modelled; a game name with an interior NUL byte would panic there, and the model takes the name as already converted.
- The `vsprintf` formatting of log lines is left out; the message arrives as a string.
- Log output is not produced; `Pinmame.OnLogMessage` returns the record that would be logged.
- The module `keyboard` (`map_keycode`) is not part of this model; it is a map given as a parameter.
- The libpinmame bindings are not part of this model. Their constants are abstract; `Libpinmame.Constants.Valid()` assumes only that the values within one enum are distinct and that the ESCAPE and Q keycodes are no larger than MENU.
- `std::process::exit` is not performed; `Device.OnStateUpdated` returns it as a value.
- Casting the raw user data to `&mut Tester` and cross-thread access are left out. Callbacks and the loop run sequentially on one state.
- The failure of `send` when the receiver is gone is not modelled: the receiver lives as long as the loop.
- `build.rs` is not part of this model.
- The outer `'main` loop is modelled one pass at a time (`Runner.MainLoop.Tick`); repeating it is the caller's part. So are `pinmame::stop` and the start-up calls of `main`: `set_config`, `get_games`, `get_game` and `run`.
- Dmd.RenderDmd: does not model `u32` overflow of the pixel offsets or the `as i32` cast of rectangle corners, because the layouts the engine reports are small.
- Dmd.DumpAlphanumeric: leaves out the read of each `u16` of the display data (src/dmd.rs:132), because the code never uses the value it reads and prints nothing. The intended behaviour is stated by `Dmd.ReferenceCell`.
- Dmd.BarWidth: models release-build wrapping of `as u32 * 2`; a debug build would instead panic on the overflow.
- Libpinmame.DisplayLayout: width, height and length are natural numbers; a negative value of any of them from the engine is not modelled.
- Switches.SwitchPrefix: does not model `u32` overflow of the button offsets or the `as i32` cast of their corners, for small tables.
- Input.EventFits: the `as i32` cast of the panel top (src/main.rs:502, 536) and the `i32` subtraction of the mouse y are not modelled as wrapping; they are required to stay within `i32`, which holds for any display of realistic height.
- Runner.MainLoop.Tick: the lamp and solenoid numbers in the changed lists are required to be in range. The source would panic on an out-of-range number, and the engine does not send one.
