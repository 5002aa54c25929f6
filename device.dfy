/** The tester's device state, the `Tester` struct, with the engine callbacks
    that update it, and the frame channel between the display callback and
    the main loop. */
module Device {
  import opened Wrappers
  import opened Libpinmame
  import opened Dmd
  import opened Input

  // ---------------- the frame channel ----------------

  datatype TryRecvResult = Received(frame: seq<byte>) | Empty | Disconnected

  /** The `mpsc` channel of frames: an unbounded FIFO queue; `senderAlive`
      tells whether the sending half still exists. */
  class FrameChannel {
    var pending: seq<seq<byte>>
    var senderAlive: bool

    constructor ()
      ensures pending == [] && senderAlive
    {
      pending := [];
      senderAlive := true;
    }

    /** `send`: the frame joins the back of the queue. */
    method Send(frame: seq<byte>)
      modifies this
      ensures pending == old(pending) + [frame]
      ensures senderAlive == old(senderAlive)
    {
      pending := pending + [frame];
    }

    /** `try_recv`: the oldest pending frame, or why there is none. */
    method TryRecv() returns (r: TryRecvResult)
      modifies this
      ensures old(pending) != [] ==> r == Received(old(pending)[0]) && pending == old(pending)[1..]
      ensures old(pending) == [] ==> pending == [] && r == (if senderAlive then Empty else Disconnected)
      ensures senderAlive == old(senderAlive)
    {
      if pending != [] {
        r := Received(pending[0]);
        pending := pending[1..];
      } else if senderAlive {
        r := Empty;
      } else {
        r := Disconnected;
      }
    }

    /** Dropping the sending half. */
    method DropSender()
      modifies this
      ensures pending == old(pending) && !senderAlive
    {
      senderAlive := false;
    }
  }

  /** Frames come out in the order they went in, none dropped or merged:
      after all of `frames` are sent (and the sender is possibly dropped),
      poll i delivers frame i, and once the queue is drained every further
      poll reports Empty, or Disconnected if the sender is gone. */
  method ChannelDeliversInOrder(frames: seq<seq<byte>>, dropSender: bool, polls: nat)
    returns (received: seq<TryRecvResult>)
    ensures |received| == polls
    ensures forall i | 0 <= i < polls ::
              received[i] == if i < |frames| then Received(frames[i])
                             else if dropSender then Disconnected else Empty
  {
    var channel := new FrameChannel();
    var j := 0;
    while j < |frames|
      invariant 0 <= j <= |frames|
      invariant channel.pending == frames[..j] && channel.senderAlive
    {
      channel.Send(frames[j]);
      assert frames[..j] + [frames[j]] == frames[..j + 1];
      j := j + 1;
    }
    assert frames[..j] == frames;
    if dropSender {
      channel.DropSender();
    }
    received := [];
    var i := 0;
    while i < polls
      invariant 0 <= i <= polls
      invariant |received| == i
      invariant channel.senderAlive == !dropSender
      invariant channel.pending == if i < |frames| then frames[i..] else []
      invariant forall n | 0 <= n < i ::
                  received[n] == if n < |frames| then Received(frames[n])
                                 else if dropSender then Disconnected else Empty
    {
      var r := channel.TryRecv();
      received := received + [r];
      i := i + 1;
    }
  }

  // ---------------- lamp and solenoid levels ----------------

  /** Every entry of a changed list names a device of a grid of n. */
  predicate IdsInRange(changes: seq<ChangedState>, n: nat) {
    forall i | 0 <= i < |changes| :: 0 <= changes[i].no < n
  }

  /** A changed list applied in order: each entry sets its device to
      `state != 0`. */
  function ApplyLevels(levels: seq<bool>, changes: seq<ChangedState>): (r: seq<bool>)
    requires IdsInRange(changes, |levels|)
    ensures |r| == |levels|
    decreases |changes|
  {
    if changes == [] then levels
    else
      var last := changes[|changes| - 1];
      ApplyLevels(levels, changes[..|changes| - 1])[last.no := last.state != 0]
  }

  /** A device the list does not name keeps its level. */
  lemma {:induction false} LevelsUntouched(levels: seq<bool>, changes: seq<ChangedState>, k: nat)
    requires IdsInRange(changes, |levels|) && k < |levels|
    requires forall i | 0 <= i < |changes| :: changes[i].no != k
    ensures ApplyLevels(levels, changes)[k] == levels[k]
    decreases |changes|
  {
    if changes != [] {
      LevelsUntouched(levels, changes[..|changes| - 1], k);
    }
  }

  /** The last entry for a device decides its level, coerced to `state != 0`. */
  lemma {:induction false} LevelsLastWins(levels: seq<bool>, changes: seq<ChangedState>, j: nat)
    requires IdsInRange(changes, |levels|) && j < |changes|
    requires forall i | j < i < |changes| :: changes[i].no != changes[j].no
    ensures ApplyLevels(levels, changes)[changes[j].no] == (changes[j].state != 0)
    decreases |changes|
  {
    if j < |changes| - 1 {
      LevelsLastWins(levels, changes[..|changes| - 1], j);
    }
  }

  /** For instance, an off entry followed by a level of 255 for the same lamp
      leaves it lit. */
  lemma LevelsExample(levels: seq<bool>)
    requires |levels| > 5
    ensures ApplyLevels(levels, [ChangedState(5, 0), ChangedState(5, 255)])[5]
    ensures ApplyLevels(levels, [ChangedState(5, 255), ChangedState(5, 0)])[5] == false
  {
    assert [ChangedState(5, 0), ChangedState(5, 255)][..1] == [ChangedState(5, 0)];
    assert [ChangedState(5, 255), ChangedState(5, 0)][..1] == [ChangedState(5, 255)];
  }

  // ---------------- the state callback ----------------

  /** What `OnStateUpdated` does: exit the process, or hand the engine the
      tester's mechanism configuration for mech 0. */
  datatype StateEffect = ExitProcess(code: int) | SetMech(mechNo: int, config: MechConfig)

  const MECH_SWITCH_SLOTS: nat := 20

  /** The tester's own defaults for the mechanism: non-linear, reverse, one
      solenoid (11), 240 long in 240 steps, and 20 switch slots of switch 32
      between positions 0 and 5. */
  function DefaultMechConfig(c: Constants): MechConfig {
    MechConfig(c.mechFlagNonlinear | c.mechFlagReverse | c.mechFlagOnesol,
               11, 0, 240, 240, 0, 0, 0,
               seq(MECH_SWITCH_SLOTS, _ => MechSwitchConfig(32, 0, 5, 0)))
  }

  /** `pinmame_on_state_updated_callback`: state 0 exits with status 1, any
      other state sets up mech 0. */
  function OnStateUpdated(c: Constants, state: int): (r: StateEffect)
    ensures r.ExitProcess? <==> state == 0
    ensures r.ExitProcess? ==> r.code == 1
    ensures r.SetMech? ==> r.mechNo == 0 && r.config == DefaultMechConfig(c)
  {
    if state == 0 then ExitProcess(1) else SetMech(0, DefaultMechConfig(c))
  }

  /** The default configuration carries all three mechanism flags and twenty
      identical switch slots. */
  lemma DefaultMechConfigShape(c: Constants)
    ensures var m := DefaultMechConfig(c);
            && m.mechType & c.mechFlagNonlinear == c.mechFlagNonlinear
            && m.mechType & c.mechFlagReverse == c.mechFlagReverse
            && m.mechType & c.mechFlagOnesol == c.mechFlagOnesol
            && m.sol1 == 11 && m.length == 240 && m.steps == 240
            && |m.sw| == 20
            && forall i | 0 <= i < |m.sw| :: m.sw[i].swNo == 32 && m.sw[i].startPos == 0 && m.sw[i].endPos == 5
  {
  }

  // ---------------- the tester ----------------

  /** The display type has the DMD bit. */
  predicate IsDmd(c: Constants, displayType: bv32) {
    displayType & c.displayTypeDmd == c.displayTypeDmd
  }

  /** The state the engine callbacks and the main loop share. */
  class Tester {
    const constants: Constants
    var displayLayout: Option<DisplayLayout>
    const displayData: FrameChannel
    const keyboardState: array<bool>
    var mechInfo: seq<MechInfo>
    var lamps: seq<bool>
    var solenoids: seq<bool>
    var switches: map<nat, bool>

    /** The keyboard array has one entry per PinMAME keycode up to MENU. */
    predicate Valid()
      reads this
    {
      constants.Valid() && keyboardState.Length == constants.keycodeMenu + 1
    }

    /** The tester as `main` builds it: no layout, all keys up, no mechs, no
        lamps or solenoids yet, no switch touched. */
    constructor (c: Constants, channel: FrameChannel)
      requires c.Valid()
      ensures Valid() && constants == c && displayData == channel
      ensures displayLayout == None && mechInfo == [] && lamps == [] && solenoids == [] && switches == map[]
      ensures fresh(keyboardState)
      ensures forall k | 0 <= k < keyboardState.Length :: !keyboardState[k]
    {
      constants := c;
      displayLayout := None;
      displayData := channel;
      keyboardState := new bool[c.keycodeMenu + 1](_ => false);
      mechInfo := [];
      lamps := [];
      solenoids := [];
      switches := map[];
    }

    /** `vec![false; max as usize]` for the lamps, then for the solenoids, once
        the engine runs. A negative `i32` maximum becomes a length near 2^64,
        and the allocation panics with "capacity overflow" before the
        assignment, so a negative solenoid maximum leaves the lamps sized. */
    method SizeGrids(maxLamps: int, maxSolenoids: int) returns (r: Outcome<()>)
      modifies this
      ensures r.Done? <==> maxLamps >= 0 && maxSolenoids >= 0
      ensures maxLamps >= 0 ==> lamps == seq(maxLamps, _ => false)
      ensures maxLamps < 0 ==> lamps == old(lamps)
      ensures r.Done? ==> solenoids == seq(maxSolenoids, _ => false)
      ensures r.Panic? ==> solenoids == old(solenoids)
      ensures displayLayout == old(displayLayout) && mechInfo == old(mechInfo) && switches == old(switches)
    {
      if maxLamps < 0 {
        return Panic("capacity overflow");
      }
      lamps := seq(maxLamps, _ => false);
      if maxSolenoids < 0 {
        return Panic("capacity overflow");
      }
      solenoids := seq(maxSolenoids, _ => false);
      r := Done(());
    }

    /** `pinmame_on_display_available_callback`: the announced layout replaces
        the previous one, whatever the display index. */
    method OnDisplayAvailable(index: int, displayCount: int, layout: DisplayLayout)
      modifies this
      ensures displayLayout == Some(layout)
      ensures mechInfo == old(mechInfo) && lamps == old(lamps) && solenoids == old(solenoids)
      ensures switches == old(switches)
    {
      displayLayout := Some(layout);
    }

    /** `pinmame_on_display_updated_callback`: a DMD frame is copied, exactly
        width * height bytes of it, into the channel; an alphanumeric display
        goes to `dump_alphanumeric`, whose warnings are returned; a missing
        frame does nothing. The engine's buffer holds at least the bytes read. */
    method OnDisplayUpdated(index: int, data: Option<seq<byte>>, layout: DisplayLayout) returns (warnings: seq<string>)
      requires data.Some? && IsDmd(constants, layout.displayType) ==> |data.value| >= layout.width * layout.height
      modifies displayData
      ensures data.Some? && IsDmd(constants, layout.displayType) ==>
                displayData.pending == old(displayData.pending) + [data.value[..layout.width * layout.height]]
                && warnings == []
      ensures data.Some? && !IsDmd(constants, layout.displayType) ==>
                displayData.pending == old(displayData.pending)
                && |warnings| == layout.length
                && forall i | 0 <= i < |warnings| :: warnings[i] == TODO_WARNING
      ensures data.None? ==> displayData.pending == old(displayData.pending) && warnings == []
      ensures displayData.senderAlive == old(displayData.senderAlive)
    {
      warnings := [];
      if data.Some? {
        if layout.displayType & constants.displayTypeDmd == constants.displayTypeDmd {
          displayData.Send(data.value[..layout.width * layout.height]);
        } else {
          warnings := DumpAlphanumeric(constants, index, layout);
        }
      }
    }

    /** `pinmame_on_mech_available_callback`: mechanisms are kept in the
        order the engine announces them. */
    method OnMechAvailable(mechNo: int, info: MechInfo)
      modifies this
      ensures mechInfo == old(mechInfo) + [info]
      ensures displayLayout == old(displayLayout) && lamps == old(lamps) && solenoids == old(solenoids)
      ensures switches == old(switches)
    {
      mechInfo := mechInfo + [info];
    }

    /** `pinmame_on_mech_updated_callback`: only entry `mechNo` is replaced;
        the engine updates only mechanisms it announced. */
    method OnMechUpdated(mechNo: int, info: MechInfo)
      requires 0 <= mechNo < |mechInfo|
      modifies this
      ensures mechInfo == old(mechInfo)[mechNo := info]
      ensures displayLayout == old(displayLayout) && lamps == old(lamps) && solenoids == old(solenoids)
      ensures switches == old(switches)
    {
      mechInfo := mechInfo[mechNo := info];
    }

    /** `pinmame_is_key_pressed_callback`: 1 when the key is down, else 0;
        the engine asks only for its own keycodes. */
    method IsKeyPressed(keycode: nat) returns (pressed: int)
      requires keycode < keyboardState.Length
      ensures pressed == 1 <==> keyboardState[keycode]
      ensures pressed == 0 <==> !keyboardState[keycode]
    {
      pressed := if keyboardState[keycode] then 1 else 0;
    }

    /** The lamp loop of the main loop: each changed lamp is written in list
        order. Lamp numbers stay below the engine's `max_lamps`. */
    method ApplyChangedLamps(changes: seq<ChangedState>)
      requires IdsInRange(changes, |lamps|)
      modifies this
      ensures lamps == ApplyLevels(old(lamps), changes)
      ensures displayLayout == old(displayLayout) && mechInfo == old(mechInfo)
      ensures solenoids == old(solenoids) && switches == old(switches)
    {
      for i := 0 to |changes|
        invariant |lamps| == |old(lamps)|
        invariant lamps == ApplyLevels(old(lamps), changes[..i])
        invariant displayLayout == old(displayLayout) && mechInfo == old(mechInfo)
        invariant solenoids == old(solenoids) && switches == old(switches)
      {
        assert changes[..i + 1][..i] == changes[..i];
        lamps := lamps[changes[i].no := changes[i].state != 0];
      }
      assert changes[..|changes|] == changes;
    }

    /** The solenoid loop, alike. */
    method ApplyChangedSolenoids(changes: seq<ChangedState>)
      requires IdsInRange(changes, |solenoids|)
      modifies this
      ensures solenoids == ApplyLevels(old(solenoids), changes)
      ensures displayLayout == old(displayLayout) && mechInfo == old(mechInfo)
      ensures lamps == old(lamps) && switches == old(switches)
    {
      for i := 0 to |changes|
        invariant |solenoids| == |old(solenoids)|
        invariant solenoids == ApplyLevels(old(solenoids), changes[..i])
        invariant displayLayout == old(displayLayout) && mechInfo == old(mechInfo)
        invariant lamps == old(lamps) && switches == old(switches)
      {
        assert changes[..i + 1][..i] == changes[..i];
        solenoids := solenoids[changes[i].no := changes[i].state != 0];
      }
      assert changes[..|changes|] == changes;
    }

    /** The event handling environment this tester provides. */
    function EnvOf(keymap: map<SdlKey, nat>, index: Db.SwitchIndex): Env
      reads this
    {
      Env(constants, keymap, displayLayout, index)
    }

    /** One arm of the event `match` of the main loop. */
    method HandleEvent(e: Event, keymap: map<SdlKey, nat>, index: Db.SwitchIndex) returns (quit: bool, pushes: seq<SwitchPush>)
      requires Valid() && EnvFits(EnvOf(keymap, index), keyboardState.Length)
      requires EventFits(EnvOf(keymap, index), e)
      modifies this, keyboardState
      ensures displayLayout == old(displayLayout) && mechInfo == old(mechInfo)
      ensures lamps == old(lamps) && solenoids == old(solenoids)
      ensures Step(old(EnvOf(keymap, index)), InputState(old(keyboardState[..]), old(switches), [], false), e)
              == InputState(keyboardState[..], switches, pushes, quit)
    {
      ghost var env := EnvOf(keymap, index);
      ghost var st := InputState(keyboardState[..], switches, [], false);
      quit, pushes := false, [];
      match e {
        case QuitEvent =>
          quit := true;
        case KeyDown(key) =>
          if key.Some? {
            var k := key.value;
            if k in keymap {
              keyboardState[keymap[k]] := true;
            }
            match k {
              case Escape =>
                keyboardState[constants.keycodeEscape] := true;
                quit := true;
              case Q =>
                keyboardState[constants.keycodeQ] := true;
                quit := true;
              case OtherKey(_) =>
            }
          }
        case KeyUp(key) =>
          if key.Some? && key.value in keymap {
            keyboardState[keymap[key.value]] := false;
          }
        case MouseButtonDown(x, y, button) =>
          if displayLayout.Some? {
            var hit := ClickedSwitch(displayLayout.value, x, y, index);
            if hit.Some? {
              var code := hit.value;
              match button {
                case Left =>
                  switches := switches[code := true];
                  pushes := [SetSwitch(code, 1)];
                case Right =>
                  var switched := !(if code in switches then switches[code] else false);
                  switches := switches[code := switched];
                  pushes := [SetSwitch(code, if switched then 1 else 0)];
                case _ =>
              }
            }
          }
        case MouseButtonUp(x, y, button) =>
          if displayLayout.Some? {
            var hit := ClickedSwitch(displayLayout.value, x, y, index);
            if hit.Some? && button == Left {
              switches := switches[hit.value := false];
              pushes := [SetSwitch(hit.value, 0)];
            }
          }
        case OtherEvent =>
      }
    }
  }
}
