/** One iteration of the tester's main loop: the events, the lamp and
    solenoid updates, the frame step and the redraw. */
module Runner {
  import opened Wrappers
  import opened Libpinmame
  import opened Draw
  import opened Db
  import opened Dmd
  import opened Switches
  import opened Input
  import opened Device

  const LAMP_SIZE: nat := 8
  const SOLENOIDS_AT_X: nat := 300
  const BLACK := Rgb(0, 0, 0)

  /** The frame shown until the first one arrives: 128 x 32 zeros. */
  const INITIAL_FRAME: seq<byte> := seq(128 * 32, _ => 0)

  /** What `render` draws below the DMD: lamps and solenoids 10 pixels below
      it, the mech bars 100 further down and the switch panel 50 below those. */
  function IndicatorCommands(h: nat, lamps: seq<bool>, solenoids: seq<bool>, mechs: seq<MechInfo>,
                             index: SwitchIndex, switches: map<nat, bool>): seq<Command>
  {
    GridCommands(0, h + 10, lamps, LAMP_SIZE)
    + GridCommands(SOLENOIDS_AT_X, h + 10, solenoids, LAMP_SIZE)
    + MechPrefix(0, h + 10 + 100, mechs, |mechs|)
    + SwitchPrefix(0, h + 10 + 100 + 50, index, switches, |index|)
  }

  /** What `render` draws: a cleared screen, the DMD at the origin and the
      indicators below it. */
  function ScreenCommands(data: seq<byte>, layout: DisplayLayout, lamps: seq<bool>, solenoids: seq<bool>,
                          mechs: seq<MechInfo>, index: SwitchIndex, switches: map<nat, bool>): seq<Command>
    requires FrameDrawable(data, layout)
  {
    [ClearWith(BLACK)]
    + FrameCommands(0, 0, data, layout, layout.width)
    + IndicatorCommands(DmdHeight(layout), lamps, solenoids, mechs, index, switches)
  }

  /** The switch panel is drawn where the mouse handler looks for it. */
  lemma PanelDrawnAtPanelTop(layout: DisplayLayout)
    ensures DmdHeight(layout) + 10 + 100 + 50 == PanelTop(layout)
  {
  }

  /** Appending four pieces one at a time is appending their concatenation. */
  lemma AppendChain<T>(s: seq<T>, a: seq<T>, b: seq<T>, c: seq<T>, d: seq<T>)
    ensures s + a + b + c + d == s + (a + b + c + d)
  {
    assert s + a + b == s + (a + b);
    assert s + (a + b) + c == s + (a + b + c);
  }

  /** The lamp grid, the solenoid grid, the mech bars and the switch panel. */
  method RenderIndicators(canvas: Canvas, h: nat, tester: Tester, index: SwitchIndex)
    modifies canvas
    ensures canvas.commands == old(canvas.commands)
              + IndicatorCommands(h, tester.lamps, tester.solenoids, tester.mechInfo, index, tester.switches)
  {
    ghost var start := canvas.commands;
    RenderLights(0, h + 10, tester.lamps, canvas, LAMP_SIZE);
    RenderSolenoids(SOLENOIDS_AT_X, h + 10, tester.solenoids, canvas, LAMP_SIZE);
    RenderMechs(0, h + 10 + 100, tester.mechInfo, canvas);
    RenderSwitches(0, h + 10 + 100 + 50, canvas, index, tester.switches);
    AppendChain(start, GridCommands(0, h + 10, tester.lamps, LAMP_SIZE),
                GridCommands(SOLENOIDS_AT_X, h + 10, tester.solenoids, LAMP_SIZE),
                MechPrefix(0, h + 10 + 100, tester.mechInfo, |tester.mechInfo|),
                SwitchPrefix(0, h + 10 + 100 + 50, index, tester.switches, |index|));
  }

  /** `render`: clears the canvas and draws every part; it panics when the
      frame does not fit the layout's palette or size. */
  method Render(canvas: Canvas, data: seq<byte>, layout: DisplayLayout, tester: Tester, index: SwitchIndex) returns (r: Outcome<()>)
    modifies canvas
    ensures r.Done? <==> FrameDrawable(data, layout)
    ensures r.Done? ==>
              canvas.commands == old(canvas.commands)
                + ScreenCommands(data, layout, tester.lamps, tester.solenoids, tester.mechInfo, index, tester.switches)
  {
    ghost var start := canvas.commands;
    canvas.Clear(BLACK);
    r := RenderDmd(0, 0, data, layout, canvas);
    if r.Panic? {
      return;
    }
    RenderIndicators(canvas, DmdHeight(layout), tester, index);
    assert start + [ClearWith(BLACK)] + FrameCommands(0, 0, data, layout, layout.width)
           + IndicatorCommands(DmdHeight(layout), tester.lamps, tester.solenoids, tester.mechInfo, index, tester.switches)
           == start + ScreenCommands(data, layout, tester.lamps, tester.solenoids, tester.mechInfo, index, tester.switches);
  }

  datatype TickOutcome = Continue | Quit | ChannelDisconnected | Panicked(reason: string)

  /** The state `main` keeps across iterations of its loop besides the tester:
      the receiving half of the frame channel, the canvas, the key map, the
      switch table and the frame last received. */
  class MainLoop {
    const tester: Tester
    const receiver: FrameChannel
    const canvas: Canvas
    const keymap: map<SdlKey, nat>
    const switchIndex: SwitchIndex
    var displayData: seq<byte>

    /** The tester sends its frames into `receiver`, and the event
        environment fits its keyboard array. */
    predicate Valid()
      reads this, tester
    {
      && tester.Valid()
      && tester.displayData == receiver
      && EnvFits(tester.EnvOf(keymap, switchIndex), tester.keyboardState.Length)
    }

    constructor (t: Tester, c: Canvas, km: map<SdlKey, nat>, index: SwitchIndex)
      requires t.Valid() && EnvFits(t.EnvOf(km, index), t.keyboardState.Length)
      ensures Valid()
      ensures tester == t && receiver == t.displayData && canvas == c
      ensures keymap == km && switchIndex == index
      ensures displayData == INITIAL_FRAME
    {
      tester := t;
      receiver := t.displayData;
      canvas := c;
      keymap := km;
      switchIndex := index;
      displayData := INITIAL_FRAME;
    }

    /** The `try_recv` step: a pending frame replaces the current one, an
        empty channel keeps it, a disconnected one ends the loop. At most one
        frame is taken per tick. */
    method FrameStep() returns (disconnected: bool)
      modifies this, receiver
      ensures old(receiver.pending) != [] ==>
                && !disconnected
                && displayData == old(receiver.pending)[0]
                && receiver.pending == old(receiver.pending)[1..]
      ensures old(receiver.pending) == [] ==>
                && displayData == old(displayData)
                && receiver.pending == []
                && (disconnected <==> !receiver.senderAlive)
      ensures receiver.senderAlive == old(receiver.senderAlive)
    {
      var r := receiver.TryRecv();
      disconnected := false;
      match r {
        case Received(frame) =>
          displayData := frame;
        case Empty =>
        case Disconnected =>
          disconnected := true;
      }
    }

    /** The event loop: events are handled in order until one ends the loop. */
    method ProcessEvents(events: seq<Event>) returns (quit: bool, pushes: seq<SwitchPush>)
      requires Valid() && EventsFit(tester.EnvOf(keymap, switchIndex), events)
      modifies tester, tester.keyboardState
      ensures tester.displayLayout == old(tester.displayLayout) && tester.mechInfo == old(tester.mechInfo)
      ensures tester.lamps == old(tester.lamps) && tester.solenoids == old(tester.solenoids)
      ensures Valid()
      ensures Run(old(tester.EnvOf(keymap, switchIndex)),
                  InputState(old(tester.keyboardState[..]), old(tester.switches), [], false), events)
              == InputState(tester.keyboardState[..], tester.switches, pushes, quit)
    {
      ghost var env := tester.EnvOf(keymap, switchIndex);
      ghost var st0 := InputState(tester.keyboardState[..], tester.switches, [], false);
      quit, pushes := false, [];
      for i := 0 to |events|
        invariant tester.displayLayout == old(tester.displayLayout) && tester.mechInfo == old(tester.mechInfo)
        invariant tester.lamps == old(tester.lamps) && tester.solenoids == old(tester.solenoids)
        invariant Valid() && tester.EnvOf(keymap, switchIndex) == env
        invariant Run(env, st0, events[..i]) == InputState(tester.keyboardState[..], tester.switches, pushes, false)
      {
        ghost var before := InputState(tester.keyboardState[..], tester.switches, pushes, false);
        var q, p := tester.HandleEvent(events[i], keymap, switchIndex);
        StepAppendsPushes(env, before, events[i]);
        pushes := pushes + p;
        assert events[..i + 1][..i] == events[..i];
        assert Run(env, st0, events[..i + 1]) == InputState(tester.keyboardState[..], tester.switches, pushes, q);
        if q {
          quit := true;
          NothingAfterQuit(env, st0, events, i);
          return;
        }
      }
      assert events[..|events|] == events;
    }

    /** One pass of the `'main` loop, given the events polled and the changed
        lamps and solenoids the engine reports; the engine only reports lamps
        and solenoids below its maxima. */
    method Tick(events: seq<Event>, changedLamps: seq<ChangedState>, changedSolenoids: seq<ChangedState>)
      returns (outcome: TickOutcome, pushes: seq<SwitchPush>)
      requires Valid() && EventsFit(tester.EnvOf(keymap, switchIndex), events)
      requires IdsInRange(changedLamps, |tester.lamps|) && IdsInRange(changedSolenoids, |tester.solenoids|)
      modifies this, tester, tester.keyboardState, receiver, canvas
      ensures Valid()
      ensures tester.displayLayout == old(tester.displayLayout) && tester.mechInfo == old(tester.mechInfo)
      ensures var st := Run(old(tester.EnvOf(keymap, switchIndex)),
                            InputState(old(tester.keyboardState[..]), old(tester.switches), [], false), events);
              st == InputState(tester.keyboardState[..], tester.switches, pushes, st.quit)
      ensures outcome == Quit <==> exists i | 0 <= i < |events| :: IsQuitEvent(events[i])
      ensures outcome == Quit ==>
                && tester.lamps == old(tester.lamps) && tester.solenoids == old(tester.solenoids)
                && displayData == old(displayData) && canvas.commands == old(canvas.commands)
      ensures outcome != Quit ==>
                && tester.lamps == ApplyLevels(old(tester.lamps), changedLamps)
                && tester.solenoids == ApplyLevels(old(tester.solenoids), changedSolenoids)
      ensures outcome != Quit && tester.displayLayout.None? ==>
                && outcome == Continue
                && displayData == old(displayData) && canvas.commands == old(canvas.commands)
      ensures outcome == ChannelDisconnected ==> old(receiver.pending) == [] && !receiver.senderAlive
      ensures outcome == Continue && tester.displayLayout.Some? ==>
                && (old(receiver.pending) != [] ==> displayData == old(receiver.pending)[0])
                && (old(receiver.pending) == [] ==> displayData == old(displayData))
                && FrameDrawable(displayData, tester.displayLayout.value)
                && canvas.commands == old(canvas.commands)
                     + ScreenCommands(displayData, tester.displayLayout.value, tester.lamps, tester.solenoids,
                                      tester.mechInfo, switchIndex, tester.switches)
      ensures outcome.Panicked? ==> tester.displayLayout.Some? && !FrameDrawable(displayData, tester.displayLayout.value)
      ensures outcome != Quit && tester.displayLayout.Some? ==>
                && (old(receiver.pending) != [] ==> displayData == old(receiver.pending)[0])
                && (old(receiver.pending) == [] ==> displayData == old(displayData))
      ensures receiver.pending ==
                if outcome != Quit && tester.displayLayout.Some? && old(receiver.pending) != []
                then old(receiver.pending)[1..] else old(receiver.pending)
      ensures receiver.senderAlive == old(receiver.senderAlive)
    {
      ghost var env := tester.EnvOf(keymap, switchIndex);
      ghost var st0 := InputState(tester.keyboardState[..], tester.switches, [], false);
      var quit;
      quit, pushes := ProcessEvents(events);
      RunQuits(env, st0, events);
      if quit {
        return Quit, pushes;
      }
      tester.ApplyChangedLamps(changedLamps);
      tester.ApplyChangedSolenoids(changedSolenoids);
      outcome := Continue;
      if tester.displayLayout.Some? {
        var layout := tester.displayLayout.value;
        var disconnected := FrameStep();
        if disconnected {
          return ChannelDisconnected, pushes;
        }
        var r := Render(canvas, displayData, layout, tester, switchIndex);
        if r.Panic? {
          return Panicked(r.reason), pushes;
        }
      }
    }
  }
}
