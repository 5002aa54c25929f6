/** What one batch of SDL events does to the tester's keyboard state and
    switch map, as pure functions: the main loop's event handling is proved
    against these. */
module Input {
  import opened Wrappers
  import opened Libpinmame
  import opened Db
  import opened Dmd
  import opened Switches
  import opened Draw

  datatype MouseButton = UnknownButton | Left | Middle | Right | X1 | X2

  /** An SDL keycode; only Escape and Q are told apart by the loop. */
  datatype SdlKey = Escape | Q | OtherKey(code: int)

  datatype Event =
    | QuitEvent
    | KeyDown(key: Option<SdlKey>)
    | KeyUp(key: Option<SdlKey>)
    | MouseButtonDown(x: int, y: int, button: MouseButton)
    | MouseButtonUp(x: int, y: int, button: MouseButton)
    | OtherEvent

  /** A `pinmame::set_switch(no, value)` request to the engine. */
  datatype SwitchPush = SetSwitch(no: nat, value: int)

  /** What event handling depends on: the engine's constants, the SDL to
      PinMAME key map (`map_keycode`, a partial map), the last announced
      display layout and the game's switch table. */
  datatype Env = Env(c: Constants, keymap: map<SdlKey, nat>, layout: Option<DisplayLayout>, index: SwitchIndex)

  /** The keyboard state, the switch map, the set_switch requests made so far
      and whether the loop has been told to end. */
  datatype InputState = InputState(keys: seq<bool>, switches: map<nat, bool>, pushes: seq<SwitchPush>, quit: bool)

  /** The y of the switch panel: below the DMD, the grids and the mech bars. */
  function PanelTop(layout: DisplayLayout): nat {
    DmdHeight(layout) + 10 + 100 + 50
  }

  /** The environment fits a keyboard array of `keyCount` entries: the array has
      MENU + 1 entries, every mapped key is one of them, and pixel sums stay
      inside `i32`. */
  predicate EnvFits(env: Env, keyCount: nat) {
    && env.c.Valid()
    && keyCount == env.c.keycodeMenu + 1
    && (forall k | k in env.keymap :: env.keymap[k] < keyCount)
    && |env.index| <= I32_MAX
    && (env.layout.Some? ==> PanelTop(env.layout.value) <= I32_MAX)
  }

  /** Mouse coordinates are `i32`, and so is their offset from the panel. */
  predicate EventFits(env: Env, e: Event) {
    (e.MouseButtonDown? || e.MouseButtonUp?) ==>
      IsI32(e.x) && IsI32(e.y) && (env.layout.Some? ==> IsI32(e.y - PanelTop(env.layout.value)))
  }

  /** The switch under a click at window position (x, y), if any. */
  function ClickedSwitch(layout: DisplayLayout, x: int, y: int, index: SwitchIndex): Option<nat>
    requires IsI32(x) && IsI32(y - PanelTop(layout)) && |index| <= I32_MAX
  {
    SwitchIdForMouse(x - 0, y - PanelTop(layout), index)
  }

  /** A click inside a drawn switch button, margin included, hits that
      switch: the hit test uses the same origin the panel is drawn at. */
  lemma ClickOnDrawnSwitch(layout: DisplayLayout, index: SwitchIndex, i: nat, px: int, py: int)
    requires i < |index| <= I32_MAX
    requires IsI32(px) && IsI32(py - PanelTop(layout))
    requires InRect(SwitchSlot(0, PanelTop(layout), i), px, py)
    ensures ClickedSwitch(layout, px, py, index) == Some(index[i].code)
  {
    HitTestRoundTrip(index, i, px, py - PanelTop(layout));
  }

  // ---------------- keyboard ----------------

  /** KeyDown: the mapped entry (if any) is set; Escape and Q also set their
      own PinMAME entry. */
  function KeyDownKeys(env: Env, keys: seq<bool>, key: SdlKey): (r: seq<bool>)
    requires EnvFits(env, |keys|)
    ensures |r| == |keys|
  {
    var mapped := if key in env.keymap then keys[env.keymap[key] := true] else keys;
    match key
    case Escape => mapped[env.c.keycodeEscape := true]
    case Q => mapped[env.c.keycodeQ := true]
    case OtherKey(_) => mapped
  }

  /** KeyUp: the mapped entry (if any) is cleared. */
  function KeyUpKeys(env: Env, keys: seq<bool>, key: SdlKey): (r: seq<bool>)
    requires EnvFits(env, |keys|)
    ensures |r| == |keys|
  {
    if key in env.keymap then keys[env.keymap[key] := false] else keys
  }

  /** A key press makes its mapped keycode pressed and touches no entry but
      that one and, for Escape and Q, their own. */
  lemma KeyDownPresses(env: Env, keys: seq<bool>, key: SdlKey, k: nat)
    requires EnvFits(env, |keys|) && k < |keys|
    ensures key in env.keymap && k == env.keymap[key] ==> KeyDownKeys(env, keys, key)[k]
    ensures key == Escape && k == env.c.keycodeEscape ==> KeyDownKeys(env, keys, key)[k]
    ensures key == Q && k == env.c.keycodeQ ==> KeyDownKeys(env, keys, key)[k]
    ensures (key !in env.keymap || k != env.keymap[key])
            && (key != Escape || k != env.c.keycodeEscape)
            && (key != Q || k != env.c.keycodeQ)
            ==> KeyDownKeys(env, keys, key)[k] == keys[k]
  {
  }

  /** Releasing a key that is not Escape or Q after pressing it leaves its
      mapped entry released and every other entry as it was. */
  lemma KeyDownThenUp(env: Env, keys: seq<bool>, key: SdlKey)
    requires EnvFits(env, |keys|) && key.OtherKey?
    ensures KeyUpKeys(env, KeyDownKeys(env, keys, key), key) ==
            (if key in env.keymap then keys[env.keymap[key] := false] else keys)
  {
  }

  // ---------------- switches ----------------

  /** The value a switch has in the map, an absent entry counting as open. */
  function SwitchValue(switches: map<nat, bool>, code: nat): bool {
    if code in switches then switches[code] else false
  }

  function BoolToInt(b: bool): int {
    if b then 1 else 0
  }

  /** A mouse press on switch `hit`: left closes it, right toggles it. */
  function MouseDownSwitches(switches: map<nat, bool>, hit: Option<nat>, button: MouseButton): map<nat, bool> {
    match hit
    case None => switches
    case Some(code) =>
      match button
      case Left => switches[code := true]
      case Right => switches[code := !SwitchValue(switches, code)]
      case _ => switches
  }

  /** The set_switch request a mouse press makes. */
  function MouseDownPush(switches: map<nat, bool>, hit: Option<nat>, button: MouseButton): seq<SwitchPush> {
    match hit
    case None => []
    case Some(code) =>
      match button
      case Left => [SetSwitch(code, 1)]
      case Right => [SetSwitch(code, BoolToInt(!SwitchValue(switches, code)))]
      case _ => []
  }

  /** A mouse release on switch `hit`: left opens it; other buttons do nothing. */
  function MouseUpSwitches(switches: map<nat, bool>, hit: Option<nat>, button: MouseButton): map<nat, bool> {
    if hit.Some? && button == Left then switches[hit.value := false] else switches
  }

  function MouseUpPush(hit: Option<nat>, button: MouseButton): seq<SwitchPush> {
    if hit.Some? && button == Left then [SetSwitch(hit.value, 0)] else []
  }

  /** A press changes only the entry of the switch hit, and the engine is told
      exactly the value the map now holds. */
  lemma MouseDownEffect(switches: map<nat, bool>, code: nat, button: MouseButton)
    ensures var r := MouseDownSwitches(switches, Some(code), button);
            && (button == Left ==> r[code] == true)
            && (button == Right ==> r[code] == !SwitchValue(switches, code))
            && (button != Left && button != Right ==> r == switches && MouseDownPush(switches, Some(code), button) == [])
            && (button == Left || button == Right ==>
                  MouseDownPush(switches, Some(code), button) == [SetSwitch(code, BoolToInt(r[code]))])
            && (forall k | k != code :: (k in r <==> k in switches) && (k in r ==> r[k] == switches[k]))
  {
  }

  /** Two right clicks on a switch give it back its value; a switch that was
      absent ends up present and open. */
  lemma RightClickTwice(switches: map<nat, bool>, code: nat)
    ensures var twice := MouseDownSwitches(MouseDownSwitches(switches, Some(code), Right), Some(code), Right);
            twice == switches[code := SwitchValue(switches, code)]
  {
  }

  /** A left press followed by a left release leaves the switch open, and
      the engine sees 1 then 0. */
  lemma LeftClickIsMomentary(switches: map<nat, bool>, code: nat)
    ensures var pressed := MouseDownSwitches(switches, Some(code), Left);
            && pressed[code]
            && MouseUpSwitches(pressed, Some(code), Left) == switches[code := false]
            && MouseDownPush(switches, Some(code), Left) + MouseUpPush(Some(code), Left)
               == [SetSwitch(code, 1), SetSwitch(code, 0)]
  {
  }

  // ---------------- one event, one batch ----------------

  /** The events that end the loop. */
  predicate IsQuitEvent(e: Event) {
    e.QuitEvent? || (e.KeyDown? && e.key.Some? && (e.key.value == Escape || e.key.value == Q))
  }

  /** The effect of one event of the main loop's `poll_iter` match. */
  function Step(env: Env, st: InputState, e: Event): (r: InputState)
    requires EnvFits(env, |st.keys|) && EventFits(env, e)
    ensures |r.keys| == |st.keys|
    ensures r.quit <==> IsQuitEvent(e)
  {
    match e
    case QuitEvent => st.(quit := true)
    case KeyDown(key) =>
      if key.None? then st.(quit := false)
      else st.(keys := KeyDownKeys(env, st.keys, key.value), quit := key.value == Escape || key.value == Q)
    case KeyUp(key) =>
      if key.None? then st.(quit := false)
      else st.(keys := KeyUpKeys(env, st.keys, key.value), quit := false)
    case MouseButtonDown(x, y, button) =>
      if env.layout.None? then st.(quit := false)
      else
        var hit := ClickedSwitch(env.layout.value, x, y, env.index);
        st.(switches := MouseDownSwitches(st.switches, hit, button),
            pushes := st.pushes + MouseDownPush(st.switches, hit, button),
            quit := false)
    case MouseButtonUp(x, y, button) =>
      if env.layout.None? then st.(quit := false)
      else
        var hit := ClickedSwitch(env.layout.value, x, y, env.index);
        st.(switches := MouseUpSwitches(st.switches, hit, button),
            pushes := st.pushes + MouseUpPush(hit, button),
            quit := false)
    case OtherEvent => st.(quit := false)
  }

  /** An event's requests are added after those already made, and do not
      depend on them. */
  lemma StepAppendsPushes(env: Env, st: InputState, e: Event)
    requires EnvFits(env, |st.keys|) && EventFits(env, e)
    ensures var alone := Step(env, st.(pushes := []), e);
            Step(env, st, e) == alone.(pushes := st.pushes + alone.pushes)
  {
    var r := Step(env, st, e);
    var alone := Step(env, st.(pushes := []), e);
    assert [] + alone.pushes == alone.pushes;
    assert r.pushes == st.pushes + alone.pushes;
  }

  predicate EventsFit(env: Env, events: seq<Event>) {
    forall i | 0 <= i < |events| :: EventFits(env, events[i])
  }

  /** A batch of events handled in order; handling stops after the first event
      that ends the loop. */
  function Run(env: Env, st: InputState, events: seq<Event>): (r: InputState)
    requires EnvFits(env, |st.keys|) && EventsFit(env, events) && !st.quit
    ensures |r.keys| == |st.keys|
    decreases |events|
  {
    if events == [] then st
    else
      var prev := Run(env, st, events[..|events| - 1]);
      if prev.quit then prev else Step(env, prev, events[|events| - 1])
  }

  /** A batch ends the loop exactly when one of its events does. */
  lemma {:induction false} RunQuits(env: Env, st: InputState, events: seq<Event>)
    requires EnvFits(env, |st.keys|) && EventsFit(env, events) && !st.quit
    ensures Run(env, st, events).quit <==> exists i | 0 <= i < |events| :: IsQuitEvent(events[i])
    decreases |events|
  {
    if events != [] {
      var init := events[..|events| - 1];
      RunQuits(env, st, init);
      if exists i | 0 <= i < |init| :: IsQuitEvent(init[i]) {
        var i :| 0 <= i < |init| && IsQuitEvent(init[i]);
        assert IsQuitEvent(events[i]);
      }
      if exists i | 0 <= i < |events| :: IsQuitEvent(events[i]) {
        var i :| 0 <= i < |events| && IsQuitEvent(events[i]);
        if i < |init| { assert IsQuitEvent(init[i]); }
      }
    }
  }

  /** Nothing after the first quitting event has any effect. */
  lemma {:induction false} NothingAfterQuit(env: Env, st: InputState, events: seq<Event>, i: nat)
    requires EnvFits(env, |st.keys|) && EventsFit(env, events) && !st.quit
    requires i < |events| && Run(env, st, events[..i + 1]).quit
    ensures Run(env, st, events) == Run(env, st, events[..i + 1])
    decreases |events|
  {
    if |events| > i + 1 {
      var init := events[..|events| - 1];
      assert init[..i + 1] == events[..i + 1];
      NothingAfterQuit(env, st, init, i);
    } else {
      assert events[..i + 1] == events;
    }
  }

  /** Every request from position `from` on names a switch of the table. */
  predicate PushesInTable(index: SwitchIndex, pushes: seq<SwitchPush>, from: nat) {
    forall j | from <= j < |pushes| :: InTable(index, pushes[j].no)
  }

  /** Some entry of the table has this code. */
  predicate InTable(index: SwitchIndex, code: nat) {
    exists i | 0 <= i < |index| :: index[i].code == code
  }

  /** One event adds at most requests for switches of the table. */
  lemma StepPushesInTable(env: Env, st: InputState, e: Event)
    requires EnvFits(env, |st.keys|) && EventFits(env, e)
    ensures var r := Step(env, st, e);
            |st.pushes| <= |r.pushes| && r.pushes[..|st.pushes|] == st.pushes
            && PushesInTable(env.index, r.pushes, |st.pushes|)
  {
    var r := Step(env, st, e);
    if |r.pushes| > |st.pushes| {
      var ord := SwitchOrdinal(e.x, e.y - PanelTop(env.layout.value));
      assert env.index[ord].code == r.pushes[|st.pushes|].no;
    }
  }

  /** Requests in the table from `from` on and from `mid` on combine. */
  lemma PushesInTableCombine(index: SwitchIndex, a: seq<SwitchPush>, b: seq<SwitchPush>, from: nat)
    requires from <= |a| <= |b| && b[..|a|] == a
    requires PushesInTable(index, a, from) && PushesInTable(index, b, |a|)
    ensures PushesInTable(index, b, from)
  {
    forall j | from <= j < |b|
      ensures InTable(index, b[j].no)
    {
      if j < |a| {
        assert b[j] == a[j];
      }
    }
  }

  /** Before the loop ends, a batch only ever asks the engine to set switches
      the panel shows. */
  lemma {:induction false} PushesAreTableCodes(env: Env, st: InputState, events: seq<Event>)
    requires EnvFits(env, |st.keys|) && EventsFit(env, events) && !st.quit
    ensures var r := Run(env, st, events);
            |st.pushes| <= |r.pushes| && r.pushes[..|st.pushes|] == st.pushes
            && PushesInTable(env.index, r.pushes, |st.pushes|)
    decreases |events|
  {
    if events != [] {
      var init := events[..|events| - 1];
      PushesAreTableCodes(env, st, init);
      var prev := Run(env, st, init);
      if !prev.quit {
        var r := Step(env, prev, events[|events| - 1]);
        StepPushesInTable(env, prev, events[|events| - 1]);
        assert r.pushes[..|st.pushes|] == prev.pushes[..|st.pushes|];
        PushesInTableCombine(env.index, prev.pushes, r.pushes, |st.pushes|);
      }
    }
  }
}
