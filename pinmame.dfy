/** The typed wrapper around the engine's C interface: status codes, pause and
    continue, the game catalogue queries, the changed-lamp and changed-solenoid
    lists, and the classification of the engine's log messages. Each foreign
    call is replaced by what the engine answers, passed in as a parameter. */
module Pinmame {
  import opened Wrappers
  import opened Text
  import opened Libpinmame

  datatype PinmameStatus =
    | Ok
    | ConfigNotSet
    | GameNotFound
    | GameAlreadyRunning
    | EmulatorNotRunning
    | MechHandleMechanics
    | MechNoInvalid

  /** The raw code of each variant. */
  function StatusCode(c: Constants, s: PinmameStatus): nat {
    match s
    case Ok => c.statusOk
    case ConfigNotSet => c.statusConfigNotSet
    case GameNotFound => c.statusGameNotFound
    case GameAlreadyRunning => c.statusGameAlreadyRunning
    case EmulatorNotRunning => c.statusEmulatorNotRunning
    case MechHandleMechanics => c.statusMechHandleMechanics
    case MechNoInvalid => c.statusMechNoInvalid
  }

  /** `PinmameStatus::from`: the variant of a raw status code; any other code
      reaches `unreachable!`. */
  function StatusFrom(c: Constants, code: nat): (r: Outcome<PinmameStatus>)
    ensures r.Done? <==> code in c.StatusCodes()
    ensures r.Done? ==> StatusCode(c, r.value) == code
  {
    if code == c.statusOk then Done(Ok)
    else if code == c.statusConfigNotSet then Done(ConfigNotSet)
    else if code == c.statusGameNotFound then Done(GameNotFound)
    else if code == c.statusGameAlreadyRunning then Done(GameAlreadyRunning)
    else if code == c.statusEmulatorNotRunning then Done(EmulatorNotRunning)
    else if code == c.statusMechHandleMechanics then Done(MechHandleMechanics)
    else if code == c.statusMechNoInvalid then Done(MechNoInvalid)
    else Panic("Unknown status code")
  }

  /** With distinct codes, the conversion inverts `StatusCode` exactly. */
  lemma StatusRoundTrip(c: Constants, s: PinmameStatus)
    requires c.Valid()
    ensures StatusFrom(c, StatusCode(c, s)) == Done(s)
  {
    var codes := c.StatusCodes();
    assert codes[0] != codes[1] && codes[0] != codes[2] && codes[0] != codes[3];
    assert codes[0] != codes[4] && codes[0] != codes[5] && codes[0] != codes[6];
    assert codes[1] != codes[2] && codes[1] != codes[3] && codes[1] != codes[4];
    assert codes[1] != codes[5] && codes[1] != codes[6] && codes[2] != codes[3];
    assert codes[2] != codes[4] && codes[2] != codes[5] && codes[2] != codes[6];
    assert codes[3] != codes[4] && codes[3] != codes[5] && codes[3] != codes[6];
    assert codes[4] != codes[5] && codes[4] != codes[6] && codes[5] != codes[6];
  }

  /** The seven known codes give seven distinct variants. */
  lemma StatusFromInjective(c: Constants, a: nat, b: nat)
    requires StatusFrom(c, a).Done? && StatusFrom(c, b).Done?
    requires StatusFrom(c, a) == StatusFrom(c, b)
    ensures a == b
  {
  }

  /** The flag `pause` passes to PinmamePause, and the one `continue_` passes. */
  const PAUSE_FLAG := 1
  const CONTINUE_FLAG := 0

  /** The shared `match status { OK => Ok(()), _ => Err(status) }` of `pause`
      and `continue_`: the error carries the raw code. */
  function PauseResult(c: Constants, status: nat): (r: Result<(), nat>)
    ensures r.Success? <==> status == c.statusOk
    ensures r.Failure? ==> r.error == status
  {
    if status == c.statusOk then Success(()) else Failure(status)
  }

  /** `pause()`, given the engine's PinmamePause as a function of its flag. */
  function Pause(c: Constants, engine: int -> nat): (r: Result<(), nat>)
    ensures r.Success? <==> engine(1) == c.statusOk
    ensures r.Failure? ==> r.error == engine(1)
  {
    PauseResult(c, engine(PAUSE_FLAG))
  }

  /** `continue_()`, given the engine's PinmamePause as a function of its flag. */
  function Continue(c: Constants, engine: int -> nat): (r: Result<(), nat>)
    ensures r.Success? <==> engine(0) == c.statusOk
    ensures r.Failure? ==> r.error == engine(0)
  {
    PauseResult(c, engine(CONTINUE_FLAG))
  }

  datatype DmdMode = Brightness | Raw

  /** `From<DmdMode> for PINMAME_DMD_MODE`. */
  function DmdModeValue(c: Constants, m: DmdMode): nat {
    match m
    case Brightness => c.dmdModeBrightness
    case Raw => c.dmdModeRaw
  }

  /** The two modes reach the engine as two different constants. */
  lemma DmdModeValueInjective(c: Constants, a: DmdMode, b: DmdMode)
    requires c.Valid()
    ensures DmdModeValue(c, a) == DmdModeValue(c, b) <==> a == b
  {
  }

  /** GamesUserData: the vector `games_callback` pushes into. */
  class GamesUserData {
    var games: seq<Game>

    constructor ()
      ensures games == []
    {
      games := [];
    }

    /** `games_callback`: one game of the catalogue, appended. */
    method GamesCallback(game: Game)
      modifies this
      ensures games == old(games) + [game]
    {
      games := games + [game];
    }
  }

  /** `get_games()`: the engine calls `games_callback` once per game of
      `delivered`, in order, then returns `status`, which is converted with
      `PinmameStatus::from` (an unknown code panics). */
  method GetGames(c: Constants, delivered: seq<Game>, status: nat)
    returns (r: Outcome<Result<seq<Game>, PinmameStatus>>)
    ensures r.Panic? <==> StatusFrom(c, status).Panic?
    ensures StatusFrom(c, status) == Done(Ok) ==> r == Done(Success(delivered))
    ensures StatusFrom(c, status).Done? && StatusFrom(c, status).value != Ok ==>
              r == Done(Failure(StatusFrom(c, status).value))
  {
    var userData := new GamesUserData();
    for i := 0 to |delivered|
      invariant userData.games == delivered[..i]
    {
      userData.GamesCallback(delivered[i]);
    }
    assert delivered[..|delivered|] == delivered;
    var converted := StatusFrom(c, status);
    if converted.Panic? {
      return Panic(converted.reason);
    }
    if converted.value != Ok {
      return Done(Failure(converted.value));
    }
    r := Done(Success(userData.games));
  }

  /** GameUserData: the slot `game_callback` fills. */
  class GameUserData {
    var game: Option<Game>

    constructor ()
      ensures game == None
    {
      game := None;
    }

    /** `game_callback`: the game found, replacing any earlier one. */
    method GameCallback(found: Game)
      modifies this
      ensures game == Some(found)
    {
      game := Some(found);
    }
  }

  /** `get_game(name)`: the engine calls `game_callback` once per game of
      `delivered` and returns `status`. On OK the last game delivered is the
      result; OK without any callback makes `unwrap` panic. */
  method GetGame(c: Constants, delivered: seq<Game>, status: nat)
    returns (r: Outcome<Result<Game, PinmameStatus>>)
    ensures StatusFrom(c, status).Panic? ==> r.Panic?
    ensures StatusFrom(c, status).Done? && StatusFrom(c, status).value != Ok ==>
              r == Done(Failure(StatusFrom(c, status).value))
    ensures StatusFrom(c, status) == Done(Ok) && delivered != [] ==>
              r == Done(Success(delivered[|delivered| - 1]))
    ensures StatusFrom(c, status) == Done(Ok) && delivered == [] ==> r.Panic?
  {
    var userData := new GameUserData();
    for i := 0 to |delivered|
      invariant userData.game == if i == 0 then None else Some(delivered[i - 1])
    {
      userData.GameCallback(delivered[i]);
    }
    var converted := StatusFrom(c, status);
    if converted.Panic? {
      return Panic(converted.reason);
    }
    if converted.value != Ok {
      return Done(Failure(converted.value));
    }
    if userData.game.None? {
      return Panic("called `Option::unwrap()` on a `None` value");
    }
    r := Done(Success(userData.game.value));
  }

  /** `get_changed_lamps()`: a buffer of `maxLamps` zero entries is handed to
      the engine, which writes `written` into its front and answers `num`.
      `-1` means "nothing changed"; any other negative count fails
      `try_into().unwrap()`; otherwise the first `num` entries are returned.
      A negative `maxLamps` makes the buffer allocation panic. */
  method GetChangedLamps(maxLamps: int, written: seq<ChangedState>, num: int)
    returns (r: Outcome<seq<ChangedState>>)
    requires maxLamps >= 0 ==> |written| <= maxLamps && num <= maxLamps
    ensures maxLamps < 0 ==> r.Panic?
    ensures maxLamps >= 0 && num == -1 ==> r == Done([])
    ensures maxLamps >= 0 && num < -1 ==> r.Panic?
    ensures maxLamps >= 0 && num >= 0 ==>
              r.Done? && |r.value| == num &&
              forall i :: 0 <= i < num ==>
                r.value[i] == if i < |written| then written[i] else ZERO_STATE
  {
    if maxLamps < 0 {
      return Panic("capacity overflow");
    }
    var lampsChanged := new ChangedState[maxLamps](_ => ZERO_STATE);
    forall i | 0 <= i < |written| {
      lampsChanged[i] := written[i];
    }
    if num == -1 {
      return Done([]);
    }
    if num < 0 {
      return Panic("called `Result::unwrap()` on an `Err` value");
    }
    r := Done(lampsChanged[..num]);
  }

  /** `get_changed_solenoids()`: the same protocol over a buffer of
      `maxSolenoids` entries. */
  method GetChangedSolenoids(maxSolenoids: int, written: seq<ChangedState>, num: int)
    returns (r: Outcome<seq<ChangedState>>)
    requires maxSolenoids >= 0 ==> |written| <= maxSolenoids && num <= maxSolenoids
    ensures maxSolenoids < 0 ==> r.Panic?
    ensures maxSolenoids >= 0 && num == -1 ==> r == Done([])
    ensures maxSolenoids >= 0 && num < -1 ==> r.Panic?
    ensures maxSolenoids >= 0 && num >= 0 ==>
              r.Done? && |r.value| == num &&
              forall i :: 0 <= i < num ==>
                r.value[i] == if i < |written| then written[i] else ZERO_STATE
  {
    if maxSolenoids < 0 {
      return Panic("capacity overflow");
    }
    var solenoidsChanged := new ChangedState[maxSolenoids](_ => ZERO_STATE);
    forall i | 0 <= i < |written| {
      solenoidsChanged[i] := written[i];
    }
    if num == -1 {
      return Done([]);
    }
    if num < 0 {
      return Panic("called `Result::unwrap()` on an `Err` value");
    }
    r := Done(solenoidsChanged[..num]);
  }

  datatype Severity = Debug | Info | Warn | Error

  /** The `pinmame` log target, or the default one (the module's path). */
  datatype LogTarget = PinmameTarget | ModuleTarget

  /** One line handed to the logger. */
  datatype LogRecord = LogRecord(severity: Severity, target: LogTarget, text: string)

  const ERROR_MARKER := "ERROR"

  /** `on_log_message`: a message mentioning "ERROR" is an error whatever
      its level; otherwise the level decides, and an unknown level gives a
      warning naming the level, without the message. */
  function OnLogMessage(c: Constants, level: nat, message: string): (r: LogRecord)
    ensures Contains(message, ERROR_MARKER) ==> r == LogRecord(Error, PinmameTarget, message)
    ensures !Contains(message, ERROR_MARKER) && level in c.LogLevels() ==> r.target == PinmameTarget && r.text == message
    ensures !Contains(message, ERROR_MARKER) && level !in c.LogLevels() ==>
              r == LogRecord(Warn, ModuleTarget, "Unknown log level: " + NatToDecimal(level))
  {
    if Contains(message, ERROR_MARKER) then LogRecord(Error, PinmameTarget, message)
    else if level == c.logLevelDebug then LogRecord(Debug, PinmameTarget, message)
    else if level == c.logLevelInfo then LogRecord(Info, PinmameTarget, message)
    else if level == c.logLevelError then LogRecord(Error, PinmameTarget, message)
    else LogRecord(Warn, ModuleTarget, "Unknown log level: " + NatToDecimal(level))
  }

  /** The severity as a function of the level alone, for messages without
      the marker. */
  function LevelSeverity(c: Constants, level: nat): Option<Severity> {
    if level == c.logLevelDebug then Some(Debug)
    else if level == c.logLevelInfo then Some(Info)
    else if level == c.logLevelError then Some(Error)
    else None
  }

  /** A message is logged as an error exactly when it mentions "ERROR" or
      comes at the error level; it is a warning exactly when neither holds and
      the level is unknown; and a warning never carries the message. */
  lemma LogSeverityClassification(c: Constants, level: nat, message: string)
    requires c.Valid()
    ensures OnLogMessage(c, level, message).severity == Error <==>
              Contains(message, ERROR_MARKER) || level == c.logLevelError
    ensures OnLogMessage(c, level, message).severity == Warn <==>
              !Contains(message, ERROR_MARKER) && level !in c.LogLevels()
    ensures !Contains(message, ERROR_MARKER) && LevelSeverity(c, level).Some? ==>
              OnLogMessage(c, level, message) == LogRecord(LevelSeverity(c, level).value, PinmameTarget, message)
  {
    var levels := c.LogLevels();
    assert levels[0] != levels[1] && levels[0] != levels[2] && levels[1] != levels[2];
  }

  /** For an unknown level the logged line is the same whatever the message
      says, provided it does not mention "ERROR". */
  lemma UnknownLevelIgnoresMessage(c: Constants, level: nat, m1: string, m2: string)
    requires level !in c.LogLevels()
    requires !Contains(m1, ERROR_MARKER) && !Contains(m2, ERROR_MARKER)
    ensures OnLogMessage(c, level, m1) == OnLogMessage(c, level, m2)
  {
  }

  /** A concrete case: an engine line saying "ERROR" at debug level is an error. */
  lemma ErrorTextAtDebugLevel(c: Constants)
    ensures OnLogMessage(c, c.logLevelDebug, "ROM ERROR").severity == Error
  {
    assert OccursAt("ROM ERROR", ERROR_MARKER, 4);
  }
}
