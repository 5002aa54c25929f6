/** The engine's side of the boundary: the records libpinmame passes to the
    tester and the numeric constants of its C enums. The generated bindings
    are not part of this model, so the constants are gathered in one record
    about which only the assumptions of `Valid()` are made: the values of one
    enum are distinct, and ESCAPE and Q are keycodes no larger than MENU. */
module Libpinmame {

  /** One byte of a raw display frame (`u8`). */
  newtype byte = x: int | 0 <= x < 256

  /** `s` holds no value twice. */
  predicate Distinct<T(==)>(s: seq<T>) {
    forall i, j :: 0 <= i < j < |s| ==> s[i] != s[j]
  }

  /** The values of the engine's C enums (PINMAME_STATUS, PINMAME_LOG_LEVEL,
      PINMAME_DMD_MODE, PINMAME_DISPLAY_TYPE, PINMAME_KEYCODE, PINMAME_MECH_FLAGS). */
  datatype Constants = Constants(
    statusOk: nat,
    statusConfigNotSet: nat,
    statusGameNotFound: nat,
    statusGameAlreadyRunning: nat,
    statusEmulatorNotRunning: nat,
    statusMechHandleMechanics: nat,
    statusMechNoInvalid: nat,
    logLevelDebug: nat,
    logLevelInfo: nat,
    logLevelError: nat,
    dmdModeBrightness: nat,
    dmdModeRaw: nat,
    displayTypeDmd: bv32,
    displayTypeSeg16s: bv32,
    keycodeEscape: nat,
    keycodeQ: nat,
    keycodeMenu: nat,
    mechFlagNonlinear: bv32,
    mechFlagReverse: bv32,
    mechFlagOnesol: bv32)
  {
    /** The seven status codes, in the order of the `PinmameStatus` variants. */
    function StatusCodes(): seq<nat> {
      [statusOk, statusConfigNotSet, statusGameNotFound, statusGameAlreadyRunning,
       statusEmulatorNotRunning, statusMechHandleMechanics, statusMechNoInvalid]
    }

    function LogLevels(): seq<nat> {
      [logLevelDebug, logLevelInfo, logLevelError]
    }

    /** Assumptions about libpinmame's enums, which C itself does not
        guarantee: distinct members of one enum have distinct values, and
        ESCAPE and Q are keycodes no larger than MENU, the last one. */
    predicate Valid() {
      && Distinct(StatusCodes())
      && Distinct(LogLevels())
      && dmdModeBrightness != dmdModeRaw
      && keycodeEscape <= keycodeMenu
      && keycodeQ <= keycodeMenu
    }
  }

  /** PinmameDisplayLayout: where a display sits, its size in pixels or
      characters, its colour depth and its data length. */
  datatype DisplayLayout = DisplayLayout(
    displayType: bv32, top: int, left: int, width: nat, height: nat, depth: int, length: nat)

  /** PinmameMechInfo: one mechanism's type, travel, steps, position and speed. */
  datatype MechInfo = MechInfo(mechType: int, length: int, steps: int, pos: int, speed: int)

  /** One entry of a changed-lamps or changed-solenoids list: PinmameLampState
      (lampNo, state) and PinmameSolenoidState (solNo, state) have this shape. */
  datatype ChangedState = ChangedState(no: int, state: int)

  /** The zero entry the tester fills its changed-list buffers with. */
  const ZERO_STATE := ChangedState(0, 0)

  /** A game of the engine's catalogue, its C strings already converted. */
  datatype Game = Game(
    name: string, cloneOf: string, description: string, year: string,
    manufacturer: string, flags: nat, found: int)

  /** PinmameMechSwitchConfig. */
  datatype MechSwitchConfig = MechSwitchConfig(swNo: int, startPos: int, endPos: int, pulse: int)

  /** PinmameMechConfig. */
  datatype MechConfig = MechConfig(
    mechType: bv32, sol1: int, sol2: int, length: int, steps: int,
    initialPos: int, acc: int, ret: int, sw: seq<MechSwitchConfig>)
}
