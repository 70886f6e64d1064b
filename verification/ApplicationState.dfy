/** The application's own truth (app/application_state.py): what is requested, what the heater
    last reported, and the bounded session that supervises one requested operation. */
module ApplicationState {
  import opened Options

  datatype Mode = Power | RoofTent | Cabin | Unsupported(name: string)

  datatype HeaterState = Unknown | Off | Starting | Running | ShuttingDown | TempMonitoring

  datatype Communication = NeverHeard | Healthy | Broken

  datatype Requested = Requested(
    on: bool, mode: Mode, target: Option<int>, power: Option<int>, runtime: int, source: string)

  datatype Actual = Actual(
    communication: Communication, initialized: bool, synchronized: bool,
    state: HeaterState, lastStatus: Option<int>)

  datatype Session = Session(
    id: int, source: string, mode: Mode, target: int, started: int, expires: int,
    runtime: int, confirmed: bool, expired: bool)

  const MILLISECONDS_PER_MINUTE := 60000

  const INITIAL_REQUESTED := Requested(false, RoofTent, Some(20), None, 60, "manual")

  const INITIAL_ACTUAL := Actual(NeverHeard, false, false, Unknown, None)

  /** Acceptance of one start request against the configured maximum runtime. */
  predicate ValidStart(r: Requested, maxRuntime: int) {
    && !r.mode.Unsupported?
    && 1 <= r.runtime <= maxRuntime
    && r.source != ""
    && (if r.mode.Power?
        then r.power.Some? && 1 <= r.power.value <= 9 && r.target.None?
        else r.target.Some? && 5 <= r.target.value <= 30 && r.power.None?)
  }

  /** The single number a session regulates to: the power level in power mode, else degrees. */
  function TargetOf(r: Requested): int {
    if r.mode.Power? then (if r.power.Some? then r.power.value else 0)
    else if r.target.Some? then r.target.value else 0
  }

  function StateOfRaw(raw: int): HeaterState {
    if raw == 0 then Off
    else if raw == 1 then Starting
    else if raw == 4 then Running
    else if raw == 5 then ShuttingDown
    else if raw == 6 then TempMonitoring
    else Unknown
  }

  predicate IsActive(s: HeaterState) {
    s.Starting? || s.Running? || s.TempMonitoring?
  }

  function WithInitialization(a: Actual): Actual {
    Actual(Healthy, true, false, Unknown, a.lastStatus)
  }

  function WithStatus(a: Actual, raw: int, now: int): Actual {
    var st := StateOfRaw(raw);
    Actual(Healthy, a.initialized, a.initialized && st != Unknown, st, Some(now))
  }

  function WithError(a: Actual): Actual {
    Actual(Broken, false, false, Unknown, a.lastStatus)
  }
}
