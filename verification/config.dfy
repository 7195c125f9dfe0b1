/**
 * The timing configuration of the controller: `vacuum_timer`, `pump_on_time`
 * and `valve_close_time`, each read as a float that must lie above a bound and
 * that falls back to a default when the option is absent.
 */
module Config {
  import opened Wrappers

  const DefaultVacuumTimer: real := 600.0
  const DefaultPumpOnTime: real := 8.0
  const DefaultValveCloseTime: real := 6.0

  /** Delay between the pump start and the valve-open assert in the turn-on sequence. */
  const ValveOpenDelay: real := 2.0

  /** Delay between the deassert of one valve direction and the assert of the other. */
  const ValveSwitchDelay: real := 1.0

  /**
   * `vacuumTimer`: period of the automatic cycle; `pumpOnTime`: how long after
   * the turn-on the turn-off is scheduled; `valveCloseTime`: how long the pump
   * keeps running after the turn-off begins.
   */
  datatype Timing = Timing(vacuumTimer: real, pumpOnTime: real, valveCloseTime: real) {
    /** What the configuration check of the source accepts: every value above zero. */
    predicate AcceptedAsWritten() {
      vacuumTimer > 0.0 && pumpOnTime > 0.0 && valveCloseTime > 0.0
    }

    /**
     * The corrected bound: `pumpOnTime` must also exceed the valve-open delay
     * of the turn-on sequence, so that the turn-off's release of the valve-open
     * comes strictly after the turn-on's assert. Below the delay the automatic
     * cycle drives both valves; at the delay both writes fall on one instant.
     */
    predicate Valid() {
      vacuumTimer > 0.0 && pumpOnTime > ValveOpenDelay && valveCloseTime > 0.0
    }
  }

  datatype ConfigError = MustBeAbove(option: string, bound: real)

  /** A float option that, when given, must lie strictly above `above`. */
  function GetFloatAbove(option: string, given: Option<real>, default: real, above: real): Result<real, ConfigError> {
    match given
    case None => Ok(default)
    case Some(v) => if v > above then Ok(v) else Err(MustBeAbove(option, above))
  }

  function ReadTiming(vacuumTimer: Option<real>, pumpOnTime: Option<real>, valveCloseTime: Option<real>,
                      pumpOnAbove: real): Result<Timing, ConfigError>
  {
    match GetFloatAbove("vacuum_timer", vacuumTimer, DefaultVacuumTimer, 0.0)
    case Err(e) => Err(e)
    case Ok(vt) =>
      match GetFloatAbove("pump_on_time", pumpOnTime, DefaultPumpOnTime, pumpOnAbove)
      case Err(e) => Err(e)
      case Ok(pt) =>
        match GetFloatAbove("valve_close_time", valveCloseTime, DefaultValveCloseTime, 0.0)
        case Err(e) => Err(e)
        case Ok(ct) => Ok(Timing(vt, pt, ct))
  }

  /** True when `given` is absent or lies above `bound`. */
  predicate AbsentOrAbove(given: Option<real>, bound: real) {
    given.None? || given.value > bound
  }

  /** The configuration check as the source writes it: each option above zero. */
  function ParseTimingAsWritten(vacuumTimer: Option<real>, pumpOnTime: Option<real>, valveCloseTime: Option<real>)
    : (r: Result<Timing, ConfigError>)
    ensures r.Ok? <==> AbsentOrAbove(vacuumTimer, 0.0) && AbsentOrAbove(pumpOnTime, 0.0) && AbsentOrAbove(valveCloseTime, 0.0)
    ensures r.Ok? ==> r.value.AcceptedAsWritten()
    ensures r.Ok? ==> r.value == Timing(vacuumTimer.GetOr(DefaultVacuumTimer), pumpOnTime.GetOr(DefaultPumpOnTime),
                                        valveCloseTime.GetOr(DefaultValveCloseTime))
    ensures !AbsentOrAbove(vacuumTimer, 0.0) ==> r == Err(MustBeAbove("vacuum_timer", 0.0))
    ensures AbsentOrAbove(vacuumTimer, 0.0) && !AbsentOrAbove(pumpOnTime, 0.0) ==>
              r == Err(MustBeAbove("pump_on_time", 0.0))
    ensures (AbsentOrAbove(vacuumTimer, 0.0) && AbsentOrAbove(pumpOnTime, 0.0)
             && !AbsentOrAbove(valveCloseTime, 0.0)) ==> r == Err(MustBeAbove("valve_close_time", 0.0))
  {
    ReadTiming(vacuumTimer, pumpOnTime, valveCloseTime, 0.0)
  }

  /**
   * The corrected configuration check: the options take their defaults when
   * absent, a given value must lie above its bound, and the first option that
   * does not is the one reported.
   */
  function ParseTiming(vacuumTimer: Option<real>, pumpOnTime: Option<real>, valveCloseTime: Option<real>)
    : (r: Result<Timing, ConfigError>)
    ensures r.Ok? <==> AbsentOrAbove(vacuumTimer, 0.0) && AbsentOrAbove(pumpOnTime, ValveOpenDelay)
                       && AbsentOrAbove(valveCloseTime, 0.0)
    ensures r.Ok? ==> r.value.Valid()
    ensures r.Ok? ==> r.value == Timing(vacuumTimer.GetOr(DefaultVacuumTimer), pumpOnTime.GetOr(DefaultPumpOnTime),
                                        valveCloseTime.GetOr(DefaultValveCloseTime))
    ensures !AbsentOrAbove(vacuumTimer, 0.0) ==> r == Err(MustBeAbove("vacuum_timer", 0.0))
    ensures AbsentOrAbove(vacuumTimer, 0.0) && !AbsentOrAbove(pumpOnTime, ValveOpenDelay) ==>
              r == Err(MustBeAbove("pump_on_time", ValveOpenDelay))
    ensures (AbsentOrAbove(vacuumTimer, 0.0) && AbsentOrAbove(pumpOnTime, ValveOpenDelay)
             && !AbsentOrAbove(valveCloseTime, 0.0)) ==> r == Err(MustBeAbove("valve_close_time", 0.0))
  {
    ReadTiming(vacuumTimer, pumpOnTime, valveCloseTime, ValveOpenDelay)
  }
}
