/**
 * The `BlindVacuum` controller: intent flags, the eight command handlers,
 * the two actuation sequences and the watchdog callback.
 *
 * The toolhead's lookahead queue is the field `lookahead`; the pin writes the
 * three outputs have been sent are the field `writes`; the reactor's view of
 * the controller's watchdog timer is the ghost pair `registeredTimers` (how
 * many timers of this controller the reactor holds) and `timerWake` (when it
 * next fires).
 */
module Vacuum {
  import opened Pins
  import opened Config
  import opened Actuation
  import opened Lookahead

  /** A reactor wake-up time: immediately, at a given time, or never. */
  datatype WakeTime = Now | At(time: real) | Never

  class BlindVacuum {
    const timing: Timing

    var isWatchdogActivate: bool
    var timerRegistered: bool
    var isValveOpen: bool
    var isPumpRunning: bool
    var isForcedVacuum: bool

    /** Callbacks handed to the toolhead and not yet run, in submission order. */
    var lookahead: seq<DeferredAction>
    /** Every `set_digital` issued on the three pins, in issue order. */
    var writes: seq<PinWrite>

    ghost var registeredTimers: nat
    ghost var timerWake: WakeTime

    /**
     * The timing is one the configuration check accepts; the reactor holds
     * exactly one timer of this controller when `timerRegistered`, none
     * otherwise; and a timer is registered only while the watchdog is active.
     */
    ghost predicate Valid()
      reads this
    {
      && timing.AcceptedAsWritten()
      && registeredTimers == (if timerRegistered then 1 else 0)
      && (!timerRegistered ==> timerWake == Never)
      && (timerRegistered ==> isWatchdogActivate)
    }

    /** The four public flags. */
    function Flags(): Intent
      reads this
    {
      Intent(isWatchdogActivate, isValveOpen, isPumpRunning, isForcedVacuum)
    }

    /** `get_status`: exactly the four public flags under their status keys, reading nothing else. */
    function GetStatus(): (status: map<string, bool>)
      reads this
      ensures status.Keys == {"watchdog", "is_valve_open", "is_pump_running", "is_forced_vacuum"}
      ensures status["watchdog"] == isWatchdogActivate && status["is_valve_open"] == isValveOpen
      ensures status["is_pump_running"] == isPumpRunning && status["is_forced_vacuum"] == isForcedVacuum
    {
      map["watchdog" := isWatchdogActivate,
          "is_valve_open" := isValveOpen,
          "is_pump_running" := isPumpRunning,
          "is_forced_vacuum" := isForcedVacuum]
    }

    /** A controller with every flag false, no timer, and nothing queued or written yet. */
    constructor (timing: Timing)
      requires timing.AcceptedAsWritten()
      ensures Valid() && this.timing == timing
      ensures Flags() == Intent(false, false, false, false) && !timerRegistered
      ensures lookahead == [] && writes == []
    {
      this.timing := timing;
      isWatchdogActivate, timerRegistered := false, false;
      isValveOpen, isPumpRunning, isForcedVacuum := false, false, false;
      lookahead, writes := [], [];
      registeredTimers, timerWake := 0, Never;
    }

    /**
     * `ENABLE_VACUUM`: activates the watchdog and, only when no timer is
     * registered, registers one and schedules it to fire at once.
     */
    method CmdEnableVacuum()
      requires Valid()
      modifies this`isWatchdogActivate, this`timerRegistered, this`registeredTimers, this`timerWake
      ensures Valid()
      ensures isWatchdogActivate && timerRegistered && registeredTimers == 1
      ensures registeredTimers == old(registeredTimers) + (if old(timerRegistered) then 0 else 1)
      ensures timerWake == if old(timerRegistered) then old(timerWake) else Now
    {
      isWatchdogActivate := true;
      if !timerRegistered {
        registeredTimers := registeredTimers + 1;
        timerRegistered := true;
        timerWake := Now;
      }
    }

    /** `DISABLE_VACUUM`: deactivates the watchdog and, only when a timer is registered, unregisters it. */
    method CmdDisableVacuum()
      requires Valid()
      modifies this`isWatchdogActivate, this`timerRegistered, this`registeredTimers, this`timerWake
      ensures Valid()
      ensures !isWatchdogActivate && !timerRegistered && registeredTimers == 0 && timerWake == Never
      ensures registeredTimers == old(registeredTimers) - (if old(timerRegistered) then 1 else 0)
    {
      isWatchdogActivate := false;
      if timerRegistered {
        registeredTimers := registeredTimers - 1;
        timerWake := Never;
        timerRegistered := false;
      }
    }

    /** `FORCE_VACUUM_ON`: queues the turn-on sequence, then marks the vacuum as forced. */
    method CmdForceVacuumOn()
      modifies this`lookahead, this`isForcedVacuum
      ensures lookahead == old(lookahead) + Callbacks(ForceVacuumOn, timing)
      ensures isForcedVacuum && Flags() == Issue(ForceVacuumOn, old(Flags()))
    {
      lookahead := lookahead + [DeferredAction.TurnOn];
      isForcedVacuum := true;
    }

    /** `FORCE_VACUUM_OFF`: queues the turn-off sequence, then clears the forced mark. */
    method CmdForceVacuumOff()
      modifies this`lookahead, this`isForcedVacuum
      ensures lookahead == old(lookahead) + Callbacks(ForceVacuumOff, timing)
      ensures !isForcedVacuum && Flags() == Issue(ForceVacuumOff, old(Flags()))
    {
      lookahead := lookahead + [DeferredAction.TurnOff(0.0)];
      isForcedVacuum := false;
    }

    /** `FORCE_PUMP_ON`: queues the pump write at the base time; the pump flag is set at once. */
    method CmdForcePumpOn()
      modifies this`lookahead, this`isPumpRunning
      ensures lookahead == old(lookahead) + Callbacks(ForcePumpOn, timing)
      ensures isPumpRunning && Flags() == Issue(ForcePumpOn, old(Flags()))
    {
      lookahead := lookahead + [SetPin(Pump, 0.0, true)];
      isPumpRunning := true;
    }

    /** `FORCE_PUMP_OFF`: queues the pump release at the base time; the pump flag is cleared at once. */
    method CmdForcePumpOff()
      modifies this`lookahead, this`isPumpRunning
      ensures lookahead == old(lookahead) + Callbacks(ForcePumpOff, timing)
      ensures !isPumpRunning && Flags() == Issue(ForcePumpOff, old(Flags()))
    {
      lookahead := lookahead + [SetPin(Pump, 0.0, false)];
      isPumpRunning := false;
    }

    /**
     * `FORCE_VALVE_OPEN`: queues the valve-open assert one unit after the
     * base, then the valve-close release at the base; the valve flag is set at once.
     */
    method CmdForceValveOpen()
      modifies this`lookahead, this`isValveOpen
      ensures lookahead == old(lookahead) + Callbacks(ForceValveOpen, timing)
      ensures isValveOpen && Flags() == Issue(ForceValveOpen, old(Flags()))
    {
      lookahead := lookahead + [SetPin(ValveOpen, ValveSwitchDelay, true)];
      lookahead := lookahead + [SetPin(ValveClose, 0.0, false)];
      isValveOpen := true;
    }

    /**
     * `FORCE_VALVE_CLOSE`: queues the valve-open release at the base, then
     * the valve-close assert one unit later; the valve flag is cleared at once.
     */
    method CmdForceValveClose()
      modifies this`lookahead, this`isValveOpen
      ensures lookahead == old(lookahead) + Callbacks(ForceValveClose, timing)
      ensures !isValveOpen && Flags() == Issue(ForceValveClose, old(Flags()))
    {
      lookahead := lookahead + [SetPin(ValveOpen, 0.0, false)];
      lookahead := lookahead + [SetPin(ValveClose, ValveSwitchDelay, true)];
      isValveOpen := false;
    }

    /** `set_digital(time, value)` on one pin. */
    method SetDigital(pin: Pin, time: real, high: bool)
      modifies this`writes
      ensures writes == old(writes) + [PinWrite(pin, time, high)]
    {
      writes := writes + [PinWrite(pin, time, high)];
    }

    /** `_turn_on`: the three writes of the turn-on sequence, then the pump and valve flags set. */
    method TurnOn(printTime: real)
      modifies this`writes, this`isPumpRunning, this`isValveOpen
      ensures writes == old(writes) + TurnOnWrites(printTime)
      ensures Flags() == RunFlags(DeferredAction.TurnOn, old(Flags()))
    {
      SetDigital(Pump, printTime, true);
      SetDigital(ValveOpen, printTime + ValveOpenDelay, true);
      SetDigital(ValveClose, printTime, false);
      isPumpRunning := true;
      isValveOpen := true;
    }

    /** `_turn_off`: the three writes of the turn-off sequence, then the pump and valve flags cleared. */
    method TurnOff(printTime: real)
      modifies this`writes, this`isPumpRunning, this`isValveOpen
      ensures writes == old(writes) + TurnOffWrites(printTime, timing.valveCloseTime)
      ensures Flags() == RunFlags(DeferredAction.TurnOff(0.0), old(Flags()))
    {
      SetDigital(Pump, printTime + timing.valveCloseTime, false);
      SetDigital(ValveOpen, printTime, false);
      SetDigital(ValveClose, printTime + ValveSwitchDelay, true);
      isPumpRunning := false;
      isValveOpen := false;
    }

    /** Runs one queued callback with the print time the toolhead hands it. */
    method RunCallback(a: DeferredAction, printTime: real)
      modifies this`writes, this`isPumpRunning, this`isValveOpen
      ensures writes == old(writes) + ActionWrites(a, printTime, timing)
      ensures Flags() == RunFlags(a, old(Flags()))
    {
      match a
      case TurnOn => TurnOn(printTime);
      case TurnOff(offset) => TurnOff(printTime + offset);
      case SetPin(pin, offset, high) => SetDigital(pin, printTime + offset, high);
    }

    /**
     * The toolhead running the queued callbacks in submission order, all with
     * the base time `printTime`, and emptying the queue.
     */
    method FlushLookahead(printTime: real)
      modifies this`lookahead, this`writes, this`isPumpRunning, this`isValveOpen
      ensures lookahead == []
      ensures writes == old(writes) + DispatchWrites(old(lookahead), printTime, timing)
      ensures Flags() == AfterDispatch(old(lookahead), old(Flags()))
    {
      var q := lookahead;
      var i := 0;
      while i < |q|
        invariant 0 <= i <= |q|
        invariant writes == old(writes) + DispatchWrites(q[..i], printTime, timing)
        invariant Flags() == AfterDispatch(q[..i], old(Flags()))
      {
        RunCallback(q[i], printTime);
        assert q[..i + 1][..i] == q[..i];
        i := i + 1;
      }
      assert q[..i] == q;
      lookahead := [];
    }

    /**
     * `check_vacuum_status`, with the reactor storing the returned wake time
     * for the registered timer. Under shutdown nothing is queued and the timer
     * never fires again; an inactive watchdog queues nothing and asks to fire
     * again at `now`; an active one queues one turn-on/turn-off cycle and asks
     * to fire `vacuumTimer` later, strictly after `now`.
     */
    method CheckVacuumStatus(now: real, shutdown: bool) returns (next: WakeTime)
      requires Valid()
      modifies this`lookahead, this`timerWake
      ensures Valid()
      ensures shutdown ==> next == Never && lookahead == old(lookahead)
      ensures !shutdown && !isWatchdogActivate ==> next == At(now) && lookahead == old(lookahead)
      ensures !shutdown && isWatchdogActivate ==>
                next == At(now + timing.vacuumTimer) && lookahead == old(lookahead) + Callbacks(WatchdogCycle, timing)
      ensures next.At? ==> now <= next.time && (isWatchdogActivate ==> now < next.time)
      ensures timerWake == if timerRegistered then next else old(timerWake)
      ensures timerRegistered && !shutdown ==> next == At(now + timing.vacuumTimer)
    {
      if shutdown {
        next := Never;
      } else if isWatchdogActivate {
        lookahead := lookahead + [DeferredAction.TurnOn];
        lookahead := lookahead + [DeferredAction.TurnOff(timing.pumpOnTime)];
        next := At(now + timing.vacuumTimer);
      } else {
        next := At(now);
      }
      if timerRegistered {
        timerWake := next;
      }
    }
  }

  /** Enabling twice leaves the same state as enabling once: one registered timer, and nothing else changed. */
  method EnableTwice(c: BlindVacuum)
    requires c.Valid()
    modifies c`isWatchdogActivate, c`timerRegistered, c`registeredTimers, c`timerWake
    ensures c.Valid() && c.isWatchdogActivate && c.timerRegistered && c.registeredTimers == 1
    ensures c.timerWake == if old(c.timerRegistered) then old(c.timerWake) else Now
    ensures c.Flags() == old(c.Flags()).(watchdog := true)
    ensures c.lookahead == old(c.lookahead) && c.writes == old(c.writes)
  {
    c.CmdEnableVacuum();
    c.CmdEnableVacuum();
  }

  /** Disabling twice leaves the same state as disabling once: no timer, and nothing else changed. */
  method DisableTwice(c: BlindVacuum)
    requires c.Valid()
    modifies c`isWatchdogActivate, c`timerRegistered, c`registeredTimers, c`timerWake
    ensures c.Valid() && !c.timerRegistered && c.registeredTimers == 0 && c.timerWake == Never
    ensures c.Flags() == old(c.Flags()).(watchdog := false)
    ensures c.lookahead == old(c.lookahead) && c.writes == old(c.writes)
  {
    c.CmdDisableVacuum();
    c.CmdDisableVacuum();
  }

  /**
   * Enabling, one firing of the watchdog, then disabling: exactly one cycle
   * is queued, and afterwards no timer is registered and none will fire.
   */
  method EnableFireDisable(c: BlindVacuum, now: real)
    requires c.Valid()
    modifies c`isWatchdogActivate, c`timerRegistered, c`registeredTimers, c`timerWake, c`lookahead
    ensures c.Valid() && !c.timerRegistered && c.registeredTimers == 0 && c.timerWake == Never
    ensures c.lookahead == old(c.lookahead) + Callbacks(WatchdogCycle, c.timing)
    ensures c.Flags() == old(c.Flags()).(watchdog := false) && c.writes == old(c.writes)
  {
    c.CmdEnableVacuum();
    var next := c.CheckVacuumStatus(now, false);
    c.CmdDisableVacuum();
  }
}
