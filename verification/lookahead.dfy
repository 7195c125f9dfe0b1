/**
 * The toolhead's lookahead queue as the controller uses it: every command
 * handler and the watchdog append deferred callbacks, and the queue later
 * runs them in submission order, each with the print time it resolves.
 * Callbacks run together are given one shared base print time.
 */
module Lookahead {
  import opened Pins
  import opened Config
  import opened Actuation

  /**
   * One queued callback: `_turn_on(t)`, `_turn_off(t + offset)`, or a single
   * `set_digital(t + offset, value)` on one pin.
   */
  datatype DeferredAction = TurnOn | TurnOff(offset: real) | SetPin(pin: Pin, offset: real, high: bool)

  /** No callback schedules anything before the base time it is given. */
  predicate NonNegativeOffsets(q: seq<DeferredAction>) {
    forall k :: 0 <= k < |q| ==> q[k].TurnOn? || q[k].offset >= 0.0
  }

  /** The writes one callback issues when run at base time `t`. */
  function ActionWrites(a: DeferredAction, t: real, cfg: Timing): seq<PinWrite> {
    match a
    case TurnOn => TurnOnWrites(t)
    case TurnOff(offset) => TurnOffWrites(t + offset, cfg.valveCloseTime)
    case SetPin(pin, offset, high) => [PinWrite(pin, t + offset, high)]
  }

  /** The writes issued when the queue `q` is run in order at base time `t`. */
  function DispatchWrites(q: seq<DeferredAction>, t: real, cfg: Timing): seq<PinWrite>
    decreases |q|
  {
    if q == [] then []
    else DispatchWrites(q[..|q| - 1], t, cfg) + ActionWrites(q[|q| - 1], t, cfg)
  }

  /**
   * With non-negative offsets and a positive `valveCloseTime`, no write of a
   * dispatched queue is scheduled before the base time.
   */
  lemma {:induction false} DispatchNotBeforeBase(q: seq<DeferredAction>, t: real, cfg: Timing)
    requires cfg.valveCloseTime > 0.0 && NonNegativeOffsets(q)
    ensures forall k :: 0 <= k < |DispatchWrites(q, t, cfg)| ==> t <= DispatchWrites(q, t, cfg)[k].time
    decreases |q|
  {
    if q != [] {
      var init := q[..|q| - 1];
      assert NonNegativeOffsets(init) by {
        forall k | 0 <= k < |init| ensures init[k].TurnOn? || init[k].offset >= 0.0 {
          assert init[k] == q[k];
        }
      }
      DispatchNotBeforeBase(init, t, cfg);
      var a := q[|q| - 1];
      assert a.TurnOn? || a.offset >= 0.0;
      if a.TurnOn? {
        TurnOnSchedule(t);
      } else if a.TurnOff? {
        TurnOffSchedule(t + a.offset, cfg.valveCloseTime);
      }
      var prefix, last := DispatchWrites(init, t, cfg), ActionWrites(a, t, cfg);
      assert forall k :: 0 <= k < |last| ==> t <= last[k].time;
      assert DispatchWrites(q, t, cfg) == prefix + last;
    }
  }

  /** The intent flags of the controller, as `get_status` reports them. */
  datatype Intent = Intent(watchdog: bool, valveOpen: bool, pumpRunning: bool, forcedVacuum: bool)

  /** What one callback does to the flags when it runs: the two sequences set both pump and valve flags. */
  function RunFlags(a: DeferredAction, i: Intent): Intent {
    match a
    case TurnOn => i.(valveOpen := true, pumpRunning := true)
    case TurnOff(_) => i.(valveOpen := false, pumpRunning := false)
    case SetPin(_, _, _) => i
  }

  /** No turn-on or turn-off follows position `k` of `q`. */
  predicate OnlyPinWritesAfter(q: seq<DeferredAction>, k: int) {
    forall m :: 0 <= m < |q| && k < m ==> q[m].SetPin?
  }

  /**
   * The flags after running `q` in order. Only the pump and valve flags can
   * change, and a queue of single pin writes leaves them all alone.
   */
  function AfterDispatch(q: seq<DeferredAction>, i: Intent): (r: Intent)
    ensures r.watchdog == i.watchdog && r.forcedVacuum == i.forcedVacuum
    ensures OnlyPinWritesAfter(q, -1) ==> r == i
    decreases |q|
  {
    if q == [] then i
    else RunFlags(q[|q| - 1], AfterDispatch(q[..|q| - 1], i))
  }

  /** The last turn-on or turn-off in the queue decides both the pump and the valve flag. */
  lemma {:induction false} LastSequenceDecides(q: seq<DeferredAction>, k: nat, i: Intent)
    requires k < |q| && !q[k].SetPin? && OnlyPinWritesAfter(q, k)
    ensures AfterDispatch(q, i).pumpRunning == q[k].TurnOn?
    ensures AfterDispatch(q, i).valveOpen == q[k].TurnOn?
    decreases |q|
  {
    if k < |q| - 1 {
      var init := q[..|q| - 1];
      assert init[k] == q[k];
      assert OnlyPinWritesAfter(init, k) by {
        forall m | k < m < |init| ensures init[m].SetPin? {
          assert init[m] == q[m];
        }
      }
      LastSequenceDecides(init, k, i);
    }
  }

  /** Running `q1` and then `q2` issues the writes of both, in that order. */
  lemma {:induction false} DispatchAppend(q1: seq<DeferredAction>, q2: seq<DeferredAction>, t: real, cfg: Timing)
    ensures DispatchWrites(q1 + q2, t, cfg) == DispatchWrites(q1, t, cfg) + DispatchWrites(q2, t, cfg)
    decreases |q2|
  {
    if q2 == [] {
      assert q1 + q2 == q1;
    } else {
      var init2 := q2[..|q2| - 1];
      DispatchConcatLast(q1, q2, t, cfg);
      DispatchAppend(q1, init2, t, cfg);
      AppendAssociates(DispatchWrites(q1, t, cfg), DispatchWrites(init2, t, cfg), ActionWrites(q2[|q2| - 1], t, cfg));
    }
  }

  /** Running `q1 + q2` issues the writes of `q1 + q2` without its last action, then those of that action. */
  lemma DispatchConcatLast(q1: seq<DeferredAction>, q2: seq<DeferredAction>, t: real, cfg: Timing)
    requires q2 != []
    ensures DispatchWrites(q1 + q2, t, cfg)
         == DispatchWrites(q1 + q2[..|q2| - 1], t, cfg) + ActionWrites(q2[|q2| - 1], t, cfg)
  {
    InitOfConcat(q1, q2);
  }

  /** Concatenation of sequences is associative. */
  lemma AppendAssociates<T>(a: seq<T>, b: seq<T>, c: seq<T>)
    ensures (a + b) + c == a + (b + c)
  {
  }

  /** Dropping the last element of `a + b`, for a non-empty `b`, drops the last element of `b`. */
  lemma InitOfConcat<T>(a: seq<T>, b: seq<T>)
    requires b != []
    ensures (a + b)[..|a + b| - 1] == a + b[..|b| - 1] && (a + b)[|a + b| - 1] == b[|b| - 1]
  {
    assert (a + b)[..|a + b| - 1] == a + b[..|b| - 1];
  }

  /** A queue of one callback issues that callback's writes. */
  lemma DispatchSingle(a: DeferredAction, t: real, cfg: Timing)
    ensures DispatchWrites([a], t, cfg) == ActionWrites(a, t, cfg)
  {
    assert [a][..0] == [];
  }

  /** A queue of two callbacks issues their writes in order. */
  lemma DispatchShort(a: DeferredAction, b: DeferredAction, t: real, cfg: Timing)
    ensures DispatchWrites([a, b], t, cfg) == ActionWrites(a, t, cfg) + ActionWrites(b, t, cfg)
  {
    DispatchSingle(a, t, cfg);
    assert [a, b][..1] == [a];
  }

  /** A request's callbacks, run at base time `t`, issue the writes of its one or two callbacks in order. */
  lemma DispatchCallbacks(r: Request, cfg: Timing, t: real)
    ensures var c := Callbacks(r, cfg);
            1 <= |c| <= 2
            && DispatchWrites(c, t, cfg)
               == if |c| == 1 then ActionWrites(c[0], t, cfg) else ActionWrites(c[0], t, cfg) + ActionWrites(c[1], t, cfg)
  {
    var c := Callbacks(r, cfg);
    if |c| == 2 {
      DispatchShort(c[0], c[1], t, cfg);
      assert c == [c[0], c[1]];
    } else {
      DispatchSingle(c[0], t, cfg);
      assert c == [c[0]];
    }
  }

  /** What queues callbacks: the six force commands and one firing of the watchdog in its active branch. */
  datatype Request =
    | ForceVacuumOn | ForceVacuumOff
    | ForcePumpOn | ForcePumpOff
    | ForceValveOpen | ForceValveClose
    | WatchdogCycle

  /** The callbacks each request appends to the lookahead queue, in the order it appends them. */
  function Callbacks(r: Request, cfg: Timing): seq<DeferredAction> {
    match r
    case ForceVacuumOn => [TurnOn]
    case ForceVacuumOff => [TurnOff(0.0)]
    case ForcePumpOn => [SetPin(Pump, 0.0, true)]
    case ForcePumpOff => [SetPin(Pump, 0.0, false)]
    case ForceValveOpen => [SetPin(ValveOpen, ValveSwitchDelay, true), SetPin(ValveClose, 0.0, false)]
    case ForceValveClose => [SetPin(ValveOpen, 0.0, false), SetPin(ValveClose, ValveSwitchDelay, true)]
    case WatchdogCycle => [TurnOn, TurnOff(cfg.pumpOnTime)]
  }

  /** The flag a command handler sets when the command is issued, before any callback runs. */
  function Issue(r: Request, i: Intent): Intent {
    match r
    case ForceVacuumOn => i.(forcedVacuum := true)
    case ForceVacuumOff => i.(forcedVacuum := false)
    case ForcePumpOn => i.(pumpRunning := true)
    case ForcePumpOff => i.(pumpRunning := false)
    case ForceValveOpen => i.(valveOpen := true)
    case ForceValveClose => i.(valveOpen := false)
    case WatchdogCycle => i
  }

  function Max(a: real, b: real): real {
    if a < b then b else a
  }

  /** How long after its base time the last write of a request comes due. */
  function SettleDelay(r: Request, cfg: Timing): real {
    match r
    case ForceVacuumOn => ValveOpenDelay
    case ForceVacuumOff => Max(cfg.valveCloseTime, ValveSwitchDelay)
    case ForcePumpOn => 0.0
    case ForcePumpOff => 0.0
    case ForceValveOpen => ValveSwitchDelay
    case ForceValveClose => ValveSwitchDelay
    case WatchdogCycle => cfg.pumpOnTime + Max(cfg.valveCloseTime, ValveSwitchDelay)
  }

  /** The output levels a request is meant to leave once all its writes are due. */
  function Intended(r: Request, before: Outputs): Outputs {
    match r
    case ForceVacuumOn => Outputs(true, true, false)
    case ForceVacuumOff => Outputs(false, false, true)
    case ForcePumpOn => before.(pump := true)
    case ForcePumpOff => before.(pump := false)
    case ForceValveOpen => before.(open := true, close := false)
    case ForceValveClose => before.(open := false, close := true)
    case WatchdogCycle => Outputs(false, false, true)
  }

  /**
   * One automatic cycle run at base time `t` issues exactly the turn-on
   * sequence at `t` followed by the turn-off sequence at `t + pumpOnTime`, and
   * leaves the pump and valve flags false.
   */
  lemma CycleShape(cfg: Timing, t: real, i: Intent)
    ensures DispatchWrites(Callbacks(WatchdogCycle, cfg), t, cfg)
         == TurnOnWrites(t) + TurnOffWrites(t + cfg.pumpOnTime, cfg.valveCloseTime)
    ensures AfterDispatch(Callbacks(WatchdogCycle, cfg), i) == i.(pumpRunning := false, valveOpen := false)
  {
    DispatchShort(TurnOn, TurnOff(cfg.pumpOnTime), t, cfg);
    assert [TurnOn, TurnOff(cfg.pumpOnTime)][..1] == [TurnOn];
  }

  /** With the default timing, a cycle at base 100 writes pump 1@100, open 1@102, close 0@100, pump 0@114, open 0@108, close 1@109. */
  lemma DefaultCycleAt100()
    ensures var cfg := Timing(DefaultVacuumTimer, DefaultPumpOnTime, DefaultValveCloseTime);
            (DispatchWrites(Callbacks(WatchdogCycle, cfg), 100.0, cfg)
             == [PinWrite(Pump, 100.0, true), PinWrite(ValveOpen, 102.0, true), PinWrite(ValveClose, 100.0, false),
                 PinWrite(Pump, 114.0, false), PinWrite(ValveOpen, 108.0, false), PinWrite(ValveClose, 109.0, true)])
  {
    var cfg := Timing(DefaultVacuumTimer, DefaultPumpOnTime, DefaultValveCloseTime);
    CycleShape(cfg, 100.0, Intent(false, false, false, false));
  }

  /**
   * The levels of the three outputs at `tau` after one request is run at base
   * time `t`, stated interval by interval: each pin keeps its level `before`
   * until its first write comes due.
   */
  function Timeline(r: Request, cfg: Timing, t: real, tau: real, before: Outputs): Outputs {
    match r
    case ForceVacuumOn =>
      Outputs(if t <= tau then true else before.pump,
              if t + ValveOpenDelay <= tau then true else before.open,
              if t <= tau then false else before.close)
    case ForceVacuumOff =>
      Outputs(if t + cfg.valveCloseTime <= tau then false else before.pump,
              if t <= tau then false else before.open,
              if t + ValveSwitchDelay <= tau then true else before.close)
    case ForcePumpOn => before.(pump := if t <= tau then true else before.pump)
    case ForcePumpOff => before.(pump := if t <= tau then false else before.pump)
    case ForceValveOpen =>
      before.(open := if t + ValveSwitchDelay <= tau then true else before.open,
              close := if t <= tau then false else before.close)
    case ForceValveClose =>
      before.(open := if t <= tau then false else before.open,
              close := if t + ValveSwitchDelay <= tau then true else before.close)
    case WatchdogCycle =>
      var off := t + cfg.pumpOnTime;
      Outputs(if off + cfg.valveCloseTime <= tau then false else if t <= tau then true else before.pump,
              if off <= tau && (tau < t + ValveOpenDelay || t + ValveOpenDelay <= off) then false
              else if t + ValveOpenDelay <= tau then true else before.open,
              if off + ValveSwitchDelay <= tau then true else if t <= tau then false else before.close)
  }

  /** Running a request's callbacks at base `t` leaves, at every instant, the levels its timeline gives. */
  lemma RequestTimeline(r: Request, cfg: Timing, t: real, tau: real, before: Outputs)
    requires r == WatchdogCycle ==> cfg.AcceptedAsWritten()
    ensures OutputsAt(DispatchWrites(Callbacks(r, cfg), t, cfg), tau, before) == Timeline(r, cfg, t, tau, before)
  {
    match r
    case ForceVacuumOn => VacuumCommandTimeline(r, cfg, t, tau, before);
    case ForceVacuumOff => VacuumCommandTimeline(r, cfg, t, tau, before);
    case ForcePumpOn => PumpCommandTimeline(r, cfg, t, tau, before);
    case ForcePumpOff => PumpCommandTimeline(r, cfg, t, tau, before);
    case ForceValveOpen => ValveCommandTimeline(r, cfg, t, tau, before);
    case ForceValveClose => ValveCommandTimeline(r, cfg, t, tau, before);
    case WatchdogCycle => CycleOutputs(cfg, t, tau, before);
  }

  lemma VacuumCommandTimeline(r: Request, cfg: Timing, t: real, tau: real, before: Outputs)
    requires r.ForceVacuumOn? || r.ForceVacuumOff?
    ensures OutputsAt(DispatchWrites(Callbacks(r, cfg), t, cfg), tau, before) == Timeline(r, cfg, t, tau, before)
  {
    var c := Callbacks(r, cfg);
    DispatchSingle(c[0], t, cfg);
    if r.ForceVacuumOn? {
      TurnOnOutputs(t, tau, before);
    } else {
      TurnOffOutputs(t + 0.0, cfg.valveCloseTime, tau, before);
    }
  }

  /** A pump command queues one write of the pump at the base time. */
  lemma PumpCommandWrites(r: Request, cfg: Timing, t: real)
    requires r.ForcePumpOn? || r.ForcePumpOff?
    ensures DispatchWrites(Callbacks(r, cfg), t, cfg) == [PinWrite(Pump, t, r.ForcePumpOn?)]
  {
    DispatchCallbacks(r, cfg, t);
  }

  lemma PumpCommandTimeline(r: Request, cfg: Timing, t: real, tau: real, before: Outputs)
    requires r.ForcePumpOn? || r.ForcePumpOff?
    ensures OutputsAt(DispatchWrites(Callbacks(r, cfg), t, cfg), tau, before) == Timeline(r, cfg, t, tau, before)
  {
    PumpCommandWrites(r, cfg, t);
    LevelOfSoleWrite([PinWrite(Pump, t, r.ForcePumpOn?)], 0, tau, before.pump);
  }

  /**
   * A valve command queues the assert of its direction `ValveSwitchDelay`
   * after the base and the deassert of the opposite direction at the base.
   */
  lemma ValveCommandWrites(r: Request, cfg: Timing, t: real)
    requires r.ForceValveOpen? || r.ForceValveClose?
    ensures var opening := r.ForceValveOpen?;
            DispatchWrites(Callbacks(r, cfg), t, cfg)
            == [PinWrite(ValveOpen, if opening then t + ValveSwitchDelay else t, opening),
                PinWrite(ValveClose, if opening then t else t + ValveSwitchDelay, !opening)]
  {
    DispatchCallbacks(r, cfg, t);
  }

  lemma ValveCommandTimeline(r: Request, cfg: Timing, t: real, tau: real, before: Outputs)
    requires r.ForceValveOpen? || r.ForceValveClose?
    ensures OutputsAt(DispatchWrites(Callbacks(r, cfg), t, cfg), tau, before) == Timeline(r, cfg, t, tau, before)
  {
    ValveCommandWrites(r, cfg, t);
    var opening := r.ForceValveOpen?;
    var ws := [PinWrite(ValveOpen, if opening then t + ValveSwitchDelay else t, opening),
               PinWrite(ValveClose, if opening then t else t + ValveSwitchDelay, !opening)];
    LevelOfSoleWrite(ws, 0, tau, before.open);
    LevelOfSoleWrite(ws, 1, tau, before.close);
  }

  /**
   * The levels over time of one automatic cycle, for every timing the source
   * accepts: the pump runs from the base until `valveCloseTime` after the
   * turn-off, and the valve-close is released at the base and driven again
   * `ValveSwitchDelay` after the turn-off. The valve-open is driven from
   * `ValveOpenDelay` after the base until the turn-off when the turn-off comes
   * later; when it comes earlier, its release is overtaken by the turn-on's
   * assert and the valve-open stays driven.
   */
  lemma CycleOutputs(cfg: Timing, t: real, tau: real, before: Outputs)
    requires cfg.AcceptedAsWritten()
    ensures OutputsAt(DispatchWrites(Callbacks(WatchdogCycle, cfg), t, cfg), tau, before)
            == Timeline(WatchdogCycle, cfg, t, tau, before)
  {
    CycleShape(cfg, t, Intent(false, false, false, false));
    var ws := DispatchWrites(Callbacks(WatchdogCycle, cfg), t, cfg);
    var off := t + cfg.pumpOnTime;
    assert ws[0].time == t && ws[3].time == off + cfg.valveCloseTime;
    LevelOfTwoWrites(ws, 0, 3, tau, before.pump);
    assert ws[1].time == t + ValveOpenDelay && ws[4].time == off;
    LevelOfWritePair(ws, 1, 4, tau, before.open);
    assert ws[2].time == t && ws[5].time == off + ValveSwitchDelay;
    LevelOfTwoWrites(ws, 2, 5, tau, before.close);
  }

  /**
   * Once all of a request's writes are due, the outputs are what the request
   * is meant to leave: the pump and valves it names are in their commanded
   * state and every other pin keeps its level.
   */
  lemma RequestSettles(r: Request, cfg: Timing, t: real, tau: real, before: Outputs)
    requires (r == WatchdogCycle ==> cfg.Valid()) && t + SettleDelay(r, cfg) <= tau
    ensures OutputsAt(DispatchWrites(Callbacks(r, cfg), t, cfg), tau, before) == Intended(r, before)
  {
    RequestTimeline(r, cfg, t, tau, before);
  }

  /**
   * Running any one request never drives both valve directions at any
   * instant, provided they were not both driven before.
   */
  lemma ValvesNeverBothHigh(r: Request, cfg: Timing, t: real, tau: real, before: Outputs)
    requires (r == WatchdogCycle ==> cfg.Valid()) && Exclusive(before)
    ensures Exclusive(OutputsAt(DispatchWrites(Callbacks(r, cfg), t, cfg), tau, before))
  {
    RequestTimeline(r, cfg, t, tau, before);
  }

  /** Every valve assert a request issues is paired with an earlier deassert of the opposite valve. */
  lemma CallbacksPairValveAsserts(r: Request, cfg: Timing, t: real)
    ensures DeassertPrecedesAssert(DispatchWrites(Callbacks(r, cfg), t, cfg))
  {
    match r
    case ForceVacuumOn =>
      DispatchSingle(TurnOn, t, cfg);
      TurnOnSchedule(t);
    case ForceVacuumOff =>
      DispatchSingle(TurnOff(0.0), t, cfg);
      TurnOffSchedule(t + 0.0, cfg.valveCloseTime);
    case ForcePumpOn => PumpCommandWrites(r, cfg, t);
    case ForcePumpOff => PumpCommandWrites(r, cfg, t);
    case ForceValveOpen =>
      ValveCommandWrites(r, cfg, t);
      var ws := [PinWrite(ValveOpen, t + ValveSwitchDelay, true), PinWrite(ValveClose, t, false)];
      assert ws[1].time < ws[0].time;
    case ForceValveClose =>
      ValveCommandWrites(r, cfg, t);
      var ws := [PinWrite(ValveOpen, t, false), PinWrite(ValveClose, t + ValveSwitchDelay, true)];
      assert ws[0].time < ws[1].time;
    case WatchdogCycle => CyclePairsValveAsserts(cfg, t);
  }

  /** In a cycle, the turn-on's release of valve-close and the turn-off's release of valve-open pair its two valve asserts. */
  lemma CyclePairsValveAsserts(cfg: Timing, t: real)
    ensures DeassertPrecedesAssert(DispatchWrites(Callbacks(WatchdogCycle, cfg), t, cfg))
  {
    CycleShape(cfg, t, Intent(false, false, false, false));
    var ws := DispatchWrites(Callbacks(WatchdogCycle, cfg), t, cfg);
    assert ws[2].pin == ValveClose && !ws[2].high && ws[2].time < ws[1].time;
    assert ws[4].pin == ValveOpen && !ws[4].high && ws[4].time < ws[5].time;
  }

  /**
   * The pump and valve flags track the outputs: if they agreed with the
   * outputs before a request, then after the request is issued and its
   * callbacks have run, they agree with the outputs once everything is due.
   */
  lemma FlagsTrackOutputs(r: Request, cfg: Timing, t: real, tau: real, i: Intent, before: Outputs)
    requires (r == WatchdogCycle ==> cfg.Valid()) && t + SettleDelay(r, cfg) <= tau
    requires before.pump == i.pumpRunning && before.open == i.valveOpen
    ensures var after := AfterDispatch(Callbacks(r, cfg), Issue(r, i));
            var o := OutputsAt(DispatchWrites(Callbacks(r, cfg), t, cfg), tau, before);
            o.pump == after.pumpRunning && o.open == after.valveOpen
  {
    RequestSettles(r, cfg, t, tau, before);
    var q := Callbacks(r, cfg);
    if r.ForceVacuumOn? || r.ForceVacuumOff? {
      LastSequenceDecides(q, 0, Issue(r, i));
    } else if r == WatchdogCycle {
      LastSequenceDecides(q, 1, Issue(r, i));
    }
  }

  /**
   * With `pump_on_time` = 1, which the source's configuration check accepts,
   * the turn-off's valve-open deassert (at base + 1) comes due before the
   * turn-on's valve-open assert (at base + 2), and from base + 2 on both valve
   * directions are driven.
   */
  lemma ShortPumpOnTimeOverlap()
    ensures var parsed := ParseTimingAsWritten(Wrappers.None, Wrappers.Some(1.0), Wrappers.None);
            && parsed.Ok? && !parsed.value.Valid()
            && var o := OutputsAt(DispatchWrites(Callbacks(WatchdogCycle, parsed.value), 0.0, parsed.value),
                                  2.0, Outputs(false, false, true));
               o.open && o.close
  {
    var cfg := Timing(DefaultVacuumTimer, 1.0, DefaultValveCloseTime);
    assert ParseTimingAsWritten(Wrappers.None, Wrappers.Some(1.0), Wrappers.None) == Wrappers.Ok(cfg);
    CycleShape(cfg, 0.0, Intent(false, false, false, false));
    var ws := DispatchWrites(Callbacks(WatchdogCycle, cfg), 0.0, cfg);
    LevelOfTwoWrites(ws, 4, 1, 2.0, false);
    LevelOfTwoWrites(ws, 2, 5, 2.0, true);
  }

  /**
   * A valve-open command followed by a valve-close command, run with the same
   * base time, issue the close-side release and the open-side release at the
   * base time and both assertions one time unit later.
   */
  lemma BackToBackValveWrites(cfg: Timing, t: real)
    ensures DispatchWrites(Callbacks(ForceValveOpen, cfg) + Callbacks(ForceValveClose, cfg), t, cfg)
         == [PinWrite(ValveOpen, t + ValveSwitchDelay, true), PinWrite(ValveClose, t, false),
             PinWrite(ValveOpen, t, false), PinWrite(ValveClose, t + ValveSwitchDelay, true)]
  {
    var q1, q2 := Callbacks(ForceValveOpen, cfg), Callbacks(ForceValveClose, cfg);
    DispatchAppend(q1, q2, t, cfg);
    DispatchCallbacks(ForceValveOpen, cfg, t);
    DispatchCallbacks(ForceValveClose, cfg, t);
  }

  /**
   * A valve-open command followed by a valve-close command whose callbacks are
   * run with the same base time drives both valve directions one time unit
   * after that base.
   */
  lemma BackToBackValveCommandsOverlap(cfg: Timing, t: real)
    ensures var ws := DispatchWrites(Callbacks(ForceValveOpen, cfg) + Callbacks(ForceValveClose, cfg), t, cfg);
            var o := OutputsAt(ws, t + ValveSwitchDelay, Outputs(false, false, true));
            o.open && o.close
  {
    BackToBackValveWrites(cfg, t);
    var ws := [PinWrite(ValveOpen, t + ValveSwitchDelay, true), PinWrite(ValveClose, t, false),
               PinWrite(ValveOpen, t, false), PinWrite(ValveClose, t + ValveSwitchDelay, true)];
    LevelOfTwoWrites(ws, 2, 0, t + ValveSwitchDelay, false);
    LevelOfTwoWrites(ws, 1, 3, t + ValveSwitchDelay, true);
  }

  /**
   * With a `pump_on_time` the source accepts but below the valve-open delay,
   * a cycle leaves the valve-open driven from `ValveOpenDelay` after the base
   * on, and from `ValveSwitchDelay` after the turn-off on the valve-close is
   * driven as well.
   */
  lemma ShortPumpOnTimeCycle(cfg: Timing, t: real, tau: real, before: Outputs)
    requires cfg.AcceptedAsWritten() && cfg.pumpOnTime < ValveOpenDelay && t + ValveOpenDelay <= tau
    ensures var o := OutputsAt(DispatchWrites(Callbacks(WatchdogCycle, cfg), t, cfg), tau, before);
            o.open && (t + cfg.pumpOnTime + ValveSwitchDelay <= tau ==> o.close)
  {
    CycleOutputs(cfg, t, tau, before);
  }

  /**
   * A vacuum-on command followed by a vacuum-off command, run with the same
   * base time, issue the turn-on writes and then the turn-off writes at that base.
   */
  lemma VacuumOnOffWrites(cfg: Timing, t: real)
    ensures DispatchWrites(Callbacks(ForceVacuumOn, cfg) + Callbacks(ForceVacuumOff, cfg), t, cfg)
         == [PinWrite(Pump, t, true), PinWrite(ValveOpen, t + ValveOpenDelay, true), PinWrite(ValveClose, t, false),
             PinWrite(Pump, t + cfg.valveCloseTime, false), PinWrite(ValveOpen, t, false),
             PinWrite(ValveClose, t + ValveSwitchDelay, true)]
  {
    var q1, q2 := Callbacks(ForceVacuumOn, cfg), Callbacks(ForceVacuumOff, cfg);
    DispatchAppend(q1, q2, t, cfg);
    DispatchCallbacks(ForceVacuumOn, cfg, t);
    DispatchCallbacks(ForceVacuumOff, cfg, t);
  }

  /**
   * A vacuum-on command followed by a vacuum-off command whose callbacks are
   * run with the same base time drive both valve directions from
   * `ValveOpenDelay` after that base on, whatever the timing: the turn-off's
   * valve-open release at the base is overtaken by the turn-on's assert.
   */
  lemma VacuumOnOffOverlap(cfg: Timing, t: real, tau: real, before: Outputs)
    requires t + ValveOpenDelay <= tau
    ensures var ws := DispatchWrites(Callbacks(ForceVacuumOn, cfg) + Callbacks(ForceVacuumOff, cfg), t, cfg);
            var o := OutputsAt(ws, tau, before);
            o.open && o.close
  {
    VacuumOnOffWrites(cfg, t);
    var ws := [PinWrite(Pump, t, true), PinWrite(ValveOpen, t + ValveOpenDelay, true), PinWrite(ValveClose, t, false),
               PinWrite(Pump, t + cfg.valveCloseTime, false), PinWrite(ValveOpen, t, false),
               PinWrite(ValveClose, t + ValveSwitchDelay, true)];
    LevelOfTwoWrites(ws, 4, 1, tau, before.open);
    LevelOfTwoWrites(ws, 2, 5, tau, before.close);
  }
}
