/**
 * The two actuation sequences, `_turn_on` and `_turn_off`, as the lists of
 * pin writes they issue from a base print time, in issue order.
 */
module Actuation {
  import opened Pins
  import opened Config

  /** `_turn_on(t)`: pump on at `t`, valve-open asserted `ValveOpenDelay` later, valve-close deasserted at `t`. */
  function TurnOnWrites(t: real): seq<PinWrite> {
    [PinWrite(Pump, t, true), PinWrite(ValveOpen, t + ValveOpenDelay, true), PinWrite(ValveClose, t, false)]
  }

  /**
   * In the turn-on sequence nothing is scheduled before the base time, and
   * the valve-close deassert is strictly earlier than the valve-open assert.
   */
  lemma TurnOnSchedule(t: real)
    ensures forall k :: 0 <= k < |TurnOnWrites(t)| ==> t <= TurnOnWrites(t)[k].time
    ensures DeassertPrecedesAssert(TurnOnWrites(t))
  {
    var ws := TurnOnWrites(t);
    assert ws[2].pin == ValveClose && !ws[2].high && ws[2].time < ws[1].time;
  }

  /**
   * `_turn_off(t)`: pump off `valveCloseTime` after `t`, valve-open deasserted
   * at `t`, valve-close asserted `ValveSwitchDelay` later.
   */
  function TurnOffWrites(t: real, valveCloseTime: real): seq<PinWrite> {
    [PinWrite(Pump, t + valveCloseTime, false), PinWrite(ValveOpen, t, false),
     PinWrite(ValveClose, t + ValveSwitchDelay, true)]
  }

  /**
   * In the turn-off sequence the valve-open deassert is strictly earlier than
   * the valve-close assert; with a positive `valveCloseTime` nothing is
   * scheduled before the base time and the pump stops strictly after it.
   */
  lemma TurnOffSchedule(t: real, valveCloseTime: real)
    ensures DeassertPrecedesAssert(TurnOffWrites(t, valveCloseTime))
    ensures valveCloseTime > 0.0 ==>
              forall k :: 0 <= k < |TurnOffWrites(t, valveCloseTime)| ==> t <= TurnOffWrites(t, valveCloseTime)[k].time
    ensures valveCloseTime > 0.0 ==>
              forall k :: 0 <= k < |TurnOffWrites(t, valveCloseTime)| && TurnOffWrites(t, valveCloseTime)[k].pin == Pump
                ==> t < TurnOffWrites(t, valveCloseTime)[k].time
  {
    var ws := TurnOffWrites(t, valveCloseTime);
    assert ws[1].pin == ValveOpen && !ws[1].high && ws[1].time < ws[2].time;
  }

  /**
   * The levels the turn-on sequence leaves: from `t` the pump runs and the
   * valve-close is released, from `t + ValveOpenDelay` the valve-open is
   * driven; before those instants each pin keeps its earlier level.
   */
  lemma TurnOnOutputs(t: real, tau: real, before: Outputs)
    ensures OutputsAt(TurnOnWrites(t), tau, before)
         == Outputs(if t <= tau then true else before.pump,
                    if t + ValveOpenDelay <= tau then true else before.open,
                    if t <= tau then false else before.close)
  {
    var ws := TurnOnWrites(t);
    LevelOfSoleWrite(ws, 0, tau, before.pump);
    LevelOfSoleWrite(ws, 1, tau, before.open);
    LevelOfSoleWrite(ws, 2, tau, before.close);
  }

  /**
   * The levels the turn-off sequence leaves: from `t` the valve-open is
   * released, from `t + ValveSwitchDelay` the valve-close is driven, and from
   * `t + valveCloseTime` the pump is off.
   */
  lemma TurnOffOutputs(t: real, valveCloseTime: real, tau: real, before: Outputs)
    ensures OutputsAt(TurnOffWrites(t, valveCloseTime), tau, before)
         == Outputs(if t + valveCloseTime <= tau then false else before.pump,
                    if t <= tau then false else before.open,
                    if t + ValveSwitchDelay <= tau then true else before.close)
  {
    var ws := TurnOffWrites(t, valveCloseTime);
    LevelOfSoleWrite(ws, 0, tau, before.pump);
    LevelOfSoleWrite(ws, 1, tau, before.open);
    LevelOfSoleWrite(ws, 2, tau, before.close);
  }
}
