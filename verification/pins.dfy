/**
 * The three digital outputs of the vacuum system and the writes issued to them.
 *
 * Each `set_digital(time, value)` call on an output pin is a `PinWrite`. The
 * controller never reads a pin back; what the hardware does is modelled by
 * `OutputsAt`: at instant `tau` a pin holds the value of its write with the
 * latest scheduled time not after `tau`, or its earlier level when no write
 * has come due yet.
 */
module Pins {
  import opened Wrappers

  /** `vacuum_pump_pin`, `valve_open_pin` and `valve_close_pin`. */
  datatype Pin = Pump | ValveOpen | ValveClose

  /** One scheduled write; `high` is the value 1, `!high` the value 0. */
  datatype PinWrite = PinWrite(pin: Pin, time: real, high: bool)

  /** The levels of the three outputs at one instant. */
  datatype Outputs = Outputs(pump: bool, open: bool, close: bool)

  /** The two valve directions are never driven at once. */
  predicate Exclusive(o: Outputs) {
    !(o.open && o.close)
  }

  /**
   * Within one batch of writes, every assert of a valve direction is paired
   * with a deassert of the opposite direction scheduled strictly earlier.
   */
  ghost predicate DeassertPrecedesAssert(ws: seq<PinWrite>) {
    && (forall i :: 0 <= i < |ws| && ws[i].pin == ValveOpen && ws[i].high ==>
          exists j :: 0 <= j < |ws| && ws[j].pin == ValveClose && !ws[j].high && ws[j].time < ws[i].time)
    && (forall i :: 0 <= i < |ws| && ws[i].pin == ValveClose && ws[i].high ==>
          exists j :: 0 <= j < |ws| && ws[j].pin == ValveOpen && !ws[j].high && ws[j].time < ws[i].time)
  }

  /** `w` as a candidate for the level of `pin` at `tau`. */
  function Applicable(w: PinWrite, pin: Pin, tau: real): Option<PinWrite> {
    if w.pin == pin && w.time <= tau then Some(w) else None
  }

  /** Of two candidates, the one that takes effect: the later in time, the second on a tie. */
  function Later(a: Option<PinWrite>, b: Option<PinWrite>): Option<PinWrite> {
    if b.Some? && (a.None? || a.value.time <= b.value.time) then b else a
  }

  /**
   * The write that decides the level of `pin` at instant `tau`: among the
   * writes to `pin` already due at `tau`, one with the latest time; `None`
   * exactly when no write to `pin` is due.
   */
  function Effective(ws: seq<PinWrite>, pin: Pin, tau: real): (r: Option<PinWrite>)
    ensures r.Some? ==> r.value in ws && r.value.pin == pin && r.value.time <= tau
    ensures forall k :: 0 <= k < |ws| && ws[k].pin == pin && ws[k].time <= tau ==>
              r.Some? && ws[k].time <= r.value.time
    decreases |ws|
  {
    if ws == [] then None
    else Later(Applicable(ws[0], pin, tau), Effective(ws[1..], pin, tau))
  }

  /** The level of `pin` at `tau`, given its level `before` any of `ws` came due. */
  function Level(ws: seq<PinWrite>, pin: Pin, tau: real, before: bool): bool {
    match Effective(ws, pin, tau)
    case None => before
    case Some(w) => w.high
  }

  /** The levels of all three outputs at `tau`. */
  function OutputsAt(ws: seq<PinWrite>, tau: real, before: Outputs): Outputs {
    Outputs(Level(ws, Pump, tau, before.pump),
            Level(ws, ValveOpen, tau, before.open),
            Level(ws, ValveClose, tau, before.close))
  }

  /** A pin written once takes that write's value from its time on and keeps its level before. */
  lemma LevelOfSoleWrite(ws: seq<PinWrite>, k: nat, tau: real, before: bool)
    requires k < |ws|
    requires forall j :: 0 <= j < |ws| && j != k ==> ws[j].pin != ws[k].pin
    ensures Level(ws, ws[k].pin, tau, before) == if ws[k].time <= tau then ws[k].high else before
  {
    var r := Effective(ws, ws[k].pin, tau);
    if r.Some? {
      var j :| 0 <= j < |ws| && ws[j] == r.value;
      assert j == k;
    }
  }

  /**
   * A pin written twice, at distinct times: before both it keeps its level,
   * between them it holds the earlier write's value, after both the later's,
   * whatever the order in which the two were issued.
   */
  lemma LevelOfTwoWrites(ws: seq<PinWrite>, i: nat, k: nat, tau: real, before: bool)
    requires i < |ws| && k < |ws| && ws[i].pin == ws[k].pin && ws[i].time < ws[k].time
    requires forall j :: 0 <= j < |ws| && j != i && j != k ==> ws[j].pin != ws[k].pin
    ensures Level(ws, ws[k].pin, tau, before)
         == if ws[k].time <= tau then ws[k].high else if ws[i].time <= tau then ws[i].high else before
  {
    var r := Effective(ws, ws[k].pin, tau);
    if r.Some? {
      var j :| 0 <= j < |ws| && ws[j] == r.value;
      assert j == i || j == k;
    }
  }

  /**
   * A pin written twice, by the writes at indices `i < k`, in any time order:
   * once a write is due it competes with the other, the later in time wins
   * and on equal times the one issued second (`k`) wins; before either is due
   * the pin keeps its level.
   */
  lemma {:induction false} LevelOfWritePair(ws: seq<PinWrite>, i: nat, k: nat, tau: real, before: bool)
    requires i < k < |ws| && ws[i].pin == ws[k].pin
    requires forall j :: 0 <= j < |ws| && j != i && j != k ==> ws[j].pin != ws[k].pin
    ensures Level(ws, ws[k].pin, tau, before)
         == if ws[k].time <= tau && (tau < ws[i].time || ws[i].time <= ws[k].time) then ws[k].high
            else if ws[i].time <= tau then ws[i].high
            else before
    decreases |ws|
  {
    var pin, rest := ws[k].pin, ws[1..];
    assert forall j :: 0 <= j < |rest| ==> rest[j] == ws[j + 1];
    if i > 0 {
      LevelOfWritePair(rest, i - 1, k - 1, tau, before);
      assert Effective(ws, pin, tau) == Effective(rest, pin, tau);
    } else {
      var r := Effective(rest, pin, tau);
      if r.Some? {
        var j :| 0 <= j < |rest| && rest[j] == r.value;
        assert j == k - 1;
      }
      assert r == if ws[k].time <= tau then Some(ws[k]) else None;
    }
  }
}
