# Blind vacuum controller — a Dafny model

This project models the `BlindVacuum` controller of `klippy/extras/blind_vacuum.py`, a Klipper extra that drives a vacuum pump and a motorised valve through three digital outputs: `vacuum_pump_pin`, `valve_open_pin` and `valve_close_pin`.

The controller keeps five intent flags:

- `is_watchdog_activate`
- `timer_registered`
- `is_valve_open`
- `is_pump_running`
- `is_forced_vacuum`

It has eight G-code handlers. `ENABLE_VACUUM` and `DISABLE_VACUUM` set the watchdog flag and register or unregister a reactor timer; they queue nothing. The six `FORCE_*` handlers set a flag and hand deferred callbacks to the toolhead's lookahead queue. Each callback is one of two actuation sequences (`_turn_on`, `_turn_off`) or a single timed pin write. A reactor timer runs `check_vacuum_status` periodically. While the watchdog is active, each firing queues one turn-on/turn-off cycle.

Files (one module each):

- `wrappers.dfy` (`Wrappers`): Option and Result.
- `pins.dfy` (`Pins`): the pins, the writes issued to them (`PinWrite`), and the level semantics of the outputs (`Effective`, `Level`, `OutputsAt`).
- `config.dfy` (`Config`): the three timing options, their defaults (600, 8, 6) and their configuration check.
- `actuation.dfy` (`Actuation`): `_turn_on` and `_turn_off` as lists of writes, and the output levels they leave.
- `lookahead.dfy` (`Lookahead`): deferred callbacks, what each command or watchdog firing queues, and how a queue is replayed. It also holds the lemmas relating flags, writes and output levels.
- `blind_vacuum.dfy` (`Vacuum`): the class `BlindVacuum`. It has the flags as fields, the handlers and sequences as methods, the toolhead flush as a loop over the queue, and the watchdog callback. Three client methods replay the enable/disable scenarios.

Modelling choices:

- Times are `real`. The source only adds constant offsets to float times, so exact arithmetic is faithful.
- A pin value of 1 is `high == true`.
- The toolhead's lookahead queue is the field `lookahead`. Flushing it (`FlushLookahead`) runs every queued callback in submission order, and callbacks flushed together share one base print time.
- The writes sent to the pins are the field `writes`.
- The reactor is modelled by two ghost fields:
  - `registeredTimers`: how many of the controller's timers it holds.
  - `timerWake`: when that timer next fires.

  `check_vacuum_status` stores its returned wake time there, as the reactor does with a timer callback's result.
- `printer.is_shutdown()` and `reactor.monotonic()` become the parameters `shutdown` and `now`.
- Output levels assume that a pin holds, at instant `tau`, the value of its write with the latest scheduled time not after `tau`, and its earlier level before any write comes due. This is the model's reading of a timed digital output.

Valve exclusivity holds per request: with the timing the class accepts, no single force command drives both valve directions (`ValvesNeverBothHigh`), and neither does a watchdog cycle when `pump_on_time` exceeds the valve-open delay. Two requests whose callbacks share one print time can overlap:

- a valve-open command followed by a valve-close command drives both directions one unit after the base (`BackToBackValveCommandsOverlap`);
- a vacuum-on command followed by a vacuum-off command drives both directions from two units after the base on, whatever the timing (`VacuumOnOffOverlap`). The turn-off releases valve-open at the base, before the turn-on asserts it at base+2.

The class accepts every timing the source's configuration check accepts (`Timing.AcceptedAsWritten`). The stricter bound `Timing.Valid` is needed only by the properties of the watchdog cycle that fail below it.

## Model

| member | source | states |
|---|---|---|
| Config.ParseTimingAsWritten | klippy/extras/blind_vacuum.py:17-19 | the source's check: accepted exactly when every given value is above zero; absent options take 600, 8 and 6 and given ones are kept; the first option at or below zero is the one reported; an accepted timing has all three values positive |
| Config.ParseTiming | klippy/extras/blind_vacuum.py:17-19 | corrected check: absent options take 600, 8 and 6. The result is accepted exactly when `vacuum_timer` and `valve_close_time` are above 0 and `pump_on_time` is above 2; the first failing option is the one reported; accepted values satisfy `Timing.Valid` |
| Pins.Effective | klippy/extras/blind_vacuum.py:125-134 | the write deciding a pin's level at an instant is a write to that pin already due, with the latest time among those due; there is none exactly when no write to the pin is due |
| Actuation.TurnOnSchedule | klippy/extras/blind_vacuum.py:124-127 | the turn-on writes schedule nothing before the base time, and the valve-close deassert comes strictly before the valve-open assert |
| Actuation.TurnOnOutputs | klippy/extras/blind_vacuum.py:124-127 | after `_turn_on(t)` the pump runs from t, valve-close is released from t, and valve-open is driven from t+2; before that each pin keeps its level |
| Actuation.TurnOffSchedule | klippy/extras/blind_vacuum.py:131-134 | the valve-open deassert comes strictly before the valve-close assert; with a positive `valve_close_time`, nothing is scheduled before the base and the pump stops strictly after it |
| Actuation.TurnOffOutputs | klippy/extras/blind_vacuum.py:131-134 | after `_turn_off(t)`, valve-open is released from t, valve-close is driven from t+1, and the pump stops at t+`valve_close_time` |
| Lookahead.DispatchNotBeforeBase | klippy/extras/blind_vacuum.py:92-120 | with non-negative offsets and a positive `valve_close_time`, no callback run at a base time writes anything before it |
| Lookahead.AfterDispatch | klippy/extras/blind_vacuum.py:128-136 | running callbacks changes only the pump and valve flags; a queue of single pin writes changes no flag |
| Lookahead.LastSequenceDecides | klippy/extras/blind_vacuum.py:128-136 | after a queue runs, the pump and valve flags both equal "the last sequence callback was a turn-on" |
| Lookahead.DispatchAppend | klippy/extras/blind_vacuum.py:113-114 | callbacks run in submission order: running two queues in succession issues their writes in that order |
| Lookahead.CycleShape | klippy/extras/blind_vacuum.py:146-147 | one watchdog cycle at base t is exactly the turn-on at t followed by the turn-off at t+`pump_on_time`, and it leaves both flags false |
| Lookahead.DefaultCycleAt100 | klippy/extras/blind_vacuum.py:17-19 | with the default timing, a cycle at base 100 writes pump 1@100, open 1@102, close 0@100, pump 0@114, open 0@108, close 1@109 |
| Lookahead.PumpCommandWrites | klippy/extras/blind_vacuum.py:100-108 | a force-pump command's callback writes only the pump, once, at the base time, with the commanded value |
| Lookahead.ValveCommandWrites | klippy/extras/blind_vacuum.py:111-121 | a force-valve command's callbacks assert the commanded direction one unit after the base and release the opposite direction at the base |
| Lookahead.RequestTimeline | klippy/extras/blind_vacuum.py:90-147 | the level of each output over time after each force command (for any timing) or watchdog cycle (for any timing the source accepts) is run at a base time |
| Lookahead.VacuumCommandTimeline | klippy/extras/blind_vacuum.py:90-98 | the levels over time after a force-vacuum command are those of its one turn-on or turn-off |
| Lookahead.PumpCommandTimeline | klippy/extras/blind_vacuum.py:100-108 | after a force-pump command only the pump changes, to the commanded value from the base on |
| Lookahead.ValveCommandTimeline | klippy/extras/blind_vacuum.py:111-121 | after a force-valve command the opposite direction is released from the base and the commanded one driven from base+1; the pump keeps its level |
| Lookahead.CycleOutputs | klippy/extras/blind_vacuum.py:144-147 | for every timing the source accepts: the pump runs from t until `valve_close_time` after the turn-off; valve-close is released at t and driven again one unit after the turn-off; valve-open is driven from t+2 until the turn-off when the turn-off comes after t+2, and from t+2 on without end when it comes earlier |
| Lookahead.RequestSettles | klippy/extras/blind_vacuum.py:90-147 | once a request's writes are all due, the outputs are what it commands (for the watchdog cycle, with the corrected timing, `pump_on_time` > 2). Vacuum on means pump and open driven, close released; vacuum off and the cycle mean everything released except close. The force pump and force valve commands change only their own pins |
| Lookahead.ValvesNeverBothHigh | klippy/extras/blind_vacuum.py:111-147 | no single force command, for any timing, and no watchdog cycle with the corrected timing (`pump_on_time` > 2) drives both valve directions at any instant, given they were not both driven before |
| Lookahead.CallbacksPairValveAsserts | klippy/extras/blind_vacuum.py:111-121 | every valve assert a request issues has a strictly earlier deassert of the opposite valve in the same request |
| Lookahead.CyclePairsValveAsserts | klippy/extras/blind_vacuum.py:144-147 | in a watchdog cycle, each valve assert has a strictly earlier deassert of the opposite valve |
| Lookahead.FlagsTrackOutputs | klippy/extras/blind_vacuum.py:100-147 | if the pump and valve flags matched the outputs before a request, they match the settled outputs after the request and its callbacks (for the watchdog cycle, with the corrected timing, `pump_on_time` > 2) |
| Lookahead.ShortPumpOnTimeOverlap | klippy/extras/blind_vacuum.py:18 | `pump_on_time` = 1 passes the source's check, and the watchdog cycle then drives both valve directions at base+2 |
| Lookahead.ShortPumpOnTimeCycle | klippy/extras/blind_vacuum.py:18 | for every accepted `pump_on_time` below 2, a watchdog cycle drives valve-open from t+2 on, and valve-close too from one unit after the turn-off on |
| Lookahead.VacuumOnOffWrites | klippy/extras/blind_vacuum.py:90-98 | a vacuum-on command followed by a vacuum-off command, run at one base time, issue the turn-on writes and then the turn-off writes at that base |
| Lookahead.VacuumOnOffOverlap | klippy/extras/blind_vacuum.py:90-98 | a vacuum-on command followed by a vacuum-off command, run at one base time, drive both valve directions from two units after the base on, for any timing |
| Lookahead.BackToBackValveWrites | klippy/extras/blind_vacuum.py:111-121 | a valve-open command followed by a valve-close command, run at one base time, issue open=1 at base+1, close=0 at base, open=0 at base, close=1 at base+1, in that order |
| Lookahead.BackToBackValveCommandsOverlap | klippy/extras/blind_vacuum.py:111-121 | a valve-open command followed by a valve-close command, run at one base time, drives both valve directions one unit later |
| Vacuum.BlindVacuum.GetStatus | klippy/extras/blind_vacuum.py:154-160 | the status is exactly the four keys `watchdog`, `is_valve_open`, `is_pump_running` and `is_forced_vacuum`, mapped to the four flags; it reads state and changes none |
| Vacuum.BlindVacuum.constructor | klippy/extras/blind_vacuum.py:17-25 | for any timing the configuration check accepts: all flags start false with no timer registered, and nothing queued or written |
| Vacuum.BlindVacuum.CmdEnableVacuum | klippy/extras/blind_vacuum.py:78-83 | sets the watchdog active. It registers a timer (scheduled to fire now) only when none was registered; afterwards exactly one is registered. Nothing else changes |
| Vacuum.BlindVacuum.CmdDisableVacuum | klippy/extras/blind_vacuum.py:84-88 | clears the watchdog flag and unregisters the timer only when one was registered; afterwards none is registered. Nothing else changes |
| Vacuum.BlindVacuum.CmdForceVacuumOn | klippy/extras/blind_vacuum.py:90-93 | appends the turn-on callback and sets only `is_forced_vacuum` |
| Vacuum.BlindVacuum.CmdForceVacuumOff | klippy/extras/blind_vacuum.py:95-98 | appends the turn-off callback at offset 0 and clears only `is_forced_vacuum` |
| Vacuum.BlindVacuum.CmdForcePumpOn | klippy/extras/blind_vacuum.py:100-103 | appends pump=1 at the base and sets only `is_pump_running`, at command time |
| Vacuum.BlindVacuum.CmdForcePumpOff | klippy/extras/blind_vacuum.py:105-108 | appends pump=0 at the base and clears only `is_pump_running`, at command time |
| Vacuum.BlindVacuum.CmdForceValveOpen | klippy/extras/blind_vacuum.py:111-115 | appends open=1 at base+1 and then close=0 at the base, and sets only `is_valve_open` |
| Vacuum.BlindVacuum.CmdForceValveClose | klippy/extras/blind_vacuum.py:117-121 | appends open=0 at the base and then close=1 at base+1, and clears only `is_valve_open` |
| Vacuum.BlindVacuum.TurnOn | klippy/extras/blind_vacuum.py:124-129 | issues the three turn-on writes in source order, then sets the pump and valve flags; nothing else changes |
| Vacuum.BlindVacuum.TurnOff | klippy/extras/blind_vacuum.py:131-136 | issues the three turn-off writes in source order, then clears the pump and valve flags; nothing else changes |
| Vacuum.BlindVacuum.FlushLookahead | klippy/extras/blind_vacuum.py:92-120 | running the queued callbacks in order appends exactly the replayed writes, updates the flags as the callbacks do, and empties the queue |
| Vacuum.BlindVacuum.CheckVacuumStatus | klippy/extras/blind_vacuum.py:141-152 | on shutdown: returns never and queues nothing. Inactive: queues nothing and returns now. Active: queues one turn-on/turn-off cycle and returns now+`vacuum_timer`, strictly after now. Since a timer is registered only while the watchdog is active (class invariant), a registered timer never takes the return-now branch |
| Vacuum.EnableTwice | klippy/extras/blind_vacuum.py:78-83 | enabling twice leaves the state of enabling once: watchdog active, exactly one registered timer, the wake kept if one was registered and now otherwise, and the other flags, queue and writes unchanged |
| Vacuum.DisableTwice | klippy/extras/blind_vacuum.py:84-88 | disabling twice leaves the state of disabling once: watchdog inactive, no registered timer and no wake, and the other flags, queue and writes unchanged |
| Vacuum.EnableFireDisable | klippy/extras/blind_vacuum.py:78-152 | enable, one watchdog firing, disable: exactly one cycle is queued, afterwards no timer is registered or scheduled, and the other flags and the writes are unchanged |

## Findings

| source | as written | input that shows it | evidently intended | confidence | as-written member | corrected member |
|---|---|---|---|---|---|---|
| klippy/extras/blind_vacuum.py:18 | `pump_on_time` only has to be above 0. The watchdog cycle asserts valve_open at base+2 (line 126) but releases it at base+`pump_on_time` (lines 133, 147) | `pump_on_time` = 1, base 0. valve_open is released at 1 and asserted at 2, and valve_close is asserted at 2. From 2 on both valve directions are driven and the valve is never closed | `pump_on_time` must exceed the 2-unit valve-open delay, so that the turn-off comes after the turn-on has opened the valve | medium; not executed | Lookahead.ShortPumpOnTimeOverlap and Lookahead.ShortPumpOnTimeCycle (with Config.ParseTimingAsWritten) | Config.ParseTiming (intended property: Lookahead.ValvesNeverBothHigh) |

## Left out

- Pin setup: `setup_pin`, `setup_max_duration`, `setup_start_value` (lines 36-48), and the `value`/`shutdown_value` start levels (lines 31-34). This is MCU configuration, not sequencing.
- G-code command registration and help strings (lines 51-76). They are registration glue; each handler is modelled as a method.
- `maximum_mcu_duration` and `resend_interval` (lines 26-30), and the constants `PIN_MIN_TIME`, `RESEND_HOST_TIME`, `MAX_SCHEDULE_TIME` (lines 5-7). The cycle logic never uses them.
- `setup_callback` (lines 138-139) is never called. The imports (lines 1-3) play no role.
- The `eventtime` arguments of `check_vacuum_status` and `get_status`. The source ignores them; the current time is `reactor.monotonic()`, passed as `now`.
- How the toolhead resolves print times. The model assumes that callbacks flushed together share one base time.
- How the reactor dispatches timers. Only its registration count and the stored wake time are modelled.
- Parsing of option text, and unparsable values. `ParseTiming` starts from already-parsed numbers.
- Float rounding of times. Times are exact reals.
- What the MCU does with writes to one pin that arrive out of time order. The level semantics (latest due write wins) is an assumption of the model.
- Config.ParseTiming: stricter than the source on purpose (see Findings). The class accepts the source's own bound, which `ParseTimingAsWritten` models; only the cycle clauses of `RequestSettles`, `ValvesNeverBothHigh` and `FlagsTrackOutputs` need the corrected one, because they are false below it.
- At `pump_on_time` = 2 exactly, the cycle's valve-open release and assert fall on the same instant. The model lets the write issued later win; what the hardware does then is not modelled, and the corrected bound excludes the case.
