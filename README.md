# TumanakoInverter supervisory logic in Dafny

This project models the vehicle-control layer of the Tumanako electric-vehicle
controller: the `TumanakoInverter` class in `src/tumanako_inverter.cpp` and the
inline predicates and the `MotorParamTest_T` enum in `src/STM32_interface.hpp`.
The build configuration is fixed to TUMANAKO_WS28, with FLUX_MIN 8000 and
DEFAULT_FLUX = FLUX_MAX 14000.

The project has two layers:

- **Pure layer (`InverterLogic`).** Each part of one pass of the main loop of
  `doIt` is a pure function over a snapshot of the member variables (`Vars`).
  The parts are: flash, the pedal reading, the throttle and direction checks,
  the torque shaping, `stateMachineDo` with its pre-switch fault checks and its
  IDLE / READY / RUN / ERROR cases, and the RUN re-check. `Cycle` is one whole
  pass. `Cycles` is any number of passes.
- **Object layer (`Inverter.TumanakoInverter`).** A class whose fields are the
  member variables. Its methods update those fields statement by statement, as
  the C++ does. Each method is proved to produce exactly what the matching
  pure function says.

The calls the controller makes into the motor-control interface (contactors,
LEDs, `setFlux`, `setTorque`, `motorInit`, `motorStart`, `shutdownPower`,
`systemReset`, ...) are recorded in order as `Output` values.

The hardware readings of one pass are an `Inputs` record. The vehicle constants
that live in headers not part of this model are fields of
`VehicleConfiguration.Config`. Its compile-time switches (TUMANAKO_PRECHARGE_TEST,
TUMANAKO_THREE_RELAY, SPEED_BASED_TORQUE_LIMIT, DC_BUS_CURRENT_BASED_TORQUE_LIMIT)
are booleans. The floating-point scalings and `Digital::eu` are uninterpreted
function fields.

The precharge sequence `doPrecharge` is modelled twice: as a function over the
bus voltage as a function of elapsed milliseconds, and as a method with its two
loops proved against that function.

Proved properties (module `InverterProperties` unless noted):

- ERROR always ends in the halt loop, and nothing leads out of it.
- Faults found before the switch halt the controller in the same pass.
- `motorStart` is called only from READY, and only with every start interlock
  met.
- RUN is entered only that way.
- `turnOff` happens only on two ignition-off reads in a row.
- `motorInit` is called only after a successful precharge, which left the
  contactors in the run configuration.
- The throttle fault trips exactly on the seventh consecutive out-of-range
  reading, and the direction fault exactly on the fourth, counted over any
  sequence of passes.
- The stall detector trips exactly on the 6000th consecutive stall reading
  in RUN, counted from entering RUN, and forces ERROR with no torque.
- The invariant `Inv` holds in the initial state and after every pass:
  - the run LED flashes exactly in READY;
  - the fault counters are below their limits outside ERROR, and there is
    no stall count before RUN;
  - the flux command stays within FLUX_MIN..FLUX_MAX;
  - the smoothed torque request fits a `short`.

All source paths below are relative to the repository root.

## Code and design notes

Where the code and its own comments differ, the model follows the code.
- The throttle check trips when a counter exceeds THROTTLE_ERROR_COUNT (6), so on the seventh consecutive bad reading, not the sixth (`src/tumanako_inverter.cpp:432-447`); the direction check trips on the fourth (`:143-144`).
- There is no latched fault code, no emergency-stop check, no rate limiting of the accelerator signal and no reset out of ERROR: ERROR shuts down and loops for ever (`:828-860`).
- `busVoltageOK` returns true on both branches (`:338-346`), so the RUN bus-voltage re-check never fires; only the contactor re-check can force ERROR there (`:602-626`).
- A fault found outside the ERROR case is acted on by the next `switch`; the pass that finds a throttle or direction fault has already issued `setFlux`/`setTorque`. After a throttle trip zeroes `mAcceleratorRef` (`:435-445`), the shaping steps of the same pass keep it at zero except for brake regeneration (`:488-495`), which can make it negative; `setTorque` is given the smoothed request (`:559-561`, `:596`), which moves only 1% of the way toward the new request.
- In READY, a start refused for a fault leaves through `break` and so skips the update of `mOldStart` (`:758-791`).
- `mPrevAccRef` is written and never read (`:598`).
- READY's throttle-released interlock (`:775`) compares the request after this pass's shaping, which has already set it to zero for neutral (`:455-459`), and neutral is itself a start condition. So without brake regeneration and with ZERO_THROTTLE_TORQUE not negative the interlock never fires, whatever the pedal reads (`InverterProperties.NeutralStartSeesReleasedThrottle`).
- The stall detector counts passes of the state machine, compares with `>=` and trips on the 6000th stall reading in a row; unlike the throttle and direction checks it has no separate constant (`:811-821`).

## Model

| member | source | states |
|---|---|---|
| CInt.TruncDiv | src/tumanako_inverter.cpp:561 | C division by a positive divisor: magnitude rounded down, sign of the dividend |
| CInt.ToShort | src/tumanako_inverter.cpp:561 | a store into a `short` wraps modulo 2^16 and keeps in-range values |
| CInt.ToLong | src/tumanako_inverter.cpp:283-290 | a `long` result wraps modulo 2^32 and keeps in-range values |
| Stm32Interface.Code | src/STM32_interface.hpp:57 | the enum value of each MotorParamTest_T constant lies in 0..4 and is 0 only for OK |
| Stm32Interface.Classify | src/STM32_interface.hpp:57 | a test code names a classification exactly when it lies in 0..4, and that classification has that code |
| Stm32Interface.ClassifyCode | src/STM32_interface.hpp:57 | classifying the code of a classification gives it back |
| Stm32Interface.OnlyOkIsNoFault | src/tumanako_inverter.cpp:634-635 | a test result counts as a fault exactly when it is not OK |
| Stm32Interface.InRunStateConfiguration | src/STM32_interface.hpp:184-190 | the contactors are in the run configuration exactly when K1 is open and K2, K3 closed |
| Stm32Interface.K1ClosedIsNeverRunConfiguration | src/STM32_interface.hpp:184-190 | with the precharge contactor K1 closed the run configuration is never reported |
| Stm32Interface.Neutral | src/STM32_interface.hpp:116-119 | neutral exactly when neither FWD nor REV is selected |
| Stm32Interface.NeutralExcludesEverySelection | src/tumanako_inverter.cpp:137-140 | a FWD, REV or both-selected reading is never neutral, so getDirection's branches are disjoint |
| VehicleConfiguration.RetardCountLimit | src/tumanako_inverter.cpp:68 | RETARD_COUNT_LIMIT is non-negative for a valid configuration |
| Precharge.DoPrecharge | src/tumanako_inverter.cpp:156-249 | the two timed loops compute exactly the precharge function: the same result and the same calls |
| Precharge.Phase1 | src/tumanako_inverter.cpp:204-216 | phase 1 succeeds no earlier than TUMANAKO_MIN_PRECHARGE_TIME, and fails only on a reading taken before it |
| Precharge.Phase2 | src/tumanako_inverter.cpp:219-230 | phase 2 succeeds only on a reading at or above TUMANAKO_PRECHARGE_V, at or after its start, and fails only with the first reading below it |
| Precharge.Precharge | src/tumanako_inverter.cpp:156-249 | only the red LED, the contactors and shutdownPower are driven; every failure ends with shutdownPower; success never shuts down and means all contactors read open at the start, K2 open and K3 closed after precharge-on (K1 closed too with three relays), and the run configuration at the end |
| Precharge.Phase1PassesIffAllRising | src/tumanako_inverter.cpp:204-216 | phase 1 passes exactly when every sample until TUMANAKO_MIN_PRECHARGE_TIME rose or was above TUMANAKO_PRECHARGE_V |
| Precharge.Phase2Outcome | src/tumanako_inverter.cpp:219-230 | phase 2 fails only past TUMANAKO_MAX_PRECHARGE_TIME, with a reading still below TUMANAKO_PRECHARGE_V taken then |
| Precharge.PrechargeOkJustified | src/tumanako_inverter.cpp:204-249 | a successful precharge saw rising voltage through phase 1, reached TUMANAKO_PRECHARGE_V no earlier than the minimum time, and ended in the run configuration |
| InverterLogic.GetPhaseC | src/tumanako_inverter.cpp:283-290 | the three phase currents sum to zero (modulo 2^32 when the negation overflows) |
| InverterLogic.ConvertToDegrees | src/tumanako_inverter.cpp:293-295 | the angle in degrees lies in -180..179, keeps the sign, is zero exactly for -182..182 and is -180 at the most negative input |
| InverterLogic.BusVoltageOK | src/tumanako_inverter.cpp:338-346 | always reports the bus voltage as OK |
| InverterLogic.Flash | src/tumanako_inverter.cpp:253-267 | the LED phase toggles and the timer restarts exactly after more than 125 ms; the run LED is written only while flashing and always with the old phase, so writes alternate; nothing else changes |
| InverterLogic.ThrottleCheck | src/tumanako_inverter.cpp:430-447 | ERROR exactly on a trip (more than THROTTLE_ERROR_COUNT high or low readings in a row) or when already in ERROR; a trip zeroes the request; only the counters, the state and the request change |
| InverterLogic.DirectionCheck | src/tumanako_inverter.cpp:137-151 | ERROR and the error LED exactly on a trip (more than DIRECTION_ERROR_COUNT both-selected readings in a row); a consistent reading clears the counter; only the counter and the state change |
| InverterLogic.DecodeDirection | src/tumanako_inverter.cpp:137-151 | FWD exactly when only FWD is selected, REV exactly when only REV, neutral otherwise |
| InverterLogic.ApplyDirection | src/tumanako_inverter.cpp:453-460 | neutral removes the request; FWD and REV keep its magnitude, REV with the opposite sign |
| InverterLogic.RegenCutoff | src/tumanako_inverter.cpp:462-481 | the request is kept or replaced by ZERO_THROTTLE_TORQUE, and replaced exactly for regen against the direction of travel below GLIDE_RPM and at or below START_REGEN_RAMP_RPM (in magnitude); neutral is untouched |
| InverterLogic.BrakeRegen | src/tumanako_inverter.cpp:486-499 | without brake and regen enable, or when over voltage or regen current, the request is unchanged; otherwise it is reduced by BRAKE_TORQUE_REDUCTION, floored at TORQUE_MIN less that reduction, and zero below GLIDE_RPM |
| InverterLogic.DeadSpot | src/tumanako_inverter.cpp:501-505 | requests smaller in magnitude than ACCEL_DEAD_SPOT become zero, all others pass unchanged |
| InverterLogic.Crawl | src/tumanako_inverter.cpp:507-512 | crawl halves the magnitude (rounding toward zero) and keeps the sign, and gives zero above TUMANAKO_CRAWL_RPM_LIMIT; no crawl leaves the request alone |
| InverterLogic.TemperatureLimit | src/tumanako_inverter.cpp:516-531 | the hotter of motor and power stage decides: at or below the start limit unchanged, at or above the end limit zero, between them the derating; the result never exceeds the request in magnitude and keeps its sign |
| InverterLogic.RetardUpdate | src/tumanako_inverter.cpp:533-553 | above the bus-current start limit the retard is at most RETARD_COUNT_LIMIT (equal from the end limit on); otherwise it decays by one toward zero; it never rises above RETARD_COUNT_LIMIT once within it |
| InverterLogic.ExpSmooth | src/tumanako_inverter.cpp:484 | the 99:1 average lies between the previous value and the new sample |
| InverterLogic.SmoothTorque | src/tumanako_inverter.cpp:559-561 | for `short` operands the stored smoothed request is the 99:1 average |
| InverterLogic.SelectFlux | src/tumanako_inverter.cpp:566-592 | the flux is the magnitude of the smoothed request clamped to FLUX_MIN..FLUX_MAX |
| InverterLogic.SpeedBasedLimit | src/tumanako_inverter.cpp:413-421 | the curve strictly between the two speed limits, TUMANAKO_SPEED_BASED_TORQUE_LIMIT_MAX from the upper limit on, the minimum at or below the lower one |
| InverterLogic.ReadPedal | src/tumanako_inverter.cpp:410-428 | the RPM and its magnitude are stored, the limit is recomputed only in SPEED_BASED_TORQUE_LIMIT builds, the request is the pedal curve reduced by retard plus limit; nothing else changes |
| InverterLogic.TorqueRequest | src/tumanako_inverter.cpp:453-531 | no torque at or above TUMANAKO_MOTOR_TEMP_LIMIT_END, nor in crawl mode above TUMANAKO_CRAWL_RPM_LIMIT |
| InverterLogic.ShapeTorque | src/tumanako_inverter.cpp:453-596 | the stored request is the shaped one but setTorque gets the smoothed one, which lies between the previous command and the new request; the bus-current average lies between the old average and the reading; flux within FLUX_MIN..FLUX_MAX; only the six shaping variables change |
| InverterLogic.PreSwitchState | src/tumanako_inverter.cpp:633-675 | the state becomes ERROR exactly when it was ERROR, or a test result other than OK and UNDERVOLTAGE, a watchdog timeout or an over-temperature motor is seen; otherwise it is unchanged |
| InverterLogic.TurnOff | src/tumanako_inverter.cpp:329-335 | the power stage is shut down first and systemReset is the last call, with the run LED turned off; the variables return to their initial values (IDLE, not flashing) |
| InverterLogic.IdleCase | src/tumanako_inverter.cpp:702-729 | with the ignition off nothing happens; with it on, READY with motorInit and a flashing run LED exactly when the precharge succeeds (or is not built in), ERROR otherwise; only the state, the flashing and the start memory change |
| InverterLogic.ReadyCase | src/tumanako_inverter.cpp:752-792 | two ignition-off reads turn off; RUN exactly with start held two passes, neutral, no undervoltage and the throttle released, and then motorStart and a steady run LED; a held start that fails an interlock is ERROR; motorStart exactly on entering RUN |
| InverterLogic.RunCase | src/tumanako_inverter.cpp:802-824 | the speed test comes first; two ignition-off reads turn off; otherwise the stall count takes one step on the reading, ERROR exactly when it reaches STALL_COUNT (or already in ERROR), and a trip zeroes the request |
| InverterLogic.Switch | src/tumanako_inverter.cpp:678-869 | the halt loop is entered exactly in ERROR with its three calls; RUN is reached only from READY or RUN; motorStart only from READY into RUN |
| InverterLogic.StateMachine | src/tumanako_inverter.cpp:632-869 | a fatal test result, a watchdog timeout or an over-temperature motor enters the halt loop in the same call |
| InverterLogic.ReadyCaseFrame | src/tumanako_inverter.cpp:752-792 | short of turning off, READY changes only the ignition and start memories, the state and the run-LED phase |
| InverterLogic.RunCaseFrame | src/tumanako_inverter.cpp:802-824 | short of turning off, RUN changes only the ignition memory, the stall count, the state and the torque request |
| InverterLogic.RunStateCheck | src/tumanako_inverter.cpp:602-626 | outside RUN nothing changes; in RUN only the state may change, to ERROR exactly when the precharge test is built in and the contactors left the run configuration |
| InverterLogic.Cycle | src/tumanako_inverter.cpp:393-626 | once the halt loop is entered a pass changes nothing and calls nothing |
| InverterLogic.Cycles | src/tumanako_inverter.cpp:393-627 | once the halt loop is entered no number of passes changes anything or calls anything |
| FaultCounters.CountAfterIsTrailingRun | src/tumanako_inverter.cpp:432-447 | a consecutive-fault counter equals the run of bad readings at the end, plus its start value when every reading was bad |
| FaultCounters.FaultCounterExceeds | src/tumanako_inverter.cpp:432-447 | a counter started at zero exceeds k exactly when the last k + 1 readings were all bad |
| FaultCounters.NextReadingExceeds | src/tumanako_inverter.cpp:432-447 | the step on one more reading exceeds k exactly when that reading and the k before it were bad |
| FaultCounters.NextReadingReaches | src/tumanako_inverter.cpp:811-821 | the step on one more reading reaches n exactly when that reading and the n - 1 before it were bad |
| Inverter.TumanakoInverter.constructor | src/tumanako_inverter.cpp:112-134 | the member variables take the constructor's initial values and no call has been made |
| Inverter.TumanakoInverter.Restart | src/tumanako_inverter.cpp:112-134 | every member variable returns to its initial value |
| Inverter.TumanakoInverter.ResetModes | src/tumanako_inverter.cpp:123-127 | IDLE, ignition memory on, start memory off, run LED not flashing |
| Inverter.TumanakoInverter.ResetFaultCounters | src/tumanako_inverter.cpp:130-133 | all four fault counters are zero |
| Inverter.TumanakoInverter.ResetTorqueRequest | src/tumanako_inverter.cpp:117-120 | the torque request, its smoothed value, the retard count and the speed-based limit are zero |
| Inverter.TumanakoInverter.ResetMeasurements | src/tumanako_inverter.cpp:114-122 | RPM, bus current average and motor temperature are zero and the flux is DEFAULT_FLUX |
| Inverter.TumanakoInverter.Flash | src/tumanako_inverter.cpp:253-267 | the object's variables and calls are those of the flash function |
| Inverter.TumanakoInverter.GetDirection | src/tumanako_inverter.cpp:137-151 | returns the decoded direction and updates the direction counter, the state and the error LED as the direction check says |
| Inverter.TumanakoInverter.DoPrecharge | src/tumanako_inverter.cpp:156-249 | returns the precharge result and makes exactly its calls |
| Inverter.TumanakoInverter.TurnOff | src/tumanako_inverter.cpp:329-335 | shutdownPower, run LED off, systemReset, and the variables return to the constructor's values |
| Inverter.TumanakoInverter.StateMachineDo | src/tumanako_inverter.cpp:632-869 | the object's variables and calls are those of the state-machine function |
| Inverter.TumanakoInverter.SwitchOnState | src/tumanako_inverter.cpp:678-869 | the switch on the state does what its function says |
| Inverter.TumanakoInverter.CheckMotorLimits | src/tumanako_inverter.cpp:633-675 | the state after the fault checks is the pre-switch state |
| Inverter.TumanakoInverter.DoIdle | src/tumanako_inverter.cpp:702-729 | IDLE does what its function says |
| Inverter.TumanakoInverter.PowerUp | src/tumanako_inverter.cpp:703-728 | with the ignition on: both LEDs lit, precharge, then READY with motorInit or ERROR |
| Inverter.TumanakoInverter.DoReady | src/tumanako_inverter.cpp:752-792 | READY does what its function says |
| Inverter.TumanakoInverter.ReadyToStart | src/tumanako_inverter.cpp:755-791 | the start debounce and interlocks update the ignition and start memories, the state and the run LED as READY's function says |
| Inverter.TumanakoInverter.DoRun | src/tumanako_inverter.cpp:802-824 | RUN does what its function says |
| Inverter.TumanakoInverter.TestForSpeedError | src/tumanako_inverter.cpp:802 | records the motorTestForSpeedError call |
| Inverter.TumanakoInverter.StallCheck | src/tumanako_inverter.cpp:808-822 | the ignition memory and the stall detector update as RUN's function says |
| Inverter.TumanakoInverter.DoError | src/tumanako_inverter.cpp:828-860 | shutdownPower, run LED off, error LED on, and the halt loop is entered |
| Inverter.TumanakoInverter.Pass | src/tumanako_inverter.cpp:393-626 | one pass of the main loop updates the variables and makes the calls that the pass function says |
| Inverter.TumanakoInverter.ReadAcceleratorStep | src/tumanako_inverter.cpp:410-428 | RPM, speed-based limit and torque request are read as the pedal function says; nothing is called |
| Inverter.TumanakoInverter.ReadAccelerator | src/tumanako_inverter.cpp:410-428 | the five variables the pedal reading writes take its values |
| Inverter.TumanakoInverter.ThrottleLimitsStep | src/tumanako_inverter.cpp:430-447 | the throttle check updates the variables as its function says |
| Inverter.TumanakoInverter.CheckThrottleLimits | src/tumanako_inverter.cpp:430-447 | the two counters, the state and the torque request take the throttle check's values |
| Inverter.TumanakoInverter.ShapeTorqueStep | src/tumanako_inverter.cpp:453-596 | the torque shaping updates the variables and issues setFlux and setTorque as its function says |
| Inverter.TumanakoInverter.ShapeTorqueRequest | src/tumanako_inverter.cpp:453-596 | the six variables the shaping writes take its values and setFlux, setTorque are called |
| Inverter.TumanakoInverter.LimitedTorqueRequest | src/tumanako_inverter.cpp:453-531 | the request after direction, regen rules, dead spot, crawl and temperature limit |
| Inverter.TumanakoInverter.RegenTorqueRequest | src/tumanako_inverter.cpp:453-499 | the request after the direction sign and both regenerative braking rules |
| Inverter.TumanakoInverter.LimitTorqueRequest | src/tumanako_inverter.cpp:501-531 | the request after dead spot, crawl and temperature limit |
| Inverter.TumanakoInverter.BusCurrentRetard | src/tumanako_inverter.cpp:533-553 | the new retard count is the retard update |
| Inverter.TumanakoInverter.FluxFor | src/tumanako_inverter.cpp:566-592 | the flux command is the clamped magnitude |
| Inverter.TumanakoInverter.CheckRunState | src/tumanako_inverter.cpp:602-626 | the RUN re-check updates the state as its function says |
| Inverter.TumanakoInverter.DoIt | src/tumanako_inverter.cpp:367-628 | start-up calls, then the passes; the variables and calls are those of the passes, and the invariant holds afterwards if it held before |
| InverterProperties.FlashFrame | src/tumanako_inverter.cpp:253-267 | flash changes only the LED phase and makes only routine calls |
| InverterProperties.PedalAndThrottleFrame | src/tumanako_inverter.cpp:410-447 | pedal reading and throttle check can only force ERROR and leave the modes alone |
| InverterProperties.DirectionFrame | src/tumanako_inverter.cpp:137-151 | the direction check can only force ERROR, leaves the modes alone and can only light the error LED |
| InverterProperties.ShapeTorqueFrame | src/tumanako_inverter.cpp:453-596 | the shaping keeps the state and modes, records this pass's motor temperature and only issues setFlux and setTorque |
| InverterProperties.ReadAndShapeFrame | src/tumanako_inverter.cpp:409-596 | ahead of stateMachineDo the state can only become ERROR, the modes are untouched and only routine calls are made |
| InverterProperties.ErrorHalts | src/tumanako_inverter.cpp:828-860 | a pass that starts in ERROR halts, ending with shutdownPower, run LED off, error LED on |
| InverterProperties.ErrorIsAbsorbing | src/tumanako_inverter.cpp:828-860 | no sequence of passes leaves ERROR, and any pass halts |
| InverterProperties.FaultsHaltInSamePass | src/tumanako_inverter.cpp:633-675 | a fatal test result, a watchdog timeout or an over-temperature motor halts the controller in the same pass |
| InverterProperties.RunEntry | src/tumanako_inverter.cpp:758-791 | the state machine enters RUN exactly from READY with no pre-switch fault, the ignition remembered or on, start held two passes, neutral, no undervoltage and the throttle released; it then calls motorStart and lights the run LED steadily |
| InverterProperties.MotorStartOnlyOnRunEntry | src/tumanako_inverter.cpp:782 | motorStart is called only on the READY to RUN transition |
| InverterProperties.TurnOffOnTwoOffReads | src/tumanako_inverter.cpp:752-754 | systemReset happens exactly in READY or RUN with no pre-switch fault and the ignition off on this and the previous read, and restarts from the initial values after shutdownPower |
| InverterProperties.PowerUpNeedsPrecharge | src/tumanako_inverter.cpp:703-728 | IDLE enters READY (with motorInit and the run LED flashing) exactly with the ignition on and a successful precharge, and ERROR exactly with the ignition on and a failed one |
| InverterProperties.MotorStartOnlyWhenSafe | src/tumanako_inverter.cpp:758-782 | a pass calls motorStart only from READY with no fault, the ignition remembered or on, start held two passes, neutral, no undervoltage and the shaped request at most ZERO_THROTTLE_TORQUE |
| InverterProperties.RunOnlyFromReady | src/tumanako_inverter.cpp:758-782 | a pass that ends in RUN without starting there came from READY with the same interlocks met, throttle included, and called motorStart |
| InverterProperties.TurnOffNeedsTwoOffReads | src/tumanako_inverter.cpp:752-754 | a pass turns the controller off only in READY or RUN after two ignition-off reads, and it restarts from its initial values |
| InverterProperties.MotorInitOnlyAfterPrecharge | src/tumanako_inverter.cpp:703-728 | a pass calls motorInit only in IDLE with the ignition on after a successful precharge that left the run configuration, and ends in READY flashing |
| InverterProperties.MotorInitOnlyFromIdle | src/tumanako_inverter.cpp:702-729 | the state machine calls motorInit only in IDLE with no pre-switch fault and the ignition on |
| InverterProperties.PedalAndThrottleCounters | src/tumanako_inverter.cpp:430-447 | the throttle counters take one step on the raw reading, and a trip forces ERROR |
| InverterProperties.DirectionCounters | src/tumanako_inverter.cpp:137-151 | the direction counter takes one step on a both-selected reading, and a trip forces ERROR |
| InverterProperties.ReadAndShapeCounters | src/tumanako_inverter.cpp:409-596 | ahead of the state machine the three counters take one step each and a trip of either check is ERROR |
| InverterProperties.StateMachineKeepsCounters | src/tumanako_inverter.cpp:632-869 | short of turning off, the state machine leaves the throttle and direction counters alone |
| InverterProperties.SwitchKeepsCounters | src/tumanako_inverter.cpp:678-869 | short of turning off, no case of the switch changes the throttle and direction counters |
| InverterProperties.IdleKeepsCounters | src/tumanako_inverter.cpp:702-729 | IDLE never changes the throttle and direction counters |
| InverterProperties.CycleCounters | src/tumanako_inverter.cpp:393-626 | in a pass that does not turn off, each counter takes one step on that pass's reading |
| InverterProperties.ShapedErrorHalts | src/tumanako_inverter.cpp:599 | an ERROR found ahead of stateMachineDo halts the controller in that pass |
| InverterProperties.InputFaultsHaltInSamePass | src/tumanako_inverter.cpp:430-451 | a throttle or direction trip halts the controller in the same pass |
| InverterProperties.CountersOverPasses | src/tumanako_inverter.cpp:430-451 | over passes that do not turn off or halt, each counter is the consecutive-fault count of its readings |
| InverterProperties.ThrottleFaultOnSeventhReading | src/tumanako_inverter.cpp:430-447 | from power-up, the throttle check trips exactly when the last seven raw readings were all above THROTTLE_POT_MAX or all below THROTTLE_POT_MIN |
| InverterProperties.DirectionFaultOnFourthReading | src/tumanako_inverter.cpp:143-148 | from power-up, the direction check trips exactly when both FWD and REV were selected on the last four passes |
| InverterProperties.RunPassStallCount | src/tumanako_inverter.cpp:802-821 | a pass that starts and ends in RUN takes the stall count one step on its torque and RPM reading |
| InverterProperties.RunPassOutcome | src/tumanako_inverter.cpp:796-824 | a pass that starts in RUN ends in RUN or ERROR, or turns the controller off |
| InverterProperties.StallCountOverRunPasses | src/tumanako_inverter.cpp:811-821 | over passes that stay in RUN the stall count is the consecutive count of stall readings |
| InverterProperties.StallTripForcesError | src/tumanako_inverter.cpp:811-821 | a stall trip forces ERROR in that pass, and zeroes the request when nothing else was found |
| InverterProperties.RunEntryClearsStallCount | src/tumanako_inverter.cpp:758-792 | RUN is entered with a stall count of zero |
| InverterProperties.StallFaultOnSixThousandthReading | src/tumanako_inverter.cpp:811-821 | from a RUN state with no stall count, the detector of the next pass trips exactly when the last 6000 readings were all stalls |
| InverterProperties.InitialInvariant | src/tumanako_inverter.cpp:112-134 | the constructor's values satisfy the invariant |
| InverterProperties.PedalAndThrottleInvariant | src/tumanako_inverter.cpp:410-447 | the pedal reading and throttle check keep the invariant |
| InverterProperties.DirectionInvariant | src/tumanako_inverter.cpp:137-151 | the direction check keeps the invariant |
| InverterProperties.ShapeTorqueInvariant | src/tumanako_inverter.cpp:453-596 | the shaping keeps the flux, the smoothed request and the retard within bounds |
| InverterProperties.ReadAndShapeInvariant | src/tumanako_inverter.cpp:409-596 | the stages ahead of stateMachineDo keep the invariant |
| InverterProperties.IdleInvariant | src/tumanako_inverter.cpp:702-729 | IDLE keeps the invariant |
| InverterProperties.ReadyInvariant | src/tumanako_inverter.cpp:752-792 | READY keeps the invariant |
| InverterProperties.RunInvariant | src/tumanako_inverter.cpp:802-824 | RUN keeps the invariant |
| InverterProperties.StateMachineInvariant | src/tumanako_inverter.cpp:632-869 | stateMachineDo keeps the invariant |
| InverterProperties.CycleKeepsInvariant | src/tumanako_inverter.cpp:393-626 | every pass keeps the invariant: halt only in ERROR, run LED flashing exactly in READY, no stall count before RUN, counters below their limits outside ERROR, flux within FLUX_MIN..FLUX_MAX, the smoothed request a `short`, the retard at most RETARD_COUNT_LIMIT |
| InverterProperties.CyclesKeepInvariant | src/tumanako_inverter.cpp:393-627 | any sequence of passes keeps the invariant |
| InverterProperties.NeutralRequestsNoTorque | src/tumanako_inverter.cpp:455-531 | with neutral selected and no brake regeneration no torque is requested, at any temperature |
| InverterProperties.NeutralStartSeesReleasedThrottle | src/tumanako_inverter.cpp:758-779 | with neutral, no brake regeneration and ZERO_THROTTLE_TORQUE not negative, the throttle-released interlock holds whatever the pedal reads |
| InverterProperties.SmoothingDecays | src/tumanako_inverter.cpp:561 | smoothing toward a zero request strictly shrinks any non-zero value and keeps its sign |
| InverterProperties.ConvertToDegreesMonotone | src/tumanako_inverter.cpp:293-295 | convertToDegrees is monotone |

## Left out

- Serial output (`usartWriteChars`, `printFormat`), `dashboard` and the loop timer: logging only, no effect on control.
- `delay`, `init`'s power-stage delay and `mSTM32.wait`: timing only. In doPrecharge, time advances by one iteration wait per loop pass, and the time the reads and logging take is not modelled.
- `enableWatchdog`, RESET_WATCHDOG and the watchdog interrupt: register writes with no logical effect here; the watchdog-timeout flag is an input.
- The red/blue LED flashing inside the ERROR halt loop: the halt is modelled as a final state in which nothing else changes.
- The TUMANAKO_TEST, TUMANAKO_PETER_UTE, TUMANAKO_SHIRE, TUMANAKO_RUN_TIMER and TUMANAKO_RPM_BASED_FLUX variants: the model fixes the WS28 road configuration.
- InverterLogic.TemperatureLimit: the floating-point derating and its `short` cast are an uninterpreted function of the configuration; a valid configuration only promises that, strictly between the two limits, it keeps the sign of the request and does not enlarge it (TUMANAKO_MOTOR_TEMP_LIMIT_RANGE is taken to be the width of the band).
- InverterLogic.RetardUpdate: the floating-point retard scaling is an uninterpreted function of the configuration.
- InverterLogic.ReadPedal: `Digital::eu` scalings (throttle and speed-based limit) are uninterpreted functions of the configuration.
- InverterLogic.ApplyDirection, InverterLogic.BrakeRegen, InverterLogic.TemperatureLimit: the 16-bit wrap of the stores into the `short` torque request `mAcceleratorRef` (`:456`, `:491`, `:527`) is not modelled; only the smoothed torque request is stored through a `short` (`SmoothTorque`).
- Precharge.DoPrecharge: the bus voltages are `unsigned short` in the source and unbounded integers here.
- InverterLogic.TurnOff: after `systemReset` the model goes on from the constructor's values and does not repeat the start-up calls of `doIt` (`init`'s LED writes and the run LED, `:353-354`, `:370`).
- InverterLogic.GetPhaseC: when `c1 + c2` or its negation leaves the 32-bit `long` range (`:287`) C leaves the result undefined; the model wraps it modulo 2^32, so the zero-sum property holds there only modulo 2^32.
- Hardware reads: each read site gives one value per pass (the ignition, start and direction switches are read once per pass).
- `mPrevAccRef`, `mLoopTime`, `mTorqueLimitOccured`, `mDirection`, `mAcceleratorMIN/MAX`: written but never read by the control logic.
- `getEmergencyStop`: declared in the interface but never called by this class.
