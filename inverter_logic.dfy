/** The vehicle-control logic of TumanakoInverter as functions of a snapshot of
    its variables: one pass of the main loop of doIt takes the variables and the
    readings of that pass to the new variables and the interface calls made, in
    order. The class in inverter.dfy runs the same steps statement by statement
    and is proved to agree with these functions. */
module InverterLogic {
  import opened CInt
  import opened Stm32Interface
  import opened VehicleConfiguration
  import Precharge

  /** RunState_T */
  datatype RunState = Idle | Ready | Run | Error

  /** Direction_T */
  datatype Direction = Fwd | Rev | Net

  /** Everything one pass of the loop reads from the hardware. A source line
      that reads the same input twice in one pass sees the same value. */
  datatype Inputs = Inputs(
    flashElapsed: int,          // mLastFlashTimer.getElapsed()
    rpm: int,                   // getRPM()
    rawAccel: int,              // readADC(ACCEL_AI)
    fwd: bool,                  // getFWD()
    rev: bool,                  // getREV()
    busCurrent: int,            // getInstantaniousCurrent()
    rawScaledBusVolt: int,      // getRawScaledBusVolt()
    brakeOn: bool,              // getBrakeOn()
    enableRegen: bool,          // getEnableRegen()
    crawl: bool,                // getCrawl()
    motorTemperature: int,      // motorTemperature()
    powerStageTemperature: int, // powerStageTemperature()
    motorParam: int,            // testVariousMotorParam()
    watchdogTimeout: bool,      // getWatchdogTimout()
    ign: bool,                  // getIGN()
    start: bool,                // getStart() (the filtered start button)
    torque: int,                // getTorque()
    contactors: Contactors,     // getK1(), getK2(), getK3() after the state machine
    precharge: Precharge.Readings)

  /** The member variables of TumanakoInverter that the loop updates, plus the
      `static bool led_on` of flash() and whether the ERROR halt loop has been
      entered. */
  datatype Vars = Vars(
    state: RunState,
    oldIgn: bool,
    oldStart: bool,
    flashRunLed: bool,
    ledOn: bool,
    motorStallError: int,
    directionError: int,
    countMinThrottleError: int,
    countMaxThrottleError: int,
    rawAcceleratorRef: int,
    acceleratorRef: int,
    acceleratorRefSmooth: int,
    accelRetardCount: int,
    speedBasedTorqueLimit: int,
    busCurrentAvg: int,
    flux: int,
    motorRpm: int,
    absoluteMotorRpm: int,
    motorTemp: int,
    halted: bool)

  /** New variables and the interface calls made on the way, in order. */
  datatype Step = Step(v: Vars, out: seq<Output>)

  /** The constructor's initial values. */
  function Initial(): Vars
  {
    Vars(Idle, true, false, false, false, 0, 0, 0, 0, 0, 0, 0, 0, 0, 0, DEFAULT_FLUX, 0, 0, 0, false)
  }

  // ---------------------------------------------------------------------------
  // Small pure helpers

  /** getPhaseC: the third phase current from the other two (the currents of a
      three-phase motor sum to zero), in 32-bit `long` arithmetic. */
  function GetPhaseC(a: int, b: int): (c: int)
    requires IsLong(a) && IsLong(b)
    ensures IsLong(c)
    ensures IsLong(-(a + b)) ==> a + b + c == 0
    ensures (a + b + c) % 0x1_0000_0000 == 0
  {
    ToLong(-(a + b))
  }

  /** convertToDegrees: a 16-bit angle (full scale = half a turn) in degrees,
      rounded toward zero. */
  function ConvertToDegrees(digitalAngle: int): (deg: int)
    requires IsShort(digitalAngle)
    ensures -180 <= deg <= 179
    ensures digitalAngle >= 0 ==> deg >= 0
    ensures digitalAngle <= 0 ==> deg <= 0
    ensures deg == 0 <==> -182 <= digitalAngle <= 182
    ensures digitalAngle == SHORT_MIN ==> deg == -180
  {
    ToShort(TruncDiv(digitalAngle * 180, 32768))
  }

  /** busVoltageOK: both branches of its range test return true, so it never
      reports a bad bus voltage. */
  function BusVoltageOK(cfg: Config, busVolt: int): (ok: bool)
    ensures ok
  {
    if busVolt >= cfg.prechargeV && busVolt <= cfg.maxBusV then true else true
  }

  // ---------------------------------------------------------------------------
  // flash

  /** flash toggles led_on exactly when more than FLASH_HALF_PERIOD_MS have
      elapsed and then restarts the timer; it writes the run LED only while
      the LED is meant to flash, and always the value led_on had, so
      successive writes alternate. Nothing else changes. */
  function Flash(v: Vars, elapsed: int): (f: Step)
    ensures f.v == v.(ledOn := f.v.ledOn)
    ensures f.v.ledOn != v.ledOn <==> elapsed > FLASH_HALF_PERIOD_MS
    ensures ResetFlashTimer in f.out <==> elapsed > FLASH_HALF_PERIOD_MS
    ensures forall b :: SetRunLed(b) in f.out ==> v.flashRunLed && b == v.ledOn && f.v.ledOn == !b
    ensures v.flashRunLed && elapsed > FLASH_HALF_PERIOD_MS ==> SetRunLed(v.ledOn) in f.out
  {
    if elapsed > FLASH_HALF_PERIOD_MS then
      var led := if v.flashRunLed then [SetRunLed(v.ledOn)] else [];
      Step(v.(ledOn := !v.ledOn), led + [ResetFlashTimer])
    else Step(v, [])
  }

  // ---------------------------------------------------------------------------
  // Input validation

  /** One update of a consecutive-fault counter: one more on a bad reading,
      back to zero on a good one. */
  function CountStep(count: int, bad: bool): int
  {
    if bad then count + 1 else 0
  }

  /** The throttle check trips: more than THROTTLE_ERROR_COUNT raw readings
      in a row above THROTTLE_POT_MAX, or below THROTTLE_POT_MIN, counting
      the reading `raw`. */
  predicate ThrottleTrips(cfg: Config, v: Vars, raw: int)
  {
    CountStep(v.countMaxThrottleError, raw > cfg.throttlePotMax) > THROTTLE_ERROR_COUNT
    || CountStep(v.countMinThrottleError, raw < cfg.throttlePotMin) > THROTTLE_ERROR_COUNT
  }

  /** The throttle wiring check: a raw reading above THROTTLE_POT_MAX (below
      THROTTLE_POT_MIN) counts; more than THROTTLE_ERROR_COUNT in a row forces
      ERROR and a zero torque request. It forces ERROR exactly when it trips
      (or the state already was ERROR), and changes nothing but the two
      counters, the state and the request. */
  function ThrottleCheck(cfg: Config, v: Vars, raw: int): (w: Vars)
    ensures w == v.(countMaxThrottleError := w.countMaxThrottleError, countMinThrottleError := w.countMinThrottleError,
                    state := w.state, acceleratorRef := w.acceleratorRef)
    ensures w.state == Error <==> v.state == Error || ThrottleTrips(cfg, v, raw)
    ensures ThrottleTrips(cfg, v, raw) ==> w.acceleratorRef == 0
    ensures !ThrottleTrips(cfg, v, raw) ==> w.state == v.state && w.acceleratorRef == v.acceleratorRef
  {
    var high := CountStep(v.countMaxThrottleError, raw > cfg.throttlePotMax);
    var low := CountStep(v.countMinThrottleError, raw < cfg.throttlePotMin);
    var trip := high > THROTTLE_ERROR_COUNT || low > THROTTLE_ERROR_COUNT;
    v.(countMaxThrottleError := high, countMinThrottleError := low,
       state := if trip then Error else v.state, acceleratorRef := if trip then 0 else v.acceleratorRef)
  }

  /** The direction getDirection reports for a FWD/REV reading. */
  function DecodeDirection(fwd: bool, rev: bool): (d: Direction)
    ensures d == Fwd <==> fwd && !rev
    ensures d == Rev <==> rev && !fwd
    ensures d == Net <==> fwd == rev
  {
    if fwd && !rev then Fwd
    else if rev && !fwd then Rev
    else if Neutral(fwd, rev) then Net
    else Net
  }

  /** The direction check trips: more than DIRECTION_ERROR_COUNT readings in
      a row with FWD and REV both selected, counting this one. */
  predicate DirectionTrips(v: Vars, fwd: bool, rev: bool)
  {
    CountStep(v.directionError, fwd && rev) > DIRECTION_ERROR_COUNT
  }

  /** getDirection's bookkeeping: an inconsistent reading (both selected) counts,
      more than three in a row force ERROR and light the error LED; any
      consistent reading clears the count. It forces ERROR and lights the LED
      exactly when it trips, and changes nothing but the count and the state. */
  function DirectionCheck(v: Vars, fwd: bool, rev: bool): (d: Step)
    ensures d.v == v.(directionError := d.v.directionError, state := d.v.state)
    ensures d.v.state == Error <==> v.state == Error || DirectionTrips(v, fwd, rev)
    ensures d.out == (if DirectionTrips(v, fwd, rev) then [SetErrorLed(true)] else [])
    ensures !(fwd && rev) ==> d.v.directionError == 0
  {
    if (fwd && !rev) || (rev && !fwd) || Neutral(fwd, rev) then Step(v.(directionError := 0), [])
    else
      var n := v.directionError + 1;
      if n > DIRECTION_ERROR_COUNT then Step(v.(directionError := n, state := Error), [SetErrorLed(true)])
      else Step(v.(directionError := n), [])
  }

  // ---------------------------------------------------------------------------
  // Torque request shaping

  /** Reverse negates the request, neutral removes it. */
  function ApplyDirection(ref: int, d: Direction): (r: int)
    ensures d != Net ==> Abs(r) == Abs(ref)
    ensures d == Rev ==> r + ref == 0
    ensures d == Net ==> r == 0
  {
    match d
    case Fwd => ref
    case Rev => -ref
    case Net => 0
  }

  /** Regenerative braking logic #1: no regen that would drive the vehicle the
      wrong way near standstill. */
  function RegenCutoff(cfg: Config, ref: int, d: Direction, rpm: int): (r: int)
    ensures r == ref || r == cfg.zeroThrottleTorque
    ensures r != ref ==>
      || (d == Fwd && ref < 0 && rpm < cfg.glideRpm && rpm <= cfg.startRegenRampRpm)
      || (d == Rev && ref > 0 && rpm > -cfg.glideRpm && rpm >= -cfg.startRegenRampRpm)
    ensures (d == Fwd && ref < 0 && rpm < cfg.glideRpm && rpm <= cfg.startRegenRampRpm)
            || (d == Rev && ref > 0 && rpm > -cfg.glideRpm && rpm >= -cfg.startRegenRampRpm)
            ==> r == cfg.zeroThrottleTorque
    ensures d == Net ==> r == ref
  {
    if ((d == Fwd && ref < 0 && rpm < cfg.glideRpm) || (d == Rev && ref > 0 && rpm > -cfg.glideRpm))
       && ((d == Fwd && rpm <= cfg.startRegenRampRpm) || (d == Rev && rpm >= -cfg.startRegenRampRpm))
    then cfg.zeroThrottleTorque
    else ref
  }

  /** Regen is allowed only below the bus-voltage and regen-current limits. */
  predicate RegenAllowed(cfg: Config, busVolt: int, busCurrentAvg: int)
  {
    busVolt <= cfg.maxBusV && busCurrentAvg <= cfg.maxRegenCurrentA
  }

  /** Regenerative braking logic #2: brake pedal with regen enabled lowers the
      request by BRAKE_TORQUE_REDUCTION, never below TORQUE_MIN less that
      reduction, and never at all below GLIDE_RPM. */
  function BrakeRegen(cfg: Config, ref: int, rpm: int, busVolt: int, busCurrentAvg: int, brake: bool, regen: bool): (r: int)
    ensures !(RegenAllowed(cfg, busVolt, busCurrentAvg) && brake && regen) ==> r == ref
    ensures RegenAllowed(cfg, busVolt, busCurrentAvg) && brake && regen && rpm < cfg.glideRpm ==> r == 0
    ensures RegenAllowed(cfg, busVolt, busCurrentAvg) && brake && regen && rpm >= cfg.glideRpm ==>
      r >= cfg.torqueMin - cfg.brakeTorqueReduction
      && (r == ref - cfg.brakeTorqueReduction || r == cfg.torqueMin - cfg.brakeTorqueReduction)
      && (ref >= cfg.torqueMin ==> r == ref - cfg.brakeTorqueReduction)
  {
    if RegenAllowed(cfg, busVolt, busCurrentAvg) && brake && regen then
      var r1 := ref - cfg.brakeTorqueReduction;
      var r2 := if r1 < cfg.torqueMin - cfg.brakeTorqueReduction then cfg.torqueMin - cfg.brakeTorqueReduction else r1;
      if rpm < cfg.glideRpm then 0 else r2
    else ref
  }

  /** The dead spot of the pedal curve: requests smaller in magnitude than
      ACCEL_DEAD_SPOT become zero, the others pass unchanged. */
  function DeadSpot(cfg: Config, ref: int): (r: int)
    ensures r == 0 || r == ref
    ensures r != 0 ==> Abs(r) >= cfg.accelDeadSpot
    ensures Abs(ref) >= cfg.accelDeadSpot ==> r == ref
  {
    if ref > -cfg.accelDeadSpot && ref < cfg.accelDeadSpot then 0 else ref
  }

  /** Crawl mode halves the request (C division, toward zero) and removes it
      above TUMANAKO_CRAWL_RPM_LIMIT. */
  function Crawl(cfg: Config, ref: int, crawl: bool, absoluteRpm: int): (r: int)
    ensures !crawl ==> r == ref
    ensures crawl && absoluteRpm > cfg.crawlRpmLimit ==> r == 0
    ensures crawl && absoluteRpm <= cfg.crawlRpmLimit ==> Abs(r) == Abs(ref) / 2
    ensures ref >= 0 ==> r >= 0
    ensures ref <= 0 ==> r <= 0
  {
    if crawl then
      var half := TruncDiv(ref, 2);
      if absoluteRpm > cfg.crawlRpmLimit then 0 else half
    else ref
  }

  /** Temperature limit: at or above TUMANAKO_MOTOR_TEMP_LIMIT_END (for the
      hotter of motor and power stage) there is no torque; between the two
      limits a floating-point derating applies. */
  function TemperatureLimit(cfg: Config, ref: int, motorTemp: int, powerStageTemp: int): (r: int)
    ensures Max(motorTemp, powerStageTemp) <= cfg.motorTempLimitStart ==> r == ref
    ensures (Max(motorTemp, powerStageTemp) > cfg.motorTempLimitStart
             && Max(motorTemp, powerStageTemp) >= cfg.motorTempLimitEnd) ==> r == 0
    ensures (Max(motorTemp, powerStageTemp) > cfg.motorTempLimitStart
             && Max(motorTemp, powerStageTemp) < cfg.motorTempLimitEnd)
            ==> r == cfg.temperatureDerating(ref, Max(motorTemp, powerStageTemp))
    ensures cfg.Valid() && ref >= 0 ==> 0 <= r <= ref
    ensures cfg.Valid() && ref <= 0 ==> ref <= r <= 0
  {
    var maxMeasuredTemp := Max(motorTemp, powerStageTemp);
    if maxMeasuredTemp > cfg.motorTempLimitStart then
      if maxMeasuredTemp >= cfg.motorTempLimitEnd then 0
      else cfg.temperatureDerating(ref, maxMeasuredTemp)
    else ref
  }

  /** The bus-current retard: above TUMANAKO_BUS_CURRENT_LIMIT_START the torque
      reduction is recomputed and capped at RETARD_COUNT_LIMIT; otherwise it
      decays by one per pass down to zero. */
  function RetardUpdate(cfg: Config, retard: int, busCurrentAvg: int): (r: int)
    ensures !cfg.dcBusCurrentBasedTorqueLimit ==> r == retard
    ensures cfg.dcBusCurrentBasedTorqueLimit && busCurrentAvg > cfg.busCurrentLimitStart ==>
      r <= RetardCountLimit(cfg)
      && (busCurrentAvg >= cfg.busCurrentLimitEnd ==> r == RetardCountLimit(cfg))
    ensures cfg.dcBusCurrentBasedTorqueLimit && busCurrentAvg <= cfg.busCurrentLimitStart ==>
      r <= retard && (retard > 0 ==> r == retard - 1) && (retard >= 0 ==> r >= 0)
    ensures retard <= RetardCountLimit(cfg) ==> r <= RetardCountLimit(cfg)
  {
    if !cfg.dcBusCurrentBasedTorqueLimit then retard
    else if busCurrentAvg > cfg.busCurrentLimitStart then
      var r1 := if busCurrentAvg >= cfg.busCurrentLimitEnd then RetardCountLimit(cfg)
                else cfg.retardScaling(busCurrentAvg);
      if r1 > RetardCountLimit(cfg) then RetardCountLimit(cfg) else r1
    else if retard > 0 then retard - 1
    else retard
  }

  /** The 99:1 exponential smoothing used for the bus current and the torque
      request: the new value lies between the old value and the new sample. */
  function ExpSmooth(previous: int, sample: int): (r: int)
    ensures previous <= sample ==> previous <= r <= sample
    ensures sample <= previous ==> sample <= r <= previous
  {
    var lo := if previous <= sample then previous else sample;
    var hi := if previous <= sample then sample else previous;
    TruncDivBetween(99 * previous + sample, lo, hi, 100);
    TruncDiv(99 * previous + sample, 100)
  }

  /** The smoothed torque request, stored back into a `short`. */
  function SmoothTorque(smooth: int, ref: int): (r: int)
    ensures IsShort(smooth) && IsShort(ref) ==> r == ExpSmooth(smooth, ref)
  {
    ToShort(ExpSmooth(smooth, ref))
  }

  /** The flux command: the magnitude of the smoothed torque request, but at
      least FLUX_MIN and at most FLUX_MAX. */
  function SelectFlux(smooth: int): (flux: int)
    ensures FLUX_MIN <= flux <= FLUX_MAX
    ensures FLUX_MIN <= Abs(smooth) <= FLUX_MAX ==> flux == Abs(smooth)
    ensures Abs(smooth) <= FLUX_MIN ==> flux == FLUX_MIN
    ensures Abs(smooth) >= FLUX_MAX ==> flux == FLUX_MAX
  {
    var f1 := if Abs(smooth) > FLUX_MIN then Abs(smooth) else FLUX_MIN;
    if f1 > FLUX_MAX then FLUX_MAX else f1
  }

  /** The speed-based torque limit (SPEED_BASED_TORQUE_LIMIT builds): the
      configured curve strictly between the two speed limits, its maximum from
      the upper limit on, and its minimum otherwise. */
  function SpeedBasedLimit(cfg: Config, absoluteRpm: int): (r: int)
    ensures cfg.torqueLimitRpmStart < absoluteRpm < cfg.torqueLimitRpmEnd ==> r == cfg.speedEu(absoluteRpm)
    ensures absoluteRpm >= cfg.torqueLimitRpmEnd ==> r == cfg.speedBasedTorqueLimitMax
    ensures absoluteRpm <= cfg.torqueLimitRpmStart && absoluteRpm < cfg.torqueLimitRpmEnd ==>
      r == cfg.speedBasedTorqueLimitMin
  {
    if absoluteRpm > cfg.torqueLimitRpmStart && absoluteRpm < cfg.torqueLimitRpmEnd then cfg.speedEu(absoluteRpm)
    else if absoluteRpm >= cfg.torqueLimitRpmEnd then cfg.speedBasedTorqueLimitMax
    else cfg.speedBasedTorqueLimitMin
  }

  /** The torque request after the direction, the two regenerative braking
      rules, the dead spot, crawl mode and the temperature limit, in that
      order; `busCurrentAvg` is the bus current average of this pass. */
  /** Whatever else holds, there is no torque at or above
      TUMANAKO_MOTOR_TEMP_LIMIT_END, nor in crawl mode above
      TUMANAKO_CRAWL_RPM_LIMIT. */
  function TorqueRequest(cfg: Config, v: Vars, inp: Inputs, d: Direction, busCurrentAvg: int): (r: int)
    ensures (Max(inp.motorTemperature, inp.powerStageTemperature) > cfg.motorTempLimitStart
             && Max(inp.motorTemperature, inp.powerStageTemperature) >= cfg.motorTempLimitEnd) ==> r == 0
    ensures cfg.Valid() && inp.crawl && v.absoluteMotorRpm > cfg.crawlRpmLimit ==> r == 0
  {
    var r1 := ApplyDirection(v.acceleratorRef, d);
    var r2 := RegenCutoff(cfg, r1, d, v.motorRpm);
    var r3 := BrakeRegen(cfg, r2, v.motorRpm, inp.rawScaledBusVolt, busCurrentAvg, inp.brakeOn, inp.enableRegen);
    var r4 := DeadSpot(cfg, r3);
    var r5 := Crawl(cfg, r4, inp.crawl, v.absoluteMotorRpm);
    TemperatureLimit(cfg, r5, inp.motorTemperature, inp.powerStageTemperature)
  }

  /** From the direction sign to the flux and torque commands. The stored
      request is the shaped one, but setTorque is given the smoothed request,
      which lies between the previous command and the new request; the bus
      current average lies between the old average and the new reading; the
      flux command is within FLUX_MIN..FLUX_MAX. */
  function ShapeTorque(cfg: Config, v: Vars, inp: Inputs, d: Direction): (sh: Step)
    ensures sh.v == v.(acceleratorRef := sh.v.acceleratorRef, busCurrentAvg := sh.v.busCurrentAvg,
                       motorTemp := inp.motorTemperature, accelRetardCount := sh.v.accelRetardCount,
                       acceleratorRefSmooth := sh.v.acceleratorRefSmooth, flux := sh.v.flux)
    ensures sh.v.acceleratorRef == TorqueRequest(cfg, v, inp, d, sh.v.busCurrentAvg)
    ensures sh.out == [SetFlux(sh.v.flux), SetTorque(sh.v.acceleratorRefSmooth)]
    ensures FLUX_MIN <= sh.v.flux <= FLUX_MAX && IsShort(sh.v.acceleratorRefSmooth)
    ensures IsShort(v.acceleratorRefSmooth) && IsShort(sh.v.acceleratorRef) ==>
      (v.acceleratorRefSmooth <= sh.v.acceleratorRef ==>
         v.acceleratorRefSmooth <= sh.v.acceleratorRefSmooth <= sh.v.acceleratorRef)
      && (sh.v.acceleratorRef <= v.acceleratorRefSmooth ==>
         sh.v.acceleratorRef <= sh.v.acceleratorRefSmooth <= v.acceleratorRefSmooth)
    ensures v.busCurrentAvg <= inp.busCurrent ==> v.busCurrentAvg <= sh.v.busCurrentAvg <= inp.busCurrent
    ensures inp.busCurrent <= v.busCurrentAvg ==> inp.busCurrent <= sh.v.busCurrentAvg <= v.busCurrentAvg
  {
    var avg := ExpSmooth(v.busCurrentAvg, inp.busCurrent);
    var ref := TorqueRequest(cfg, v, inp, d, avg);
    var retard := RetardUpdate(cfg, v.accelRetardCount, avg);
    var smooth := SmoothTorque(v.acceleratorRefSmooth, ref);
    var flux := SelectFlux(smooth);
    Step(v.(acceleratorRef := ref, busCurrentAvg := avg, motorTemp := inp.motorTemperature,
            accelRetardCount := retard, acceleratorRefSmooth := smooth, flux := flux),
         [SetFlux(flux), SetTorque(smooth)])
  }

  // ---------------------------------------------------------------------------
  // stateMachineDo

  /** A parameter-test result that forces ERROR before the switch: anything
      but OK and UNDERVOLTAGE (which only blocks a start). */
  predicate ForcesError(code: int)
  {
    IsFault(code) && Classify(code) != Some(Undervoltage)
  }

  /** The fault checks ahead of the state switch. */
  function PreSwitchState(cfg: Config, s: RunState, code: int, watchdogTimeout: bool, motorTemp: int): (r: RunState)
    ensures r == Error <==> s == Error || ForcesError(code) || watchdogTimeout || motorTemp > cfg.maxMotorTemp
    ensures r != Error ==> r == s
  {
    var s1 :=
      if s != Error && code != Code(Ok) then
        match Classify(code)
        case Some(Undervoltage) => s
        case _ => Error
      else s;
    var s2 := if watchdogTimeout then Error else s1;
    if motorTemp > cfg.maxMotorTemp then Error else s2
  }

  /** turnOff: power stage off, IDLE, run LED off, then systemReset, which
      restarts the controller from its initial variables: the power stage is
      shut down first and the reset is the last call. */
  function TurnOff(): (r: Step)
    ensures r.v == Initial() && r.v.state == Idle && !r.v.flashRunLed
    ensures |r.out| > 0 && r.out[0] == ShutdownPower && r.out[|r.out| - 1] == SystemReset
    ensures SetRunLed(false) in r.out
  {
    Step(Initial(), [ShutdownPower, SetRunLed(false), SystemReset])
  }

  /** IDLE: ignition on lights both LEDs and (in TUMANAKO_PRECHARGE_TEST builds)
      precharges; success initialises the motor and enters READY. */
  function IdleCase(cfg: Config, v: Vars, inp: Inputs): (r: Step)
    requires cfg.Valid()
    ensures !inp.ign ==> r == Step(v, [])
    ensures var ok := !cfg.prechargeTest || Precharge.Precharge(cfg, inp.precharge).result == Precharge.PrechargeOk;
            inp.ign ==>
              && (ok ==> r.v.state == Ready && r.v.flashRunLed && !r.v.oldStart)
              && (!ok ==> r.v.state == Error)
              && (MotorInit in r.out <==> ok)
    ensures r.v == v.(state := r.v.state, flashRunLed := r.v.flashRunLed, oldStart := r.v.oldStart)
  {
    if !inp.ign then Step(v, [])
    else
      var lights := [SetRunLed(true), SetErrorLed(true)];
      var pre := if cfg.prechargeTest then Precharge.Precharge(cfg, inp.precharge)
                 else Precharge.Run(Precharge.PrechargeOk, []);
      if pre.result != Precharge.PrechargeOk then Step(v.(state := Error), lights + pre.outputs)
      else Step(v.(flashRunLed := true, state := Ready, oldStart := false),
                lights + pre.outputs + [MotorInit, SetErrorLed(false)])
  }

  /** The start interlocks of READY: start seen on this pass and the previous
      one, neutral selected, no undervoltage, the throttle released. */
  predicate StartPermitted(cfg: Config, v: Vars, inp: Inputs)
  {
    inp.start && v.oldStart && Neutral(inp.fwd, inp.rev) && inp.motorParam != Code(Undervoltage)
    && v.acceleratorRef <= cfg.zeroThrottleTorque
  }

  /** READY: two ignition-off reads in a row turn off; start seen on this and
      the previous pass starts the motor, provided neutral is selected, there is
      no undervoltage and the throttle is released. */
  function ReadyCase(cfg: Config, v: Vars, inp: Inputs): (r: Step)
    requires v.state == Ready
    ensures !inp.ign && !v.oldIgn ==> r == TurnOff()
    ensures r.v.state == Run <==> (inp.ign || v.oldIgn) && StartPermitted(cfg, v, inp)
    ensures r.v.state == Error <==> (inp.ign || v.oldIgn) && inp.start && v.oldStart && !StartPermitted(cfg, v, inp)
    ensures r.v.state == Run ==> r.out == [MotorStart, SetRunLed(true)] && !r.v.flashRunLed
    ensures MotorStart in r.out <==> r.v.state == Run
  {
    if !inp.ign && !v.oldIgn then TurnOff()
    else
      var starting := inp.start && v.oldStart;
      var blocked := !Neutral(inp.fwd, inp.rev) || inp.motorParam == Code(Undervoltage)
                     || v.acceleratorRef > cfg.zeroThrottleTorque;
      if starting && blocked then Step(v.(oldIgn := inp.ign, state := Error), [])
      else if starting then
        Step(v.(oldIgn := true, state := Run, flashRunLed := false, oldStart := inp.start), [MotorStart, SetRunLed(true)])
      else Step(v.(oldIgn := inp.ign, oldStart := inp.start), [])
  }

  /** Short of turning off, READY changes only the ignition and start
      memories, the state and the run-LED phase. */
  lemma ReadyCaseFrame(cfg: Config, v: Vars, inp: Inputs)
    requires v.state == Ready && (inp.ign || v.oldIgn)
    ensures var r := ReadyCase(cfg, v, inp).v;
            r == v.(oldIgn := r.oldIgn, state := r.state, flashRunLed := r.flashRunLed, oldStart := r.oldStart)
  {
  }

  /** A stall reading: torque feedback above STALL_TORQUE with the rotor
      stopped. */
  predicate Stalled(torque: int, rpm: int)
  {
    torque > STALL_TORQUE && rpm == 0
  }

  /** The stall detector trips: STALL_COUNT or more stall readings in a row,
      counting the one of this pass. */
  predicate StallTrips(v: Vars, inp: Inputs)
  {
    CountStep(v.motorStallError, Stalled(inp.torque, v.motorRpm)) >= STALL_COUNT
  }

  /** RUN: speed check, two ignition-off reads in a row turn off, and the stall
      detector: torque above 400 with the rotor stopped for 6000 passes forces
      ERROR with no torque. Short of turning off, the stall count takes one
      step on this pass's reading and the state becomes ERROR exactly when the
      detector trips (or already was ERROR). */
  function RunCase(v: Vars, inp: Inputs): (r: Step)
    ensures |r.out| > 0 && r.out[0] == MotorTestForSpeedError
    ensures !inp.ign && !v.oldIgn ==> r.v == Initial() && r.out[1..] == TurnOff().out
    ensures inp.ign || v.oldIgn ==>
      && r.out == [MotorTestForSpeedError]
      && r.v.oldIgn == inp.ign
      && r.v.motorStallError == CountStep(v.motorStallError, Stalled(inp.torque, v.motorRpm))
      && (r.v.state == Error <==> v.state == Error || StallTrips(v, inp))
      && (StallTrips(v, inp) ==> r.v.acceleratorRef == 0)
      && (!StallTrips(v, inp) ==> r.v.state == v.state && r.v.acceleratorRef == v.acceleratorRef)
  {
    var check := [MotorTestForSpeedError];
    if !inp.ign && !v.oldIgn then Step(TurnOff().v, check + TurnOff().out)
    else
      var n := if inp.torque > STALL_TORQUE && v.motorRpm == 0 then v.motorStallError + 1 else 0;
      var trip := n >= STALL_COUNT;
      Step(v.(oldIgn := inp.ign, motorStallError := n, state := if trip then Error else v.state,
              acceleratorRef := if trip then 0 else v.acceleratorRef),
           check)
  }

  /** Short of turning off, RUN changes only the ignition memory, the stall
      count, the state and the torque request. */
  lemma RunCaseFrame(v: Vars, inp: Inputs)
    requires inp.ign || v.oldIgn
    ensures var r := RunCase(v, inp).v;
            r == v.(oldIgn := r.oldIgn, motorStallError := r.motorStallError, state := r.state,
                    acceleratorRef := r.acceleratorRef)
  {
  }

  /** The calls made on entering the ERROR halt. */
  function HaltOutputs(): seq<Output>
  {
    [ShutdownPower, SetRunLed(false), SetErrorLed(true)]
  }

  /** The switch on the state. It enters the halt loop exactly in ERROR; RUN
      is reached only from READY or RUN, and motorStart is called only on the
      step from READY to RUN. */
  function Switch(cfg: Config, v: Vars, inp: Inputs): (r: Step)
    requires cfg.Valid()
    ensures !v.halted ==> (r.v.halted <==> v.state == Error)
    ensures v.state == Error ==> r.v.state == Error && r.out == HaltOutputs()
    ensures r.v.state == Run ==> v.state == Ready || v.state == Run
    ensures MotorStart in r.out ==> v.state == Ready && r.v.state == Run
  {
    match v.state
    case Idle => IdleCase(cfg, v, inp)
    case Ready => ReadyCase(cfg, v, inp)
    case Run => RunCase(v, inp)
    case Error => Step(v.(halted := true), HaltOutputs())
  }

  /** stateMachineDo: the fault checks, then the switch. A fault found by the
      checks (a parameter-test result other than OK and UNDERVOLTAGE, a
      watchdog timeout, the motor above TUMANAKO_MAX_MOTOR_TEMP) enters the
      halt loop in the same call. */
  function StateMachine(cfg: Config, v: Vars, inp: Inputs): (r: Step)
    requires cfg.Valid()
    ensures ForcesError(inp.motorParam) || inp.watchdogTimeout || v.motorTemp > cfg.maxMotorTemp ==>
      r.v.state == Error && r.v.halted && r.out == HaltOutputs()
  {
    Switch(cfg, v.(state := PreSwitchState(cfg, v.state, inp.motorParam, inp.watchdogTimeout, v.motorTemp)), inp)
  }

  /** The checks doIt makes after the state machine while in RUN. */
  function RunStateCheck(cfg: Config, v: Vars, inp: Inputs): (r: Vars)
    ensures r == v.(state := r.state)
    ensures v.state != Run ==> r == v
    ensures v.state == Run ==>
      (r.state == Error <==> cfg.prechargeTest && !InRunStateConfiguration(inp.contactors))
      && (r.state != Error ==> r.state == Run)
  {
    if v.state == Run then
      var s1 := if !BusVoltageOK(cfg, inp.rawScaledBusVolt) then Error else v.state;
      var s2 := if cfg.prechargeTest && !InRunStateConfiguration(inp.contactors) then Error else s1;
      v.(state := s2)
    else v
  }

  /** RPM, the speed-based torque limit (SPEED_BASED_TORQUE_LIMIT builds) and
      the torque request from the throttle pot, reduced by the bus-current
      retard and the speed-based limit. The limit is recomputed only in
      SPEED_BASED_TORQUE_LIMIT builds, and nothing else changes. */
  function ReadPedal(cfg: Config, v: Vars, inp: Inputs): (r: Vars)
    ensures r == v.(motorRpm := inp.rpm, absoluteMotorRpm := r.absoluteMotorRpm,
                    speedBasedTorqueLimit := r.speedBasedTorqueLimit, rawAcceleratorRef := inp.rawAccel,
                    acceleratorRef := r.acceleratorRef)
    ensures r.absoluteMotorRpm >= 0 && (r.absoluteMotorRpm == inp.rpm || r.absoluteMotorRpm == -inp.rpm)
    ensures !cfg.speedBasedTorqueLimit ==> r.speedBasedTorqueLimit == v.speedBasedTorqueLimit
    ensures r.acceleratorRef == cfg.torqueEu(inp.rawAccel, v.accelRetardCount + r.speedBasedTorqueLimit)
  {
    var limit := if cfg.speedBasedTorqueLimit then SpeedBasedLimit(cfg, Abs(inp.rpm)) else v.speedBasedTorqueLimit;
    v.(motorRpm := inp.rpm, absoluteMotorRpm := Abs(inp.rpm), speedBasedTorqueLimit := limit,
       rawAcceleratorRef := inp.rawAccel, acceleratorRef := cfg.torqueEu(inp.rawAccel, v.accelRetardCount + limit))
  }

  /** The calls doIt makes before its main loop: init() clears both LEDs, then
      the run LED is lit and the flash timer restarted. */
  function StartupOutputs(): seq<Output>
  {
    [SetRunLed(false), SetErrorLed(false), SetRunLed(true), ResetFlashTimer]
  }

  /** The part of a pass ahead of stateMachineDo: flash, the pedal reading,
      the throttle and direction checks and the torque-request shaping. */
  function ReadAndShape(cfg: Config, v: Vars, inp: Inputs): Step
  {
    var f := Flash(v, inp.flashElapsed);
    var v1 := ReadPedal(cfg, f.v, inp);
    var v2 := ThrottleCheck(cfg, v1, v1.rawAcceleratorRef);
    var d := DirectionCheck(v2, inp.fwd, inp.rev);
    var sh := ShapeTorque(cfg, d.v, inp, DecodeDirection(inp.fwd, inp.rev));
    Step(sh.v, f.out + d.out + sh.out)
  }

  /** One pass of doIt's main loop. Once the ERROR halt loop has been entered,
      nothing changes any more. */
  function Cycle(cfg: Config, v: Vars, inp: Inputs): (r: Step)
    requires cfg.Valid()
    ensures v.halted ==> r.v == v && r.out == []
  {
    if v.halted then Step(v, [])
    else
      var p := ReadAndShape(cfg, v, inp);
      var sm := StateMachine(cfg, p.v, inp);
      Step(RunStateCheck(cfg, sm.v, inp), p.out + sm.out)
  }

  /** Several passes in a row. Once the halt loop has been entered, no number
      of passes changes anything or makes any call. */
  function Cycles(cfg: Config, v: Vars, inps: seq<Inputs>): (r: Step)
    requires cfg.Valid()
    ensures v.halted ==> r.v == v && r.out == []
    decreases |inps|
  {
    if inps == [] then Step(v, [])
    else
      var s := Cycle(cfg, v, inps[0]);
      var rest := Cycles(cfg, s.v, inps[1..]);
      Step(rest.v, s.out + rest.out)
  }
}
