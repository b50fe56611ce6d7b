/** Safety properties of the supervisory logic, stated over one pass of the
    main loop (`Cycle`) and over any number of passes (`Cycles`). */
module InverterProperties {
  import opened CInt
  import opened Stm32Interface
  import opened VehicleConfiguration
  import opened InverterLogic
  import opened FaultCounters
  import Precharge

  // ---------------------------------------------------------------------------
  // What the stages ahead of the state machine may do

  /** The calls made ahead of the state machine: the run LED and the flash
      timer, the error LED for a direction fault, the flux and torque
      commands. */
  predicate RoutineCall(o: Output)
  {
    o.SetRunLed? || o.ResetFlashTimer? || o == SetErrorLed(true) || o.SetFlux? || o.SetTorque?
  }

  /** The fields every stage ahead of the state machine leaves alone. */
  predicate SameModes(v: Vars, w: Vars)
  {
    w.oldIgn == v.oldIgn && w.oldStart == v.oldStart && w.flashRunLed == v.flashRunLed
    && w.motorStallError == v.motorStallError && w.halted == v.halted
  }

  lemma FlashFrame(v: Vars, elapsed: int)
    ensures var f := Flash(v, elapsed);
            f.v.state == v.state && SameModes(v, f.v) && (forall o :: o in f.out ==> RoutineCall(o))
  {
  }

  lemma PedalAndThrottleFrame(cfg: Config, v: Vars, inp: Inputs)
    ensures var v1 := ReadPedal(cfg, v, inp);
            var v2 := ThrottleCheck(cfg, v1, v1.rawAcceleratorRef);
            (v2.state == v.state || v2.state == Error) && SameModes(v, v2)
  {
  }

  lemma DirectionFrame(v: Vars, fwd: bool, rev: bool)
    ensures var d := DirectionCheck(v, fwd, rev);
            (d.v.state == v.state || d.v.state == Error) && SameModes(v, d.v)
            && (forall o :: o in d.out ==> RoutineCall(o))
  {
  }

  lemma ShapeTorqueFrame(cfg: Config, v: Vars, inp: Inputs, d: Direction)
    ensures var sh := ShapeTorque(cfg, v, inp, d);
            sh.v.state == v.state && SameModes(v, sh.v) && sh.v.motorTemp == inp.motorTemperature
            && (forall o :: o in sh.out ==> RoutineCall(o))
  {
  }

  /** Ahead of the state machine the state can only become ERROR; the
      ignition and start memories, the run-LED phase, the stall count and the
      halt are untouched; the motor temperature is this pass's reading; and
      only routine calls are made. */
  lemma ReadAndShapeFrame(cfg: Config, v: Vars, inp: Inputs)
    ensures var p := ReadAndShape(cfg, v, inp);
            (p.v.state == v.state || p.v.state == Error) && SameModes(v, p.v)
            && p.v.motorTemp == inp.motorTemperature && p.v.motorRpm == inp.rpm
            && (forall o :: o in p.out ==> RoutineCall(o))
  {
    var f := Flash(v, inp.flashElapsed);
    FlashFrame(v, inp.flashElapsed);
    var v1 := ReadPedal(cfg, f.v, inp);
    var v2 := ThrottleCheck(cfg, v1, v1.rawAcceleratorRef);
    PedalAndThrottleFrame(cfg, f.v, inp);
    var d := DirectionCheck(v2, inp.fwd, inp.rev);
    DirectionFrame(v2, inp.fwd, inp.rev);
    var sh := ShapeTorque(cfg, d.v, inp, DecodeDirection(inp.fwd, inp.rev));
    ShapeTorqueFrame(cfg, d.v, inp, DecodeDirection(inp.fwd, inp.rev));
    assert ReadAndShape(cfg, v, inp) == Step(sh.v, f.out + d.out + sh.out);
  }

  // ---------------------------------------------------------------------------
  // ERROR is absorbing

  /** A pass that starts in ERROR enters the halt loop: the power stage is
      shut down, the run LED turned off and the error LED lit, and those are
      the last calls of the pass. */
  lemma ErrorHalts(cfg: Config, v: Vars, inp: Inputs)
    requires cfg.Valid() && v.state == Error && !v.halted
    ensures var r := Cycle(cfg, v, inp);
            r.v.state == Error && r.v.halted
            && |r.out| >= 3 && r.out[|r.out| - 3..] == HaltOutputs()
  {
    ReadAndShapeFrame(cfg, v, inp);
  }

  /** No sequence of passes leads out of ERROR, and any pass at all halts. */
  lemma {:induction false} ErrorIsAbsorbing(cfg: Config, v: Vars, inps: seq<Inputs>)
    requires cfg.Valid() && v.state == Error
    ensures Cycles(cfg, v, inps).v.state == Error
    ensures |inps| > 0 ==> Cycles(cfg, v, inps).v.halted
    decreases |inps|
  {
    if inps != [] {
      if !v.halted {
        ErrorHalts(cfg, v, inps[0]);
      }
    }
  }

  /** A fault found before the switch (a motor-parameter result other than OK
      and UNDERVOLTAGE, a watchdog timeout, the motor above its maximum
      temperature) halts the controller in the same pass. */
  lemma FaultsHaltInSamePass(cfg: Config, v: Vars, inp: Inputs)
    requires cfg.Valid() && !v.halted
    requires ForcesError(inp.motorParam) || inp.watchdogTimeout || inp.motorTemperature > cfg.maxMotorTemp
    ensures var r := Cycle(cfg, v, inp);
            r.v.state == Error && r.v.halted
            && |r.out| >= 3 && r.out[|r.out| - 3..] == HaltOutputs()
  {
    ReadAndShapeFrame(cfg, v, inp);
  }

  // ---------------------------------------------------------------------------
  // The state machine

  /** None of the checks ahead of the switch finds a fault. */
  predicate NoPreSwitchFault(cfg: Config, v: Vars, inp: Inputs)
  {
    !ForcesError(inp.motorParam) && !inp.watchdogTimeout && v.motorTemp <= cfg.maxMotorTemp
  }

  /** RUN is entered only from READY, with no fault, the ignition not read off
      twice, and every start interlock met; entering it starts the motor and
      makes the run LED solid. */
  lemma RunEntry(cfg: Config, v: Vars, inp: Inputs)
    requires cfg.Valid() && v.state != Run
    ensures StateMachine(cfg, v, inp).v.state == Run <==>
      v.state == Ready && NoPreSwitchFault(cfg, v, inp) && (inp.ign || v.oldIgn) && StartPermitted(cfg, v, inp)
    ensures StateMachine(cfg, v, inp).v.state == Run ==>
      StateMachine(cfg, v, inp).out == [MotorStart, SetRunLed(true)] && !StateMachine(cfg, v, inp).v.flashRunLed
  {
    if v.state == Idle && NoPreSwitchFault(cfg, v, inp) && inp.ign && cfg.prechargeTest {
    }
  }

  /** motorStart is called only on the transition from READY to RUN. */
  lemma MotorStartOnlyOnRunEntry(cfg: Config, v: Vars, inp: Inputs)
    requires cfg.Valid()
    ensures MotorStart in StateMachine(cfg, v, inp).out ==>
      v.state == Ready && StateMachine(cfg, v, inp).v.state == Run
  {
  }

  /** turnOff runs, in READY or RUN only, exactly when the ignition reads off
      on this pass and the previous one; it shuts the power stage down and the
      controller restarts from its initial values. */
  lemma TurnOffOnTwoOffReads(cfg: Config, v: Vars, inp: Inputs)
    requires cfg.Valid()
    ensures SystemReset in StateMachine(cfg, v, inp).out <==>
      (v.state == Ready || v.state == Run) && NoPreSwitchFault(cfg, v, inp) && !inp.ign && !v.oldIgn
    ensures SystemReset in StateMachine(cfg, v, inp).out ==>
      StateMachine(cfg, v, inp).v == Initial() && ShutdownPower in StateMachine(cfg, v, inp).out
  {
  }

  /** IDLE moves to READY exactly when the ignition is on and (in
      TUMANAKO_PRECHARGE_TEST builds) the precharge succeeds, and motorInit is
      called exactly then; a failed precharge is an ERROR. */
  lemma PowerUpNeedsPrecharge(cfg: Config, v: Vars, inp: Inputs)
    requires cfg.Valid() && v.state == Idle && NoPreSwitchFault(cfg, v, inp)
    ensures var ok := !cfg.prechargeTest || Precharge.Precharge(cfg, inp.precharge).result == Precharge.PrechargeOk;
            && (StateMachine(cfg, v, inp).v.state == Ready <==> inp.ign && ok)
            && (StateMachine(cfg, v, inp).v.state == Error <==> inp.ign && !ok)
            && (MotorInit in StateMachine(cfg, v, inp).out <==> inp.ign && ok)
    ensures StateMachine(cfg, v, inp).v.state == Ready ==> StateMachine(cfg, v, inp).v.flashRunLed
  {
  }

  // ---------------------------------------------------------------------------
  // The same, over a whole pass of the main loop

  /** The start interlocks, in terms of the readings of the pass. */
  predicate StartRequested(cfg: Config, v: Vars, inp: Inputs)
  {
    v.state == Ready && inp.start && v.oldStart && Neutral(inp.fwd, inp.rev)
    && inp.motorParam != Code(Undervoltage) && !ForcesError(inp.motorParam) && !inp.watchdogTimeout
    && inp.motorTemperature <= cfg.maxMotorTemp && (inp.ign || v.oldIgn)
    && ReadAndShape(cfg, v, inp).v.acceleratorRef <= cfg.zeroThrottleTorque
  }

  /** A pass calls motorStart only from READY with every start interlock met
      and no fault. */
  lemma MotorStartOnlyWhenSafe(cfg: Config, v: Vars, inp: Inputs)
    requires cfg.Valid() && !v.halted
    requires MotorStart in Cycle(cfg, v, inp).out
    ensures StartRequested(cfg, v, inp)
  {
    var p := ReadAndShape(cfg, v, inp);
    ReadAndShapeFrame(cfg, v, inp);
    var sm := StateMachine(cfg, p.v, inp);
    assert MotorStart !in p.out;
    assert MotorStart in sm.out;
    MotorStartOnlyOnRunEntry(cfg, p.v, inp);
    RunEntry(cfg, p.v, inp);
  }

  /** A pass that ends in RUN and did not start there was in READY with every
      start interlock met, and called motorStart. */
  lemma RunOnlyFromReady(cfg: Config, v: Vars, inp: Inputs)
    requires cfg.Valid() && !v.halted && v.state != Run
    requires Cycle(cfg, v, inp).v.state == Run
    ensures StartRequested(cfg, v, inp)
    ensures MotorStart in Cycle(cfg, v, inp).out
  {
    var p := ReadAndShape(cfg, v, inp);
    ReadAndShapeFrame(cfg, v, inp);
    var sm := StateMachine(cfg, p.v, inp);
    assert sm.v.state == Run;
    RunEntry(cfg, p.v, inp);
  }

  /** A pass turns the controller off only in READY or RUN and only when the
      ignition read off on this pass and the previous one; the controller
      then starts over from its initial values. */
  lemma TurnOffNeedsTwoOffReads(cfg: Config, v: Vars, inp: Inputs)
    requires cfg.Valid() && !v.halted
    requires SystemReset in Cycle(cfg, v, inp).out
    ensures (v.state == Ready || v.state == Run) && !inp.ign && !v.oldIgn
    ensures Cycle(cfg, v, inp).v == Initial()
    ensures ShutdownPower in Cycle(cfg, v, inp).out
  {
    var p := ReadAndShape(cfg, v, inp);
    ReadAndShapeFrame(cfg, v, inp);
    var sm := StateMachine(cfg, p.v, inp);
    assert SystemReset !in p.out;
    TurnOffOnTwoOffReads(cfg, p.v, inp);
  }

  /** A pass calls motorInit only in IDLE with the ignition on and (in
      TUMANAKO_PRECHARGE_TEST builds) a successful precharge, which left the
      contactors in the run configuration; the pass ends in READY with the run
      LED flashing. */
  lemma MotorInitOnlyAfterPrecharge(cfg: Config, v: Vars, inp: Inputs)
    requires cfg.Valid() && !v.halted
    requires MotorInit in Cycle(cfg, v, inp).out
    ensures v.state == Idle && inp.ign
    ensures cfg.prechargeTest ==>
      Precharge.Precharge(cfg, inp.precharge).result == Precharge.PrechargeOk
      && InRunStateConfiguration(inp.precharge.atEnd)
    ensures Cycle(cfg, v, inp).v.state == Ready && Cycle(cfg, v, inp).v.flashRunLed
  {
    var p := ReadAndShape(cfg, v, inp);
    ReadAndShapeFrame(cfg, v, inp);
    var sm := StateMachine(cfg, p.v, inp);
    assert Cycle(cfg, v, inp) == Step(RunStateCheck(cfg, sm.v, inp), p.out + sm.out);
    assert !RoutineCall(MotorInit);
    assert MotorInit in sm.out;
    MotorInitOnlyFromIdle(cfg, p.v, inp);
    PowerUpNeedsPrecharge(cfg, p.v, inp);
  }

  lemma MotorInitOnlyFromIdle(cfg: Config, v: Vars, inp: Inputs)
    requires cfg.Valid()
    ensures MotorInit in StateMachine(cfg, v, inp).out ==> v.state == Idle && NoPreSwitchFault(cfg, v, inp) && inp.ign
  {
    var u := v.(state := PreSwitchState(cfg, v.state, inp.motorParam, inp.watchdogTimeout, v.motorTemp));
    assert StateMachine(cfg, v, inp) == Switch(cfg, u, inp);
  }

  // ---------------------------------------------------------------------------
  // The throttle and direction fault counters over many passes

  /** For each pass, whether the raw throttle reading was above
      THROTTLE_POT_MAX. */
  function ThrottleHigh(cfg: Config, inps: seq<Inputs>): (bad: seq<bool>)
    ensures |bad| == |inps|
  {
    if inps == [] then [] else [inps[0].rawAccel > cfg.throttlePotMax] + ThrottleHigh(cfg, inps[1..])
  }

  /** For each pass, whether the raw throttle reading was below
      THROTTLE_POT_MIN. */
  function ThrottleLow(cfg: Config, inps: seq<Inputs>): (bad: seq<bool>)
    ensures |bad| == |inps|
  {
    if inps == [] then [] else [inps[0].rawAccel < cfg.throttlePotMin] + ThrottleLow(cfg, inps[1..])
  }

  /** For each pass, whether FWD and REV were both selected. */
  function BothSelected(inps: seq<Inputs>): (bad: seq<bool>)
    ensures |bad| == |inps|
  {
    if inps == [] then [] else [inps[0].fwd && inps[0].rev] + BothSelected(inps[1..])
  }

  /** The three counters are equal. */
  predicate SameCounters(v: Vars, w: Vars)
  {
    w.countMaxThrottleError == v.countMaxThrottleError && w.countMinThrottleError == v.countMinThrottleError
    && w.directionError == v.directionError
  }

  lemma PedalAndThrottleCounters(cfg: Config, v: Vars, inp: Inputs)
    ensures var v2 := ThrottleCheck(cfg, ReadPedal(cfg, v, inp), inp.rawAccel);
            && v2.countMaxThrottleError == CountStep(v.countMaxThrottleError, inp.rawAccel > cfg.throttlePotMax)
            && v2.countMinThrottleError == CountStep(v.countMinThrottleError, inp.rawAccel < cfg.throttlePotMin)
            && v2.directionError == v.directionError
            && (ThrottleTrips(cfg, v, inp.rawAccel) ==> v2.state == Error)
  {
  }

  lemma DirectionCounters(v: Vars, fwd: bool, rev: bool)
    ensures var w := DirectionCheck(v, fwd, rev).v;
            && w.countMaxThrottleError == v.countMaxThrottleError
            && w.countMinThrottleError == v.countMinThrottleError
            && w.directionError == CountStep(v.directionError, fwd && rev)
            && (v.state == Error || DirectionTrips(v, fwd, rev) ==> w.state == Error)
  {
  }

  /** The throttle and direction counters take one step each on the pass's
      readings ahead of the state machine, and a trip of either check is an
      ERROR there. */
  lemma ReadAndShapeCounters(cfg: Config, v: Vars, inp: Inputs)
    ensures var w := ReadAndShape(cfg, v, inp).v;
            && w.countMaxThrottleError == CountStep(v.countMaxThrottleError, inp.rawAccel > cfg.throttlePotMax)
            && w.countMinThrottleError == CountStep(v.countMinThrottleError, inp.rawAccel < cfg.throttlePotMin)
            && w.directionError == CountStep(v.directionError, inp.fwd && inp.rev)
            && (ThrottleTrips(cfg, v, inp.rawAccel) || DirectionTrips(v, inp.fwd, inp.rev) ==> w.state == Error)
  {
    var f := Flash(v, inp.flashElapsed);
    assert SameCounters(v, f.v);
    var v1 := ReadPedal(cfg, f.v, inp);
    var v2 := ThrottleCheck(cfg, v1, v1.rawAcceleratorRef);
    PedalAndThrottleCounters(cfg, f.v, inp);
    var d := DirectionCheck(v2, inp.fwd, inp.rev);
    DirectionCounters(v2, inp.fwd, inp.rev);
    var sh := ShapeTorque(cfg, d.v, inp, DecodeDirection(inp.fwd, inp.rev));
    ShapeTorqueFrame(cfg, d.v, inp, DecodeDirection(inp.fwd, inp.rev));
    assert SameCounters(d.v, sh.v);
    assert ReadAndShape(cfg, v, inp).v == sh.v;
  }

  /** Short of turning off, the state machine leaves the throttle and
      direction counters alone. */
  lemma StateMachineKeepsCounters(cfg: Config, v: Vars, inp: Inputs)
    requires cfg.Valid()
    ensures SystemReset !in StateMachine(cfg, v, inp).out ==> SameCounters(v, StateMachine(cfg, v, inp).v)
  {
    var u := v.(state := PreSwitchState(cfg, v.state, inp.motorParam, inp.watchdogTimeout, v.motorTemp));
    assert SameCounters(v, u);
    assert StateMachine(cfg, v, inp) == Switch(cfg, u, inp);
    SwitchKeepsCounters(cfg, u, inp);
  }

  lemma SwitchKeepsCounters(cfg: Config, u: Vars, inp: Inputs)
    requires cfg.Valid()
    ensures SystemReset !in Switch(cfg, u, inp).out ==> SameCounters(u, Switch(cfg, u, inp).v)
  {
    match u.state
    case Idle => IdleKeepsCounters(cfg, u, inp);
    case Ready => if inp.ign || u.oldIgn { ReadyCaseFrame(cfg, u, inp); }
    case Run => if inp.ign || u.oldIgn { RunCaseFrame(u, inp); }
    case Error =>
  }

  lemma IdleKeepsCounters(cfg: Config, v: Vars, inp: Inputs)
    requires cfg.Valid()
    ensures SameCounters(v, IdleCase(cfg, v, inp).v)
  {
  }

  /** In a pass that does not turn the controller off, each counter takes one
      step on that pass's reading. */
  lemma CycleCounters(cfg: Config, v: Vars, inp: Inputs)
    requires cfg.Valid() && !v.halted
    requires SystemReset !in Cycle(cfg, v, inp).out
    ensures var w := Cycle(cfg, v, inp).v;
            w.countMaxThrottleError == CountStep(v.countMaxThrottleError, inp.rawAccel > cfg.throttlePotMax)
            && w.countMinThrottleError == CountStep(v.countMinThrottleError, inp.rawAccel < cfg.throttlePotMin)
            && w.directionError == CountStep(v.directionError, inp.fwd && inp.rev)
  {
    var p := ReadAndShape(cfg, v, inp);
    ReadAndShapeCounters(cfg, v, inp);
    var sm := StateMachine(cfg, p.v, inp);
    assert SystemReset !in sm.out;
    StateMachineKeepsCounters(cfg, p.v, inp);
    assert SameCounters(sm.v, RunStateCheck(cfg, sm.v, inp));
  }

  /** A pass whose checks ahead of the state machine find an error halts in
      that same pass, its last calls being the halt's. */
  lemma ShapedErrorHalts(cfg: Config, v: Vars, inp: Inputs)
    requires cfg.Valid() && !v.halted && ReadAndShape(cfg, v, inp).v.state == Error
    ensures var r := Cycle(cfg, v, inp);
            r.v.state == Error && r.v.halted
            && |r.out| >= 3 && r.out[|r.out| - 3..] == HaltOutputs()
  {
    ReadAndShapeFrame(cfg, v, inp);
  }

  /** A trip of the throttle or the direction check halts the controller in
      the same pass. */
  lemma InputFaultsHaltInSamePass(cfg: Config, v: Vars, inp: Inputs)
    requires cfg.Valid() && !v.halted
    requires ThrottleTrips(cfg, v, inp.rawAccel) || DirectionTrips(v, inp.fwd, inp.rev)
    ensures var r := Cycle(cfg, v, inp);
            r.v.state == Error && r.v.halted
            && |r.out| >= 3 && r.out[|r.out| - 3..] == HaltOutputs()
  {
    ReadAndShapeCounters(cfg, v, inp);
    ShapedErrorHalts(cfg, v, inp);
  }

  /** Over passes that neither turn the controller off nor halt it, each
      counter is the fault counter of its readings. */
  lemma {:induction false} CountersOverPasses(cfg: Config, v: Vars, inps: seq<Inputs>)
    requires cfg.Valid()
    requires !Cycles(cfg, v, inps).v.halted && SystemReset !in Cycles(cfg, v, inps).out
    ensures var w := Cycles(cfg, v, inps).v;
            w.countMaxThrottleError == CountAfter(v.countMaxThrottleError, ThrottleHigh(cfg, inps))
            && w.countMinThrottleError == CountAfter(v.countMinThrottleError, ThrottleLow(cfg, inps))
            && w.directionError == CountAfter(v.directionError, BothSelected(inps))
    decreases |inps|
  {
    if inps != [] {
      var s := Cycle(cfg, v, inps[0]);
      assert SystemReset !in s.out;
      CycleCounters(cfg, v, inps[0]);
      CountersOverPasses(cfg, s.v, inps[1..]);
    }
  }

  /** Counted from power-up, after passes `inps` that neither turned the
      controller off nor halted it, the throttle check of the next pass (with
      readings `inp`) trips exactly when the last seven (more than
      THROTTLE_ERROR_COUNT) raw readings were all above THROTTLE_POT_MAX or
      all below THROTTLE_POT_MIN. */
  lemma ThrottleFaultOnSeventhReading(cfg: Config, inps: seq<Inputs>, inp: Inputs)
    requires cfg.Valid()
    requires !Cycles(cfg, Initial(), inps).v.halted && SystemReset !in Cycles(cfg, Initial(), inps).out
    ensures ThrottleTrips(cfg, Cycles(cfg, Initial(), inps).v, inp.rawAccel)
            <==> |inps| + 1 > THROTTLE_ERROR_COUNT
                 && (LastAllBad(ThrottleHigh(cfg, inps + [inp]), THROTTLE_ERROR_COUNT + 1)
                     || LastAllBad(ThrottleLow(cfg, inps + [inp]), THROTTLE_ERROR_COUNT + 1))
  {
    CountersOverPasses(cfg, Initial(), inps);
    ThrottleTripsFromReadings(cfg, Cycles(cfg, Initial(), inps).v, inps, inp);
  }

  lemma ThrottleTripsFromReadings(cfg: Config, w: Vars, inps: seq<Inputs>, inp: Inputs)
    requires w.countMaxThrottleError == CountAfter(0, ThrottleHigh(cfg, inps))
    requires w.countMinThrottleError == CountAfter(0, ThrottleLow(cfg, inps))
    ensures ThrottleTrips(cfg, w, inp.rawAccel)
            <==> |inps| + 1 > THROTTLE_ERROR_COUNT
                 && (LastAllBad(ThrottleHigh(cfg, inps + [inp]), THROTTLE_ERROR_COUNT + 1)
                     || LastAllBad(ThrottleLow(cfg, inps + [inp]), THROTTLE_ERROR_COUNT + 1))
  {
    HighLowAppend(cfg, inps, inp);
    NextReadingExceeds(ThrottleHigh(cfg, inps), inp.rawAccel > cfg.throttlePotMax, THROTTLE_ERROR_COUNT);
    NextReadingExceeds(ThrottleLow(cfg, inps), inp.rawAccel < cfg.throttlePotMin, THROTTLE_ERROR_COUNT);
  }

  /** Likewise the direction check trips exactly when FWD and REV were both
      selected on the last four (more than DIRECTION_ERROR_COUNT) passes. */
  lemma DirectionFaultOnFourthReading(cfg: Config, inps: seq<Inputs>, inp: Inputs)
    requires cfg.Valid()
    requires !Cycles(cfg, Initial(), inps).v.halted && SystemReset !in Cycles(cfg, Initial(), inps).out
    ensures DirectionTrips(Cycles(cfg, Initial(), inps).v, inp.fwd, inp.rev)
            <==> |inps| + 1 > DIRECTION_ERROR_COUNT
                 && LastAllBad(BothSelected(inps + [inp]), DIRECTION_ERROR_COUNT + 1)
  {
    CountersOverPasses(cfg, Initial(), inps);
    BothSelectedAppend(inps, inp);
    NextReadingExceeds(BothSelected(inps), inp.fwd && inp.rev, DIRECTION_ERROR_COUNT);
  }

  lemma {:induction false} HighLowAppend(cfg: Config, inps: seq<Inputs>, inp: Inputs)
    ensures ThrottleHigh(cfg, inps + [inp]) == ThrottleHigh(cfg, inps) + [inp.rawAccel > cfg.throttlePotMax]
    ensures ThrottleLow(cfg, inps + [inp]) == ThrottleLow(cfg, inps) + [inp.rawAccel < cfg.throttlePotMin]
    decreases |inps|
  {
    if inps != [] {
      assert (inps + [inp])[1..] == inps[1..] + [inp];
      HighLowAppend(cfg, inps[1..], inp);
    }
  }

  lemma {:induction false} BothSelectedAppend(inps: seq<Inputs>, inp: Inputs)
    ensures BothSelected(inps + [inp]) == BothSelected(inps) + [inp.fwd && inp.rev]
    decreases |inps|
  {
    if inps != [] {
      assert (inps + [inp])[1..] == inps[1..] + [inp];
      BothSelectedAppend(inps[1..], inp);
    }
  }

  // ---------------------------------------------------------------------------
  // The stall detector over many passes in RUN

  /** For each pass, whether it read a stall. */
  function StallReadings(inps: seq<Inputs>): (bad: seq<bool>)
    ensures |bad| == |inps|
  {
    if inps == [] then [] else [Stalled(inps[0].torque, inps[0].rpm)] + StallReadings(inps[1..])
  }

  /** The stall detector trips in a pass with readings `inp` that starts from
      `v`: the state machine sees the speed read at the top of the pass. */
  predicate StallPassTrips(v: Vars, inp: Inputs)
  {
    CountStep(v.motorStallError, Stalled(inp.torque, inp.rpm)) >= STALL_COUNT
  }

  /** A pass that starts and ends in RUN took the stall count one step on its
      reading. */
  lemma RunPassStallCount(cfg: Config, v: Vars, inp: Inputs)
    requires cfg.Valid() && v.state == Run && !v.halted && Cycle(cfg, v, inp).v.state == Run
    ensures Cycle(cfg, v, inp).v.motorStallError == CountStep(v.motorStallError, Stalled(inp.torque, inp.rpm))
    ensures !Cycle(cfg, v, inp).v.halted
  {
    var p := ReadAndShape(cfg, v, inp);
    ReadAndShapeFrame(cfg, v, inp);
    var sm := StateMachine(cfg, p.v, inp);
    assert sm.v.state == Run;
    assert p.v.state == Run;
  }

  /** A pass that starts in RUN ends in RUN or ERROR, or turns the controller
      off. */
  lemma RunPassOutcome(cfg: Config, v: Vars, inp: Inputs)
    requires cfg.Valid() && v.state == Run && !v.halted
    ensures var r := Cycle(cfg, v, inp);
            r.v.state == Run || r.v.state == Error || SystemReset in r.out
  {
    var p := ReadAndShape(cfg, v, inp);
    ReadAndShapeFrame(cfg, v, inp);
    var sm := StateMachine(cfg, p.v, inp);
    assert SystemReset in sm.out ==> SystemReset in p.out + sm.out;
  }

  /** Over passes that stay in RUN (the last one ends there and none turns
      the controller off), the stall count is the fault counter of the stall
      readings. */
  lemma {:induction false} StallCountOverRunPasses(cfg: Config, v: Vars, inps: seq<Inputs>)
    requires cfg.Valid() && v.state == Run && !v.halted
    requires Cycles(cfg, v, inps).v.state == Run && SystemReset !in Cycles(cfg, v, inps).out
    ensures Cycles(cfg, v, inps).v.motorStallError == CountAfter(v.motorStallError, StallReadings(inps))
    decreases |inps|
  {
    if inps != [] {
      var s := Cycle(cfg, v, inps[0]);
      RunPassOutcome(cfg, v, inps[0]);
      if s.v.state == Error {
        ErrorIsAbsorbing(cfg, s.v, inps[1..]);
      }
      assert SystemReset !in s.out;
      RunPassStallCount(cfg, v, inps[0]);
      StallCountOverRunPasses(cfg, s.v, inps[1..]);
    }
  }

  /** A stall-detector trip forces ERROR in that pass; when the checks ahead
      of the switch found nothing else, the torque request is zeroed too. */
  lemma StallTripForcesError(cfg: Config, v: Vars, inp: Inputs)
    requires cfg.Valid() && v.state == Run && !v.halted && (inp.ign || v.oldIgn) && StallPassTrips(v, inp)
    ensures Cycle(cfg, v, inp).v.state == Error
    ensures ReadAndShape(cfg, v, inp).v.state == Run && NoPreSwitchFault(cfg, ReadAndShape(cfg, v, inp).v, inp) ==>
      Cycle(cfg, v, inp).v.acceleratorRef == 0
  {
    var p := ReadAndShape(cfg, v, inp);
    ReadAndShapeFrame(cfg, v, inp);
    var sm := StateMachine(cfg, p.v, inp);
    if p.v.state == Run && NoPreSwitchFault(cfg, p.v, inp) {
      assert StallTrips(p.v, inp);
    }
  }

  /** Entering RUN starts the stall count from zero. */
  lemma RunEntryClearsStallCount(cfg: Config, v: Vars, inp: Inputs)
    requires cfg.Valid() && Inv(cfg, v) && !v.halted && v.state != Run && Cycle(cfg, v, inp).v.state == Run
    ensures Cycle(cfg, v, inp).v.motorStallError == 0
  {
    RunOnlyFromReady(cfg, v, inp);
    var p := ReadAndShape(cfg, v, inp);
    ReadAndShapeFrame(cfg, v, inp);
    ReadyCaseFrame(cfg, p.v, inp);
  }

  /** Counted from a RUN state with no stall count (as on entering RUN),
      after passes `inps` that stayed in RUN, the stall detector of the next
      pass trips exactly when the last STALL_COUNT readings, this one
      included, were all stalls: the detector fires on the 6000th stall
      reading in a row, not the 6001st. */
  lemma StallFaultOnSixThousandthReading(cfg: Config, v: Vars, inps: seq<Inputs>, inp: Inputs)
    requires cfg.Valid() && v.state == Run && !v.halted && v.motorStallError == 0
    requires Cycles(cfg, v, inps).v.state == Run && SystemReset !in Cycles(cfg, v, inps).out
    ensures StallPassTrips(Cycles(cfg, v, inps).v, inp)
            <==> |inps| + 1 >= STALL_COUNT && LastAllBad(StallReadings(inps + [inp]), STALL_COUNT)
  {
    StallCountOverRunPasses(cfg, v, inps);
    StallTripsFromReadings(Cycles(cfg, v, inps).v, StallReadings(inps), inp);
    StallReadingsAppend(inps, inp);
  }

  lemma StallTripsFromReadings(w: Vars, bad: seq<bool>, inp: Inputs)
    requires w.motorStallError == CountAfter(0, bad)
    ensures StallPassTrips(w, inp)
            <==> |bad| + 1 >= STALL_COUNT && LastAllBad(bad + [Stalled(inp.torque, inp.rpm)], STALL_COUNT)
  {
    NextReadingReaches(bad, Stalled(inp.torque, inp.rpm), STALL_COUNT);
  }

  lemma {:induction false} StallReadingsAppend(inps: seq<Inputs>, inp: Inputs)
    ensures StallReadings(inps + [inp]) == StallReadings(inps) + [Stalled(inp.torque, inp.rpm)]
    decreases |inps|
  {
    if inps != [] {
      assert (inps + [inp])[1..] == inps[1..] + [inp];
      StallReadingsAppend(inps[1..], inp);
    }
  }

  // ---------------------------------------------------------------------------
  // What every reachable state satisfies

  /** The invariant of the main loop: the halt loop is entered only in ERROR;
      the run LED flashes exactly in READY; there is no stall count before
      RUN; outside ERROR no throttle or
      direction counter has passed its limit and the stall count is below
      STALL_COUNT; the flux command is within FLUX_MIN..FLUX_MAX, the smoothed
      torque request fits a `short` and the bus-current retard is at most
      RETARD_COUNT_LIMIT. */
  predicate Inv(cfg: Config, v: Vars)
  {
    && (v.halted ==> v.state == Error)
    && (v.state == Ready ==> v.flashRunLed)
    && (v.state == Idle || v.state == Run ==> !v.flashRunLed)
    && 0 <= v.countMaxThrottleError && 0 <= v.countMinThrottleError && 0 <= v.directionError
    && 0 <= v.motorStallError
    && (v.state == Idle || v.state == Ready ==> v.motorStallError == 0)
    && (v.state != Error ==>
          && v.countMaxThrottleError <= THROTTLE_ERROR_COUNT
          && v.countMinThrottleError <= THROTTLE_ERROR_COUNT
          && v.directionError <= DIRECTION_ERROR_COUNT
          && v.motorStallError < STALL_COUNT)
    && FLUX_MIN <= v.flux <= FLUX_MAX
    && IsShort(v.acceleratorRefSmooth)
    && v.accelRetardCount <= RetardCountLimit(cfg)
  }

  lemma InitialInvariant(cfg: Config)
    requires cfg.Valid()
    ensures Inv(cfg, Initial())
  {
  }

  lemma PedalAndThrottleInvariant(cfg: Config, v: Vars, inp: Inputs)
    requires Inv(cfg, v)
    ensures Inv(cfg, ThrottleCheck(cfg, ReadPedal(cfg, v, inp), inp.rawAccel))
  {
  }

  lemma DirectionInvariant(cfg: Config, v: Vars, fwd: bool, rev: bool)
    requires Inv(cfg, v)
    ensures Inv(cfg, DirectionCheck(v, fwd, rev).v)
  {
  }

  lemma ShapeTorqueInvariant(cfg: Config, v: Vars, inp: Inputs, d: Direction)
    requires Inv(cfg, v)
    ensures Inv(cfg, ShapeTorque(cfg, v, inp, d).v)
  {
  }

  /** The stages ahead of the state machine keep the invariant. */
  lemma ReadAndShapeInvariant(cfg: Config, v: Vars, inp: Inputs)
    requires Inv(cfg, v)
    ensures Inv(cfg, ReadAndShape(cfg, v, inp).v)
  {
    var f := Flash(v, inp.flashElapsed);
    assert Inv(cfg, f.v);
    var v1 := ReadPedal(cfg, f.v, inp);
    var v2 := ThrottleCheck(cfg, v1, v1.rawAcceleratorRef);
    PedalAndThrottleInvariant(cfg, f.v, inp);
    var d := DirectionCheck(v2, inp.fwd, inp.rev);
    DirectionInvariant(cfg, v2, inp.fwd, inp.rev);
    var sh := ShapeTorque(cfg, d.v, inp, DecodeDirection(inp.fwd, inp.rev));
    ShapeTorqueInvariant(cfg, d.v, inp, DecodeDirection(inp.fwd, inp.rev));
    assert ReadAndShape(cfg, v, inp).v == sh.v;
  }

  lemma IdleInvariant(cfg: Config, v: Vars, inp: Inputs)
    requires cfg.Valid() && Inv(cfg, v) && v.state == Idle
    ensures Inv(cfg, IdleCase(cfg, v, inp).v)
  {
  }

  lemma ReadyInvariant(cfg: Config, v: Vars, inp: Inputs)
    requires cfg.Valid() && Inv(cfg, v) && v.state == Ready
    ensures Inv(cfg, ReadyCase(cfg, v, inp).v)
  {
  }

  lemma RunInvariant(cfg: Config, v: Vars, inp: Inputs)
    requires cfg.Valid() && Inv(cfg, v) && v.state == Run
    ensures Inv(cfg, RunCase(v, inp).v)
  {
  }

  /** The state machine keeps the invariant. */
  lemma StateMachineInvariant(cfg: Config, v: Vars, inp: Inputs)
    requires cfg.Valid() && Inv(cfg, v)
    ensures Inv(cfg, StateMachine(cfg, v, inp).v)
  {
    var u := v.(state := PreSwitchState(cfg, v.state, inp.motorParam, inp.watchdogTimeout, v.motorTemp));
    assert Inv(cfg, u);
    match u.state
    case Idle => IdleInvariant(cfg, u, inp);
    case Ready => ReadyInvariant(cfg, u, inp);
    case Run => RunInvariant(cfg, u, inp);
    case Error =>
  }

  /** One pass of the main loop keeps the invariant. */
  lemma CycleKeepsInvariant(cfg: Config, v: Vars, inp: Inputs)
    requires cfg.Valid() && Inv(cfg, v)
    ensures Inv(cfg, Cycle(cfg, v, inp).v)
  {
    if !v.halted {
      var p := ReadAndShape(cfg, v, inp);
      ReadAndShapeInvariant(cfg, v, inp);
      var sm := StateMachine(cfg, p.v, inp);
      StateMachineInvariant(cfg, p.v, inp);
      assert Inv(cfg, RunStateCheck(cfg, sm.v, inp));
    }
  }

  /** Every state reached from the constructor's satisfies the invariant. */
  lemma {:induction false} CyclesKeepInvariant(cfg: Config, v: Vars, inps: seq<Inputs>)
    requires cfg.Valid() && Inv(cfg, v)
    ensures Inv(cfg, Cycles(cfg, v, inps).v)
    decreases |inps|
  {
    if inps != [] {
      CycleKeepsInvariant(cfg, v, inps[0]);
      CyclesKeepInvariant(cfg, Cycle(cfg, v, inps[0]).v, inps[1..]);
    }
  }

  // ---------------------------------------------------------------------------
  // Single stages

  /** With neutral selected and no regenerative braking, no torque is
      requested, whatever the temperatures. */
  lemma NeutralRequestsNoTorque(cfg: Config, v: Vars, inp: Inputs, busCurrentAvg: int)
    requires cfg.Valid() && !(inp.brakeOn && inp.enableRegen)
    ensures TorqueRequest(cfg, v, inp, Net, busCurrentAvg) == 0
  {
  }

  /** READY's throttle-released interlock tests the request after the shaping
      of the same pass, which has already removed it for neutral: without
      brake regeneration and with ZERO_THROTTLE_TORQUE not negative, a start
      with neutral selected passes that interlock whatever the pedal reads. */
  lemma NeutralStartSeesReleasedThrottle(cfg: Config, v: Vars, inp: Inputs)
    requires cfg.Valid() && Neutral(inp.fwd, inp.rev) && !(inp.brakeOn && inp.enableRegen)
    requires cfg.zeroThrottleTorque >= 0
    ensures ReadAndShape(cfg, v, inp).v.acceleratorRef <= cfg.zeroThrottleTorque
  {
    var f := Flash(v, inp.flashElapsed);
    var v1 := ReadPedal(cfg, f.v, inp);
    var v2 := ThrottleCheck(cfg, v1, v1.rawAcceleratorRef);
    var d := DirectionCheck(v2, inp.fwd, inp.rev);
    var sh := ShapeTorque(cfg, d.v, inp, Net);
    NeutralRequestsNoTorque(cfg, d.v, inp, sh.v.busCurrentAvg);
    assert ReadAndShape(cfg, v, inp).v == sh.v;
  }

  /** The 99:1 smoothing toward a zero sample strictly shrinks any non-zero
      value and never changes its sign, so a released pedal brings the
      smoothed request down to zero. */
  lemma SmoothingDecays(previous: int)
    ensures previous >= 0 ==> 0 <= ExpSmooth(previous, 0) <= previous
    ensures previous <= 0 ==> previous <= ExpSmooth(previous, 0) <= 0
    ensures previous != 0 ==> Abs(ExpSmooth(previous, 0)) < Abs(previous)
  {
    var m := Abs(previous);
    if m > 0 {
      var q := (99 * m) / 100;
      assert 99 * m == q * 100 + (99 * m) % 100;
      MulMonotone(m, q, 100);
      assert Abs(ExpSmooth(previous, 0)) == Abs(99 * previous) / 100;
      assert Abs(99 * previous) == 99 * m;
    }
  }

  /** convertToDegrees never decreases as the angle grows. */
  lemma ConvertToDegreesMonotone(a: int, b: int)
    requires IsShort(a) && IsShort(b) && a <= b
    ensures ConvertToDegrees(a) <= ConvertToDegrees(b)
  {
    TruncDivMonotone(a * 180, b * 180, 32768);
  }
}
