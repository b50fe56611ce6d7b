/** TumanakoInverter as the firmware has it: an object whose member variables
    each pass of the main loop updates in place. Every method is proved to do
    what the matching function of InverterLogic says, so the properties proved
    there hold of the object. The calls it makes into the motor-control
    interface are appended to `outputs`. */
module Inverter {
  import opened CInt
  import opened Stm32Interface
  import opened VehicleConfiguration
  import opened InverterLogic
  import Precharge
  import InverterProperties

  /** Regrouping the outputs of the stages of one pass. */
  lemma AppendAssociative3(a: seq<Output>, b: seq<Output>, c: seq<Output>)
    ensures a + (b + c) == a + b + c
  {
  }

  lemma AppendAssociative4(a: seq<Output>, b: seq<Output>, c: seq<Output>, d: seq<Output>)
    ensures a + b + c + d == a + (b + c + d)
  {
  }

  class TumanakoInverter {
    const cfg: Config

    var state: RunState
    var oldIgn: bool
    var oldStart: bool
    var flashRunLed: bool
    /** flash()'s `static bool led_on` */
    var ledOn: bool
    var motorStallError: int
    var directionError: int
    var countMinThrottleError: int
    var countMaxThrottleError: int
    var rawAcceleratorRef: int
    var acceleratorRef: int
    var acceleratorRefSmooth: int
    var accelRetardCount: int
    var speedBasedTorqueLimit: int
    var busCurrentAvg: int
    var flux: int
    var motorRpm: int
    var absoluteMotorRpm: int
    var motorTemp: int
    /** The ERROR case's endless halt loop has been entered. */
    var halted: bool
    /** The calls made into the interface so far, oldest first. */
    var outputs: seq<Output>

    ghost function Snapshot(): Vars
      reads this
    {
      Vars(state, oldIgn, oldStart, flashRunLed, ledOn, motorStallError, directionError,
           countMinThrottleError, countMaxThrottleError, rawAcceleratorRef, acceleratorRef,
           acceleratorRefSmooth, accelRetardCount, speedBasedTorqueLimit, busCurrentAvg, flux,
           motorRpm, absoluteMotorRpm, motorTemp, halted)
    }

    /** The constructor's member initialisers. */
    constructor(cfg: Config)
      ensures this.cfg == cfg
      ensures Snapshot() == Initial() && outputs == []
    {
      this.cfg := cfg;
      outputs := [];
      new;
      Restart();
    }

    /** The member values a systemReset restarts from. */
    method Restart()
      modifies this
      ensures Snapshot() == Initial() && outputs == old(outputs)
    {
      ResetModes();
      ResetFaultCounters();
      ResetTorqueRequest();
      ResetMeasurements();
    }

    method ResetModes()
      modifies this`state, this`oldIgn, this`oldStart, this`flashRunLed, this`ledOn, this`halted
      ensures state == Idle && oldIgn && !oldStart && !flashRunLed && !ledOn && !halted
    {
      state, oldIgn, oldStart := Idle, true, false;
      flashRunLed, ledOn, halted := false, false, false;
    }

    method ResetFaultCounters()
      modifies this`motorStallError, this`directionError, this`countMinThrottleError, this`countMaxThrottleError
      ensures motorStallError == 0 && directionError == 0
      ensures countMinThrottleError == 0 && countMaxThrottleError == 0
    {
      motorStallError, directionError := 0, 0;
      countMinThrottleError, countMaxThrottleError := 0, 0;
    }

    method ResetTorqueRequest()
      modifies this`rawAcceleratorRef, this`acceleratorRef, this`acceleratorRefSmooth, this`accelRetardCount,
               this`speedBasedTorqueLimit
      ensures rawAcceleratorRef == 0 && acceleratorRef == 0 && acceleratorRefSmooth == 0
      ensures accelRetardCount == 0 && speedBasedTorqueLimit == 0
    {
      rawAcceleratorRef, acceleratorRef, acceleratorRefSmooth := 0, 0, 0;
      accelRetardCount, speedBasedTorqueLimit := 0, 0;
    }

    method ResetMeasurements()
      modifies this`busCurrentAvg, this`flux, this`motorRpm, this`absoluteMotorRpm, this`motorTemp
      ensures busCurrentAvg == 0 && flux == DEFAULT_FLUX && motorRpm == 0
      ensures absoluteMotorRpm == 0 && motorTemp == 0
    {
      busCurrentAvg, flux, motorRpm := 0, DEFAULT_FLUX, 0;
      absoluteMotorRpm, motorTemp := 0, 0;
    }

    /** flash: toggles the run LED phase once more than 125 ms have passed. */
    method Flash(elapsed: int)
      modifies this
      ensures Snapshot() == InverterLogic.Flash(old(Snapshot()), elapsed).v
      ensures outputs == old(outputs) + InverterLogic.Flash(old(Snapshot()), elapsed).out
    {
      if elapsed > FLASH_HALF_PERIOD_MS {
        if ledOn {
          if flashRunLed { outputs := outputs + [SetRunLed(true)]; }
          ledOn := false;
        } else {
          if flashRunLed { outputs := outputs + [SetRunLed(false)]; }
          ledOn := true;
        }
        outputs := outputs + [ResetFlashTimer];
      }
    }

    /** getDirection */
    method GetDirection(fwd: bool, rev: bool) returns (d: Direction)
      modifies this
      ensures d == DecodeDirection(fwd, rev)
      ensures Snapshot() == DirectionCheck(old(Snapshot()), fwd, rev).v
      ensures outputs == old(outputs) + DirectionCheck(old(Snapshot()), fwd, rev).out
    {
      if fwd && !rev {
        directionError := 0;
        return Fwd;
      } else if rev && !fwd {
        directionError := 0;
        return Rev;
      } else if Neutral(fwd, rev) {
        directionError := 0;
        return Net;
      } else {
        directionError := directionError + 1;
        if directionError > DIRECTION_ERROR_COUNT {
          outputs := outputs + [SetErrorLed(true)];
          state := Error;
        }
        return Net;
      }
    }

    /** doPrecharge, recording its interface calls. */
    method DoPrecharge(rd: Precharge.Readings) returns (result: Precharge.PreCharge)
      requires cfg.Valid()
      modifies this`outputs
      ensures result == Precharge.Precharge(cfg, rd).result
      ensures outputs == old(outputs) + Precharge.Precharge(cfg, rd).outputs
    {
      var calls;
      result, calls := Precharge.DoPrecharge(cfg, rd);
      outputs := outputs + calls;
    }

    /** turnOff. systemReset does not return: the controller restarts with the
        constructor's values. */
    method TurnOff()
      modifies this
      ensures Snapshot() == InverterLogic.TurnOff().v
      ensures outputs == old(outputs) + InverterLogic.TurnOff().out
    {
      outputs := outputs + [ShutdownPower];
      state := Idle;
      flashRunLed := false;
      outputs := outputs + [SetRunLed(false)];
      outputs := outputs + [SystemReset];
      Restart();
    }

    /** stateMachineDo: the fault checks, then the switch on the state. */
    method StateMachineDo(inp: Inputs)
      requires cfg.Valid()
      modifies this
      ensures Snapshot() == StateMachine(cfg, old(Snapshot()), inp).v
      ensures outputs == old(outputs) + StateMachine(cfg, old(Snapshot()), inp).out
    {
      ghost var v0 := Snapshot().(state := PreSwitchState(cfg, state, inp.motorParam, inp.watchdogTimeout, motorTemp));
      CheckMotorLimits(inp);
      assert Snapshot() == v0;
      SwitchOnState(inp);
    }

    /** The switch on the state. */
    method SwitchOnState(inp: Inputs)
      requires cfg.Valid()
      modifies this
      ensures Snapshot() == Switch(cfg, old(Snapshot()), inp).v
      ensures outputs == old(outputs) + Switch(cfg, old(Snapshot()), inp).out
    {
      match state
      case Idle => DoIdle(inp);
      case Ready => DoReady(inp);
      case Run => DoRun(inp);
      case Error => DoError();
    }

    /** The checks ahead of the switch: parameter test, watchdog, motor
        temperature. */
    method CheckMotorLimits(inp: Inputs)
      modifies this`state
      ensures state == PreSwitchState(cfg, old(state), inp.motorParam, inp.watchdogTimeout, motorTemp)
    {
      var motorParamError := inp.motorParam;
      if state != Error && motorParamError != Code(Ok) && Classify(motorParamError) != Some(Undervoltage) {
        state := Error;
      }
      if inp.watchdogTimeout {
        state := Error;
      }
      if motorTemp > cfg.maxMotorTemp {
        state := Error;
      }
    }

    /** case RunState_IDLE */
    method DoIdle(inp: Inputs)
      requires cfg.Valid()
      modifies this
      ensures Snapshot() == IdleCase(cfg, old(Snapshot()), inp).v
      ensures outputs == old(outputs) + IdleCase(cfg, old(Snapshot()), inp).out
    {
      if inp.ign {
        PowerUp(inp);
      }
    }

    /** IDLE with the ignition on: both LEDs on, precharge, and on success
        motor initialisation and READY. */
    method PowerUp(inp: Inputs)
      requires cfg.Valid() && inp.ign
      modifies this`state, this`flashRunLed, this`oldStart, this`outputs
      ensures var r := IdleCase(cfg, old(Snapshot()), inp);
              state == r.v.state && flashRunLed == r.v.flashRunLed && oldStart == r.v.oldStart
              && outputs == old(outputs) + r.out
    {
      var lights := [SetRunLed(true), SetErrorLed(true)];
      outputs := outputs + lights;
      ghost var afterLights := outputs;
      var pre := Precharge.PrechargeOk;
      if cfg.prechargeTest {
        pre := DoPrecharge(inp.precharge);
      }
      ghost var pr := if cfg.prechargeTest then Precharge.Precharge(cfg, inp.precharge)
                      else Precharge.Run(Precharge.PrechargeOk, []);
      assert outputs == afterLights + pr.outputs;
      if pre != Precharge.PrechargeOk {
        state := Error;
        AppendAssociative3(old(outputs), lights, pr.outputs);
      } else {
        outputs := outputs + [MotorInit, SetErrorLed(false)];
        flashRunLed, state, oldStart := true, Ready, false;
        AppendAssociative4(old(outputs), lights, pr.outputs, [MotorInit, SetErrorLed(false)]);
      }
    }

    /** case RunState_READY */
    method DoReady(inp: Inputs)
      requires state == Ready
      modifies this
      ensures Snapshot() == ReadyCase(cfg, old(Snapshot()), inp).v
      ensures outputs == old(outputs) + ReadyCase(cfg, old(Snapshot()), inp).out
    {
      if !inp.ign && !oldIgn {
        TurnOff();
      } else {
        ReadyCaseFrame(cfg, Snapshot(), inp);
        ReadyToStart(inp);
      }
    }

    /** READY with the ignition on, or on for the previous pass: the start
        request and its interlocks. */
    method ReadyToStart(inp: Inputs)
      requires state == Ready && (inp.ign || oldIgn)
      modifies this`oldIgn, this`state, this`flashRunLed, this`oldStart, this`outputs
      ensures var r := ReadyCase(cfg, old(Snapshot()), inp);
              oldIgn == r.v.oldIgn && state == r.v.state && flashRunLed == r.v.flashRunLed
              && oldStart == r.v.oldStart && outputs == old(outputs) + r.out
    {
      oldIgn := inp.ign;
      // Each start fault leaves the switch at once (the source's `break`).
      if inp.start && oldStart && !Neutral(inp.fwd, inp.rev) {
        state := Error;
      } else if inp.start && oldStart && inp.motorParam == Code(Undervoltage) {
        state := Error;
      } else if inp.start && oldStart && acceleratorRef > cfg.zeroThrottleTorque {
        state := Error;
      } else {
        if inp.start && oldStart {
          outputs := outputs + [MotorStart];
          state := Run;
          flashRunLed := false;
          outputs := outputs + [SetRunLed(true)];
          oldIgn := true;
        }
        oldStart := inp.start;
      }
    }

    /** case RunState_RUN */
    method DoRun(inp: Inputs)
      modifies this
      ensures Snapshot() == RunCase(old(Snapshot()), inp).v
      ensures outputs == old(outputs) + RunCase(old(Snapshot()), inp).out
    {
      ghost var v := Snapshot();
      TestForSpeedError();
      assert Snapshot() == v;
      if !inp.ign && !oldIgn {
        TurnOff();
        AppendAssociative3(old(outputs), [MotorTestForSpeedError], InverterLogic.TurnOff().out);
      } else {
        RunCaseFrame(v, inp);
        StallCheck(inp);
      }
    }

    /** motorTestForSpeedError, recorded. */
    method TestForSpeedError()
      modifies this`outputs
      ensures outputs == old(outputs) + [MotorTestForSpeedError]
    {
      outputs := outputs + [MotorTestForSpeedError];
    }

    /** RUN with the ignition on, or on for the previous pass: the stall
        detector. */
    method StallCheck(inp: Inputs)
      requires inp.ign || oldIgn
      modifies this`oldIgn, this`motorStallError, this`state, this`acceleratorRef
      ensures var r := RunCase(old(Snapshot()), inp).v;
              oldIgn == r.oldIgn && motorStallError == r.motorStallError && state == r.state
              && acceleratorRef == r.acceleratorRef
    {
      oldIgn := inp.ign;
      if inp.torque > STALL_TORQUE && motorRpm == 0 {
        motorStallError := motorStallError + 1;
        if motorStallError >= STALL_COUNT {
          state := Error;
          acceleratorRef := 0;
        }
      } else {
        motorStallError := 0;
      }
    }

    /** case RunState_ERROR: power stage off, error light on, then the endless
        halt loop, which `halted` records. */
    method DoError()
      modifies this`outputs, this`halted
      ensures halted
      ensures outputs == old(outputs) + HaltOutputs()
    {
      outputs := outputs + [ShutdownPower, SetRunLed(false), SetErrorLed(true)];
      halted := true;
    }

    /** One pass of doIt's main loop. */
    method Pass(inp: Inputs)
      requires cfg.Valid()
      modifies this
      ensures Snapshot() == Cycle(cfg, old(Snapshot()), inp).v
      ensures outputs == old(outputs) + Cycle(cfg, old(Snapshot()), inp).out
    {
      if halted {
        assert Cycle(cfg, Snapshot(), inp) == Step(Snapshot(), []);
        return;
      }
      ghost var v0 := Snapshot();
      ghost var out0 := outputs;
      ghost var f := InverterLogic.Flash(v0, inp.flashElapsed);
      Flash(inp.flashElapsed);
      assert Snapshot() == f.v && outputs == out0 + f.out;
      ghost var v1 := ReadPedal(cfg, f.v, inp);
      ReadAcceleratorStep(inp);
      assert Snapshot() == v1;
      ghost var v2 := ThrottleCheck(cfg, v1, v1.rawAcceleratorRef);
      ThrottleLimitsStep();
      assert Snapshot() == v2;
      ghost var d := DirectionCheck(v2, inp.fwd, inp.rev);
      var direction := GetDirection(inp.fwd, inp.rev);
      assert Snapshot() == d.v && outputs == out0 + f.out + d.out;
      ghost var sh := ShapeTorque(cfg, d.v, inp, direction);
      ShapeTorqueStep(inp, direction);
      assert Snapshot() == sh.v && outputs == out0 + f.out + d.out + sh.out;
      ghost var p := ReadAndShape(cfg, v0, inp);
      assert p == Step(sh.v, f.out + d.out + sh.out);
      AppendAssociative4(out0, f.out, d.out, sh.out);
      ghost var sm := StateMachine(cfg, p.v, inp);
      StateMachineDo(inp);
      assert Snapshot() == sm.v && outputs == out0 + p.out + sm.out;
      CheckRunState(inp);
      assert Cycle(cfg, v0, inp) == Step(RunStateCheck(cfg, sm.v, inp), p.out + sm.out);
      AppendAssociative3(out0, p.out, sm.out);
    }

    /** ReadAccelerator on the whole member state. */
    method ReadAcceleratorStep(inp: Inputs)
      modifies this
      ensures Snapshot() == ReadPedal(cfg, old(Snapshot()), inp)
      ensures outputs == old(outputs)
    {
      ReadAccelerator(inp);
    }

    /** RPM, the speed-based torque limit and the torque request from the
        throttle pot. */
    method ReadAccelerator(inp: Inputs)
      modifies this`motorRpm, this`absoluteMotorRpm, this`speedBasedTorqueLimit, this`rawAcceleratorRef,
               this`acceleratorRef
      ensures var r := ReadPedal(cfg, old(Snapshot()), inp);
              motorRpm == r.motorRpm && absoluteMotorRpm == r.absoluteMotorRpm
              && speedBasedTorqueLimit == r.speedBasedTorqueLimit
              && rawAcceleratorRef == r.rawAcceleratorRef && acceleratorRef == r.acceleratorRef
    {
      motorRpm := inp.rpm;
      absoluteMotorRpm := Abs(motorRpm);
      if cfg.speedBasedTorqueLimit {
        if absoluteMotorRpm > cfg.torqueLimitRpmStart && absoluteMotorRpm < cfg.torqueLimitRpmEnd {
          speedBasedTorqueLimit := cfg.speedEu(absoluteMotorRpm);
        } else if absoluteMotorRpm >= cfg.torqueLimitRpmEnd {
          speedBasedTorqueLimit := cfg.speedBasedTorqueLimitMax;
        } else {
          speedBasedTorqueLimit := cfg.speedBasedTorqueLimitMin;
        }
      }
      rawAcceleratorRef := inp.rawAccel;
      acceleratorRef := cfg.torqueEu(rawAcceleratorRef, accelRetardCount + speedBasedTorqueLimit);
    }

    /** CheckThrottleLimits on the whole member state. */
    method ThrottleLimitsStep()
      modifies this
      ensures Snapshot() == ThrottleCheck(cfg, old(Snapshot()), old(rawAcceleratorRef))
      ensures outputs == old(outputs)
    {
      CheckThrottleLimits();
    }

    /** The throttle wiring check of the main loop. */
    method CheckThrottleLimits()
      modifies this`countMaxThrottleError, this`countMinThrottleError, this`state, this`acceleratorRef
      ensures var t := ThrottleCheck(cfg, old(Snapshot()), old(rawAcceleratorRef));
              countMaxThrottleError == t.countMaxThrottleError && countMinThrottleError == t.countMinThrottleError
              && state == t.state && acceleratorRef == t.acceleratorRef
    {
      if rawAcceleratorRef > cfg.throttlePotMax {
        countMaxThrottleError := countMaxThrottleError + 1;
        if countMaxThrottleError > THROTTLE_ERROR_COUNT {
          state := Error;
          acceleratorRef := 0;
        }
      } else {
        countMaxThrottleError := 0;
      }
      if rawAcceleratorRef < cfg.throttlePotMin {
        countMinThrottleError := countMinThrottleError + 1;
        if countMinThrottleError > THROTTLE_ERROR_COUNT {
          state := Error;
          acceleratorRef := 0;
        }
      } else {
        countMinThrottleError := 0;
      }
    }

    /** ShapeTorqueRequest on the whole member state. */
    method ShapeTorqueStep(inp: Inputs, direction: Direction)
      modifies this
      ensures Snapshot() == ShapeTorque(cfg, old(Snapshot()), inp, direction).v
      ensures outputs == old(outputs) + ShapeTorque(cfg, old(Snapshot()), inp, direction).out
    {
      ShapeTorqueRequest(inp, direction);
    }

    /** The torque-request shaping of the main loop, from the direction sign to
        the flux and torque commands. */
    method ShapeTorqueRequest(inp: Inputs, direction: Direction)
      modifies this`acceleratorRef, this`busCurrentAvg, this`motorTemp, this`accelRetardCount,
               this`acceleratorRefSmooth, this`flux, this`outputs
      ensures var sh := ShapeTorque(cfg, old(Snapshot()), inp, direction);
              acceleratorRef == sh.v.acceleratorRef && busCurrentAvg == sh.v.busCurrentAvg
              && motorTemp == sh.v.motorTemp && accelRetardCount == sh.v.accelRetardCount
              && acceleratorRefSmooth == sh.v.acceleratorRefSmooth && flux == sh.v.flux
              && outputs == old(outputs) + sh.out
    {
      var avg := ExpSmooth(busCurrentAvg, inp.busCurrent);
      var ref := LimitedTorqueRequest(inp, direction, avg);
      var retard := BusCurrentRetard(avg);
      var smooth := SmoothTorque(acceleratorRefSmooth, ref);
      var fluxRequest := FluxFor(smooth);
      acceleratorRef, busCurrentAvg, motorTemp := ref, avg, inp.motorTemperature;
      accelRetardCount, acceleratorRefSmooth, flux := retard, smooth, fluxRequest;
      outputs := outputs + [SetFlux(fluxRequest), SetTorque(smooth)];
    }
    /** The torque request through direction, regenerative braking, dead spot,
        crawl and temperature limit. The request is worked on in a local; the
        member is stored once by the caller, and nothing in between reads it. */
    method LimitedTorqueRequest(inp: Inputs, direction: Direction, avg: int) returns (ref: int)
      ensures ref == TorqueRequest(cfg, Snapshot(), inp, direction, avg)
    {
      ref := RegenTorqueRequest(inp, direction, avg);
      ref := LimitTorqueRequest(inp, ref);
    }

    /** The direction sign and the two regenerative braking rules. */
    method RegenTorqueRequest(inp: Inputs, direction: Direction, avg: int) returns (ref: int)
      ensures ref == BrakeRegen(cfg, RegenCutoff(cfg, ApplyDirection(acceleratorRef, direction), direction, motorRpm),
                                motorRpm, inp.rawScaledBusVolt, avg, inp.brakeOn, inp.enableRegen)
    {
      ref := acceleratorRef;
      if direction == Rev {
        ref := -ref;
      } else if direction == Net {
        ref := 0;
      }

      // Regenerative braking logic #1
      if (direction == Fwd && ref < 0 && motorRpm < cfg.glideRpm)
         || (direction == Rev && ref > 0 && motorRpm > -cfg.glideRpm) {
        if (direction == Fwd && motorRpm <= cfg.startRegenRampRpm)
           || (direction == Rev && motorRpm >= -cfg.startRegenRampRpm) {
          ref := cfg.zeroThrottleTorque;
        }
      }
      ghost var r2 := ref;
      assert r2 == RegenCutoff(cfg, ApplyDirection(acceleratorRef, direction), direction, motorRpm);

      // Regenerative braking logic #2
      if inp.rawScaledBusVolt <= cfg.maxBusV && avg <= cfg.maxRegenCurrentA {
        if inp.brakeOn && inp.enableRegen {
          ref := ref - cfg.brakeTorqueReduction;
          if ref < cfg.torqueMin - cfg.brakeTorqueReduction {
            ref := cfg.torqueMin - cfg.brakeTorqueReduction;
          }
          if motorRpm < cfg.glideRpm {
            ref := 0;
          }
        }
      }
    }

    /** The dead spot, crawl mode and the temperature limit. */
    method LimitTorqueRequest(inp: Inputs, request: int) returns (ref: int)
      ensures ref == TemperatureLimit(cfg, Crawl(cfg, DeadSpot(cfg, request), inp.crawl, absoluteMotorRpm),
                                      inp.motorTemperature, inp.powerStageTemperature)
    {
      ref := request;
      if ref > -cfg.accelDeadSpot && ref < cfg.accelDeadSpot {
        ref := 0;
      }
      ghost var r4 := ref;

      if inp.crawl {
        ref := TruncDiv(ref, 2);
        if absoluteMotorRpm > cfg.crawlRpmLimit {
          ref := 0;
        }
      }
      ghost var r5 := ref;
      assert r5 == Crawl(cfg, r4, inp.crawl, absoluteMotorRpm);

      var maxMeasuredTemp := Max(inp.motorTemperature, inp.powerStageTemperature);
      if maxMeasuredTemp > cfg.motorTempLimitStart {
        if maxMeasuredTemp >= cfg.motorTempLimitEnd {
          ref := 0;
        } else {
          ref := cfg.temperatureDerating(ref, maxMeasuredTemp);
        }
      }
    }

    /** The bus-current retard (DC_BUS_CURRENT_BASED_TORQUE_LIMIT builds). */
    method BusCurrentRetard(avg: int) returns (retard: int)
      ensures retard == RetardUpdate(cfg, accelRetardCount, avg)
    {
      retard := accelRetardCount;
      if cfg.dcBusCurrentBasedTorqueLimit {
        if avg > cfg.busCurrentLimitStart {
          if avg >= cfg.busCurrentLimitEnd {
            retard := RetardCountLimit(cfg);
          } else {
            retard := cfg.retardScaling(avg);
          }
          if retard > RetardCountLimit(cfg) {
            retard := RetardCountLimit(cfg);
          }
        } else if retard > 0 {
          retard := retard - 1;
        }
      }
    }

    /** The flux command for a smoothed torque request. */
    method FluxFor(smooth: int) returns (fluxRequest: int)
      ensures fluxRequest == SelectFlux(smooth)
    {
      fluxRequest := FLUX_MIN;
      if Abs(smooth) > FLUX_MIN {
        fluxRequest := Abs(smooth);
      }
      if fluxRequest > FLUX_MAX {
        fluxRequest := FLUX_MAX;
      }
    }

    /** The checks after the state machine while in RUN: bus voltage and, in
        TUMANAKO_PRECHARGE_TEST builds, the contactor feedback. */
    method CheckRunState(inp: Inputs)
      modifies this
      ensures Snapshot() == RunStateCheck(cfg, old(Snapshot()), inp)
      ensures outputs == old(outputs)
    {
      if state == Run {
        var s := state;
        if !BusVoltageOK(cfg, inp.rawScaledBusVolt) {
          s := Error;
        }
        if cfg.prechargeTest && !InRunStateConfiguration(inp.contactors) {
          s := Error;
        }
        state := s;
      }
    }

    /** doIt: initialisation, then the main loop over the readings of
        successive passes. */
    method DoIt(passes: seq<Inputs>)
      requires cfg.Valid()
      modifies this
      ensures Snapshot() == Cycles(cfg, old(Snapshot()), passes).v
      ensures outputs == old(outputs) + StartupOutputs() + Cycles(cfg, old(Snapshot()), passes).out
      ensures InverterProperties.Inv(cfg, old(Snapshot())) ==> InverterProperties.Inv(cfg, Snapshot())
    {
      outputs := outputs + [SetRunLed(false), SetErrorLed(false)];
      outputs := outputs + [SetRunLed(true)];
      outputs := outputs + [ResetFlashTimer];
      assert outputs == old(outputs) + StartupOutputs();
      ghost var v0 := Snapshot();
      ghost var out0 := outputs;
      var i := 0;
      while i < |passes|
        invariant 0 <= i <= |passes|
        invariant Cycles(cfg, Snapshot(), passes[i..]).v == Cycles(cfg, v0, passes).v
        invariant outputs + Cycles(cfg, Snapshot(), passes[i..]).out == out0 + Cycles(cfg, v0, passes).out
      {
        ghost var before := Snapshot();
        ghost var outBefore := outputs;
        assert passes[i..][0] == passes[i] && passes[i..][1..] == passes[i + 1..];
        ghost var c := Cycle(cfg, before, passes[i]);
        ghost var rest := Cycles(cfg, c.v, passes[i + 1..]);
        assert Cycles(cfg, before, passes[i..]) == Step(rest.v, c.out + rest.out);
        Pass(passes[i]);
        AppendAssociative3(outBefore, c.out, rest.out);
        i := i + 1;
      }
      assert passes[i..] == [];
      if InverterProperties.Inv(cfg, v0) {
        InverterProperties.CyclesKeepInvariant(cfg, v0, passes);
      }
    }
  }
}
