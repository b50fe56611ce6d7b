/** doPrecharge: closing the high-voltage contactors through the precharge
    resistor. The contactors must all read open at the start; K1 (precharge)
    and K3 (main) are closed, and the bus voltage must keep rising (or already
    be above the precharge target) during the minimum precharge time, then
    reach the target before the maximum precharge time; finally K2 closes and
    K1 opens, and the feedback must show the run configuration. Every failure
    shuts the power stage down before returning.

    Time is the precharge timer's elapsed ms. The only thing that advances it is
    the blocking wait of PRECHARGE_ITERATION_WAIT ms between two readings; the
    bus voltage is read as a function of that elapsed time. */
module Precharge {
  import opened Stm32Interface
  import opened VehicleConfiguration

  /** PreCharge_T */
  datatype PreCharge = PrechargeOk | ContactorFeedbackError | Phase1Error | Phase2Error

  /** What doPrecharge reads from the hardware. */
  datatype Readings = Readings(
    atStart: Contactors,           // feedback before anything is switched
    afterPrechargeOn: Contactors,  // feedback after K1 and K3 are commanded closed
    atEnd: Contactors,             // feedback after K2 closes and K1 opens
    busVolt: nat -> int)           // getRawScaledBusVolt() t ms into the precharge

  /** The result of a precharge and the interface calls it made, in order. */
  datatype Run = Run(result: PreCharge, outputs: seq<Output>)

  predicate AllOpen(c: Contactors)
  {
    !c.k1 && !c.k2 && !c.k3
  }

  /** The feedback expected once precharge has begun: a three-relay box shows
      K1 closed; the contactor box without it only shows K1 while current flows,
      so K1 is not checked. */
  predicate PrechargeEngaged(cfg: Config, c: Contactors)
  {
    if cfg.threeRelay then c.k1 && !c.k2 && c.k3 else !c.k2 && c.k3
  }

  /** One reading of phase 1 is acceptable when the voltage is still rising or
      already above the precharge target. */
  predicate Rising(cfg: Config, v: int, prev: int)
  {
    v > prev || v > cfg.prechargeV
  }

  /** Phase 1 from elapsed time t, with `prev` the previous accepted reading:
      Some(time at which the minimum precharge time has passed), or None when a
      reading neither rose nor exceeded the target. It never ends successfully
      before the minimum precharge time. */
  function Phase1(cfg: Config, volt: nat -> int, t: nat, prev: int): (r: Option<nat>)
    requires cfg.Valid()
    ensures r.Some? ==> r.value >= t && r.value >= cfg.minPrechargeTime
    ensures r.None? ==> t < cfg.minPrechargeTime
    decreases cfg.minPrechargeTime - t
  {
    if t >= cfg.minPrechargeTime then Some(t)
    else if Rising(cfg, volt(t), prev) then Phase1(cfg, volt, t + cfg.prechargeIterationWait, volt(t))
    else None
  }

  /** Phase 2 from elapsed time t: Some(time at which the target voltage is
      read), or None when the maximum precharge time has passed first. It
      succeeds only on a reading at or above the target, and a reading at or
      above the target at t is an immediate success. */
  function Phase2(cfg: Config, volt: nat -> int, t: nat): (r: Option<nat>)
    requires cfg.Valid()
    ensures r.Some? ==> r.value >= t && volt(r.value) >= cfg.prechargeV
    ensures r.None? ==> volt(t) < cfg.prechargeV
    decreases cfg.maxPrechargeTime - t
  {
    if volt(t) >= cfg.prechargeV then Some(t)
    else if t < cfg.maxPrechargeTime then Phase2(cfg, volt, t + cfg.prechargeIterationWait)
    else None
  }

  /** The calls doPrecharge makes: the KiwiAC red LED, the three contactors
      and shutdownPower. */
  predicate PrechargeCall(o: Output)
  {
    o.SetKiwiRedLed? || o.SetK1? || o.SetK2? || o.SetK3? || o == ShutdownPower
  }

  /** The whole sequence, as a function of the readings. Every failure ends
      with the power stage shut down; success needs all three feedback checks
      to have passed, and shuts nothing down. */
  function Precharge(cfg: Config, rd: Readings): (r: Run)
    requires cfg.Valid()
    ensures forall o :: o in r.outputs ==> PrechargeCall(o)
    ensures r.result != PrechargeOk ==> |r.outputs| > 0 && r.outputs[|r.outputs| - 1] == ShutdownPower
    ensures r.result == PrechargeOk ==> ShutdownPower !in r.outputs
    ensures r.result == PrechargeOk ==>
      AllOpen(rd.atStart) && PrechargeEngaged(cfg, rd.afterPrechargeOn) && InRunStateConfiguration(rd.atEnd)
  {
    var lit := [SetKiwiRedLed(true)];
    if !AllOpen(rd.atStart) then Run(ContactorFeedbackError, lit + [ShutdownPower])
    else
      var closing := lit + [SetK2(false), SetK1(true), SetK3(true)];
      if !PrechargeEngaged(cfg, rd.afterPrechargeOn) then Run(ContactorFeedbackError, closing + [ShutdownPower])
      else
        match Phase1(cfg, rd.busVolt, 0, 0)
        case None => Run(Phase1Error, closing + [ShutdownPower])
        case Some(t1) =>
          match Phase2(cfg, rd.busVolt, t1)
          case None => Run(Phase2Error, closing + [ShutdownPower])
          case Some(_) =>
            var done := closing + [SetK2(true), SetK1(false)];
            if !InRunStateConfiguration(rd.atEnd) then Run(ContactorFeedbackError, done + [ShutdownPower])
            else Run(PrechargeOk, done)
  }

  /** doPrecharge, with its two timed loops. */
  method DoPrecharge(cfg: Config, rd: Readings) returns (result: PreCharge, outputs: seq<Output>)
    requires cfg.Valid()
    ensures Run(result, outputs) == Precharge(cfg, rd)
  {
    outputs := [SetKiwiRedLed(true)];
    var previousBusVoltage := 0;
    if !AllOpen(rd.atStart) {
      outputs := outputs + [ShutdownPower];
      return ContactorFeedbackError, outputs;
    }
    outputs := outputs + [SetK2(false), SetK1(true), SetK3(true)];
    if !PrechargeEngaged(cfg, rd.afterPrechargeOn) {
      outputs := outputs + [ShutdownPower];
      return ContactorFeedbackError, outputs;
    }

    var elapsed: nat := 0;
    while elapsed < cfg.minPrechargeTime
      invariant Phase1(cfg, rd.busVolt, elapsed, previousBusVoltage) == Phase1(cfg, rd.busVolt, 0, 0)
      decreases cfg.minPrechargeTime - elapsed
    {
      var busVoltage := rd.busVolt(elapsed);
      if busVoltage > previousBusVoltage || busVoltage > cfg.prechargeV {
        previousBusVoltage := busVoltage;
        elapsed := elapsed + cfg.prechargeIterationWait;
      } else {
        outputs := outputs + [ShutdownPower];
        return Phase1Error, outputs;
      }
    }
    ghost var t1 := elapsed;
    assert Phase1(cfg, rd.busVolt, 0, 0) == Some(t1);

    while rd.busVolt(elapsed) < cfg.prechargeV
      invariant Phase2(cfg, rd.busVolt, elapsed) == Phase2(cfg, rd.busVolt, t1)
      decreases cfg.maxPrechargeTime - elapsed
    {
      if elapsed < cfg.maxPrechargeTime {
        elapsed := elapsed + cfg.prechargeIterationWait;
      } else {
        outputs := outputs + [ShutdownPower];
        return Phase2Error, outputs;
      }
    }
    assert Phase2(cfg, rd.busVolt, t1) == Some(elapsed);

    outputs := outputs + [SetK2(true), SetK1(false)];
    if !InRunStateConfiguration(rd.atEnd) {
      outputs := outputs + [ShutdownPower];
      return ContactorFeedbackError, outputs;
    }
    result := PrechargeOk;
  }

  /** The reading times of phase 1 from elapsed time t. */
  function Phase1Times(cfg: Config, t: nat): seq<nat>
    requires cfg.Valid()
    decreases cfg.minPrechargeTime - t
  {
    if t >= cfg.minPrechargeTime then [] else [t] + Phase1Times(cfg, t + cfg.prechargeIterationWait)
  }

  /** Every reading in `ts` rose above the one before it (the first one above
      `prev`) or exceeded the target. */
  ghost predicate AllRising(cfg: Config, volt: nat -> int, ts: seq<nat>, prev: int)
  {
    |ts| == 0 || (Rising(cfg, volt(ts[0]), prev) && AllRising(cfg, volt, ts[1..], volt(ts[0])))
  }

  /** Phase 1 passes exactly when every reading it takes before the minimum
      precharge time is rising or above target. */
  lemma {:induction false} Phase1PassesIffAllRising(cfg: Config, volt: nat -> int, t: nat, prev: int)
    requires cfg.Valid()
    ensures Phase1(cfg, volt, t, prev).Some? <==> AllRising(cfg, volt, Phase1Times(cfg, t), prev)
    decreases cfg.minPrechargeTime - t
  {
    if t < cfg.minPrechargeTime {
      var t' := t + cfg.prechargeIterationWait;
      var ts := Phase1Times(cfg, t);
      assert ts[0] == t && ts[1..] == Phase1Times(cfg, t');
      Phase1PassesIffAllRising(cfg, volt, t', volt(t));
    }
  }

  /** Phase 2 fails only once the maximum precharge time has passed, with a
      reading below target taken at or after it. */
  lemma {:induction false} Phase2Outcome(cfg: Config, volt: nat -> int, t: nat)
    requires cfg.Valid()
    ensures Phase2(cfg, volt, t).None? ==>
      exists t': nat :: t' >= t && t' >= cfg.maxPrechargeTime && volt(t') < cfg.prechargeV
    decreases cfg.maxPrechargeTime - t
  {
    if volt(t) < cfg.prechargeV {
      if t < cfg.maxPrechargeTime {
        Phase2Outcome(cfg, volt, t + cfg.prechargeIterationWait);
      } else {
        assert t >= t && t >= cfg.maxPrechargeTime && volt(t) < cfg.prechargeV;
      }
    }
  }

  /** A successful precharge took at least the minimum precharge time with a
      rising voltage, reached the target, and left the contactors in the run
      configuration; every failure ended with the power stage shut down. */
  lemma PrechargeOkJustified(cfg: Config, rd: Readings)
    requires cfg.Valid() && Precharge(cfg, rd).result == PrechargeOk
    ensures AllRising(cfg, rd.busVolt, Phase1Times(cfg, 0), 0)
    ensures exists t: nat :: t >= cfg.minPrechargeTime && rd.busVolt(t) >= cfg.prechargeV
    ensures InRunStateConfiguration(rd.atEnd)
  {
    Phase1PassesIffAllRising(cfg, rd.busVolt, 0, 0);
    var t1 := Phase1(cfg, rd.busVolt, 0, 0).value;
    var t2 := Phase2(cfg, rd.busVolt, t1).value;
    assert t2 >= cfg.minPrechargeTime && rd.busVolt(t2) >= cfg.prechargeV;
  }
}
