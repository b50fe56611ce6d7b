/** The part of the motor-control interface (STM32Interface) that the vehicle
    control layer depends on: the classification returned by the one-shot
    parameter test, the contactor feedback with its run-configuration
    predicate, the neutral predicate, and the calls the controller makes
    into the interface, recorded as outputs. */
module Stm32Interface {

  datatype Option<T> = None | Some(value: T)

  /** MotorParamTest_T, the classification testVariousMotorParam reports. */
  datatype MotorParamTest = Ok | PwrStgOverheat | MaxBusV | Undervoltage | BrkHigh

  /** The `short` value that testVariousMotorParam returns for a classification. */
  function Code(t: MotorParamTest): (c: int)
    ensures 0 <= c <= 4
    ensures c == 0 <==> t == Ok
  {
    match t
    case Ok => 0
    case PwrStgOverheat => 1
    case MaxBusV => 2
    case Undervoltage => 3
    case BrkHigh => 4
  }

  /** Reads a raw result of testVariousMotorParam back as a classification;
      None for a value outside the enumeration. */
  function Classify(c: int): (t: Option<MotorParamTest>)
    ensures t.Some? <==> 0 <= c <= 4
    ensures t.Some? ==> Code(t.value) == c
  {
    if c == 0 then Some(Ok)
    else if c == 1 then Some(PwrStgOverheat)
    else if c == 2 then Some(MaxBusV)
    else if c == 3 then Some(Undervoltage)
    else if c == 4 then Some(BrkHigh)
    else None
  }

  /** Code and Classify are inverse: every classification survives the trip
      through its `short` value. */
  lemma {:induction false} ClassifyCode(t: MotorParamTest)
    ensures Classify(Code(t)) == Some(t)
  {
    match t
    case Ok =>
    case PwrStgOverheat =>
    case MaxBusV =>
    case Undervoltage =>
    case BrkHigh =>
  }

  /** Only the value 0 (MotorParamTest_OK) means that nothing is wrong. */
  predicate IsFault(c: int)
  {
    c != Code(Ok)
  }

  lemma OnlyOkIsNoFault(t: MotorParamTest)
    ensures IsFault(Code(t)) <==> t != Ok
  {
  }

  /** The physical feedback of the three contactors: true means closed.
      K1 is the precharge contactor, K2 and K3 are the main contactors. */
  datatype Contactors = Contactors(k1: bool, k2: bool, k3: bool)

  /** getContactorsInRunStateConfiguration: precharge contactor open and both
      main contactors closed. */
  function InRunStateConfiguration(c: Contactors): (r: bool)
    ensures r <==> c == Contactors(false, true, true)
  {
    if !c.k1 && c.k2 && c.k3 then true else false
  }

  /** No reading with the precharge contactor closed is a run configuration
      (in particular not all three closed). */
  lemma K1ClosedIsNeverRunConfiguration(c: Contactors)
    requires c.k1
    ensures !InRunStateConfiguration(c)
  {
  }

  /** getNET: neither forward nor reverse selected. */
  function Neutral(fwd: bool, rev: bool): (r: bool)
    ensures r <==> !(fwd || rev)
  {
    !rev && !fwd
  }

  /** Neutral excludes a single selection and the inconsistent reading with
      both selected. */
  lemma NeutralExcludesEverySelection(fwd: bool, rev: bool)
    ensures fwd && !rev ==> !Neutral(fwd, rev)
    ensures rev && !fwd ==> !Neutral(fwd, rev)
    ensures fwd && rev ==> !Neutral(fwd, rev)
  {
  }

  /** A call the vehicle-control layer makes into the interface. */
  datatype Output =
    | SetRunLed(on: bool)
    | SetErrorLed(on: bool)
    | SetKiwiRedLed(on: bool)
    | SetK1(closed: bool)
    | SetK2(closed: bool)
    | SetK3(closed: bool)
    | SetFlux(flux: int)
    | SetTorque(torque: int)
    | MotorInit
    | MotorStart
    | MotorTestForSpeedError
    | ShutdownPower
    | SystemReset
    | ResetFlashTimer
}
