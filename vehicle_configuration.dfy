/** The build configuration of the controller: the WS28 motor (TUMANAKO_WS28)
    with its fixed flux limits, plus the vehicle constants and build switches
    that come from tumanako_vehicle_configuration.h. That header is not part of
    this model, so its values are fields of a Config record, constrained only by
    the assumptions in Config.Valid(). */
module VehicleConfiguration {
  import opened CInt

  /** FLUX_MIN for TUMANAKO_WS28 */
  const FLUX_MIN: int := 8000
  /** DEFAULT_FLUX for TUMANAKO_WS28 */
  const DEFAULT_FLUX: int := 14000
  /** FLUX_MAX is DEFAULT_FLUX */
  const FLUX_MAX: int := DEFAULT_FLUX
  /** Consecutive out-of-range throttle readings tolerated before a wiring fault. */
  const THROTTLE_ERROR_COUNT: int := 6
  /** Inconsistent direction readings tolerated before an error. */
  const DIRECTION_ERROR_COUNT: int := 3
  /** Stall detection: torque feedback above this with the rotor stopped ... */
  const STALL_TORQUE: int := 400
  /** ... for this many state-machine calls is a stall. */
  const STALL_COUNT: int := 6000
  /** The run LED changes phase when more than this many ms have elapsed. */
  const FLASH_HALF_PERIOD_MS: int := 125

  datatype Config = Config(
    throttlePotMin: int,                // THROTTLE_POT_MIN
    throttlePotMax: int,                // THROTTLE_POT_MAX
    torqueMin: int,                     // TORQUE_MIN
    torqueMax: int,                     // TORQUE_MAX
    zeroThrottleTorque: int,            // ZERO_THROTTLE_TORQUE
    glideRpm: int,                      // GLIDE_RPM
    startRegenRampRpm: int,             // START_REGEN_RAMP_RPM
    maxBusV: int,                       // TUMANAKO_MAX_BUS_V
    maxRegenCurrentA: int,              // TUMANAKO_MAX_REGEN_CURRENT_A
    brakeTorqueReduction: int,          // BRAKE_TORQUE_REDUCTION
    accelDeadSpot: int,                 // ACCEL_DEAD_SPOT
    crawlRpmLimit: int,                 // TUMANAKO_CRAWL_RPM_LIMIT
    motorTempLimitStart: int,           // TUMANAKO_MOTOR_TEMP_LIMIT_START
    motorTempLimitEnd: int,             // TUMANAKO_MOTOR_TEMP_LIMIT_END
    busCurrentLimitStart: int,          // TUMANAKO_BUS_CURRENT_LIMIT_START
    busCurrentLimitEnd: int,            // TUMANAKO_BUS_CURRENT_LIMIT_END
    busCurrentLimitEffectMax: int,      // TUMANAKO_BUS_CURRENT_LIMIT_EFFECT_MAX (percent)
    torqueLimitRpmStart: int,           // TUMANAKO_TORQUE_LIMIT_RPM_START
    torqueLimitRpmEnd: int,             // TUMANAKO_TORQUE_LIMIT_RPM_END
    speedBasedTorqueLimitMin: int,      // TUMANAKO_SPEED_BASED_TORQUE_LIMIT_MIN
    speedBasedTorqueLimitMax: int,      // TUMANAKO_SPEED_BASED_TORQUE_LIMIT_MAX
    maxMotorTemp: int,                  // TUMANAKO_MAX_MOTOR_TEMP
    prechargeV: int,                    // TUMANAKO_PRECHARGE_V
    minPrechargeTime: int,              // TUMANAKO_MIN_PRECHARGE_TIME (ms)
    maxPrechargeTime: int,              // TUMANAKO_MAX_PRECHARGE_TIME (ms)
    prechargeIterationWait: int,        // TUMANAKO_PRECHARGE_ITERATION_WAIT (ms)
    prechargeTest: bool,                // TUMANAKO_PRECHARGE_TEST defined?
    threeRelay: bool,                   // TUMANAKO_THREE_RELAY defined?
    speedBasedTorqueLimit: bool,        // SPEED_BASED_TORQUE_LIMIT defined?
    dcBusCurrentBasedTorqueLimit: bool, // DC_BUS_CURRENT_BASED_TORQUE_LIMIT defined?
    /** Digital torque(...).eu(raw, reduction): throttle position to torque request. */
    torqueEu: (int, int) -> int,
    /** Digital speedBasedTorqueLimit(...).eu(rpm). */
    speedEu: int -> int,
    /** The floating-point derating between the two temperature limits
        (torque request, hottest temperature) to torque request. */
    temperatureDerating: (int, int) -> int,
    /** The floating-point retard scaling between the two bus-current limits. */
    retardScaling: int -> int)
  {
    /** What the model assumes of the configuration header: the precharge
        loop's wait is a positive number of ms, the torque-reduction cap is
        built from non-negative factors, and TUMANAKO_MOTOR_TEMP_LIMIT_RANGE
        is the width of the derating band, so that strictly between the two
        temperature limits the derating factor lies between 0 and 1: the
        derated request keeps the sign of the request and is no larger. */
    ghost predicate Valid()
    {
      && prechargeIterationWait > 0
      && busCurrentLimitEffectMax >= 0
      && torqueMax >= 0
      && (forall ref, temp :: motorTempLimitStart < temp < motorTempLimitEnd ==>
            && (ref >= 0 ==> 0 <= temperatureDerating(ref, temp) <= ref)
            && (ref <= 0 ==> ref <= temperatureDerating(ref, temp) <= 0))
    }
  }

  /** RETARD_COUNT_LIMIT: the largest torque reduction the bus-current limit
      may apply, a percentage of TORQUE_MAX. */
  function RetardCountLimit(cfg: Config): (r: int)
    ensures cfg.Valid() ==> r >= 0
  {
    MulMonotone(0, cfg.busCurrentLimitEffectMax, cfg.torqueMax);
    TruncDiv(cfg.busCurrentLimitEffectMax * cfg.torqueMax, 100)
  }
}
