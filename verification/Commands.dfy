/** Command words, execution times, per-kind tables and admission limits. */
module Commands {
  import opened Types

  const CMD_START_PERIODIC: u16 := 0x21B1
  const CMD_READ_MEASUREMENT: u16 := 0xEC05
  const CMD_STOP_PERIODIC: u16 := 0x3F86
  const CMD_SET_TEMPERATURE_OFFSET: u16 := 0x241D
  const CMD_GET_TEMPERATURE_OFFSET: u16 := 0x2318
  const CMD_SET_SENSOR_ALTITUDE: u16 := 0x2427
  const CMD_GET_SENSOR_ALTITUDE: u16 := 0x2322
  const CMD_AMBIENT_PRESSURE: u16 := 0xE000  // one word for both the read and the write
  const CMD_FORCED_RECALIBRATION: u16 := 0x362F
  const CMD_SET_ASC_ENABLED: u16 := 0x2416
  const CMD_GET_ASC_ENABLED: u16 := 0x2313
  const CMD_SET_ASC_TARGET: u16 := 0x243A
  const CMD_GET_ASC_TARGET: u16 := 0x233F
  const CMD_START_LOW_POWER: u16 := 0x21AC
  const CMD_GET_DATA_READY: u16 := 0xE4B8
  const CMD_PERSIST_SETTINGS: u16 := 0x3615
  const CMD_GET_SERIAL: u16 := 0x3682
  const CMD_SELF_TEST: u16 := 0x3639
  const CMD_FACTORY_RESET: u16 := 0x3632
  const CMD_REINIT: u16 := 0x3646
  const CMD_GET_VARIANT: u16 := 0x202F
  const CMD_SET_ASC_INITIAL_PERIOD: u16 := 0x2445
  const CMD_GET_ASC_INITIAL_PERIOD: u16 := 0x2340
  const CMD_SET_ASC_STANDARD_PERIOD: u16 := 0x244E
  const CMD_GET_ASC_STANDARD_PERIOD: u16 := 0x234B
  const CMD_SINGLE_SHOT: u16 := 0x219D
  const CMD_SINGLE_SHOT_RHT: u16 := 0x2196
  const CMD_POWER_DOWN: u16 := 0x36E0
  const CMD_WAKE_UP: u16 := 0x36F6

  const SHORT_MS: nat := 1
  const POWER_UP_MS: nat := 30
  const POWER_UP_MAX_MS: nat := 1000
  const REINIT_MS: nat := 30
  const SINGLE_SHOT_RHT_MS: nat := 50
  const FRC_MS: nat := 400
  const STOP_MS: nat := 500
  const SINGLE_SHOT_MS: nat := 5000
  const PERSIST_MS: nat := 800
  const FACTORY_RESET_MS: nat := 1200
  const SELF_TEST_MS: nat := 10000

  const ALTITUDE_MAX_M: nat := 3000
  const PRESSURE_MIN_PA: nat := 70000
  const PRESSURE_MAX_PA: nat := 120000
  const PRESSURE_MIN_WORD: nat := 700
  const PRESSURE_MAX_WORD: nat := 1200
  const PERIOD_STEP: nat := 4
  const SELF_TEST_PASS: nat := 0
  const FRC_FAILED: nat := 0xFFFF
  const FRC_BIAS: nat := 0x8000

  /** `get` and `set` commands of a setting. */
  function GetCommand(f: Field): u16 {
    match f
    case TemperatureOffset => CMD_GET_TEMPERATURE_OFFSET
    case SensorAltitude => CMD_GET_SENSOR_ALTITUDE
    case AmbientPressure => CMD_AMBIENT_PRESSURE
    case AscEnabled => CMD_GET_ASC_ENABLED
    case AscTarget => CMD_GET_ASC_TARGET
    case AscInitialPeriod => CMD_GET_ASC_INITIAL_PERIOD
    case AscStandardPeriod => CMD_GET_ASC_STANDARD_PERIOD
  }

  function SetCommand(f: Field): u16 {
    match f
    case TemperatureOffset => CMD_SET_TEMPERATURE_OFFSET
    case SensorAltitude => CMD_SET_SENSOR_ALTITUDE
    case AmbientPressure => CMD_AMBIENT_PRESSURE
    case AscEnabled => CMD_SET_ASC_ENABLED
    case AscTarget => CMD_SET_ASC_TARGET
    case AscInitialPeriod => CMD_SET_ASC_INITIAL_PERIOD
    case AscStandardPeriod => CMD_SET_ASC_STANDARD_PERIOD
  }

  /** The field read at each step of READ_CONFIGURATION. */
  function FieldAt(index: nat): Field {
    if index == 0 then TemperatureOffset
    else if index == 1 then SensorAltitude
    else if index == 2 then AmbientPressure
    else if index == 3 then AscEnabled
    else if index == 4 then AscTarget
    else if index == 5 then AscInitialPeriod
    else AscStandardPeriod
  }

  predicate IsManagedCommand(command: u16) {
    command in {
      CMD_START_PERIODIC, CMD_READ_MEASUREMENT, CMD_STOP_PERIODIC, CMD_SET_TEMPERATURE_OFFSET,
      CMD_GET_TEMPERATURE_OFFSET, CMD_SET_SENSOR_ALTITUDE, CMD_GET_SENSOR_ALTITUDE,
      CMD_AMBIENT_PRESSURE, CMD_FORCED_RECALIBRATION, CMD_SET_ASC_ENABLED, CMD_GET_ASC_ENABLED,
      CMD_SET_ASC_TARGET, CMD_GET_ASC_TARGET, CMD_START_LOW_POWER, CMD_GET_DATA_READY,
      CMD_PERSIST_SETTINGS, CMD_GET_SERIAL, CMD_SELF_TEST, CMD_FACTORY_RESET, CMD_REINIT,
      CMD_GET_VARIANT, CMD_SET_ASC_INITIAL_PERIOD, CMD_GET_ASC_INITIAL_PERIOD,
      CMD_SET_ASC_STANDARD_PERIOD, CMD_GET_ASC_STANDARD_PERIOD, CMD_SINGLE_SHOT,
      CMD_SINGLE_SHOT_RHT, CMD_POWER_DOWN, CMD_WAKE_UP }
  }

  // ----- Classification of kinds -----

  predicate IsMaintenance(k: Kind) {
    k.Reinit? || k.SelfTest? || k.ForcedRecalibration? || k.PersistSettings? || k.FactoryReset?
  }

  predicate IsDiagnostic(k: Kind) {
    k.DiagReadWords? || k.DiagWriteCommand? || k.DiagWriteWord?
  }

  predicate IsMeasurement(k: Kind) {
    k.FetchSample? || k.SingleShot? || k.SingleShotRht?
  }

  /** Kinds that are one mode command. */
  predicate IsModeCommand(k: Kind) {
    k.StartPeriodic? || k.StartLowPower? || k.StopPeriodic? || k.PowerDown? || k.WakeUp?
  }

  predicate IsReadLike(k: Kind) {
    k.ReadIdentity? || k.ReadVariant? || k.ReadDataReady? || k.ReadSetting? || k.ReadConfiguration?
  }

  predicate IsReset(k: Kind) { k.Reinit? || k.FactoryReset? }

  predicate IsEffectful(k: Kind) {
    k.WriteSetting? || IsMaintenance(k) || k.Attach? || IsModeCommand(k) || k.SingleShot? ||
    k.SingleShotRht? || IsDiagnostic(k)
  }

  predicate IsCompensation(f: Field) { f.SensorAltitude? || f.AmbientPressure? }

  predicate PeriodicAllowed(k: Kind) {
    k.ReadDataReady? || k.FetchSample? || k == ReadSetting(AmbientPressure) ||
    k == WriteSetting(AmbientPressure) || k.StopPeriodic?
  }

  /** Kinds that only SCD41 and SCD43 offer. */
  predicate NeedsSingleShotVariant(k: Kind) {
    k.SingleShot? || k.SingleShotRht? || k.ReadConfiguration? || k.PowerDown? || k.WakeUp? ||
    ((k.ReadSetting? || k.WriteSetting?) && (k.field.AscInitialPeriod? || k.field.AscStandardPeriod?))
  }

  /** Kinds whose result publishes the configuration. */
  predicate PublishesConfiguration(k: Kind) {
    k.ReadSetting? || k.WriteSetting? || k.ReadConfiguration? || k.PersistSettings? || IsReset(k)
  }

  /** The primary command word of the kinds that send one. */
  function MainCommand(k: Kind): u16 {
    match k
    case StartPeriodic => CMD_START_PERIODIC
    case StartLowPower => CMD_START_LOW_POWER
    case StopPeriodic => CMD_STOP_PERIODIC
    case PowerDown => CMD_POWER_DOWN
    case WakeUp => CMD_WAKE_UP
    case SingleShot => CMD_SINGLE_SHOT
    case SingleShotRht => CMD_SINGLE_SHOT_RHT
    case Reinit => CMD_REINIT
    case SelfTest => CMD_SELF_TEST
    case PersistSettings => CMD_PERSIST_SETTINGS
    case FactoryReset => CMD_FACTORY_RESET
    case WriteSetting(f) => SetCommand(f)
    case _ => 0
  }

  /** The command that precedes the first response of a read. */
  function ReadCommand(k: Kind): u16 {
    match k
    case ReadIdentity => CMD_GET_SERIAL
    case ReadVariant => CMD_GET_VARIANT
    case ReadDataReady => CMD_GET_DATA_READY
    case ReadSetting(f) => GetCommand(f)
    case WriteSetting(f) => GetCommand(f)
    case _ => 0
  }

  function ExecutionWait(k: Kind): nat {
    match k
    case StopPeriodic => STOP_MS
    case SingleShot => SINGLE_SHOT_MS
    case SingleShotRht => SINGLE_SHOT_RHT_MS
    case WakeUp => POWER_UP_MS
    case Reinit => REINIT_MS
    case SelfTest => SELF_TEST_MS
    case ForcedRecalibration => FRC_MS
    case PersistSettings => PERSIST_MS
    case FactoryReset => FACTORY_RESET_MS
    case _ => SHORT_MS
  }

  /** The published scheduling contract. */
  function LimitsOf(k: Kind): Limits {
    match k
    case NoKind => Limits(0, 0, Runtime, false, false)
    case Attach => Limits(6, POWER_UP_MAX_MS + POWER_UP_MS + STOP_MS + 3, Runtime, false, false)
    case ReadDataReady => Limits(2, 1, SteadyState, false, false)
    case ReadVariant => Limits(2, 1, SteadyState, false, false)
    case ReadSetting(_) => Limits(2, 1, SteadyState, false, false)
    case ReadIdentity => Limits(4, 3, SteadyState, false, false)
    case StartPeriodic => Limits(1, 1, Runtime, false, false)
    case StartLowPower => Limits(1, 1, Runtime, false, false)
    case PowerDown => Limits(1, 1, Runtime, false, false)
    case StopPeriodic => Limits(1, STOP_MS, Runtime, false, false)
    case FetchSample => Limits(4, 3, SteadyState, false, false)
    case SingleShot => Limits(5, SINGLE_SHOT_MS + 3, Runtime, false, false)
    case SingleShotRht => Limits(5, SINGLE_SHOT_RHT_MS + 3, Runtime, false, false)
    case WriteSetting(_) => Limits(5, 4, Runtime, false, false)
    case ReadConfiguration => Limits(14, 13, Runtime, false, false)
    case WakeUp => Limits(5, POWER_UP_MS + 3, Runtime, false, false)
    case Reinit => Limits(5, POWER_UP_MS + 3, Runtime, false, false)
    case SelfTest => Limits(2, SELF_TEST_MS, Maintenance, false, false)
    case ForcedRecalibration => Limits(2, FRC_MS, Maintenance, true, false)
    case PersistSettings => Limits(1, PERSIST_MS, Maintenance, true, false)
    case FactoryReset => Limits(5, FACTORY_RESET_MS + 3, Maintenance, true, true)
    case DiagReadWords => Limits(2, 1, Diagnostic, false, false)
    case DiagWriteCommand => Limits(1, 1, Diagnostic, false, false)
    case DiagWriteWord => Limits(1, 1, Diagnostic, false, false)
  }
}
