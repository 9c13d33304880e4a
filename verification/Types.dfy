/** The driver's public enumerations and records. */
module Types {

  datatype Option<+T> = None | Some(value: T)

  type u16 = x: nat | x < 0x10000

  /** Stable error codes; messages and platform details are not modelled. */
  datatype Err =
    | Ok | NotInitialized | InvalidConfig | I2cError | Timeout | InvalidParam | CrcMismatch
    | MeasurementNotReady | Busy | InProgress | CommandFailed | Unsupported | I2cTimeout | I2cBus
    | ResultNotReady | StaleResult | Cancelled | Indeterminate | ConfirmationRequired
    | ReconciliationRequired | I2cNack | I2cShortTransfer

  datatype DriverState = Uninit | Ready | Degraded | Offline

  datatype Variant = UnknownVariant | Scd40 | Scd41 | Scd43

  datatype Mode = UnknownMode | Idle | Periodic | LowPower | Asleep

  datatype Evidence = NoEvidence | ModeAcknowledged | ModeVerified

  datatype OperationClass = SteadyState | Runtime | Maintenance | Diagnostic

  /** The seven settings; masks over them are sets. */
  datatype Field =
    | TemperatureOffset | SensorAltitude | AmbientPressure | AscEnabled | AscTarget
    | AscInitialPeriod | AscStandardPeriod

  /** READ_x and SET_x of the seven settings are `ReadSetting(x)` and `WriteSetting(x)`. */
  datatype Kind =
    | NoKind | Attach | ReadIdentity | ReadVariant | ReadDataReady
    | ReadSetting(field: Field) | ReadConfiguration | WriteSetting(field: Field)
    | StartPeriodic | StartLowPower | StopPeriodic | PowerDown | WakeUp
    | FetchSample | SingleShot | SingleShotRht
    | Reinit | SelfTest | ForcedRecalibration | PersistSettings | FactoryReset
    | DiagReadWords | DiagWriteCommand | DiagWriteWord

  datatype SlotState = SlotIdle | SlotActive | ResultPending

  datatype Outcome =
    Succeeded | NoData | Failed | OutcomeCancelled | TimedOut | Partial | OutcomeIndeterminate

  datatype Effect = NoEffectWrite | NotAttempted | Attempted | Acknowledged | Verified | UnknownEffect

  datatype Phase =
    | NoPhase | WaitPowerUp | SendWake | WaitWake | SendStop | WaitStop | SendCommand
    | WaitExecution | SendReady | ReadReady | SendRead | ReadResponse | SendVerify | ReadVerify
    | ReadDeferred

  datatype Confirmation = NoConfirmation | ConfirmRecalibration | ConfirmPersist | ConfirmReset

  datatype OpId = OpId(requestId: nat, generation: nat)

  datatype Options = Options(requestId: nat, nowMs: nat, deadlineMs: nat)

  datatype Request = Request(kind: Kind, signedValue: int, value: nat, command: u16,
                             wordCount: nat, confirmation: Confirmation)

  datatype Limits = Limits(maxCallbacks: nat, maxWaitMs: nat, class_: OperationClass,
                           writesNonvolatile: bool, destructive: bool)

  // ----- Transport boundary -----

  datatype Intent = Normal | ExpectNack

  /** `BadCode` and `BadDisposition` stand for out-of-range enumeration values. */
  datatype Code = CodeOk | CodeNack | CodeTimeout | CodeBus | CodeShort | CodeFailed | BadCode

  datatype Disposition = NotStarted | NoEffect | Complete | Unproven | BadDisposition

  /** What one transfer puts on the wire. */
  datatype Wire =
    | Write(command: u16)
    | WriteWord(command: u16, word: u16)
    | Read(count: nat)

  /** One adapter answer: any code, disposition, byte count, completion time and read bytes. */
  datatype Reply = Reply(code: Code, disposition: Disposition, bytes: nat, completedMs: nat,
                         data: seq<bv8>)

  datatype Settings = Settings(timeoutMs: nat, powerUpMs: nat, strict: bool)

  /** `hasTransfer` says that a callback was supplied. */
  datatype Config = Config(hasTransfer: bool, settings: Settings, offlineThreshold: nat)

  // ----- Driver records -----

  datatype Active = Active(request: Request, id: OpId, phase: Phase, effect: Effect,
                           startedMs: nat, deadlineMs: nat, nextDueMs: nat,
                           completed: set<Field>, desired: u16, index: nat, callbacks: nat,
                           wrote: bool, changed: bool)

  datatype Identity = Identity(serial: nat, variant: Variant, word: u16, epoch: nat, valid: bool)

  /** Cached field values are kept in one map; an absent field reads as zero. */
  datatype Configuration = Configuration(values: map<Field, int>, verified: set<Field>,
                                         dirty: set<Field>, epoch: nat, indeterminate: bool)

  datatype Sample = Sample(co2: nat, temperatureMilliC: int, humidityMilliPct: nat,
                           capturedMs: nat, epoch: nat, sequence: nat, mode: Mode, co2Valid: bool)

  datatype Value = Value(sample: Sample, identity: Identity, configuration: Configuration,
                         readyRaw: nat, ready: bool, signedValue: int, value: nat,
                         rawWords: seq<u16>, boolValue: bool)

  datatype Result = Result(id: OpId, kind: Kind, outcome: Outcome, effect: Effect, status: Err,
                           finalPhase: Phase, startedMs: nat, completedMs: nat, deadlineMs: nat,
                           epoch: nat, mode: Mode, evidence: Evidence, completed: set<Field>,
                           callbacks: nat, reconcile: bool, value: Value)

  datatype PollResult = PollResult(state: SlotState, id: OpId, kind: Kind, status: Err,
                                   nextDueMs: nat, callbacks: nat)

  const NO_ID := OpId(0, 0)
  const NO_REQUEST := Request(NoKind, 0, 0, 0, 0, NoConfirmation)
  const NO_ACTIVE := Active(NO_REQUEST, NO_ID, NoPhase, NoEffectWrite, 0, 0, 0, {}, 0, 0, 0, false, false)
  const NO_IDENTITY := Identity(0, UnknownVariant, 0, 0, false)
  const NO_CONFIGURATION := Configuration(map[], {}, {}, 0, false)
  const NO_SAMPLE := Sample(0, 0, 0, 0, 0, 0, UnknownMode, false)
  const NO_VALUE := Value(NO_SAMPLE, NO_IDENTITY, NO_CONFIGURATION, 0, false, 0, 0, [], false)
  const NO_RESULT := Result(NO_ID, NoKind, Failed, NoEffectWrite, ResultNotReady, NoPhase, 0, 0, 0, 0,
                            UnknownMode, NoEvidence, {}, 0, false, NO_VALUE)
  const NO_SETTINGS := Settings(50, 30, true)

  function Cached(c: Configuration, f: Field): int {
    if f in c.values then c.values[f] else 0
  }

  function IncrementSaturating(value: nat, max: nat): nat {
    if value < max then value + 1 else value
  }
}
