/**
  The operation engine as functions on a value: what each public call and each
  poll step does to the driver's state.

  The functions are organised by what a phase does (put bytes on the wire, rest,
  judge a response, learn from it), not by the handler that contains it; class
  `Driver` follows the handlers and is proved equal to these functions.
 */
module Engine {
  import opened Clocks
  import opened Types
  import opened Commands
  import opened Codec

  /** What the driver believes about the sensor. */
  datatype Knowledge = Knowledge(attached: bool, mode: Mode, evidence: Evidence, reconcile: bool,
                                 epoch: nat, sequence: nat, identity: Identity,
                                 configuration: Configuration, source: Option<Field>,
                                 sample: Sample, sampleValid: bool)

  /** The sensor's safety gate and the owner's last accepted time. */
  datatype Timing = Timing(gateMs: nat, gateValid: bool, ownerMs: nat, ownerValid: bool)

  /** A normalised adapter answer. */
  datatype Norm = Norm(code: Code, disposition: Disposition, doneMs: nat, clockValid: bool,
                       malformed: bool)

  /** One callback, as it happened. */
  datatype Call = Call(kind: Kind, phase: Phase, wire: Wire, intent: Intent, effectful: bool,
                       timeoutMs: nat, limitMs: nat, startMs: nat, deadlineMs: nat, settleMs: nat,
                       id: OpId, raw: Reply, norm: Norm)

  datatype Event =
    | Bound(threshold: nat)
    | Unbound
    | Admitted(id: OpId, request: Request, startedMs: nat, deadlineMs: nat)
    | Called(call: Call)
    | ProtocolError(err: Err, atMs: nat)
    | Finished(result: Result)
    | Taken(id: OpId)

  /** `log` is the history; `calls` counts its `Called` events. */
  datatype State = State(clock: Clock, settings: Settings, bound: bool, know: Knowledge, time: Timing,
                         generation: nat, active: Active, activeValid: bool, terminal: Result,
                         terminalValid: bool, work: Value, disposition: Disposition,
                         effectful: bool, calls: nat, log: seq<Event>)

  const NO_KNOWLEDGE := Knowledge(false, UnknownMode, NoEvidence, true, 0, 0, NO_IDENTITY,
                                  NO_CONFIGURATION, None, NO_SAMPLE, false)

  function Initial(c: Clock): State {
    State(c, NO_SETTINGS, false, NO_KNOWLEDGE, Timing(0, false, 0, false), 1, NO_ACTIVE, false,
          NO_RESULT, false, NO_VALUE, NotStarted, false, 0, [])
  }

  // ----- Knowledge -----

  const MAX_U32: nat := 0xFFFF_FFFF

  function SetMode(k: Knowledge, mode: Mode, evidence: Evidence): Knowledge {
    k.(sequence := if k.mode != mode then 0 else k.sequence, mode := mode, evidence := evidence)
  }

  function Forget(k: Knowledge): Knowledge {
    SetMode(k, UnknownMode, NoEvidence)
      .(attached := false, reconcile := true, configuration := k.configuration.(verified := {}),
        source := None, sampleValid := false)
  }

  function NextEpoch(k: Knowledge): Knowledge {
    k.(epoch := IncrementSaturating(k.epoch, MAX_U32), sequence := 0, source := None,
       sampleValid := false)
  }

  function Unverify(k: Knowledge, f: Field): Knowledge {
    k.(configuration := k.configuration.(verified := k.configuration.verified - {f}))
  }

  function Marked(k: Knowledge, indeterminate: bool): Knowledge {
    k.(configuration := k.configuration.(indeterminate := indeterminate))
  }

  function Cleaned(k: Knowledge): Knowledge {
    k.(configuration := k.configuration.(dirty := {}))
  }

  /** A CRC-valid, in-domain register word enters the cache. */
  function CacheField(k: Knowledge, f: Field, raw: u16): Knowledge {
    k.(configuration := k.configuration.(values := k.configuration.values[f := DecodeField(f, raw)],
                                         verified := k.configuration.verified + {f},
                                         epoch := k.epoch))
  }

  function CacheResult(v: Value, k: Knowledge, f: Field): Value {
    var x := Cached(k.configuration, f);
    var v1 := if f.TemperatureOffset? then v.(signedValue := x)
              else if f.AscEnabled? then v.(boolValue := x != 0)
              else v.(value := if x >= 0 then x else 0);
    v1.(configuration := k.configuration)
  }

  function StoreSample(k: Knowledge, words: seq<u16>, co2Valid: bool, now: nat): Knowledge
    requires |words| == 3
  {
    var n := IncrementSaturating(k.sequence, MAX_U32);
    k.(sequence := n, sampleValid := true,
       sample := Sample(words[0], TemperatureMilliC(words[1]), HumidityMilliPct(words[2]), now,
                        k.epoch, n, k.mode, co2Valid))
  }

  // ----- Finishing an operation -----

  /** The reload or reset was acknowledged, and its wait is over. */
  predicate ResetSettled(c: Clock, a: Active, completedMs: nat) {
    IsReset(a.request.kind) && a.phase == WaitExecution && a.effect == Acknowledged &&
    Reached(c, completedMs, a.nextDueMs)
  }

  function Discarded(k: Knowledge, c: Clock, a: Active, completedMs: nat): Knowledge {
    if ResetSettled(c, a, completedMs) then Cleaned(k) else k
  }

  function Published(work: Value, a: Active, k: Knowledge): Value {
    if PublishesConfiguration(a.request.kind) then work.(configuration := k.configuration) else work
  }

  function ResultOf(s: State, outcome: Outcome, effect: Effect, status: Err, completedMs: nat): Result {
    var a := s.active;
    Result(a.id, a.request.kind, outcome, effect, status, a.phase, a.startedMs, completedMs,
           a.deadlineMs, s.know.epoch, s.know.mode, s.know.evidence, a.completed, a.callbacks,
           s.know.reconcile, s.work)
  }

  function Finish(s: State, outcome: Outcome, effect: Effect, status: Err, completedMs: nat): State {
    if !s.activeValid || s.terminalValid then s
    else
      var know := Discarded(s.know, s.clock, s.active, completedMs);
      var s1 := s.(know := know, work := Published(s.work, s.active, know));
      var r := ResultOf(s1, outcome, effect, status, completedMs);
      s1.(terminal := r, terminalValid := true, active := NO_ACTIVE, activeValid := false,
          log := s.log + [Finished(r)])
  }

  datatype Failure = Failure(outcome: Outcome, effect: Effect, forget: bool)

  /** What a failing status says about the sensor, from the last transfer's evidence. */
  function Classify(s: State, status: Err): Failure {
    var a := s.active;
    var base := if status == Timeout then TimedOut else Failed;
    var f :=
      if !s.effectful then Failure(base, a.effect, false)
      else if s.disposition == Unproven then Failure(OutcomeIndeterminate, UnknownEffect, true)
      else if s.disposition == NoEffect then
        Failure(base, if a.effect == NotAttempted then Attempted else a.effect, false)
      else if s.disposition != NotStarted && status == Timeout then Failure(base, Acknowledged, true)
      else Failure(base, a.effect, false);
    if status == Timeout && a.wrote then
      f.(effect := if f.effect == NotAttempted then UnknownEffect else f.effect, forget := true)
    else f
  }

  predicate TouchesEeprom(k: Kind) { k.PersistSettings? || k.FactoryReset? }

  predicate IsPartial(a: Active) { a.request.kind.ReadConfiguration? && a.completed != {} }

  function ForgetIf(k: Knowledge, forget: bool): Knowledge { if forget then Forget(k) else k }

  /** A possible EEPROM effect blocks blind persistence. */
  function BlockedIf(k: Knowledge, a: Active, possible: bool): Knowledge {
    if TouchesEeprom(a.request.kind) && possible then Marked(k, true) else k
  }

  predicate EepromUncertain(a: Active, status: Err, effect: Effect) {
    effect == UnknownEffect || (status == Timeout && a.wrote)
  }

  function PartialWork(work: Value, a: Active, k: Knowledge): Value {
    if IsPartial(a) then work.(configuration := k.configuration) else work
  }

  function PartialOutcome(a: Active, outcome: Outcome): Outcome { if IsPartial(a) then Partial else outcome }

  /** Knowledge and payload as a failing operation leaves them. */
  function Failing(s: State, status: Err, f: Failure): State {
    var know := BlockedIf(ForgetIf(s.know, f.forget), s.active, EepromUncertain(s.active, status, f.effect));
    s.(know := know, work := PartialWork(s.work, s.active, know))
  }

  function FinishFailure(s: State, status: Err, completedMs: nat): State {
    if !s.activeValid then s
    else
      var f := Classify(s, status);
      Finish(Failing(s, status, f), PartialOutcome(s.active, f.outcome), f.effect, status, completedMs)
  }

  // ----- One transfer -----

  function Normalize(c: Clock, start: nat, expected: nat, effectful: bool, r: Reply): Norm {
    var clockValid := CompletionValid(c, start, r.completedMs);
    var code0 := if clockValid then r.code else CodeFailed;
    var disp0 := if clockValid || r.disposition == NotStarted then r.disposition else Unproven;
    var badDisposition := disp0 == BadDisposition;
    var contradictory := r.bytes > expected || (disp0 == NotStarted && r.bytes != 0) ||
                         (effectful && disp0 == NoEffect && r.bytes == expected);
    var malformed := code0 == BadCode || badDisposition || contradictory;
    var code1 := if malformed then CodeFailed else code0;
    var disp1 := if malformed && (badDisposition || contradictory || disp0 != NotStarted)
                 then Unproven else disp0;
    var short := code1 == CodeOk && (disp1 != Complete || r.bytes != expected);
    var code2 := if short then CodeShort else code1;
    var disp2 := if short || (code1 != CodeOk && disp1 == Complete) then Unproven else disp1;
    Norm(code2, disp2, if clockValid then r.completedMs else start, clockValid, malformed)
  }

  function CodeStatus(code: Code): Err {
    match code
    case CodeOk => Ok
    case CodeNack => I2cNack
    case CodeTimeout => I2cTimeout
    case CodeBus => I2cBus
    case CodeShort => I2cShortTransfer
    case _ => I2cError
  }

  /** What a phase asks of the transport. */
  datatype Send = Send(wire: Wire, intent: Intent, effectful: bool)

  predicate ExpectedNack(intent: Intent, n: Norm) {
    intent.ExpectNack? && n.code == CodeNack && n.disposition != NotStarted
  }

  /** How long the sensor must be left alone after this transfer. */
  function Settle(a: Active, send: Send, n: Norm): nat {
    if send.effectful && (n.disposition == Complete || n.disposition == Unproven || ExpectedNack(send.intent, n)) then
      if a.request.kind.Attach? then (if a.phase == SendWake then POWER_UP_MS else STOP_MS)
      else ExecutionWait(a.request.kind)
    else SHORT_MS
  }

  function TransferStatus(c: Clock, deadlineMs: nat, intent: Intent, n: Norm): Err {
    if !n.clockValid then I2cError
    else if !ExpectedNack(intent, n) && n.code != CodeOk then CodeStatus(n.code)
    else if Reached(c, n.doneMs, deadlineMs) then Timeout
    else Ok
  }

  datatype Io = Io(status: Err, s: State, now: nat, budget: nat)

  function TimeLeft(s: State, now: nat): int { Span(s.clock, now, s.active.deadlineMs) }

  function TransferTimeout(s: State, now: nat): int {
    if TimeLeft(s, now) < s.settings.timeoutMs then TimeLeft(s, now) else s.settings.timeoutMs
  }

  function NormOf(s: State, send: Send, now: nat, reply: Reply): Norm {
    Normalize(s.clock, now, WireLength(send.wire), send.effectful, reply)
  }

  function CallOf(s: State, send: Send, now: nat, reply: Reply): Call {
    var n := NormOf(s, send, now, reply);
    var t := TransferTimeout(s, now);
    Call(s.active.request.kind, s.active.phase, send.wire, send.intent, send.effectful,
         if t >= 0 then t else 0, s.settings.timeoutMs, now, s.active.deadlineMs,
         Settle(s.active, send, n), s.active.id, reply, n)
  }

  function AfterAttempt(a: Active, send: Send, n: Norm): Active {
    var wrote := send.effectful && n.disposition != NotStarted;
    a.(callbacks := IncrementSaturating(a.callbacks, 255),
       wrote := a.wrote || wrote,
       effect := if wrote && a.effect == NotAttempted then Attempted else a.effect)
  }

  /** The full sensor wait is kept even when the callback failed or crossed its deadline. */
  function Gated(t: Timing, c: Clock, a: Active, send: Send, n: Norm): Timing {
    if n.disposition == NotStarted then t
    else t.(gateMs := After(c, n.doneMs, Settle(a, send, n)), gateValid := true)
  }

  /** The state after one callback, before the phase reacts to it. */
  function Transferred(s: State, send: Send, now: nat, reply: Reply): State {
    var n := NormOf(s, send, now, reply);
    s.(active := AfterAttempt(s.active, send, n), time := Gated(s.time, s.clock, s.active, send, n),
       disposition := n.disposition,
       effectful := send.effectful, calls := s.calls + 1,
       log := s.log + [Called(CallOf(s, send, now, reply))])
  }

  function Attempt(s: State, send: Send, now: nat, budget: nat, reply: Reply): Io {
    if budget == 0 then Io(InProgress, s, now, 0)
    else if Reached(s.clock, now, s.active.deadlineMs) || TransferTimeout(s, now) == 0 then
      Io(Timeout, s, now, budget)
    else
      var n := NormOf(s, send, now, reply);
      Io(TransferStatus(s.clock, s.active.deadlineMs, send.intent, n), Transferred(s, send, now, reply), n.doneMs,
         budget - 1)
  }

  // ----- What each phase puts on the wire -----

  function Plain(command: u16): Option<Send> { Some(Send(Write(command), Normal, false)) }
  function Fetch(count: nat): Option<Send> { Some(Send(Read(count), Normal, false)) }
  function Act(command: u16): Option<Send> { Some(Send(Write(command), Normal, true)) }

  function SendAttach(a: Active): Option<Send> {
    match a.phase
    case SendWake => Some(Send(Write(CMD_WAKE_UP), ExpectNack, true))
    case SendStop => Some(Send(Write(CMD_STOP_PERIODIC), ExpectNack, true))
    case SendRead => Plain(CMD_GET_SERIAL)
    case ReadResponse => Fetch(3)
    case SendVerify => Plain(CMD_GET_VARIANT)
    case ReadVerify => Fetch(1)
    case _ => None
  }

  /** READ_CONFIGURATION reads one setting per step. */
  function ReadKind(a: Active): Kind {
    if a.request.kind.ReadConfiguration? then ReadSetting(FieldAt(a.index)) else a.request.kind
  }

  function SendReading(a: Active): Option<Send> {
    match a.phase
    case SendCommand => Plain(ReadCommand(ReadKind(a)))
    case ReadResponse => Fetch(if a.request.kind.ReadIdentity? then 3 else 1)
    case SendVerify => Plain(CMD_GET_VARIANT)
    case ReadVerify => Fetch(1)
    case _ => None
  }

  function SendSetting(a: Active): Option<Send>
    requires a.request.kind.WriteSetting?
  {
    match a.phase
    case SendCommand =>
      if a.index == 1 then Some(Send(WriteWord(SetCommand(a.request.kind.field), a.desired), Normal, true))
      else Plain(GetCommand(a.request.kind.field))
    case ReadResponse => Fetch(1)
    case _ => None
  }

  function SendModeCommand(a: Active): Option<Send> {
    match a.phase
    case SendCommand =>
      Some(Send(Write(MainCommand(a.request.kind)), if a.request.kind.WakeUp? then ExpectNack else Normal, true))
    case SendRead => Plain(CMD_GET_SERIAL)
    case ReadResponse => Fetch(3)
    case SendVerify => Plain(CMD_GET_VARIANT)
    case ReadVerify => Fetch(1)
    case _ => None
  }

  function SendMeasurement(a: Active): Option<Send> {
    match a.phase
    case SendCommand => Act(MainCommand(a.request.kind))
    case SendReady => Plain(CMD_GET_DATA_READY)
    case ReadReady => Fetch(1)
    case SendRead => Plain(CMD_READ_MEASUREMENT)
    case ReadResponse => Fetch(3)
    case _ => None
  }

  function SendMaintenance(a: Active): Option<Send> {
    match a.phase
    case SendCommand =>
      if a.request.kind.ForcedRecalibration?
      then Some(Send(WriteWord(CMD_FORCED_RECALIBRATION, a.request.value % 0x10000), Normal, true))
      else Act(MainCommand(a.request.kind))
    case ReadDeferred => Fetch(1)
    case SendVerify => Plain(if a.index == 0 then CMD_GET_SERIAL else CMD_GET_VARIANT)
    case ReadVerify => Fetch(if a.index == 0 then 3 else 1)
    case _ => None
  }

  function DiagnosticSend(r: Request): Send {
    if r.kind.DiagWriteWord? then Send(WriteWord(r.command, r.value % 0x10000), Normal, true)
    else Send(Write(r.command), Normal, true)
  }

  function SendDiagnostic(a: Active): Option<Send> {
    match a.phase
    case SendCommand => Some(DiagnosticSend(a.request))
    case ReadResponse => Fetch(a.request.wordCount)
    case _ => None
  }

  function SendFor(a: Active): Option<Send> {
    var k := a.request.kind;
    if k.Attach? then SendAttach(a)
    else if IsMeasurement(k) then SendMeasurement(a)
    else if IsMaintenance(k) then SendMaintenance(a)
    else if IsDiagnostic(k) then SendDiagnostic(a)
    else if k.WriteSetting? then SendSetting(a)
    else if IsModeCommand(k) then SendModeCommand(a)
    else SendReading(a)
  }

  // ----- Resting phases -----

  /** Phases that never touch the wire, for the kinds that reach them. */
  predicate Resting(a: Active) {
    if a.request.kind.Attach? then a.phase in {WaitPowerUp, WaitWake, WaitStop, WaitExecution}
    else a.phase == WaitExecution
  }

  /** Phases that first wait for their due time. */
  predicate Timed(a: Active) {
    Resting(a) ||
    (IsMeasurement(a.request.kind) && a.phase in {ReadReady, ReadResponse}) ||
    (IsMaintenance(a.request.kind) && a.phase == ReadVerify)
  }

  /** The phase that follows a finished wait. */
  function Wakes(a: Active): Phase {
    var k := a.request.kind;
    if k.Attach? then
      (match a.phase
       case WaitPowerUp => SendWake
       case WaitWake => SendStop
       case WaitStop => SendRead
       case _ => if a.index == 0 then ReadResponse else ReadVerify)
    else if IsMeasurement(k) then SendReady
    else if IsReset(k) then SendVerify
    else if IsMaintenance(k) then ReadDeferred
    else if k.WriteSetting? then (if a.index == 2 then SendCommand else ReadResponse)
    else if IsModeCommand(k) then
      (if a.index == 0 then SendRead else if a.index == 1 then ReadResponse else ReadVerify)
    else if k.ReadIdentity? && a.index == 1 then ReadVerify
    else ReadResponse
  }

  /** Kinds whose execution wait ends the operation. */
  predicate EndsAfterWait(k: Kind) {
    (IsModeCommand(k) && !k.WakeUp?) || k.PersistSettings?
  }

  function TargetMode(k: Kind): Mode {
    match k
    case StartPeriodic => Periodic
    case StartLowPower => LowPower
    case StopPeriodic => Idle
    case PowerDown => Asleep
    case _ => UnknownMode
  }

  /** A wait whose time has come. */
  function Rested(s: State, now: nat): Io
  {
    var a := s.active;
    var k := a.request.kind;
    if k.PersistSettings? then
      var know := Marked(Cleaned(s.know), false);
      var s1 := s.(know := know, work := s.work.(configuration := know.configuration));
      Io(Ok, Finish(s1, Succeeded, Acknowledged, Ok, now), now, 0)
    else if EndsAfterWait(k) then
      var s1 := s.(know := SetMode(s.know, TargetMode(k), ModeAcknowledged));
      Io(Ok, Finish(s1, Succeeded, Acknowledged, Ok, now), now, 0)
    else
      var s1 := s.(know := if IsReset(k) then Cleaned(s.know) else s.know);
      Io(InProgress, s1.(active := a.(phase := Wakes(a))), now, 0)
  }

  // ----- After a completed write -----

  function WakeEffect(d: Disposition): Effect {
    match d
    case Complete => Acknowledged
    case Unproven => UnknownEffect
    case NoEffect => Attempted
    case NotStarted => Attempted
    case BadDisposition => UnknownEffect
  }

  /** The wait after a write, as a due time. */
  function WaitAfter(a: Active): nat {
    if a.request.kind.Attach? then
      (if a.phase == SendWake then POWER_UP_MS else if a.phase == SendStop then STOP_MS else SHORT_MS)
    else if a.phase == SendCommand && (IsMeasurement(a.request.kind) || IsMaintenance(a.request.kind) ||
                                       IsModeCommand(a.request.kind))
    then ExecutionWait(a.request.kind)
    else SHORT_MS
  }

  predicate EndsAfterWrite(k: Kind) { k.DiagWriteCommand? || k.DiagWriteWord? }

  function PhaseAfterWrite(a: Active): Phase {
    var k := a.request.kind;
    if EndsAfterWrite(k) then a.phase
    else if k.Attach? && a.phase == SendWake then WaitWake
    else if k.Attach? && a.phase == SendStop then WaitStop
    else if IsMeasurement(k) && a.phase == SendReady then ReadReady
    else if IsMeasurement(k) && a.phase == SendRead then ReadResponse
    else if IsMaintenance(k) && a.phase == SendVerify then ReadVerify
    else WaitExecution
  }

  function IndexAfterWrite(a: Active): nat {
    var k := a.request.kind;
    if k.WriteSetting? then
      (if a.index == 0 then 0 else if a.index == 1 then 2 else 3)
    else if IsModeCommand(k) && a.phase == SendRead then 1
    else if IsModeCommand(k) && a.phase == SendVerify then 2
    else a.index
  }

  /** Only the operation's own effectful write changes its effect evidence. */
  function EffectAfterWrite(a: Active, d: Disposition): Effect {
    var k := a.request.kind;
    if k.Attach? then (if a.phase == SendWake then WakeEffect(d) else a.effect)
    else if a.phase != SendCommand || !IsEffectful(k) then a.effect
    else if k.WriteSetting? then (if a.index == 1 then Acknowledged else a.effect)
    else if k.WakeUp? then WakeEffect(d)
    else Acknowledged
  }

  function Written(a: Active, d: Disposition, c: Clock, now: nat): Active {
    a.(effect := EffectAfterWrite(a, d), index := IndexAfterWrite(a), phase := PhaseAfterWrite(a),
       nextDueMs := if EndsAfterWrite(a.request.kind) then a.nextDueMs else After(c, now, WaitAfter(a)))
  }

  /** Writes after which nothing the driver knew is kept. */
  predicate ForgetsAfterWrite(a: Active) {
    var k := a.request.kind;
    (k.Attach? && a.phase == SendWake) ||
    (a.phase == SendCommand && (k.WakeUp? || IsReset(k) || IsDiagnostic(k)))
  }

  function KnowAfterWrite(k: Knowledge, a: Active): Knowledge {
    var k1 := if ForgetsAfterWrite(a) then Forget(k) else k;
    if a.request.kind.FactoryReset? && a.phase == SendCommand then Marked(k1, true) else k1
  }

  predicate IsSettingWrite(a: Active) {
    a.request.kind.WriteSetting? && a.phase == SendCommand && a.index == 1
  }

  /** A written field is unverified until read back, and dirty when its value changed. */
  function Overwritten(c: Configuration, f: Field, changed: bool): Configuration {
    c.(verified := c.verified - {f}, dirty := if changed && !f.AmbientPressure? then c.dirty + {f} else c.dirty)
  }

  function Deselected(k: Knowledge, f: Field): Knowledge {
    if IsCompensation(f) then k.(source := None) else k
  }

  /** A setting write that may have reached the sensor, whatever its status. */
  function KnowAfterSettingWrite(k: Knowledge, a: Active, d: Disposition): Knowledge
    requires a.request.kind.WriteSetting?
  {
    var f := a.request.kind.field;
    if d != Complete && d != Unproven then k
    else Deselected(k.(configuration := Overwritten(k.configuration, f, a.changed)), f)
  }

  function AfterWrite(s: State, now: nat): Io {
    var s1 := s.(know := KnowAfterWrite(s.know, s.active),
                 active := Written(s.active, s.disposition, s.clock, now));
    if EndsAfterWrite(s.active.request.kind) then
      Io(Ok, Finish(s1, Succeeded, Acknowledged, Ok, now), now, 0)
    else Io(InProgress, s1, now, 0)
  }

  // ----- After a CRC-valid response -----

  /** What a response means for the operation. */
  datatype Verdict =
    | Continue
    | Done(outcome: Outcome, effect: Effect, status: Err)
    | Reject(status: Err)

  /** The judgement: the verdict, the new progress, knowledge and payload, and a protocol error. */
  datatype Judged = Judged(verdict: Verdict, active: Active, know: Knowledge, work: Value,
                           protocol: Option<Err>)

  /** A judgement that ends the operation without a protocol error. */
  function Ends(s: State, outcome: Outcome, effect: Effect, status: Err, k: Knowledge, work: Value): Judged {
    Judged(Done(outcome, effect, status), s.active, k, work, None)
  }

  function NextRead(a: Active, phase: Phase, index: nat, now: nat): Active {
    a.(phase := phase, index := index, nextDueMs := now)
  }

  predicate SameSensor(i: Identity, serial: nat, v: Variant) {
    i.valid && i.serial == serial && i.variant == v
  }

  predicate OtherSensor(i: Identity, serial: nat, v: Variant) {
    i.valid && (i.serial != serial || i.variant != v)
  }

  function Identified(k: Knowledge, serial: nat, word: u16): Knowledge {
    k.(identity := Identity(serial, VariantOf(word), word, k.epoch, true))
  }

  /** A complete identity that the driver must not go on with. */
  function Disowned(k: Knowledge, serial: nat, word: u16): Knowledge {
    var k1 := Identified(NextEpoch(k), serial, word);
    Forget(k1.(configuration := NO_CONFIGURATION.(epoch := k1.epoch)))
  }

  function Attached(k: Knowledge): Knowledge {
    SetMode(k.(attached := true, reconcile := false), Idle, ModeVerified)
  }

  predicate StrictlyUnsupported(settings: Settings, word: u16) {
    settings.strict && VariantOf(word) != Scd41
  }

  function WithIdentity(v: Value, k: Knowledge): Value { v.(identity := k.identity) }

  function WithSerial(v: Value, words: seq<u16>): Value
    requires |words| == 3
  {
    v.(identity := v.identity.(serial := SerialOf(words)))
  }

  /** The configuration that survives a re-attach: unverified, and only of the same sensor. */
  function Rebased(c: Configuration, same: bool, epoch: nat): Configuration {
    (if same then c else NO_CONFIGURATION).(verified := {}, epoch := epoch)
  }

  /** The variant word that completes ATTACH. */
  function JudgeAttach(s: State, word: u16): Judged {
    var serial := s.work.identity.serial;
    if StrictlyUnsupported(s.settings, word) then
      var k := Disowned(s.know, serial, word);
      Ends(s, Failed, Acknowledged, Unsupported, k, WithIdentity(s.work, k))
    else
      var same := SameSensor(s.know.identity, serial, VariantOf(word));
      var k1 := Attached(Identified(NextEpoch(s.know), serial, word));
      var k := k1.(configuration := Rebased(s.know.configuration, same, k1.epoch));
      Ends(s, Succeeded, Verified, Ok, k, WithIdentity(s.work, k))
  }

  /** A verified reload or reset starts a new epoch with nothing dirty and nothing in doubt. */
  function ResetKnowledge(k: Knowledge, serial: nat, word: u16): Knowledge {
    var k1 := Identified(NextEpoch(k), serial, word);
    Attached(k1.(configuration := k1.configuration.(verified := {}, dirty := {}, epoch := k1.epoch,
                                                    indeterminate := false)))
  }

  /** The variant word that completes READ_IDENTITY, WAKE_UP, REINIT and FACTORY_RESET. */
  function JudgeIdentity(s: State, word: u16): Judged {
    var kind := s.active.request.kind;
    var serial := s.work.identity.serial;
    var wrong := if IsReset(kind) then OutcomeIndeterminate else Failed;
    var effect := if IsReadLike(kind) then NoEffectWrite else UnknownEffect;
    if StrictlyUnsupported(s.settings, word) then
      var k := Disowned(s.know, serial, word);
      Ends(s, wrong, effect, Unsupported, k, WithIdentity(s.work, k))
    else if OtherSensor(s.know.identity, serial, VariantOf(word)) then
      var k := Disowned(s.know, serial, word);
      Ends(s, wrong, effect, ReconciliationRequired, k, WithIdentity(s.work, k))
    else if IsReadLike(kind) then
      var k := Identified(s.know, serial, word);
      Ends(s, Succeeded, NoEffectWrite, Ok, k, WithIdentity(s.work, k))
    else if IsModeCommand(kind) then
      var k := Attached(Identified(s.know, serial, word));
      Ends(s, Succeeded, Verified, Ok, k, WithIdentity(s.work, k))
    else
      var k := ResetKnowledge(s.know, serial, word);
      Ends(s, Succeeded, Acknowledged, Ok, k, WithIdentity(s.work, k).(configuration := k.configuration))
  }

  function DisownedVariant(k: Knowledge, word: u16): Knowledge {
    var k1 := NextEpoch(k);
    Forget(k1.(identity := Identity(0, VariantOf(word), word, k1.epoch, false),
               configuration := NO_CONFIGURATION.(epoch := k1.epoch)))
  }

  function JudgeVariant(s: State, word: u16): Judged {
    var v := VariantOf(word);
    var changed := s.know.identity.valid && s.know.identity.variant != v;
    if StrictlyUnsupported(s.settings, word) || changed then
      var k := DisownedVariant(s.know, word);
      Ends(s, Failed, NoEffectWrite,
           if StrictlyUnsupported(s.settings, word) then Unsupported else ReconciliationRequired,
           k, WithIdentity(s.work, k).(value := word))
    else
      var k := s.know.(identity := s.know.identity.(variant := v, word := word, epoch := s.know.epoch));
      Ends(s, Succeeded, NoEffectWrite, Ok, k, WithIdentity(s.work, k).(value := word))
  }

  function JudgeSettingRead(s: State, f: Field, word: u16): Judged {
    if !FieldWordValid(f, word) then
      Judged(Reject(CommandFailed), s.active, Unverify(s.know, f), s.work, Some(CommandFailed))
    else
      var k := CacheField(s.know, f, word);
      Ends(s, Succeeded, NoEffectWrite, Ok, k, CacheResult(s.work, k, f))
  }

  function JudgeConfiguration(s: State, word: u16, now: nat): Judged {
    var a := s.active;
    var f := FieldAt(a.index);
    var j := JudgeSettingRead(s, f, word);
    if j.verdict.Reject? then
      if a.completed != {} then
        j.(verdict := Done(Partial, NoEffectWrite, CommandFailed),
           work := j.work.(configuration := j.know.configuration))
      else j
    else
      var a1 := a.(completed := a.completed + {f});
      if a.index >= 6 then j.(active := a1)
      else j.(verdict := Continue, active := NextRead(a1, SendCommand, a.index + 1, now))
  }

  /** The setting as it was before the write: skip an equal value, or go on to write. */
  function JudgeBefore(s: State, f: Field, word: u16, now: nat): Judged {
    var valid := FieldWordValid(f, word);
    var k := if valid then CacheField(s.know, f, word) else Unverify(s.know, f);
    var work := if valid then CacheResult(s.work, k, f) else s.work;
    var a := s.active.(changed := word != s.active.desired);
    var skip := !a.changed && (!IsCompensation(f) || s.know.source == Some(f));
    Judged(if !skip then Continue else if valid then Done(Succeeded, Verified, Ok) else Reject(CommandFailed),
           if skip then a else NextRead(a, SendCommand, 1, now),
           k, work, if valid then None else Some(CommandFailed))
  }

  /** A verified compensation write also selects the pressure source. */
  function Selected(k: Knowledge, f: Field): Knowledge {
    if IsCompensation(f) then k.(source := Some(f)) else k
  }

  /** The setting read back after the write. */
  function JudgeBack(s: State, f: Field, word: u16): Judged {
    if !FieldWordValid(f, word) then
      Judged(Done(Failed, Acknowledged, CommandFailed), s.active, Unverify(s.know, f), s.work, Some(CommandFailed))
    else
      var k := CacheField(s.know, f, word);
      var work := CacheResult(s.work, k, f);
      if word != s.active.desired then Ends(s, Failed, Verified, CommandFailed, k, work)
      else
        Ends(s, Succeeded, Verified, Ok, Selected(k, f), work)
  }

  function JudgeReady(s: State, word: u16): Judged {
    var work := s.work.(readyRaw := word, ready := DataReady(word));
    if DataReady(word) then Judged(Continue, s.active.(phase := SendRead), s.know, work, None)
    else Ends(s, NoData, s.active.effect, MeasurementNotReady, s.know, work)
  }

  function JudgeSample(s: State, words: seq<u16>, now: nat): Judged
    requires |words| == 3
  {
    var kind := s.active.request.kind;
    var k := StoreSample(s.know, words, !kind.SingleShotRht?, now);
    Ends(s, Succeeded, if kind.FetchSample? then NoEffectWrite else Verified, Ok, k, s.work.(sample := k.sample))
  }

  function JudgeDeferred(s: State, word: u16): Judged {
    var work := s.work.(value := word, rawWords := [word]);
    if s.active.request.kind.SelfTest? then
      if word == SELF_TEST_PASS then Ends(s, Succeeded, Verified, Ok, s.know, work)
      else Ends(s, Failed, Verified, CommandFailed, s.know, work)
    else if word == FRC_FAILED then Ends(s, Failed, Verified, CommandFailed, s.know, work)
    else Ends(s, Succeeded, Verified, Ok, s.know, work.(signedValue := word - FRC_BIAS))
  }

  /** Responses whose only content is the serial number; the variant read follows. */
  predicate IsSerialResponse(a: Active) {
    var k := a.request.kind;
    (a.phase == ReadResponse && (k.Attach? || k.ReadIdentity? || IsModeCommand(k))) ||
    (a.phase == ReadVerify && IsMaintenance(k) && a.index == 0)
  }

  function JudgeSerial(s: State, words: seq<u16>, now: nat): Judged
    requires |words| == 3
  {
    var a := s.active;
    var index := if IsModeCommand(a.request.kind) then a.index else 1;
    Judged(Continue, NextRead(a, SendVerify, index, now), s.know, WithSerial(s.work, words), None)
  }

  /** How many words a response phase fetches. */
  function ResponseWords(a: Active): nat {
    if IsSerialResponse(a) || (IsMeasurement(a.request.kind) && a.phase == ReadResponse) then 3
    else if IsDiagnostic(a.request.kind) then a.request.wordCount
    else 1
  }

  function Judge(s: State, words: seq<u16>, now: nat): Judged
    requires |words| == ResponseWords(s.active) && |words| >= 1
  {
    var a := s.active;
    var k := a.request.kind;
    if IsSerialResponse(a) then JudgeSerial(s, words, now)
    else if IsDiagnostic(k) then Ends(s, Succeeded, Acknowledged, Ok, s.know, s.work.(rawWords := words))
    else if k.Attach? then JudgeAttach(s, words[0])
    else if a.phase == ReadVerify then JudgeIdentity(s, words[0])
    else if k.ReadVariant? then JudgeVariant(s, words[0])
    else if k.ReadDataReady? then
      Ends(s, Succeeded, NoEffectWrite, Ok, s.know,
           s.work.(readyRaw := words[0], ready := DataReady(words[0]), boolValue := DataReady(words[0])))
    else if k.ReadSetting? then JudgeSettingRead(s, k.field, words[0])
    else if k.ReadConfiguration? then JudgeConfiguration(s, words[0], now)
    else if k.WriteSetting? then
      (if a.index == 0 then JudgeBefore(s, k.field, words[0], now) else JudgeBack(s, k.field, words[0]))
    else if IsMeasurement(k)
      then (if a.phase == ReadResponse then JudgeSample(s, words, now) else JudgeReady(s, words[0]))
    else JudgeDeferred(s, words[0])
  }

  /** A register word enters the cache, or is refused by its domain and logged. */
  function CachedOrRejected(s: State, f: Field, word: u16, now: nat): State {
    if FieldWordValid(f, word) then
      var k := CacheField(s.know, f, word);
      s.(know := k, work := CacheResult(s.work, k, f))
    else
      s.(know := Unverify(s.know, f), log := s.log + [ProtocolError(CommandFailed, now)])
  }

  /** A judgement takes effect. */
  function Enacted(s: State, j: Judged, now: nat): Io {
    var s1 := s.(active := j.active, know := j.know, work := j.work,
                 log := if j.protocol.Some? then s.log + [ProtocolError(j.protocol.value, now)] else s.log);
    match j.verdict
    case Continue => Io(InProgress, s1, now, 0)
    case Done(outcome, effect, status) => Io(Ok, Finish(s1, outcome, effect, status, now), now, 0)
    case Reject(status) => Io(status, s1, now, 0)
  }

  function AfterRead(s: State, words: seq<u16>, now: nat): Io
    requires |words| == ResponseWords(s.active) && |words| >= 1
  {
    Enacted(s, Judge(s, words, now), now)
  }

  // ----- One exchange and one step -----

  /** A composite read that already published fields ends as partial. */
  function ReadFailed(s: State, status: Err, now: nat, budget: nat): Io {
    if s.active.request.kind.ReadConfiguration? && s.active.completed != {} then
      Io(Ok, Finish(s.(work := s.work.(configuration := s.know.configuration)), Partial, NoEffectWrite, status, now),
         now, budget)
    else Io(status, s, now, budget)
  }

  /** A completed read must pass the CRC of every word. */
  function Decoded(io: Io, count: nat, reply: Reply): Io {
    if io.status != Ok || AllWordsOk(Buffer(reply.data, 3 * count), count) then io
    else io.(status := CrcMismatch, s := io.s.(log := io.s.log + [ProtocolError(CrcMismatch, io.now)]))
  }

  function Received(s: State, count: nat, now: nat, budget: nat, reply: Reply): Io
    requires count == ResponseWords(s.active) && count > 0
  {
    var io := Decoded(Attempt(s, Send(Read(count), Normal, false), now, budget, reply), count, reply);
    if io.status == InProgress then io
    else if io.status != Ok then ReadFailed(io.s, io.status, io.now, io.budget)
    else AfterRead(io.s, Words(Buffer(reply.data, 3 * count), count), io.now).(budget := io.budget)
  }

  function Sent(s: State, send: Send, now: nat, budget: nat, reply: Reply): Io {
    var io := Attempt(s, send, now, budget, reply);
    if io.status == InProgress then io
    else
      var s1 := if IsSettingWrite(s.active)
                then io.s.(know := KnowAfterSettingWrite(io.s.know, s.active, io.s.disposition)) else io.s;
      if io.status != Ok then io.(s := s1) else AfterWrite(s1, io.now).(budget := io.budget)
  }

  /** Whatever the phase puts on the wire, and the reaction to it. */
  function Exchange(s: State, now: nat, budget: nat, reply: Reply): Io {
    match SendFor(s.active)
    case None => Io(CommandFailed, s, now, budget)
    case Some(send) =>
      if !send.wire.Read? then Sent(s, send, now, budget, reply)
      else if 1 <= send.wire.count <= 3 then Received(s, send.wire.count, now, budget, reply)
      else Io(InvalidParam, s, now, budget)
  }

  /** The phases and steps an operation of each kind can be in. */
  predicate Reachable(a: Active) {
    match a.request.kind
    case NoKind => false
    case Attach =>
      (a.index == 0 &&
       a.phase in {WaitPowerUp, SendWake, WaitWake, SendStop, WaitStop, SendRead, WaitExecution, ReadResponse}) ||
      (a.index == 1 && a.phase in {SendVerify, WaitExecution, ReadVerify})
    case ReadIdentity =>
      (a.index == 0 && a.phase in {SendCommand, WaitExecution, ReadResponse}) ||
      (a.index == 1 && a.phase in {SendVerify, WaitExecution, ReadVerify})
    case ReadConfiguration => a.index <= 6 && a.phase in {SendCommand, WaitExecution, ReadResponse}
    case WriteSetting(_) =>
      (a.index == 0 && a.phase in {SendCommand, WaitExecution, ReadResponse}) ||
      (a.index == 1 && a.phase == SendCommand) ||
      (a.index == 2 && a.phase in {WaitExecution, SendCommand}) ||
      (a.index == 3 && a.phase in {WaitExecution, ReadResponse})
    case WakeUp =>
      (a.index == 0 && a.phase in {SendCommand, WaitExecution, SendRead}) ||
      (a.index == 1 && a.phase in {WaitExecution, ReadResponse, SendVerify}) ||
      (a.index == 2 && a.phase in {WaitExecution, ReadVerify})
    case FetchSample => a.index == 0 && a.phase in {SendReady, ReadReady, SendRead, ReadResponse}
    case SingleShot => a.index == 0 &&
      a.phase in {SendCommand, WaitExecution, SendReady, ReadReady, SendRead, ReadResponse}
    case SingleShotRht => a.index == 0 &&
      a.phase in {SendCommand, WaitExecution, SendReady, ReadReady, SendRead, ReadResponse}
    case Reinit =>
      (a.index == 0 && a.phase in {SendCommand, WaitExecution, SendVerify, ReadVerify}) ||
      (a.index == 1 && a.phase in {SendVerify, ReadVerify})
    case FactoryReset =>
      (a.index == 0 && a.phase in {SendCommand, WaitExecution, SendVerify, ReadVerify}) ||
      (a.index == 1 && a.phase in {SendVerify, ReadVerify})
    case SelfTest => a.index == 0 && a.phase in {SendCommand, WaitExecution, ReadDeferred}
    case ForcedRecalibration => a.index == 0 && a.phase in {SendCommand, WaitExecution, ReadDeferred}
    case DiagReadWords =>
      a.index == 0 && a.phase in {SendCommand, WaitExecution, ReadResponse} && 1 <= a.request.wordCount <= 3
    case DiagWriteCommand => a.index == 0 && a.phase == SendCommand
    case DiagWriteWord => a.index == 0 && a.phase == SendCommand
    case PersistSettings => a.index == 0 && a.phase in {SendCommand, WaitExecution}
    case StartPeriodic => a.index == 0 && a.phase in {SendCommand, WaitExecution}
    case StartLowPower => a.index == 0 && a.phase in {SendCommand, WaitExecution}
    case StopPeriodic => a.index == 0 && a.phase in {SendCommand, WaitExecution}
    case PowerDown => a.index == 0 && a.phase in {SendCommand, WaitExecution}
    case _ => a.index == 0 && a.phase in {SendCommand, WaitExecution, ReadResponse}
  }

  predicate GateClosed(s: State, now: nat) {
    s.time.gateValid && !Reached(s.clock, now, s.time.gateMs)
  }

  /** PERSIST_SETTINGS that must not, or need not, write. */
  predicate PersistBlocked(s: State) {
    s.active.request.kind.PersistSettings? && s.active.phase == SendCommand && s.know.configuration.indeterminate
  }

  predicate PersistNotNeeded(s: State) {
    s.active.request.kind.PersistSettings? && s.active.phase == SendCommand && s.know.configuration.dirty == {}
  }

  function PersistAnswer(s: State, outcome: Outcome, effect: Effect, status: Err, now: nat, budget: nat): Io {
    Io(Ok, Finish(s.(work := s.work.(configuration := s.know.configuration)), outcome, effect, status, now), now,
       budget)
  }

  /** What the current phase does once the deadline and the safety gate allow it. */
  function PhaseStep(s: State, now: nat, budget: nat, reply: Reply): Io {
    if Timed(s.active) && !Reached(s.clock, now, s.active.nextDueMs) then Io(InProgress, s, now, budget)
    else if Resting(s.active) then Rested(s, now).(budget := budget)
    else if PersistBlocked(s) then PersistAnswer(s, OutcomeIndeterminate, UnknownEffect, Indeterminate, now, budget)
    else if PersistNotNeeded(s) then PersistAnswer(s, Succeeded, NotAttempted, Ok, now, budget)
    else Exchange(s, now, budget, reply)
  }

  function Step(s: State, now: nat, budget: nat, reply: Reply): Io {
    if Reached(s.clock, now, s.active.deadlineMs) then Io(Timeout, s, now, budget)
    else if GateClosed(s, now) then Io(InProgress, s.(active := s.active.(nextDueMs := s.time.gateMs)), now, budget)
    else PhaseStep(s, now, budget, reply)
  }

  // ----- The poll loop -----

  const MAX_TRANSITIONS: nat := 32

  /** Where the loop stands after some iterations. */
  datatype Turn = Turn(s: State, now: nat, budget: nat, more: bool)

  /** The guard at the head of an iteration. */
  predicate MayRun(s: State, now: nat) {
    s.activeValid && !(GateClosed(s, now) && !Reached(s.clock, now, s.active.nextDueMs))
  }

  /** One iteration: a step, failure handling, and the progress checks. */
  function Iterate(s: State, now: nat, budget: nat, reply: Reply): Turn {
    var io := Step(s, now, budget, reply);
    if !io.s.activeValid || io.s.terminalValid then Turn(io.s, io.now, io.budget, false)
    else if io.status != Ok && io.status != InProgress then
      Turn(FinishFailure(io.s, io.status, io.now), io.now, io.budget, false)
    else
      var stuck := io.s.active.phase == s.active.phase && io.s.active.nextDueMs == s.active.nextDueMs &&
                   io.budget == budget;
      Turn(io.s, io.now, io.budget,
           io.budget != 0 && !stuck && Reached(io.s.clock, io.now, io.s.active.nextDueMs))
  }

  function Loop(s: State, now: nat, budget: nat, transitions: nat, bus: nat -> Reply): Turn
    decreases MAX_TRANSITIONS - transitions
  {
    if transitions >= MAX_TRANSITIONS || !MayRun(s, now) then Turn(s, now, budget, false)
    else
      var t := Iterate(s, now, budget, bus(s.calls));
      if t.more then Loop(t.s, t.now, t.budget, transitions + 1, bus) else t
  }

  // ----- Public calls -----

  function SlotOf(s: State): SlotState {
    if s.terminalValid then ResultPending else if s.activeValid then SlotActive else SlotIdle
  }

  predicate OwnerClockOk(s: State, now: nat) {
    !s.time.ownerValid || Reached(s.clock, now, s.time.ownerMs)
  }

  /** The owner's time is recorded and an elapsed gate opens, even while idle. */
  function Observe(s: State, now: nat): State {
    if !OwnerClockOk(s, now) then s
    else
      s.(time := s.time.(ownerMs := now, ownerValid := true,
                         gateValid := s.time.gateValid && !Reached(s.clock, now, s.time.gateMs)))
  }

  function NextPollDue(s: State): nat {
    if Reached(s.clock, s.active.nextDueMs, s.active.deadlineMs) then s.active.deadlineMs else s.active.nextDueMs
  }

  function Report(s: State, status: Err, used: nat): PollResult {
    if s.terminalValid then
      PollResult(ResultPending, s.terminal.id, s.terminal.kind, s.terminal.status, 0, used)
    else if s.activeValid then
      PollResult(SlotActive, s.active.id, s.active.request.kind, status, NextPollDue(s), used)
    else PollResult(SlotIdle, NO_ID, NoKind, Ok, 0, used)
  }

  /** An operation past its deadline is finished before anything else. */
  function Expire(s: State, now: nat): State {
    if Reached(s.clock, now, s.active.deadlineMs) then FinishFailure(s, Timeout, now) else s
  }

  function PollTurn(s: State, now: nat, budget: nat, bus: nat -> Reply): Turn {
    Loop(Expire(s, now), now, budget, 0, bus)
  }

  function Poll(s: State, now: nat, budget: nat, bus: nat -> Reply): (State, PollResult) {
    var s1 := Observe(s, now);
    if s1.terminalValid || !s1.activeValid then (s1, Report(s1, Ok, 0))
    else if !OwnerClockOk(s, now) then (s1, Report(s1, InvalidParam, 0))
    else
      var t := PollTurn(s1, now, budget, bus);
      (t.s, Report(t.s, InProgress, if t.budget <= budget then budget - t.budget else 0))
  }

  predicate ConfigValid(c: Config) {
    c.hasTransfer && 0 < c.settings.timeoutMs <= 1000 && POWER_UP_MS <= c.settings.powerUpMs <= POWER_UP_MAX_MS
  }

  function Begin(s: State, c: Config): (State, Err) {
    if !ConfigValid(c) then (s, InvalidConfig)
    else if s.activeValid || s.terminalValid then (s, Busy)
    else
      (s.(settings := c.settings, bound := true,
          know := NO_KNOWLEDGE.(epoch := s.know.epoch),
          active := NO_ACTIVE, terminal := NO_RESULT, work := NO_VALUE,
          disposition := NotStarted, effectful := false,
          log := s.log + [Bound(c.offlineThreshold)]), Ok)
  }

  function CheckRequest(r: Request): Err {
    match r.kind
    case WriteSetting(f) =>
      (match f
       case TemperatureOffset => if OffsetInRange(r.signedValue) then Ok else InvalidParam
       case SensorAltitude => if r.value > ALTITUDE_MAX_M then InvalidParam else Ok
       case AmbientPressure => if PressureInRange(r.value) then Ok else InvalidParam
       case AscEnabled => if r.value > 1 then InvalidParam else Ok
       case AscTarget => if r.value > 0xFFFF then InvalidParam else Ok
       case _ => if r.value > 65532 || r.value % PERIOD_STEP != 0 then InvalidParam else Ok)
    case ForcedRecalibration =>
      if r.confirmation != ConfirmRecalibration then ConfirmationRequired
      else if r.value > 0xFFFF then InvalidParam else Ok
    case PersistSettings => if r.confirmation != ConfirmPersist then ConfirmationRequired else Ok
    case FactoryReset => if r.confirmation != ConfirmReset then ConfirmationRequired else Ok
    case DiagReadWords =>
      if r.command == 0 || r.wordCount == 0 || r.wordCount > 3 then InvalidParam
      else if IsManagedCommand(r.command) then Unsupported else Ok
    case DiagWriteCommand =>
      if r.command == 0 then InvalidParam else if IsManagedCommand(r.command) then Unsupported else Ok
    case DiagWriteWord =>
      if r.command == 0 then InvalidParam
      else if IsManagedCommand(r.command) then Unsupported
      else if r.value > 0xFFFF then InvalidParam else Ok
    case _ => Ok
  }

  function Admission(k: Knowledge, kind: Kind): Err {
    if kind.Attach? then Ok
    else if !k.attached then (if k.reconcile then ReconciliationRequired else NotInitialized)
    else if k.reconcile || k.mode == UnknownMode then ReconciliationRequired
    else if kind.PersistSettings? && !k.configuration.indeterminate &&
            k.configuration.dirty - k.configuration.verified != {} then ReconciliationRequired
    else if k.identity.valid && k.identity.variant != Scd41 && k.identity.variant != Scd43 &&
            NeedsSingleShotVariant(kind) then Unsupported
    else if k.mode == Periodic || k.mode == LowPower then (if PeriodicAllowed(kind) then Ok else Busy)
    else if k.mode == Asleep then (if kind.WakeUp? then Ok else Busy)
    else if kind.FetchSample? || kind.StopPeriodic? then Busy
    else Ok
  }

  function CheckStart(s: State, r: Request, o: Options): Err {
    if !s.bound then NotInitialized
    else if s.activeValid || s.terminalValid then Busy
    else if r.kind.NoKind? || o.requestId == 0 then InvalidParam
    else if LimitsOf(r.kind).maxCallbacks == 0 then Unsupported
    else if !DeadlineValid(s.clock, o.nowMs, o.deadlineMs) then InvalidParam
    else if s.time.ownerValid && !Reached(s.clock, o.nowMs, s.time.ownerMs) then InvalidParam
    else if GateClosed(s, o.nowMs) then Busy
    else if CheckRequest(r) != Ok then CheckRequest(r)
    else Admission(s.know, r.kind)
  }

  function FirstPhase(k: Kind): Phase {
    if k.Attach? then WaitPowerUp else if k.FetchSample? then SendReady else SendCommand
  }

  /** The register word a setting request asks for. */
  function DesiredWord(r: Request): u16 {
    if !r.kind.WriteSetting? then 0
    else if r.kind.field.TemperatureOffset?
      then (if OffsetInRange(r.signedValue) then EncodeOffset(r.signedValue) else 0)
    else if r.kind.field.AmbientPressure? then (if PressureInRange(r.value) then EncodePressure(r.value) else 0)
    else r.value % 0x10000
  }

  function Opened(s: State, r: Request, o: Options, id: OpId): Active {
    NO_ACTIVE.(request := r, id := id, startedMs := o.nowMs, deadlineMs := o.deadlineMs,
               nextDueMs := if r.kind.Attach? then After(s.clock, o.nowMs, s.settings.powerUpMs) else o.nowMs,
               effect := if IsEffectful(r.kind) then NotAttempted else NoEffectWrite,
               phase := FirstPhase(r.kind), desired := DesiredWord(r))
  }

  function NextGeneration(g: nat): nat { if g == MAX_U32 then 1 else g + 1 }

  function Start(s: State, r: Request, o: Options): (State, Err) {
    var status := CheckStart(s, r, o);
    if status != Ok then (s, status)
    else
      var id := OpId(o.requestId, s.generation);
      (s.(active := Opened(s, r, o, id), activeValid := true, work := NO_VALUE, effectful := false,
          time := s.time.(ownerMs := o.nowMs, ownerValid := true),
          generation := NextGeneration(s.generation),
          log := s.log + [Admitted(id, r, o.nowMs, o.deadlineMs)]), InProgress)
  }

  /** Cancellation time never runs backwards. */
  function CancelTime(s: State, now: nat): nat {
    if s.time.ownerValid && !Reached(s.clock, now, s.time.ownerMs) then s.time.ownerMs else now
  }

  function CancelEffect(a: Active): Effect {
    if a.callbacks == 0 then (if IsEffectful(a.request.kind) then NotAttempted else NoEffectWrite)
    else if a.wrote && a.effect == NotAttempted then UnknownEffect
    else a.effect
  }

  function Cancel(s: State, id: OpId, now: nat): (State, Err) {
    if !s.activeValid then (s, if s.terminalValid then Busy else ResultNotReady)
    else if s.active.id != id then (s, StaleResult)
    else
      var t := CancelTime(s, now);
      var a := s.active;
      var know := BlockedIf(ForgetIf(s.know, a.callbacks != 0 && a.wrote), a, a.wrote);
      var s1 := s.(time := s.time.(ownerMs := t, ownerValid := true), know := know);
      (Finish(s1, OutcomeCancelled, CancelEffect(a), Cancelled, t), Ok)
  }

  function TakeResult(s: State, id: OpId): (State, Err, Option<Result>) {
    if !s.terminalValid then (s, ResultNotReady, None)
    else if s.terminal.id != id then (s, StaleResult, None)
    else (s.(terminal := NO_RESULT, terminalValid := false, log := s.log + [Taken(id)]), Ok, Some(s.terminal))
  }

  /** Work in progress ends as a cancelled result, which waits to be taken. */
  function EndActive(s: State): State {
    if !s.activeValid || s.terminalValid then s
    else
      var a := s.active;
      var t := if s.time.ownerValid then s.time.ownerMs else a.startedMs;
      var know := BlockedIf(ForgetIf(s.know, a.callbacks > 0), a, a.wrote);
      Finish(s.(know := know), OutcomeCancelled, a.effect, Cancelled, t)
  }

  function End(s: State): State {
    var s1 := EndActive(s);
    s1.(bound := false, settings := NO_SETTINGS,
        know := s1.know.(attached := false, mode := UnknownMode, evidence := NoEvidence, reconcile := true,
                         identity := s1.know.identity.(valid := false),
                         configuration := s1.know.configuration.(verified := {}),
                         source := None, sampleValid := false),
        log := s1.log + [Unbound])
  }
}
