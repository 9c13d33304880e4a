/**
  The driver as the object it is: fields updated in place, a transport callback,
  a poll loop and six step handlers. Every method is proved to take the object's
  value from `View()` to what module Engine says.
 */
module Driver {
  import opened Clocks
  import opened Types
  import opened Commands
  import opened Codec
  import opened Engine
  import opened Exchanges
  import opened Telemetry
  import opened Runs
  import Control

  /** The transport callback: its n-th answer is arbitrary. */
  class Bus {
    const script: nat -> Reply
    var calls: nat
    ghost var seen: seq<TransferRequest>

    /** Completion times are 32-bit. */
    function Answer(n: nat): Reply {
      script(n).(completedMs := Wrap(script(n).completedMs))
    }

    constructor (script: nat -> Reply)
      ensures this.script == script && calls == 0 && seen == []
    {
      this.script := script;
      calls := 0;
      seen := [];
    }

    method Transfer(request: TransferRequest) returns (reply: Reply)
      modifies this
      ensures reply == Answer(old(calls))
      ensures calls == old(calls) + 1 && seen == old(seen) + [request]
    {
      reply := Answer(calls);
      calls := calls + 1;
      seen := seen + [request];
    }
  }

  /** The CRC as the driver computes it: byte by byte, bit by bit. */
  method ComputeCrc(data: seq<bv8>) returns (crc: bv8)
    ensures crc == Crc8(data)
  {
    crc := 0xFF;
    for i := 0 to |data|
      invariant CrcFrom(crc, data[i..]) == Crc8(data)
    {
      assert data[i..][1..] == data[i + 1..];
      crc := crc ^ data[i];
      ghost var start := crc;
      for bit := 0 to 8
        invariant crc == ShiftBits(start, bit)
      {
        crc := if crc & 0x80 != 0 then (crc << 1) ^ 0x31 else crc << 1;
      }
      ShiftByteBits(start);
    }
  }

  class Driver {
    const bus: Bus
    var settings: Settings
    var bound: bool
    var know: Knowledge
    var time: Timing
    var nextGeneration: nat
    var active: Active
    var activeValid: bool
    var terminal: Result
    var terminalValid: bool
    var work: Value
    var lastDisposition: Disposition
    var lastEffectful: bool
    var meter: Meter
    ghost var log: seq<Event>
    ghost var history: seq<Op>

    ghost function View(): State
      reads this, bus
    {
      State(Wrapped, settings, bound, know, time, nextGeneration, active, activeValid, terminal,
            terminalValid, work, lastDisposition, lastEffectful, bus.calls, log)
    }

    /** The answer the next callback will get. */
    ghost function NextReply(): Reply
      reads this, bus
    {
      bus.Answer(bus.calls)
    }

    /** The telemetry is the summary of the log, and the transport saw exactly the logged callbacks. */
    ghost predicate Valid()
      reads this, bus
    {
      && bus.seen == Requests(log)
      && meter == Summary(log)
      && settings.timeoutMs > 0
    }

    constructor (bus: Bus)
      requires bus.calls == 0 && bus.seen == []
      ensures Stable() && this.bus == bus
      ensures View() == Initial(Wrapped)
    {
      this.bus := bus;
      settings, bound := NO_SETTINGS, false;
      know := NO_KNOWLEDGE;
      time := Timing(0, false, 0, false);
      nextGeneration := 1;
      active, activeValid, terminal, terminalValid := NO_ACTIVE, false, NO_RESULT, false;
      work := NO_VALUE;
      lastDisposition, lastEffectful := NotStarted, false;
      meter := NO_METER;
      log := [];
      history := [];
    }

    // ----- Passive records -----

    method CountAttempt(n: Norm, expectedNack: bool)
      modifies this`meter
      ensures meter == old(meter).(health := CountTransfer(old(meter).health, old(meter).threshold, n, expectedNack))
    {
      var health := meter.health;
      if expectedNack {
        health := health.(expectedNacks := IncrementSaturating(health.expectedNacks, MAX_U32));
      } else if n.code == CodeOk && n.disposition == Complete {
        health := health.(okMs := n.doneMs);
        health := health.(transferOk := IncrementSaturating(health.transferOk, MAX_U32));
        health := health.(consecutive := 0);
        health := health.(state := Ready);
      } else if n.disposition != NotStarted {
        health := health.(errorMs := n.doneMs, error := CodeStatus(n.code));
        health := health.(transferFailed := IncrementSaturating(health.transferFailed, MAX_U32));
        health := health.(consecutive := IncrementSaturating(health.consecutive, 255));
        if meter.threshold != 0 && health.consecutive >= meter.threshold {
          health := health.(state := Offline);
        } else {
          health := health.(state := Degraded);
        }
      }
      meter := meter.(health := health);
    }

    method CountProtocolFailure(err: Err, nowMs: nat)
      modifies this`meter
      ensures meter == old(meter).(health := CountProtocol(old(meter).health, err, nowMs))
    {
      var health := meter.health;
      health := health.(protocol := IncrementSaturating(health.protocol, MAX_U32));
      if err == CrcMismatch {
        health := health.(crc := IncrementSaturating(health.crc, MAX_U32));
      }
      health := health.(protocolMs := nowMs, protocolError := err);
      meter := meter.(health := health);
    }

    method CountOperationOutcome(r: Result)
      modifies this`meter
      ensures meter == old(meter).(health := CountOutcome(old(meter).health, r))
    {
      var health := meter.health;
      health := health.(lastId := r.id, lastKind := r.kind);
      if r.outcome == Succeeded || r.outcome == NoData {
        health := health.(succeeded := IncrementSaturating(health.succeeded, MAX_U32));
      } else {
        if r.outcome == OutcomeCancelled {
          health := health.(cancelled := IncrementSaturating(health.cancelled, MAX_U32));
        } else {
          health := health.(failed := IncrementSaturating(health.failed, MAX_U32));
        }
        health := health.(operationErrorMs := r.completedMs, operationError := r.status,
                          errorId := r.id, errorKind := r.kind);
      }
      meter := meter.(health := health);
    }

    /** A malformed answer and the attempt's outcome reach the telemetry and the log. */
    method RecordTransfer(n: Norm, expectedNack: bool, ghost call: Call)
      requires call.norm == n && expectedNack == ExpectedNack(call.intent, n)
      requires bus.seen == Requests(log) + [RequestOf(call)]
      requires meter == Summary(log) && settings.timeoutMs > 0
      modifies this
      ensures Valid()
      ensures View() == old(View()).(log := old(log) + [Called(call)])
    {
      hide Summary, Requests;
      if n.malformed {
        CountProtocolFailure(I2cError, n.doneMs);
      }
      CountAttempt(n, expectedNack);
      Logged(log, Called(call));
      log := log + [Called(call)];
    }

    method RecordProtocolFailure(err: Err, nowMs: nat)
      requires Valid()
      modifies this
      ensures Valid()
      ensures View() == old(View()).(log := old(log) + [ProtocolError(err, nowMs)])
    {
      hide Summary, Requests;
      CountProtocolFailure(err, nowMs);
      Logged(log, ProtocolError(err, nowMs));
      log := log + [ProtocolError(err, nowMs)];
    }

    method RecordOperationOutcome(r: Result)
      requires Valid()
      modifies this
      ensures Valid()
      ensures View() == old(View()).(log := old(log) + [Finished(r)])
    {
      hide Summary, Requests;
      CountOperationOutcome(r);
      Logged(log, Finished(r));
      log := log + [Finished(r)];
    }

    // ----- Knowledge -----

    method SetMode(mode: Mode, evidence: Evidence)
      requires Valid()
      modifies this
      ensures Valid()
      ensures View() == old(View()).(know := Engine.SetMode(old(know), mode, evidence))
    {
      hide Summary, Requests;
      if know.mode != mode {
        know := know.(sequence := 0);
      }
      know := know.(mode := mode);
      know := know.(evidence := evidence);
    }

    method MarkReconciliationRequired()
      requires Valid()
      modifies this
      ensures Valid()
      ensures View() == old(View()).(know := Forget(old(know))) && Forget(know) == know
    {
      hide Summary, Requests;
      know := know.(attached := false);
      know := know.(reconcile := true);
      SetMode(UnknownMode, NoEvidence);
      know := know.(configuration := know.configuration.(verified := {}));
      know := know.(source := None);
      know := know.(sampleValid := false);
    }

    method AdvanceSensorEpoch()
      requires Valid()
      modifies this
      ensures Valid()
      ensures View() == old(View()).(know := NextEpoch(old(know)))
    {
      hide Summary, Requests;
      know := know.(epoch := IncrementSaturating(know.epoch, MAX_U32));  // never 0 again
      know := know.(sequence := 0);
      know := know.(source := None);
      know := know.(sampleValid := false);
    }

    method StoreSample(words: seq<u16>, co2Valid: bool, nowMs: nat)
      requires Valid() && |words| == 3
      modifies this
      ensures Valid()
      ensures View() == old(View()).(know := Engine.StoreSample(old(know), words, co2Valid, nowMs))
    {
      hide Summary, Requests;
      know := know.(sequence := IncrementSaturating(know.sequence, MAX_U32));
      know := know.(sample := Sample(words[0], TemperatureMilliC(words[1]), HumidityMilliPct(words[2]), nowMs,
                                     know.epoch, know.sequence, know.mode, co2Valid));
      know := know.(sampleValid := true);
    }

    method ApplyReadValue(f: Field, raw: u16)
      requires Valid()
      modifies this
      ensures Valid()
      ensures var k := CacheField(old(know), f, raw);
        View() == old(View()).(know := k, work := CacheResult(old(work), k, f))
    {
      hide Summary, Requests;
      var decoded := DecodeField(f, raw);
      know := know.(configuration := know.configuration.(values := know.configuration.values[f := decoded]));
      match f {
        case TemperatureOffset => work := work.(signedValue := decoded);
        case AscEnabled => work := work.(boolValue := decoded != 0);
        case _ => work := work.(value := decoded);
      }
      know := know.(configuration := know.configuration.(verified := know.configuration.verified + {f}));
      know := know.(configuration := know.configuration.(epoch := know.epoch));
      work := work.(configuration := know.configuration);
    }

    /** A CRC-valid word outside its domain is a protocol failure and leaves the field unverified. */
    method RejectReadValue(f: Field, nowMs: nat)
      requires Valid()
      modifies this
      ensures Valid()
      ensures View() == old(View()).(know := Unverify(old(know), f),
                                     log := old(log) + [ProtocolError(CommandFailed, nowMs)])
    {
      hide Summary, Requests;
      know := know.(configuration := know.configuration.(verified := know.configuration.verified - {f}));
      RecordProtocolFailure(CommandFailed, nowMs);
    }

    // ----- Finishing -----

    /** A reset that was over when its operation ended early counts all the same: nothing is dirty. */
    method DiscardSettledWork(completedMs: nat)
      requires Valid()
      modifies this
      ensures Valid()
      ensures View() == old(View()).(know := Discarded(old(know), Wrapped, old(active), completedMs))
    {
      hide Summary, Requests, Reached;
      var kind := active.request.kind;
      if (kind.Reinit? || kind.FactoryReset?) && active.phase == WaitExecution &&
         active.effect == Acknowledged && Reached(Wrapped, completedMs, active.nextDueMs) {
        know := know.(configuration := know.configuration.(dirty := {}));
      }
    }

    method PublishConfiguration()
      requires Valid()
      modifies this
      ensures Valid()
      ensures View() == old(View()).(work := Published(old(work), old(active), old(know)))
    {
      hide Summary, Requests;
      var kind := active.request.kind;
      if kind.ReadSetting? || kind.WriteSetting? || kind.ReadConfiguration? || kind.PersistSettings? ||
         kind.Reinit? || kind.FactoryReset? {
        work := work.(configuration := know.configuration);
      }
    }

    method FinishOperation(outcome: Outcome, effect: Effect, status: Err, completedMs: nat)
      requires Valid()
      modifies this
      ensures Valid()
      ensures View() == Finish(old(View()), outcome, effect, status, completedMs)
    {
      hide Summary, Requests, Discarded, Published;
      if !activeValid || terminalValid {
        return;
      }
      DiscardSettledWork(completedMs);
      PublishConfiguration();
      terminal := Result(active.id, active.request.kind, outcome, effect, status, active.phase,
                         active.startedMs, completedMs, active.deadlineMs, know.epoch, know.mode,
                         know.evidence, active.completed, active.callbacks, know.reconcile, work);
      terminalValid := true;
      active := NO_ACTIVE;
      activeValid := false;
      RecordOperationOutcome(terminal);
    }

    /** The last transfer's evidence decides the outcome, the effect, and what must be forgotten. */
    method JudgeFailure(status: Err) returns (outcome: Outcome, effect: Effect)
      requires Valid()
      modifies this
      ensures Valid()
      ensures var f := Classify(old(View()), status);
        outcome == f.outcome && effect == f.effect &&
        View() == old(View()).(know := ForgetIf(old(know), f.forget))
    {
      hide Summary, Requests, Forget;
      outcome := if status == Timeout then TimedOut else Failed;
      effect := active.effect;
      if lastEffectful {
        if lastDisposition == Unproven {
          effect := UnknownEffect;
          outcome := OutcomeIndeterminate;
          MarkReconciliationRequired();
        } else if lastDisposition == NoEffect {
          if effect == NotAttempted || effect == Attempted {
            effect := Attempted;
          }
        } else if lastDisposition != NotStarted && status == Timeout {
          effect := Acknowledged;
          MarkReconciliationRequired();
        }
      }
      if status == Timeout && active.wrote {
        if effect == NotAttempted {
          effect := UnknownEffect;
        }
        MarkReconciliationRequired();
      }
    }

    /** A persist or factory reset that may have reached the EEPROM blocks blind persistence. */
    method MarkIndeterminate(possible: bool)
      requires Valid()
      modifies this
      ensures Valid()
      ensures View() == old(View()).(know := BlockedIf(old(know), old(active), possible))
    {
      hide Summary, Requests;
      if (active.request.kind.PersistSettings? || active.request.kind.FactoryReset?) && possible {
        know := know.(configuration := know.configuration.(indeterminate := true));
      }
    }

    method PublishPartial(failed: Outcome) returns (outcome: Outcome)
      requires Valid()
      modifies this
      ensures Valid()
      ensures outcome == PartialOutcome(old(active), failed)
      ensures View() == old(View()).(work := PartialWork(old(work), old(active), old(know)))
    {
      hide Summary, Requests;
      outcome := failed;
      if active.request.kind.ReadConfiguration? && active.completed != {} {
        work := work.(configuration := know.configuration);
        outcome := Partial;
      }
    }

    method PrepareFailure(status: Err) returns (outcome: Outcome, effect: Effect)
      requires Valid()
      modifies this
      ensures Valid()
      ensures var f := Classify(old(View()), status);
        outcome == PartialOutcome(old(active), f.outcome) && effect == f.effect &&
        View() == Failing(old(View()), status, f)
    {
      hide Summary, Requests, ForgetIf, BlockedIf, Classify, PartialOutcome, PartialWork, EepromUncertain;
      outcome, effect := JudgeFailure(status);
      MarkIndeterminate(EepromUncertain(active, status, effect));
      outcome := PublishPartial(outcome);
    }

    method FinishOperationFailure(status: Err, completedMs: nat)
      requires Valid()
      modifies this
      ensures Valid()
      ensures View() == FinishFailure(old(View()), status, completedMs)
    {
      hide Summary, Requests, Finish, Failing, Classify, PartialOutcome;
      if !activeValid {
        return;
      }
      var outcome, effect := PrepareFailure(status);
      FinishOperation(outcome, effect, status, completedMs);
    }

    // ----- Transport -----

    /** What the driver believes of an adapter's answer. */
    method NormalizeReply(start: nat, expectedBytes: nat, effectful: bool, reply: Reply) returns (n: Norm)
      ensures n == Normalize(Wrapped, start, expectedBytes, effectful, reply)
    {
      hide Span;
      var code, disposition, completedMs := reply.code, reply.disposition, reply.completedMs;
      var clockValid := CompletionValid(Wrapped, start, reply.completedMs);
      if !clockValid {
        code := CodeFailed;
        completedMs := start;
        if disposition != NotStarted {
          disposition := Unproven;
        }
      }
      var invalidCode := code == BadCode;
      var invalidDisposition := disposition == BadDisposition;
      var contradictory := reply.bytes > expectedBytes || (disposition == NotStarted && reply.bytes != 0) ||
                           (effectful && disposition == NoEffect && reply.bytes == expectedBytes);
      var malformed := invalidCode || invalidDisposition || contradictory;
      if malformed {
        code := CodeFailed;
        if invalidDisposition || contradictory || disposition != NotStarted {
          disposition := Unproven;
        }
      }
      if code == CodeOk && (disposition != Complete || reply.bytes != expectedBytes) {
        code := CodeShort;
        disposition := Unproven;
      }
      if code != CodeOk && disposition == Complete {
        disposition := Unproven;
      }
      n := Norm(code, disposition, completedMs, clockValid, malformed);
    }

    /** The attempt is charged to the operation and remembered as the last transfer. */
    method NoteAttempt(effectful: bool, n: Norm, ghost send: Send)
      requires send.effectful == effectful
      requires Valid()
      modifies this
      ensures Valid()
      ensures View() == old(View()).(active := AfterAttempt(old(active), send, n),
                                     disposition := n.disposition, effectful := effectful)
    {
      hide Summary, Requests;
      active := active.(callbacks := IncrementSaturating(active.callbacks, 255));
      lastDisposition := n.disposition;
      lastEffectful := effectful;
      if effectful && n.disposition != NotStarted {
        active := active.(wrote := true);
        if active.effect == NotAttempted {
          active := active.(effect := Attempted);
        }
      }
    }

    /** The full sensor wait is kept even when the callback failed or crossed its deadline. */
    method ArmGate(effectful: bool, expectedNack: bool, n: Norm, ghost send: Send)
      requires Valid()
      requires send.effectful == effectful && expectedNack == ExpectedNack(send.intent, n)
      modifies this
      ensures Valid()
      ensures View() == old(View()).(time := Gated(old(time), Wrapped, old(active), send, n))
    {
      hide Summary, Requests, After, ExecutionWait;
      if n.disposition != NotStarted {
        var settleMs := SHORT_MS;
        if effectful && (n.disposition == Complete || n.disposition == Unproven || expectedNack) {
          settleMs := ExecutionWait(active.request.kind);
          if active.request.kind.Attach? {
            settleMs := if active.phase == SendWake then POWER_UP_MS else STOP_MS;
          }
        }
        time := time.(gateMs := After(Wrapped, n.doneMs, settleMs));
        time := time.(gateValid := true);
      }
    }

    /** Exactly one callback, and everything that is recorded about it. */
    method Transmit(writeData: seq<bv8>, readLength: nat, intent: Intent, effectful: bool,
                    timeoutMs: nat, nowMs: nat, ghost send: Send)
      returns (n: Norm, data: seq<bv8>)
      requires Valid()
      requires send.intent == intent && send.effectful == effectful
      requires writeData == WriteBytes(send.wire)
      requires |writeData| + readLength == WireLength(send.wire)
      requires readLength == if send.wire.Read? then WireLength(send.wire) else 0
      requires timeoutMs == TransferTimeout(View(), nowMs)
      modifies this, bus
      ensures Valid()
      ensures View() == Transferred(old(View()), send, nowMs, old(NextReply()))
      ensures n == NormOf(old(View()), send, nowMs, old(NextReply()))
      ensures data == Buffer(old(NextReply()).data, readLength)
    {
      hide Summary, Requests, Normalize, Reached, After, Span, Settle, Buffer, WriteBytes, AfterAttempt, Gated,
        ExpectedNack, TransferTimeout;
      var reply := bus.Transfer(TransferRequest(I2C_ADDRESS, writeData, readLength, timeoutMs, intent));
      data := Buffer(reply.data, readLength);
      n := NormalizeReply(nowMs, |writeData| + readLength, effectful, reply);
      var expectedNack := ExpectedNack(intent, n);
      RecordTransfer(n, expectedNack, CallOf(old(View()), send, nowMs, old(NextReply())));
      ArmGate(effectful, expectedNack, n, send);
      NoteAttempt(effectful, n, send);
    }

    method AttemptTransfer(writeData: seq<bv8>, readLength: nat, intent: Intent, effectful: bool,
                           nowMs: nat, budget: nat, ghost send: Send)
      returns (status: Err, now: nat, left: nat, data: seq<bv8>)
      requires Valid()
      requires send.intent == intent && send.effectful == effectful
      requires writeData == WriteBytes(send.wire)
      requires |writeData| + readLength == WireLength(send.wire)
      requires readLength == if send.wire.Read? then WireLength(send.wire) else 0
      modifies this, bus
      ensures Valid()
      ensures Io(status, View(), now, left) == Attempt(old(View()), send, nowMs, budget, old(NextReply()))
      ensures status == Ok ==> data == Buffer(old(NextReply()).data, readLength)
    {
      hide Summary, Requests, NormOf, Reached, Span, Buffer, WriteBytes, Transferred, TransferStatus, WireLength;
      data := [];
      now, left := nowMs, budget;
      if left == 0 {
        return InProgress, now, left, data;
      }
      if Reached(Wrapped, now, active.deadlineMs) {
        return Timeout, now, left, data;
      }
      SpanPositive(now, active.deadlineMs);
      var remainingMs := Span(Wrapped, now, active.deadlineMs);
      var timeoutMs := if remainingMs < settings.timeoutMs then remainingMs else settings.timeoutMs;
      if timeoutMs == 0 {
        return Timeout, now, left, data;
      }
      left := left - 1;
      var deadlineMs := active.deadlineMs;
      var n;
      n, data := Transmit(writeData, readLength, intent, effectful, timeoutMs, nowMs, send);
      now := n.doneMs;
      status := TransferStatus(Wrapped, deadlineMs, intent, n);
    }

    /** Spacing between transfers; every step has already checked the same gate. */
    method CheckCommandSpacing(nowMs: nat) returns (status: Err)
      requires Valid() && !GateClosed(View(), nowMs)
      ensures status == Ok
    {
      hide Summary, Requests, Reached;
      status := if !time.gateValid || Reached(Wrapped, nowMs, time.gateMs) then Ok else InProgress;
    }

    method WriteCommand(command: u16, intent: Intent, nowMs: nat, budget: nat, effectful: bool)
      returns (status: Err, now: nat, left: nat)
      requires Valid() && !GateClosed(View(), nowMs)
      modifies this, bus
      ensures Valid()
      ensures Io(status, View(), now, left) ==
        Attempt(old(View()), Send(Write(command), intent, effectful), nowMs, budget, old(NextReply()))
    {
      hide Summary, Requests, Attempt, GateClosed, Buffer;
      var spacing := CheckCommandSpacing(nowMs);
      if spacing != Ok {
        return spacing, nowMs, budget;
      }
      var data := [HighByte(command), LowByte(command)];
      var unread;
      status, now, left, unread := AttemptTransfer(data, 0, intent, effectful, nowMs, budget,
                                              Send(Write(command), intent, effectful));
    }

    method WriteCommandWithWord(command: u16, word: u16, nowMs: nat, budget: nat, effectful: bool)
      returns (status: Err, now: nat, left: nat)
      requires Valid() && !GateClosed(View(), nowMs)
      modifies this, bus
      ensures Valid()
      ensures Io(status, View(), now, left) ==
        Attempt(old(View()), Send(WriteWord(command, word), Normal, effectful), nowMs, budget, old(NextReply()))
    {
      hide Summary, Requests, Attempt, GateClosed, Buffer;
      var spacing := CheckCommandSpacing(nowMs);
      if spacing != Ok {
        return spacing, nowMs, budget;
      }
      var crc := ComputeCrc([HighByte(word), LowByte(word)]);
      var data := [HighByte(command), LowByte(command), HighByte(word), LowByte(word), crc];
      var unread;
      status, now, left, unread := AttemptTransfer(data, 0, Normal, effectful, nowMs, budget,
                                              Send(WriteWord(command, word), Normal, effectful));
    }

    /** Every word is checked before any word is handed out. */
    method DecodeWords(bytes: seq<bv8>, count: nat) returns (ok: bool, words: seq<u16>)
      requires |bytes| == 3 * count
      ensures ok == AllWordsOk(bytes, count)
      ensures words == if ok then Words(bytes, count) else []
    {
      words := [];
      for i := 0 to count
        invariant |words| == i
        invariant forall j | 0 <= j < i :: WordOk(bytes, j) && words[j] == WordAt(bytes, j)
      {
        var crc := ComputeCrc([bytes[3 * i], bytes[3 * i + 1]]);
        if crc != bytes[3 * i + 2] {
          assert !WordOk(bytes, i);
          return false, [];
        }
        words := words + [Word(bytes[3 * i], bytes[3 * i + 1])];
      }
      ok := true;
    }

    method ReadWords(count: nat, nowMs: nat, budget: nat)
      returns (status: Err, now: nat, left: nat, words: seq<u16>)
      requires Valid() && !GateClosed(View(), nowMs)
      modifies this, bus
      ensures Valid()
      ensures !(1 <= count <= 3) ==> Io(status, View(), now, left) == Io(InvalidParam, old(View()), nowMs, budget)
      ensures 1 <= count <= 3 ==>
        Io(status, View(), now, left) ==
        Decoded(Attempt(old(View()), Send(Read(count), Normal, false), nowMs, budget, old(NextReply())),
                count, old(NextReply()))
      ensures status == Ok ==> 1 <= count <= 3 && words == Words(Buffer(old(NextReply()).data, 3 * count), count)
    {
      hide Summary, Requests, Attempt, GateClosed, Buffer, Words, AllWordsOk;
      words := [];
      if count == 0 || count > 3 {
        return InvalidParam, nowMs, budget, words;
      }
      var spacing := CheckCommandSpacing(nowMs);
      if spacing != Ok {
        return spacing, nowMs, budget, words;
      }
      var bytes;
      status, now, left, bytes := AttemptTransfer([], 3 * count, Normal, false, nowMs, budget,
                                                  Send(Read(count), Normal, false));
      if status != Ok {
        return;
      }
      var ok;
      ok, words := DecodeWords(bytes, count);
      if !ok {
        status := CrcMismatch;
        RecordProtocolFailure(status, now);
      }
    }

    // ----- Phase building blocks -----

    /** Enter a phase that is due `waitMs` from now. */
    method WaitIn(phase: Phase, index: nat, now: nat, waitMs: nat)
      requires Valid()
      modifies this
      ensures Valid()
      ensures View() == old(View()).(active := Waiting(old(active), phase, index, Wrapped, now, waitMs))
    {
      hide Summary, Requests, After;
      active := active.(phase := phase);
      active := active.(index := index);
      active := active.(nextDueMs := After(Wrapped, now, waitMs));
    }

    /** A command that only selects a response, and the wait that follows it. */
    method SendThenWait(command: u16, phase: Phase, index: nat, nowMs: nat, budget: nat)
      returns (status: Err, now: nat, left: nat)
      requires Valid() && !GateClosed(View(), nowMs)
      requires SendFor(active) == Some(Send(Write(command), Normal, false))
      requires phase == PhaseAfterWrite(active) && index == IndexAfterWrite(active)
      modifies this, bus
      ensures Valid()
      ensures Io(status, View(), now, left) == Exchange(old(View()), nowMs, budget, old(NextReply()))
    {
      hide Summary, Requests, GateClosed, Attempt, Exchange, SendFor, Waiting, PhaseAfterWrite, IndexAfterWrite;
      SelectingExchange(View(), command, nowMs, budget, NextReply());
      status, now, left := WriteCommand(command, Normal, nowMs, budget, false);
      if status != Ok {
        return;
      }
      WaitIn(phase, index, now, SHORT_MS);
      status := InProgress;
    }

    // ----- Accepting responses -----

    /** The identity just read becomes the known one. */
    method IdentifySensor(serial: nat, word: u16)
      requires Valid()
      modifies this
      ensures Valid()
      ensures var k := Identified(old(know), serial, word);
        View() == old(View()).(know := k, work := WithIdentity(old(work), k))
    {
      hide Summary, Requests;
      know := know.(identity := know.identity.(serial := serial));
      know := know.(identity := know.identity.(variant := VariantOf(word)));
      know := know.(identity := know.identity.(word := word));
      know := know.(identity := know.identity.(epoch := know.epoch));
      know := know.(identity := know.identity.(valid := true));
      work := work.(identity := know.identity);
    }

    /** A complete identity that the driver must not go on with. */
    method DisownSensor(serial: nat, word: u16)
      requires Valid()
      modifies this
      ensures Valid()
      ensures var k := Disowned(old(know), serial, word);
        View() == old(View()).(know := k, work := WithIdentity(old(work), k))
    {
      hide Summary, Requests;
      AdvanceSensorEpoch();
      IdentifySensor(serial, word);
      know := know.(configuration := NO_CONFIGURATION);
      know := know.(configuration := know.configuration.(epoch := know.epoch));
      MarkReconciliationRequired();
    }

    /** Verified idle. */
    method AttachSensor()
      requires Valid()
      modifies this
      ensures Valid()
      ensures View() == old(View()).(know := Attached(old(know)))
    {
      hide Summary, Requests;
      know := know.(attached := true);
      know := know.(reconcile := false);
      SetMode(Idle, ModeVerified);
    }

    method AcceptSerial(words: seq<u16>, now: nat) returns (status: Err)
      requires Valid() && |words| == 3 && IsSerialResponse(active)
      modifies this
      ensures Valid()
      ensures Io(status, View(), now, 0) == AfterRead(old(View()), words, now)
    {
      hide Summary, Requests, Finish, JudgeAttach, JudgeIdentity, JudgeVariant, JudgeSettingRead, JudgeConfiguration,
        JudgeBefore, JudgeBack, JudgeReady, JudgeSample, JudgeDeferred;
      work := work.(identity := work.identity.(serial := SerialOf(words)));
      if !IsModeCommand(active.request.kind) {
        active := active.(index := 1);
      }
      active := active.(phase := SendVerify);
      active := active.(nextDueMs := now);
      status := InProgress;
    }

    method RestoreConfiguration(previous: Configuration, same: bool)
      requires Valid()
      modifies this
      ensures Valid()
      ensures View() == old(View()).(know := old(know).(configuration := Rebased(previous, same, old(know).epoch)))
    {
      hide Summary, Requests;
      know := know.(configuration := if same then previous else NO_CONFIGURATION);
      know := know.(configuration := know.configuration.(verified := {}));
      know := know.(configuration := know.configuration.(epoch := know.epoch));
    }

    method AcceptAttach(words: seq<u16>, now: nat) returns (status: Err)
      requires Valid() && |words| == 1 && active.request.kind.Attach? && !IsSerialResponse(active)
      modifies this
      ensures Valid()
      ensures Io(status, View(), now, 0) == AfterRead(old(View()), words, now)
    {
      hide Summary, Requests, Finish, Disowned, NextEpoch, Identified, VariantOf, SameSensor, Rebased, IsSerialResponse,
        ResponseWords, JudgeSerial, JudgeIdentity, JudgeVariant, JudgeSettingRead, JudgeConfiguration, JudgeBefore,
        JudgeBack, JudgeReady, JudgeSample, JudgeDeferred;
      var serial := work.identity.serial;
      if settings.strict && VariantOf(words[0]) != Scd41 {
        DisownSensor(serial, words[0]);
        FinishOperation(Failed, Acknowledged, Unsupported, now);
        return Ok;
      }
      var same := SameSensor(know.identity, serial, VariantOf(words[0]));
      var previous := know.configuration;
      AdvanceSensorEpoch();
      IdentifySensor(serial, words[0]);
      AttachSensor();
      RestoreConfiguration(previous, same);
      FinishOperation(Succeeded, Verified, Ok, now);
      status := Ok;
    }

    /** READ_IDENTITY, WAKE_UP, REINIT and FACTORY_RESET end with the variant word. */
    method AcceptIdentity(words: seq<u16>, now: nat) returns (status: Err)
      requires Valid() && |words| == 1 && active.phase == ReadVerify
      requires IsReadLike(active.request.kind) || active.request.kind.WakeUp? || IsReset(active.request.kind)
      requires !IsSerialResponse(active)
      modifies this
      ensures Valid()
      ensures Io(status, View(), now, 0) == AfterRead(old(View()), words, now)
    {
      hide Summary, Requests, Finish, Disowned, Identified, Attached, ResetKnowledge, VariantOf, OtherSensor,
        IsSerialResponse, ResponseWords, AfterRead;
      IdentityRead(View(), words, now);
      var kind := active.request.kind;
      var serial := work.identity.serial;
      var unsupported := settings.strict && VariantOf(words[0]) != Scd41;
      status := Ok;
      if unsupported || OtherSensor(know.identity, serial, VariantOf(words[0])) {
        DisownSensor(serial, words[0]);
        FinishOperation(if IsReset(kind) then OutcomeIndeterminate else Failed,
                        if IsReadLike(kind) then NoEffectWrite else UnknownEffect,
                        if unsupported then Unsupported else ReconciliationRequired, now);
      } else if IsReadLike(kind) {
        IdentifySensor(serial, words[0]);
        FinishOperation(Succeeded, NoEffectWrite, Ok, now);
      } else if kind.WakeUp? {
        AcceptAwake(serial, words[0]);
        FinishOperation(Succeeded, Verified, Ok, now);
      } else {
        AcceptReset(serial, words[0]);
        FinishOperation(Succeeded, Acknowledged, Ok, now);
      }
    }

    /** The expected sensor is awake again. */
    method AcceptAwake(serial: nat, word: u16)
      requires Valid()
      modifies this
      ensures Valid()
      ensures var k := Attached(Identified(old(know), serial, word));
        View() == old(View()).(know := k, work := WithIdentity(old(work), k))
    {
      hide Summary, Requests, VariantOf;
      IdentifySensor(serial, word);
      AttachSensor();
    }

    /** A verified reload or reset starts a new epoch with nothing dirty and nothing in doubt. */
    method AcceptReset(serial: nat, word: u16)
      requires Valid()
      modifies this
      ensures Valid()
      ensures var k := ResetKnowledge(old(know), serial, word);
        View() == old(View()).(know := k, work := WithIdentity(old(work), k).(configuration := k.configuration))
    {
      hide Summary, Requests, VariantOf;
      AdvanceSensorEpoch();
      IdentifySensor(serial, word);
      know := know.(configuration := know.configuration.(verified := {}));
      know := know.(configuration := know.configuration.(dirty := {}));
      know := know.(configuration := know.configuration.(epoch := know.epoch));
      know := know.(configuration := know.configuration.(indeterminate := false));
      work := work.(configuration := know.configuration);
      AttachSensor();
    }

    /** Another family answers: only the observed variant is published. */
    method DisownVariant(word: u16)
      requires Valid()
      modifies this
      ensures Valid()
      ensures var k := DisownedVariant(old(know), word);
        View() == old(View()).(know := k, work := WithIdentity(old(work), k).(value := word))
    {
      hide Summary, Requests, VariantOf;
      AdvanceSensorEpoch();
      know := know.(identity := Identity(0, VariantOf(word), word, know.epoch, false));
      know := know.(configuration := NO_CONFIGURATION.(epoch := know.epoch));
      work := work.(identity := know.identity, value := word);
      MarkReconciliationRequired();
    }

    method KeepVariant(word: u16)
      requires Valid()
      modifies this
      ensures Valid()
      ensures var k :=
        old(know).(identity := old(know).identity.(variant := VariantOf(word), word := word, epoch := old(know).epoch));
        View() == old(View()).(know := k, work := WithIdentity(old(work), k).(value := word))
    {
      hide Summary, Requests, VariantOf;
      know := know.(identity := know.identity.(variant := VariantOf(word), word := word, epoch := know.epoch));
      work := work.(identity := know.identity, value := word);
    }

    method AcceptVariant(words: seq<u16>, now: nat) returns (status: Err)
      requires Valid() && |words| == 1 && active.request.kind.ReadVariant? && active.phase == ReadResponse
      modifies this
      ensures Valid()
      ensures Io(status, View(), now, 0) == AfterRead(old(View()), words, now)
    {
      hide Summary, Requests, Finish, VariantOf, DisownedVariant, AfterRead, ResponseWords;
      VariantRead(View(), words, now);
      var variant := VariantOf(words[0]);
      var changed := know.identity.valid && know.identity.variant != variant;
      var unsupported := settings.strict && variant != Scd41;
      status := Ok;
      if unsupported || changed {
        DisownVariant(words[0]);
        FinishOperation(Failed, NoEffectWrite, if unsupported then Unsupported else ReconciliationRequired, now);
        return;
      }
      KeepVariant(words[0]);
      FinishOperation(Succeeded, NoEffectWrite, Ok, now);
    }

    method AcceptDataReady(words: seq<u16>, now: nat) returns (status: Err)
      requires Valid() && |words| == 1 && active.request.kind.ReadDataReady? && active.phase == ReadResponse
      modifies this
      ensures Valid()
      ensures Io(status, View(), now, 0) == AfterRead(old(View()), words, now)
    {
      hide Summary, Requests, Finish, JudgeSerial, JudgeAttach, JudgeIdentity, JudgeVariant, JudgeSettingRead,
        JudgeConfiguration, JudgeBefore, JudgeBack, JudgeReady, JudgeSample, JudgeDeferred;
      work := work.(readyRaw := words[0], ready := DataReady(words[0]));
      work := work.(boolValue := work.ready);
      FinishOperation(Succeeded, NoEffectWrite, Ok, now);
      status := Ok;
    }

    method AcceptSettingRead(words: seq<u16>, now: nat) returns (status: Err)
      requires Valid() && |words| == 1 && active.request.kind.ReadSetting? && active.phase == ReadResponse
      modifies this
      ensures Valid()
      ensures Io(status, View(), now, 0) == AfterRead(old(View()), words, now)
    {
      hide Summary, Requests, Finish, FieldWordValid, CacheField, CacheResult, Unverify, JudgeSerial, JudgeAttach,
        JudgeIdentity, JudgeVariant, JudgeConfiguration, JudgeBefore, JudgeBack, JudgeReady, JudgeSample, JudgeDeferred;
      var f := active.request.kind.field;
      if !FieldWordValid(f, words[0]) {
        RejectReadValue(f, now);
        return CommandFailed;
      }
      ApplyReadValue(f, words[0]);
      FinishOperation(Succeeded, NoEffectWrite, Ok, now);
      status := Ok;
    }

    /** The operation goes on at once with its next command. */
    method GoOn(phase: Phase, index: nat, now: nat)
      requires Valid()
      modifies this
      ensures Valid()
      ensures View() == old(View()).(active := NextRead(old(active), phase, index, now))
    {
      hide Summary, Requests;
      active := active.(phase := phase, index := index, nextDueMs := now);
    }

    /** A register word enters the cache, or is refused by its domain. */
    method CacheOrReject(f: Field, word: u16, now: nat) returns (valid: bool)
      requires Valid()
      modifies this
      ensures Valid()
      ensures valid == FieldWordValid(f, word)
      ensures View() == CachedOrRejected(old(View()), f, word, now)
    {
      hide Summary, Requests, FieldWordValid, CacheField, CacheResult, Unverify;
      valid := FieldWordValid(f, word);
      if valid {
        ApplyReadValue(f, word);
      } else {
        RejectReadValue(f, now);
      }
    }

    method CompleteField(f: Field)
      requires Valid()
      modifies this
      ensures Valid()
      ensures View() == old(View()).(active := old(active).(completed := old(active).completed + {f}))
    {
      hide Summary, Requests;
      active := active.(completed := active.completed + {f});
    }

    /** A composite read that already published fields ends as partial. */
    method FinishPartial(status: Err, now: nat)
      requires Valid()
      modifies this
      ensures Valid()
      ensures View() == Finish(old(View()).(work := old(work).(configuration := old(know).configuration)), Partial,
                               NoEffectWrite, status, now)
    {
      hide Summary, Requests, Finish;
      work := work.(configuration := know.configuration);
      FinishOperation(Partial, NoEffectWrite, status, now);
    }

    method AcceptConfiguration(words: seq<u16>, now: nat) returns (status: Err)
      requires Valid() && |words| == 1 && active.request.kind.ReadConfiguration? && active.phase == ReadResponse
      modifies this
      ensures Valid()
      ensures Io(status, View(), now, 0) == AfterRead(old(View()), words, now)
    {
      hide Summary, Requests, Finish, FieldWordValid, CachedOrRejected, FieldAt, AfterRead, ResponseWords;
      ConfigurationRead(View(), words, now);
      var f := FieldAt(active.index);
      var valid := CacheOrReject(f, words[0], now);
      if !valid {
        if active.completed != {} {
          FinishPartial(CommandFailed, now);
          return Ok;
        }
        return CommandFailed;
      }
      CompleteField(f);
      if active.index >= 6 {
        FinishOperation(Succeeded, NoEffectWrite, Ok, now);
        return Ok;
      }
      GoOn(SendCommand, active.index + 1, now);
      status := InProgress;
    }

    method AcceptBefore(words: seq<u16>, now: nat) returns (status: Err)
      requires Valid() && |words| == 1 && active.request.kind.WriteSetting? && active.phase == ReadResponse
      requires active.index == 0
      modifies this
      ensures Valid()
      ensures Io(status, View(), now, 0) == AfterRead(old(View()), words, now)
    {
      hide Summary, Requests, Finish, FieldWordValid, CachedOrRejected, AfterRead;
      BeforeRead(View(), words, now);
      var f := active.request.kind.field;
      var valid := CacheOrReject(f, words[0], now);
      active := active.(changed := words[0] != active.desired);
      var selectionRequired := (f.SensorAltitude? || f.AmbientPressure?) && know.source != Some(f);
      if !active.changed && !selectionRequired {
        if !valid {
          return CommandFailed;
        }
        FinishOperation(Succeeded, Verified, Ok, now);
        return Ok;
      }
      GoOn(SendCommand, 1, now);
      status := InProgress;
    }

    method SelectSource(f: Field)
      requires Valid()
      modifies this
      ensures Valid()
      ensures View() == old(View()).(know := Selected(old(know), f))
    {
      hide Summary, Requests;
      if f.SensorAltitude? || f.AmbientPressure? {
        know := know.(source := Some(f));
      }
    }

    method AcceptBack(words: seq<u16>, now: nat) returns (status: Err)
      requires Valid() && |words| == 1 && active.request.kind.WriteSetting? && active.phase == ReadResponse
      requires active.index != 0
      modifies this
      ensures Valid()
      ensures Io(status, View(), now, 0) == AfterRead(old(View()), words, now)
    {
      hide Summary, Requests, Finish, Selected, FieldWordValid, CacheField, CacheResult, Unverify, AfterRead,
        ResponseWords;
      ReadOfKind(View(), words, now);
      var f := active.request.kind.field;
      status := Ok;
      if !FieldWordValid(f, words[0]) {
        RejectReadValue(f, now);
        FinishOperation(Failed, Acknowledged, CommandFailed, now);
        return;
      }
      ApplyReadValue(f, words[0]);
      if words[0] != active.desired {
        FinishOperation(Failed, Verified, CommandFailed, now);
        return;
      }
      SelectSource(f);
      FinishOperation(Succeeded, Verified, Ok, now);
    }

    method AcceptReady(words: seq<u16>, now: nat) returns (status: Err)
      requires Valid() && |words| == 1 && IsMeasurement(active.request.kind) && active.phase == ReadReady
      modifies this
      ensures Valid()
      ensures Io(status, View(), now, 0) == AfterRead(old(View()), words, now)
    {
      hide Summary, Requests, Finish, JudgeSerial, JudgeAttach, JudgeIdentity, JudgeVariant, JudgeSettingRead,
        JudgeConfiguration, JudgeBefore, JudgeBack, JudgeSample, JudgeDeferred;
      work := work.(readyRaw := words[0], ready := DataReady(words[0]));
      if !DataReady(words[0]) {
        FinishOperation(NoData, active.effect, MeasurementNotReady, now);
        return Ok;
      }
      active := active.(phase := SendRead);
      status := InProgress;
    }

    method AcceptSample(words: seq<u16>, now: nat) returns (status: Err)
      requires Valid() && |words| == 3 && IsMeasurement(active.request.kind) && active.phase == ReadResponse
      modifies this
      ensures Valid()
      ensures Io(status, View(), now, 0) == AfterRead(old(View()), words, now)
    {
      hide Summary, Requests, Finish, Engine.StoreSample, JudgeSerial, JudgeAttach, JudgeIdentity, JudgeVariant,
        JudgeSettingRead, JudgeConfiguration, JudgeBefore, JudgeBack, JudgeReady, JudgeDeferred;
      var kind := active.request.kind;
      StoreSample(words, !kind.SingleShotRht?, now);
      work := work.(sample := know.sample);
      FinishOperation(Succeeded, if kind.FetchSample? then NoEffectWrite else Verified, Ok, now);
      status := Ok;
    }

    method AcceptSelfTest(words: seq<u16>, now: nat) returns (status: Err)
      requires Valid() && |words| == 1 && active.phase == ReadDeferred && active.request.kind.SelfTest?
      modifies this
      ensures Valid()
      ensures Io(status, View(), now, 0) == AfterRead(old(View()), words, now)
    {
      hide Summary, Requests, Finish, AfterRead, ResponseWords;
      ReadOfKind(View(), words, now);
      work := work.(value := words[0], rawWords := [words[0]]);
      status := Ok;
      if words[0] != SELF_TEST_PASS {
        FinishOperation(Failed, Verified, CommandFailed, now);
      } else {
        FinishOperation(Succeeded, Verified, Ok, now);
      }
    }

    method AcceptRecalibration(words: seq<u16>, now: nat) returns (status: Err)
      requires Valid() && |words| == 1 && active.phase == ReadDeferred && active.request.kind.ForcedRecalibration?
      modifies this
      ensures Valid()
      ensures Io(status, View(), now, 0) == AfterRead(old(View()), words, now)
    {
      hide Summary, Requests, Finish, AfterRead, ResponseWords;
      ReadOfKind(View(), words, now);
      work := work.(value := words[0], rawWords := [words[0]]);
      status := Ok;
      if words[0] == FRC_FAILED {
        FinishOperation(Failed, Verified, CommandFailed, now);
      } else {
        work := work.(signedValue := words[0] - FRC_BIAS);
        FinishOperation(Succeeded, Verified, Ok, now);
      }
    }

    method AcceptDiagnostic(words: seq<u16>, now: nat) returns (status: Err)
      requires Valid() && IsDiagnostic(active.request.kind) && active.phase == ReadResponse
      requires |words| == active.request.wordCount && |words| >= 1
      modifies this
      ensures Valid()
      ensures Io(status, View(), now, 0) == AfterRead(old(View()), words, now)
    {
      hide Summary, Requests, Finish, JudgeSerial, JudgeAttach, JudgeIdentity, JudgeVariant, JudgeSettingRead,
        JudgeConfiguration, JudgeBefore, JudgeBack, JudgeReady, JudgeSample, JudgeDeferred;
      work := work.(rawWords := words);
      FinishOperation(Succeeded, Acknowledged, Ok, now);
      status := Ok;
    }

    // ----- Step handlers -----

    /** What a response means depends on the kind, the phase and the step within the kind. */
    method Accept(words: seq<u16>, now: nat) returns (status: Err)
      requires Valid() && |words| == ResponseWords(active) && |words| >= 1
      requires SendFor(active) == Some(Send(Read(|words|), Normal, false)) && Reachable(active)
      modifies this
      ensures Valid()
      ensures Io(status, View(), now, 0) == AfterRead(old(View()), words, now)
    {
      hide Summary, Requests, AfterRead;
      var kind := active.request.kind;
      if kind.Attach? {
        if active.phase == ReadResponse {
          status := AcceptSerial(words, now);
        } else {
          status := AcceptAttach(words, now);
        }
      } else if kind.ReadIdentity? || kind.WakeUp? {
        if active.phase == ReadResponse {
          status := AcceptSerial(words, now);
        } else {
          status := AcceptIdentity(words, now);
        }
      } else if kind.Reinit? || kind.FactoryReset? {
        if active.index == 0 { status := AcceptSerial(words, now); } else { status := AcceptIdentity(words, now); }
      } else if kind.ReadVariant? {
        status := AcceptVariant(words, now);
      } else if kind.ReadDataReady? {
        status := AcceptDataReady(words, now);
      } else if kind.ReadSetting? {
        status := AcceptSettingRead(words, now);
      } else if kind.ReadConfiguration? {
        status := AcceptConfiguration(words, now);
      } else if kind.WriteSetting? {
        if active.index == 0 { status := AcceptBefore(words, now); } else { status := AcceptBack(words, now); }
      } else if IsMeasurement(kind) {
        if active.phase == ReadReady { status := AcceptReady(words, now); } else { status := AcceptSample(words, now); }
      } else if kind.SelfTest? {
        status := AcceptSelfTest(words, now);
      } else if kind.ForcedRecalibration? {
        status := AcceptRecalibration(words, now);
      } else {
        status := AcceptDiagnostic(words, now);
      }
    }

    /** A response phase: fetch the words, then act on them; a composite read may end as partial. */
    method Receive(count: nat, nowMs: nat, budget: nat) returns (status: Err, now: nat, left: nat)
      requires Valid() && Reachable(active) && !GateClosed(View(), nowMs)
      requires SendFor(active) == Some(Send(Read(count), Normal, false))
      modifies this, bus
      ensures Valid()
      ensures Io(status, View(), now, left) == Exchange(old(View()), nowMs, budget, old(NextReply()))
    {
      hide Summary, Requests, GateClosed, Attempt, AfterRead, SendFor, Words, Buffer, AllWordsOk, Finish;
      ReceivingExchange(View(), count, nowMs, budget, NextReply());
      var words;
      status, now, left, words := ReadWords(count, nowMs, budget);
      if status == InProgress {
        return;
      }
      if status != Ok {
        if active.request.kind.ReadConfiguration? && active.completed != {} {
          FinishPartial(status, now);
          status := Ok;
        }
        return;
      }
      status := Accept(words, now);
    }

    /** A wait that leads to another phase: nothing happens before it is due. */
    method PassWait(phase: Phase, nowMs: nat, ghost budget: nat, ghost reply: Reply) returns (status: Err)
      requires Valid() && Resting(active) && !EndsAfterWait(active.request.kind) && !IsReset(active.request.kind)
      requires phase == Wakes(active)
      modifies this
      ensures Valid()
      ensures Io(status, View(), nowMs, budget) == PhaseStep(old(View()), nowMs, budget, reply)
    {
      hide Summary, Requests, Exchange, Finish, Resting, Wakes, Reached;
      status := InProgress;
      if !Reached(Wrapped, nowMs, active.nextDueMs) {
        return;
      }
      active := active.(phase := phase);
    }

    method Acknowledge()
      requires Valid()
      modifies this
      ensures Valid()
      ensures View() == old(View()).(active := old(active).(effect := Acknowledged))
    {
      hide Summary, Requests;
      active := active.(effect := Acknowledged);
    }

    /** The wake attempt of ATTACH: even an expected NACK may have woken the sensor. */
    method SendAttachWake(nowMs: nat, budget: nat) returns (status: Err, now: nat, left: nat)
      requires Valid() && !GateClosed(View(), nowMs) && active.request.kind.Attach? && active.phase == SendWake
      modifies this, bus
      ensures Valid()
      ensures Io(status, View(), now, left) == Exchange(old(View()), nowMs, budget, old(NextReply()))
    {
      hide Summary, Requests, GateClosed, Attempt, Exchange, WakeEffect, Forget, After, Finish;
      EffectExchange(View(), Send(Write(CMD_WAKE_UP), ExpectNack, true), nowMs, budget, NextReply());
      AttemptFrame(View(), Send(Write(CMD_WAKE_UP), ExpectNack, true), nowMs, budget, NextReply());
      status, now, left := WriteCommand(CMD_WAKE_UP, ExpectNack, nowMs, budget, true);
      if status != Ok {
        return;
      }
      active := active.(effect := WakeEffect(lastDisposition));
      MarkReconciliationRequired();
      WaitIn(WaitWake, active.index, now, POWER_UP_MS);
      status := InProgress;
    }

    method SendAttachStop(nowMs: nat, budget: nat) returns (status: Err, now: nat, left: nat)
      requires Valid() && !GateClosed(View(), nowMs) && active.request.kind.Attach? && active.phase == SendStop
      modifies this, bus
      ensures Valid()
      ensures Io(status, View(), now, left) == Exchange(old(View()), nowMs, budget, old(NextReply()))
    {
      hide Summary, Requests, GateClosed, Attempt, Exchange, WakeEffect, Forget, After, Finish;
      EffectExchange(View(), Send(Write(CMD_STOP_PERIODIC), ExpectNack, true), nowMs, budget, NextReply());
      AttemptFrame(View(), Send(Write(CMD_STOP_PERIODIC), ExpectNack, true), nowMs, budget, NextReply());
      status, now, left := WriteCommand(CMD_STOP_PERIODIC, ExpectNack, nowMs, budget, true);
      if status != Ok {
        return;
      }
      WaitIn(WaitStop, active.index, now, STOP_MS);
      status := InProgress;
    }

    method StepAttach(nowMs: nat, budget: nat) returns (status: Err, now: nat, left: nat)
      requires Valid() && Reachable(active) && !GateClosed(View(), nowMs) && active.request.kind.Attach?
      modifies this, bus
      ensures Valid()
      ensures Io(status, View(), now, left) == PhaseStep(old(View()), nowMs, budget, old(NextReply()))
    {
      hide Summary, Requests, GateClosed, Exchange, PhaseStep;
      now, left := nowMs, budget;
      if Resting(active) {
        var next := if active.phase == WaitPowerUp then SendWake
                    else if active.phase == WaitWake then SendStop
                    else if active.phase == WaitStop then SendRead
                    else if active.index == 0 then ReadResponse else ReadVerify;
        status := PassWait(next, nowMs, budget, NextReply());
        return;
      }
      ExchangeStep(View(), nowMs, budget, NextReply());
      if active.phase == SendWake {
        status, now, left := SendAttachWake(nowMs, budget);
      } else if active.phase == SendStop {
        status, now, left := SendAttachStop(nowMs, budget);
      } else if active.phase == SendRead {
        status, now, left := SendThenWait(CMD_GET_SERIAL, WaitExecution, active.index, nowMs, budget);
      } else if active.phase == ReadResponse {
        status, now, left := Receive(3, nowMs, budget);
      } else if active.phase == SendVerify {
        status, now, left := SendThenWait(CMD_GET_VARIANT, WaitExecution, active.index, nowMs, budget);
      } else {
        status, now, left := Receive(1, nowMs, budget);
      }
    }

    method StepReadLike(nowMs: nat, budget: nat) returns (status: Err, now: nat, left: nat)
      requires Valid() && Reachable(active) && !GateClosed(View(), nowMs) && IsReadLike(active.request.kind)
      modifies this, bus
      ensures Valid()
      ensures Io(status, View(), now, left) == PhaseStep(old(View()), nowMs, budget, old(NextReply()))
    {
      hide Summary, Requests, GateClosed, Exchange, PhaseStep;
      now, left := nowMs, budget;
      if active.phase == WaitExecution {
        var next := if active.request.kind.ReadIdentity? && active.index == 1 then ReadVerify else ReadResponse;
        status := PassWait(next, nowMs, budget, NextReply());
        return;
      }
      ExchangeStep(View(), nowMs, budget, NextReply());
      if active.phase == SendCommand {
        status, now, left := SendThenWait(ReadCommand(ReadKind(active)), WaitExecution, active.index, nowMs, budget);
      } else if active.phase == ReadResponse {
        status, now, left := Receive(if active.request.kind.ReadIdentity? then 3 else 1, nowMs, budget);
      } else if active.phase == SendVerify {
        status, now, left := SendThenWait(CMD_GET_VARIANT, WaitExecution, active.index, nowMs, budget);
      } else {
        status, now, left := Receive(1, nowMs, budget);
      }
    }

    method OverwriteField(f: Field, changed: bool)
      requires Valid()
      modifies this
      ensures Valid()
      ensures View() == old(View()).(know :=
                                     old(know).(configuration := Overwritten(old(know).configuration, f, changed)))
    {
      hide Summary, Requests;
      know := know.(configuration := know.configuration.(verified := know.configuration.verified - {f}));
      if changed && !f.AmbientPressure? {
        know := know.(configuration := know.configuration.(dirty := know.configuration.dirty + {f}));
      }
    }

    method DeselectSource(f: Field)
      requires Valid()
      modifies this
      ensures Valid()
      ensures View() == old(View()).(know := Deselected(old(know), f))
    {
      hide Summary, Requests;
      if f.SensorAltitude? || f.AmbientPressure? {
        know := know.(source := None);
      }
    }

    /** A setting write that may have reached the sensor costs the field its verified bit. */
    method NoteSettingWrite()
      requires Valid() && active.request.kind.WriteSetting?
      modifies this
      ensures Valid()
      ensures View() == old(View()).(know := KnowAfterSettingWrite(old(know), old(active), old(lastDisposition)))
    {
      hide Summary, Requests, Overwritten, Deselected;
      var f := active.request.kind.field;
      if lastDisposition == Complete || lastDisposition == Unproven {
        OverwriteField(f, active.changed);
        DeselectSource(f);
      }
    }

    method SendSettingWord(nowMs: nat, budget: nat) returns (status: Err, now: nat, left: nat)
      requires Valid() && !GateClosed(View(), nowMs) && IsSettingWrite(active)
      modifies this, bus
      ensures Valid()
      ensures Io(status, View(), now, left) == Exchange(old(View()), nowMs, budget, old(NextReply()))
    {
      hide Summary, Requests, GateClosed, Attempt, Exchange, KnowAfterSettingWrite, After, Finish;
      ghost var send := Send(WriteWord(SetCommand(active.request.kind.field), active.desired), Normal, true);
      SettingExchange(View(), send, nowMs, budget, NextReply());
      AttemptFrame(View(), send, nowMs, budget, NextReply());
      SameSettingWrite(View(), send, nowMs, budget, NextReply());
      status, now, left :=
        WriteCommandWithWord(SetCommand(active.request.kind.field), active.desired, nowMs, budget, true);
      if status == InProgress {
        return;
      }
      NoteSettingWrite();
      if status != Ok {
        return;
      }
      Acknowledge();
      WaitIn(WaitExecution, 2, now, SHORT_MS);
      status := InProgress;
    }

    method StepSetting(nowMs: nat, budget: nat) returns (status: Err, now: nat, left: nat)
      requires Valid() && Reachable(active) && !GateClosed(View(), nowMs) && active.request.kind.WriteSetting?
      modifies this, bus
      ensures Valid()
      ensures Io(status, View(), now, left) == PhaseStep(old(View()), nowMs, budget, old(NextReply()))
    {
      hide Summary, Requests, GateClosed, Exchange, PhaseStep;
      now, left := nowMs, budget;
      if active.phase == WaitExecution {
        status := PassWait(if active.index == 2 then SendCommand else ReadResponse, nowMs, budget, NextReply());
        return;
      }
      ExchangeStep(View(), nowMs, budget, NextReply());
      if active.phase == ReadResponse {
        status, now, left := Receive(1, nowMs, budget);
      } else if active.index == 1 {
        status, now, left := SendSettingWord(nowMs, budget);
      } else {
        status, now, left := SendThenWait(GetCommand(active.request.kind.field), WaitExecution,
                                          if active.index == 0 then 0 else 3, nowMs, budget);
      }
    }

    /** Verification after a wake is what restores the attached state. */
    method NoteModeWord()
      requires Valid() && IsModeCommand(active.request.kind) && active.phase == SendCommand
      modifies this
      ensures Valid()
      ensures View() == old(View()).(active :=
                                     old(active).(effect := EffectAfterWrite(old(active), old(lastDisposition))),
                                     know := KnowAfterWrite(old(know), old(active)))
    {
      hide Summary, Requests, WakeEffect, Forget;
      if active.request.kind.WakeUp? {
        active := active.(effect := WakeEffect(lastDisposition));
        MarkReconciliationRequired();
      } else {
        Acknowledge();
      }
    }

    method SendModeWord(nowMs: nat, budget: nat) returns (status: Err, now: nat, left: nat)
      requires Valid() && !GateClosed(View(), nowMs) && IsModeCommand(active.request.kind) &&
        active.phase == SendCommand
      modifies this, bus
      ensures Valid()
      ensures Io(status, View(), now, left) == Exchange(old(View()), nowMs, budget, old(NextReply()))
    {
      hide Summary, Requests, GateClosed, Attempt, Exchange, After, MainCommand, ExecutionWait;
      var kind := active.request.kind;
      var intent := if kind.WakeUp? then ExpectNack else Normal;
      CommandExchange(View(), Send(Write(MainCommand(kind)), intent, true), nowMs, budget, NextReply());
      AttemptFrame(View(), Send(Write(MainCommand(kind)), intent, true), nowMs, budget, NextReply());
      status, now, left := WriteCommand(MainCommand(kind), intent, nowMs, budget, true);
      if status != Ok {
        return;
      }
      NoteModeWord();
      WaitIn(WaitExecution, active.index, now, ExecutionWait(kind));
      status := InProgress;
    }

    /** The execution wait of a mode command: the mode is known once it has passed. */
    method FinishModeCommand(nowMs: nat, ghost budget: nat, ghost reply: Reply) returns (status: Err)
      requires Valid() && active.phase == WaitExecution
      requires IsModeCommand(active.request.kind) && !active.request.kind.WakeUp?
      modifies this
      ensures Valid()
      ensures Io(status, View(), nowMs, budget) == PhaseStep(old(View()), nowMs, budget, reply)
    {
      hide Summary, Requests, Exchange, Finish, Reached;
      if !Reached(Wrapped, nowMs, active.nextDueMs) {
        return InProgress;
      }
      var kind := active.request.kind;
      if kind.StartPeriodic? {
        SetMode(Periodic, ModeAcknowledged);
      } else if kind.StartLowPower? {
        SetMode(LowPower, ModeAcknowledged);
      } else if kind.StopPeriodic? {
        SetMode(Idle, ModeAcknowledged);
      } else {
        SetMode(Asleep, ModeAcknowledged);
      }
      FinishOperation(Succeeded, Acknowledged, Ok, nowMs);
      status := Ok;
    }

    method StepModeCommand(nowMs: nat, budget: nat) returns (status: Err, now: nat, left: nat)
      requires Valid() && Reachable(active) && !GateClosed(View(), nowMs) && IsModeCommand(active.request.kind)
      modifies this, bus
      ensures Valid()
      ensures Io(status, View(), now, left) == PhaseStep(old(View()), nowMs, budget, old(NextReply()))
    {
      hide Summary, Requests, GateClosed, Exchange, PhaseStep;
      now, left := nowMs, budget;
      if active.phase == WaitExecution {
        if active.request.kind.WakeUp? {
          var next := if active.index == 0 then SendRead else if active.index == 1 then ReadResponse else ReadVerify;
          status := PassWait(next, nowMs, budget, NextReply());
        } else {
          status := FinishModeCommand(nowMs, budget, NextReply());
        }
        return;
      }
      ExchangeStep(View(), nowMs, budget, NextReply());
      if active.phase == SendCommand {
        status, now, left := SendModeWord(nowMs, budget);
      } else if active.phase == SendRead {
        status, now, left := SendThenWait(CMD_GET_SERIAL, WaitExecution, 1, nowMs, budget);
      } else if active.phase == ReadResponse {
        status, now, left := Receive(3, nowMs, budget);
      } else if active.phase == SendVerify {
        status, now, left := SendThenWait(CMD_GET_VARIANT, WaitExecution, 2, nowMs, budget);
      } else {
        status, now, left := Receive(1, nowMs, budget);
      }
    }

    /** An acknowledged one-word command and its execution wait. */
    method SendActing(command: u16, nowMs: nat, budget: nat) returns (status: Err, now: nat, left: nat)
      requires Valid() && !GateClosed(View(), nowMs) && active.phase == SendCommand
      requires active.request.kind.SingleShot? || active.request.kind.SingleShotRht? || active.request.kind.SelfTest? ||
               active.request.kind.PersistSettings?
      requires SendFor(active) == Some(Send(Write(command), Normal, true))
      modifies this, bus
      ensures Valid()
      ensures Io(status, View(), now, left) == Exchange(old(View()), nowMs, budget, old(NextReply()))
    {
      hide Summary, Requests, GateClosed, Attempt, Exchange, SendFor, After, ExecutionWait, Waiting, EffectAfterWrite,
        KnowAfterWrite;
      CommandFacts(active,
                   Attempt(View(), Send(Write(command), Normal, true), nowMs, budget, NextReply()).s.disposition, know);
      CommandExchange(View(), Send(Write(command), Normal, true), nowMs, budget, NextReply());
      AttemptFrame(View(), Send(Write(command), Normal, true), nowMs, budget, NextReply());
      status, now, left := WriteCommand(command, Normal, nowMs, budget, true);
      if status != Ok {
        return;
      }
      Acknowledge();
      WaitIn(WaitExecution, active.index, now, ExecutionWait(active.request.kind));
      status := InProgress;
    }

    method StepMeasurement(nowMs: nat, budget: nat) returns (status: Err, now: nat, left: nat)
      requires Valid() && Reachable(active) && !GateClosed(View(), nowMs) && IsMeasurement(active.request.kind)
      modifies this, bus
      ensures Valid()
      ensures Io(status, View(), now, left) == PhaseStep(old(View()), nowMs, budget, old(NextReply()))
    {
      hide Summary, Requests, GateClosed, Exchange, PhaseStep, Reached;
      now, left := nowMs, budget;
      if active.phase == WaitExecution {
        status := PassWait(SendReady, nowMs, budget, NextReply());
        return;
      }
      if (active.phase == ReadReady || active.phase == ReadResponse) && !Reached(Wrapped, nowMs, active.nextDueMs) {
        EarlyStep(View(), nowMs, budget, NextReply());
        return InProgress, now, left;
      }
      ExchangeStep(View(), nowMs, budget, NextReply());
      if active.phase == SendCommand {
        status, now, left := SendActing(MainCommand(active.request.kind), nowMs, budget);
      } else if active.phase == SendReady {
        status, now, left := SendThenWait(CMD_GET_DATA_READY, ReadReady, active.index, nowMs, budget);
      } else if active.phase == ReadReady {
        status, now, left := Receive(1, nowMs, budget);
      } else if active.phase == SendRead {
        status, now, left := SendThenWait(CMD_READ_MEASUREMENT, ReadResponse, active.index, nowMs, budget);
      } else {
        status, now, left := Receive(3, nowMs, budget);
      }
    }

    /** PERSIST_SETTINGS ends without a write while persistence is in doubt or nothing is dirty. */
    method AnswerPersist(nowMs: nat, ghost budget: nat, ghost reply: Reply) returns (answered: bool, status: Err)
      requires Valid() && active.request.kind.PersistSettings? && active.phase == SendCommand
      modifies this
      ensures Valid()
      ensures answered == (PersistBlocked(old(View())) || PersistNotNeeded(old(View())))
      ensures answered ==> Io(status, View(), nowMs, budget) == PhaseStep(old(View()), nowMs, budget, reply)
      ensures !answered ==>
        View() == old(View()) && PhaseStep(View(), nowMs, budget, reply) == Exchange(View(), nowMs, budget, reply)
    {
      hide Summary, Requests, Exchange, Finish, Reached, Rested;
      status := Ok;
      if know.configuration.indeterminate {
        work := work.(configuration := know.configuration);
        FinishOperation(OutcomeIndeterminate, UnknownEffect, Indeterminate, nowMs);
        return true, Ok;
      }
      if know.configuration.dirty == {} {
        work := work.(configuration := know.configuration);
        FinishOperation(Succeeded, NotAttempted, Ok, nowMs);
        return true, Ok;
      }
      answered := false;
    }

    method SendRecalibration(nowMs: nat, budget: nat) returns (status: Err, now: nat, left: nat)
      requires Valid() && !GateClosed(View(), nowMs) && active.request.kind.ForcedRecalibration? &&
        active.phase == SendCommand
      modifies this, bus
      ensures Valid()
      ensures Io(status, View(), now, left) == Exchange(old(View()), nowMs, budget, old(NextReply()))
    {
      hide Summary, Requests, GateClosed, Attempt, Exchange, After, Waiting, SendFor, EffectAfterWrite, KnowAfterWrite,
        ExecutionWait;
      ghost var send := Send(WriteWord(CMD_FORCED_RECALIBRATION, active.request.value % 0x10000), Normal, true);
      CommandFacts(active, Attempt(View(), send, nowMs, budget, NextReply()).s.disposition, know);
      CommandExchange(View(), send, nowMs, budget, NextReply());
      AttemptFrame(View(), send, nowMs, budget, NextReply());
      status, now, left :=
        WriteCommandWithWord(CMD_FORCED_RECALIBRATION, active.request.value % 0x10000, nowMs, budget, true);
      if status != Ok {
        return;
      }
      Acknowledge();
      WaitIn(WaitExecution, active.index, now, FRC_MS);
      status := InProgress;
    }

    /** A reload or reset: nothing known before it is kept. */
    method SendReset(nowMs: nat, budget: nat) returns (status: Err, now: nat, left: nat)
      requires Valid() && !GateClosed(View(), nowMs) && IsReset(active.request.kind) && active.phase == SendCommand
      modifies this, bus
      ensures Valid()
      ensures Io(status, View(), now, left) == Exchange(old(View()), nowMs, budget, old(NextReply()))
    {
      hide Summary, Requests, GateClosed, Attempt, Exchange, After, Forget, MainCommand, ExecutionWait, Waiting;
      var kind := active.request.kind;
      CommandExchange(View(), Send(Write(MainCommand(kind)), Normal, true), nowMs, budget, NextReply());
      AttemptFrame(View(), Send(Write(MainCommand(kind)), Normal, true), nowMs, budget, NextReply());
      status, now, left := WriteCommand(MainCommand(kind), Normal, nowMs, budget, true);
      if status != Ok {
        return;
      }
      Acknowledge();
      MarkReconciliationRequired();
      MarkFactoryReset();
      WaitIn(WaitExecution, active.index, now, ExecutionWait(kind));
      status := InProgress;
    }

    method MarkFactoryReset()
      requires Valid()
      modifies this
      ensures Valid()
      ensures View() == old(View()).(know := if old(active).request.kind.FactoryReset? then Marked(old(know), true)
                                     else old(know))
    {
      hide Summary, Requests;
      if active.request.kind.FactoryReset? {
        know := know.(configuration := know.configuration.(indeterminate := true));
      }
    }

    /** The execution wait of a reset discards dirty work even if the identity check later fails. */
    method PassResetWait(nowMs: nat, ghost budget: nat, ghost reply: Reply) returns (status: Err)
      requires Valid() && active.phase == WaitExecution && IsReset(active.request.kind)
      modifies this
      ensures Valid()
      ensures Io(status, View(), nowMs, budget) == PhaseStep(old(View()), nowMs, budget, reply)
    {
      hide Summary, Requests, Exchange, Finish, Reached;
      status := InProgress;
      if !Reached(Wrapped, nowMs, active.nextDueMs) {
        return;
      }
      know := know.(configuration := know.configuration.(dirty := {}));
      active := active.(phase := SendVerify);
    }

    method FinishPersist(nowMs: nat, ghost budget: nat, ghost reply: Reply) returns (status: Err)
      requires Valid() && active.phase == WaitExecution && active.request.kind.PersistSettings?
      modifies this
      ensures Valid()
      ensures Io(status, View(), nowMs, budget) == PhaseStep(old(View()), nowMs, budget, reply)
    {
      hide Summary, Requests, Exchange, Finish, Reached;
      if !Reached(Wrapped, nowMs, active.nextDueMs) {
        return InProgress;
      }
      know := know.(configuration := know.configuration.(dirty := {}));
      know := know.(configuration := know.configuration.(indeterminate := false));
      work := work.(configuration := know.configuration);
      FinishOperation(Succeeded, Acknowledged, Ok, nowMs);
      status := Ok;
    }

    method StepMaintenanceWait(nowMs: nat, ghost budget: nat, ghost reply: Reply) returns (status: Err)
      requires Valid() && Reachable(active) && IsMaintenance(active.request.kind) && active.phase == WaitExecution
      modifies this
      ensures Valid()
      ensures Io(status, View(), nowMs, budget) == PhaseStep(old(View()), nowMs, budget, reply)
    {
      hide Summary, Requests, Exchange, PhaseStep;
      var kind := active.request.kind;
      if kind.SelfTest? || kind.ForcedRecalibration? {
        status := PassWait(ReadDeferred, nowMs, budget, reply);
      } else if kind.Reinit? || kind.FactoryReset? {
        status := PassResetWait(nowMs, budget, reply);
      } else {
        status := FinishPersist(nowMs, budget, reply);
      }
    }

    method StepMaintenance(nowMs: nat, budget: nat) returns (status: Err, now: nat, left: nat)
      requires Valid() && Reachable(active) && !GateClosed(View(), nowMs) && IsMaintenance(active.request.kind)
      modifies this, bus
      ensures Valid()
      ensures Io(status, View(), now, left) == PhaseStep(old(View()), nowMs, budget, old(NextReply()))
    {
      hide Summary, Requests, GateClosed, Exchange, PhaseStep, Reached, PersistBlocked, PersistNotNeeded;
      var kind := active.request.kind;
      now, left := nowMs, budget;
      if kind.PersistSettings? && active.phase == SendCommand {
        var answered;
        answered, status := AnswerPersist(nowMs, budget, NextReply());
        if !answered {
          status, now, left := SendActing(CMD_PERSIST_SETTINGS, nowMs, budget);
        }
        return;
      }
      if active.phase == WaitExecution {
        status := StepMaintenanceWait(nowMs, budget, NextReply());
        return;
      }
      if active.phase == ReadVerify && !Reached(Wrapped, nowMs, active.nextDueMs) {
        EarlyStep(View(), nowMs, budget, NextReply());
        return InProgress, now, left;
      }
      ExchangeStep(View(), nowMs, budget, NextReply());
      if active.phase == SendCommand {
        if kind.ForcedRecalibration? {
          status, now, left := SendRecalibration(nowMs, budget);
        } else if kind.SelfTest? {
          status, now, left := SendActing(CMD_SELF_TEST, nowMs, budget);
        } else {
          status, now, left := SendReset(nowMs, budget);
        }
      } else if active.phase == ReadDeferred {
        status, now, left := Receive(1, nowMs, budget);
      } else if active.phase == SendVerify {
        status, now, left := SendThenWait(if active.index == 0 then CMD_GET_SERIAL else CMD_GET_VARIANT, ReadVerify,
                                          active.index, nowMs, budget);
      } else {
        status, now, left := Receive(if active.index == 0 then 3 else 1, nowMs, budget);
      }
    }

    method TransmitDiagnostic(nowMs: nat, budget: nat) returns (status: Err, now: nat, left: nat)
      requires Valid() && !GateClosed(View(), nowMs) && EndsAfterWrite(active.request.kind) &&
        active.phase == SendCommand
      modifies this, bus
      ensures Valid()
      ensures Io(status, View(), now, left) ==
        Attempt(old(View()), DiagnosticSend(old(active).request), nowMs, budget, old(NextReply()))
    {
      hide Summary, Requests, GateClosed, Attempt;
      if active.request.kind.DiagWriteWord? {
        status, now, left :=
          WriteCommandWithWord(active.request.command, active.request.value % 0x10000, nowMs, budget, true);
      } else {
        status, now, left := WriteCommand(active.request.command, Normal, nowMs, budget, true);
      }
    }

    /** A diagnostic read goes on to its response. */
    method SendDiagnosticRead(nowMs: nat, budget: nat) returns (status: Err, now: nat, left: nat)
      requires Valid() && !GateClosed(View(), nowMs) && active.request.kind.DiagReadWords? &&
        active.phase == SendCommand
      modifies this, bus
      ensures Valid()
      ensures Io(status, View(), now, left) == Exchange(old(View()), nowMs, budget, old(NextReply()))
    {
      hide Summary, Requests, GateClosed, Attempt, Exchange, After, Forget, Waiting, SendFor, EffectAfterWrite,
        KnowAfterWrite, ExecutionWait;
      ghost var send := Send(Write(active.request.command), Normal, true);
      CommandFacts(active, Attempt(View(), send, nowMs, budget, NextReply()).s.disposition, know);
      CommandExchange(View(), send, nowMs, budget, NextReply());
      AttemptFrame(View(), send, nowMs, budget, NextReply());
      status, now, left := WriteCommand(active.request.command, Normal, nowMs, budget, true);
      if status != Ok {
        return;
      }
      Acknowledge();
      MarkReconciliationRequired();
      WaitIn(WaitExecution, active.index, now, SHORT_MS);
      status := InProgress;
    }

    /** An unmanaged write may have changed anything, and ends the operation. */
    method SendDiagnosticWrite(nowMs: nat, budget: nat) returns (status: Err, now: nat, left: nat)
      requires Valid() && !GateClosed(View(), nowMs) && EndsAfterWrite(active.request.kind) &&
        active.phase == SendCommand
      modifies this, bus
      ensures Valid()
      ensures Io(status, View(), now, left) == Exchange(old(View()), nowMs, budget, old(NextReply()))
    {
      hide Summary, Requests, GateClosed, Attempt, Exchange, After, Finish, Forget;
      ghost var send := DiagnosticSend(active.request);
      EffectExchange(View(), send, nowMs, budget, NextReply());
      AttemptFrame(View(), send, nowMs, budget, NextReply());
      status, now, left := TransmitDiagnostic(nowMs, budget);
      if status != Ok {
        return;
      }
      Acknowledge();
      MarkReconciliationRequired();
      FinishOperation(Succeeded, Acknowledged, Ok, now);
    }

    method StepDiagnostic(nowMs: nat, budget: nat) returns (status: Err, now: nat, left: nat)
      requires Valid() && Reachable(active) && !GateClosed(View(), nowMs) && IsDiagnostic(active.request.kind)
      modifies this, bus
      ensures Valid()
      ensures Io(status, View(), now, left) == PhaseStep(old(View()), nowMs, budget, old(NextReply()))
    {
      hide Summary, Requests, GateClosed, Exchange, PhaseStep;
      now, left := nowMs, budget;
      if active.phase == WaitExecution {
        status := PassWait(ReadResponse, nowMs, budget, NextReply());
        return;
      }
      ExchangeStep(View(), nowMs, budget, NextReply());
      if active.phase == SendCommand {
        if active.request.kind.DiagReadWords? {
          status, now, left := SendDiagnosticRead(nowMs, budget);
        } else {
          status, now, left := SendDiagnosticWrite(nowMs, budget);
        }
      } else {
        status, now, left := Receive(active.request.wordCount, nowMs, budget);
      }
    }

    // ----- The poll loop -----

    method Step(nowMs: nat, budget: nat) returns (status: Err, now: nat, left: nat)
      requires Valid() && Reachable(active)
      modifies this, bus
      ensures Valid()
      ensures Io(status, View(), now, left) == Engine.Step(old(View()), nowMs, budget, old(NextReply()))
    {
      hide Summary, Requests, PhaseStep, Reached, Reachable;
      now, left := nowMs, budget;
      if Reached(Wrapped, nowMs, active.deadlineMs) {
        return Timeout, now, left;
      }
      if time.gateValid && !Reached(Wrapped, nowMs, time.gateMs) {
        active := active.(nextDueMs := time.gateMs);
        return InProgress, now, left;
      }
      var kind := active.request.kind;
      if kind.Attach? {
        status, now, left := StepAttach(nowMs, budget);
      } else if IsMeasurement(kind) {
        status, now, left := StepMeasurement(nowMs, budget);
      } else if IsMaintenance(kind) {
        status, now, left := StepMaintenance(nowMs, budget);
      } else if IsDiagnostic(kind) {
        status, now, left := StepDiagnostic(nowMs, budget);
      } else if kind.WriteSetting? {
        status, now, left := StepSetting(nowMs, budget);
      } else if IsModeCommand(kind) {
        status, now, left := StepModeCommand(nowMs, budget);
      } else {
        Control.OnlyReads(active);
        status, now, left := StepReadLike(nowMs, budget);
      }
    }

    /** One pass of the loop: a step, failure handling, and the progress checks. */
    method Iterate(nowMs: nat, budget: nat) returns (now: nat, left: nat, more: bool)
      requires Valid() && activeValid && !terminalValid && Reachable(active)
      modifies this, bus
      ensures Valid() && (activeValid ==> Reachable(active) && !terminalValid)
      ensures Turn(View(), now, left, more) == Engine.Iterate(old(View()), nowMs, budget, old(NextReply()))
    {
      hide Summary, Requests, Engine.Step, Reached, Reachable, FinishFailure;
      Control.IterateReachable(View(), nowMs, budget, NextReply());
      var phaseBefore, dueBefore := active.phase, active.nextDueMs;
      var status;
      status, now, left := Step(nowMs, budget);
      if !activeValid || terminalValid {
        return now, left, false;
      }
      if status != Ok && status != InProgress {
        FinishOperationFailure(status, now);
        return now, left, false;
      }
      if left == 0 {
        return now, left, false;
      }
      if active.phase == phaseBefore && active.nextDueMs == dueBefore && left == budget {
        return now, left, false;
      }
      more := Reached(Wrapped, now, active.nextDueMs);
    }

    method RunLoop(nowMs: nat, budget: nat) returns (left: nat)
      requires Valid() && (activeValid ==> Reachable(active) && !terminalValid)
      modifies this, bus
      ensures Valid() && (activeValid ==> Reachable(active) && !terminalValid)
      ensures var t := Loop(old(View()), nowMs, budget, 0, bus.Answer);
        View() == t.s && left == t.budget
    {
      hide Summary, Requests, Reachable, Engine.Iterate;
      var now, transitions := nowMs, 0;
      left := budget;
      while activeValid && transitions < MAX_TRANSITIONS
        invariant Valid() && (activeValid ==> Reachable(active) && !terminalValid)
        invariant Loop(old(View()), nowMs, budget, 0, bus.Answer) == Loop(View(), now, left, transitions, bus.Answer)
        decreases MAX_TRANSITIONS - transitions
      {
        if time.gateValid && !Reached(Wrapped, now, time.gateMs) && !Reached(Wrapped, now, active.nextDueMs) {
          break;
        }
        transitions := transitions + 1;
        var more;
        now, left, more := Iterate(now, left);
        if !more {
          break;
        }
      }
    }

    // ----- Public calls -----

    /** Work in progress is in one of its own phases, and no result is pending beside it. */
    ghost predicate Orderly()
      reads this, bus
    {
      Valid() && (activeValid ==> Reachable(active) && !terminalValid)
    }

    /** Between calls: the object is where the run of its calls leads. */
    ghost predicate Stable()
      reads this, bus
    {
      Orderly() && View() == Run(history, Wrapped, bus.Answer)
    }

    method OperationState() returns (state: SlotState)
      requires Valid()
      ensures state == SlotOf(View())
    {
      state := if terminalValid then ResultPending else if activeValid then SlotActive else SlotIdle;
    }

    /** A backward owner time is refused; any other is recorded, even while idle. */
    method ObserveTime(nowMs: nat) returns (ok: bool)
      requires Valid()
      modifies this
      ensures Valid()
      ensures ok == OwnerClockOk(old(View()), nowMs) && View() == Observe(old(View()), nowMs)
    {
      hide Summary, Requests, Reached;
      ok := !time.ownerValid || Reached(Wrapped, nowMs, time.ownerMs);
      if ok {
        time := time.(ownerMs := nowMs, ownerValid := true);
        if time.gateValid && Reached(Wrapped, nowMs, time.gateMs) {
          time := time.(gateValid := false);
        }
      }
    }

    method NextPollDueMs() returns (due: nat)
      requires Valid()
      ensures due == NextPollDue(View())
    {
      due := if Reached(Wrapped, active.nextDueMs, active.deadlineMs) then active.deadlineMs else active.nextDueMs;
    }

    method MakeReport(status: Err, used: nat) returns (result: PollResult)
      requires Valid()
      ensures result == Report(View(), status, used)
    {
      hide Summary, Requests, NextPollDue;
      if terminalValid {
        result := PollResult(ResultPending, terminal.id, terminal.kind, terminal.status, 0, used);
      } else if activeValid {
        var due := NextPollDueMs();
        result := PollResult(SlotActive, active.id, active.request.kind, status, due, used);
      } else {
        result := PollResult(SlotIdle, NO_ID, NoKind, Ok, 0, used);
      }
    }

    method PollActive(nowMs: nat, budget: nat) returns (left: nat)
      requires Orderly() && activeValid
      modifies this, bus
      ensures Orderly()
      ensures var t := PollTurn(old(View()), nowMs, budget, bus.Answer);
        View() == t.s && left == t.budget
    {
      hide Summary, Requests, Reachable, Loop, Reached, Classify, ForgetIf, BlockedIf, EepromUncertain, PartialWork,
        Discarded, Published, ResultOf;
      if Reached(Wrapped, nowMs, active.deadlineMs) {
        FinishOperationFailure(Timeout, nowMs);
      }
      left := RunLoop(nowMs, budget);
    }

    method Advance(nowMs: nat, budget: nat) returns (result: PollResult)
      requires Orderly()
      modifies this, bus
      ensures Orderly()
      ensures (View(), result) == Engine.Poll(old(View()), nowMs, budget, bus.Answer)
    {
      hide Summary, Requests, Reachable, PollTurn, Reached, Report;
      var ownerClockOk := ObserveTime(nowMs);
      if terminalValid || !activeValid {
        result := MakeReport(Ok, 0);
        return;
      }
      if !ownerClockOk {
        result := MakeReport(InvalidParam, 0);
        return;
      }
      var left := PollActive(nowMs, budget);
      result := MakeReport(InProgress, if left <= budget then budget - left else 0);
    }

    method Bind(config: Config) returns (status: Err)
      requires Orderly()
      modifies this
      ensures Orderly()
      ensures (View(), status) == Engine.Begin(old(View()), config)
    {
      hide Summary, Requests;
      if !ConfigValid(config) {
        return InvalidConfig;
      }
      if activeValid || terminalValid {
        return Busy;
      }
      BindTransport(config);
      know := NO_KNOWLEDGE.(epoch := know.epoch);
      ResetWork();
      status := Ok;
    }

    method BindTransport(config: Config)
      requires Valid() && config.settings.timeoutMs > 0
      modifies this
      ensures Valid()
      ensures View() == old(View()).(settings := config.settings, bound := true,
                                     log := old(log) + [Bound(config.offlineThreshold)])
    {
      hide Summary, Requests;
      settings := config.settings;
      bound := true;
      meter := Meter(config.offlineThreshold, NO_HEALTH.(state := Ready));
      Logged(log, Bound(config.offlineThreshold));
      log := log + [Bound(config.offlineThreshold)];
    }

    method ResetWork()
      requires Valid() && !activeValid
      modifies this
      ensures Valid()
      ensures View() == old(View()).(active := NO_ACTIVE, terminal := NO_RESULT, work := NO_VALUE,
                                     disposition := NotStarted, effectful := false)
    {
      hide Summary, Requests;
      active, terminal, work := NO_ACTIVE, NO_RESULT, NO_VALUE;
      lastDisposition, lastEffectful := NotStarted, false;
    }

    method ValidateStart(request: Request, options: Options) returns (status: Err)
      requires Valid()
      ensures status == CheckStart(View(), request, options)
    {
      hide Summary, Requests, Reached, Admission, CheckRequest, DeadlineValid;
      if !bound {
        return NotInitialized;
      }
      if activeValid || terminalValid {
        return Busy;
      }
      if request.kind.NoKind? || options.requestId == 0 {
        return InvalidParam;
      }
      if LimitsOf(request.kind).maxCallbacks == 0 {
        return Unsupported;
      }
      if !DeadlineValid(Wrapped, options.nowMs, options.deadlineMs) {
        return InvalidParam;
      }
      if time.ownerValid && !Reached(Wrapped, options.nowMs, time.ownerMs) {
        return InvalidParam;
      }
      if time.gateValid && !Reached(Wrapped, options.nowMs, time.gateMs) {
        return Busy;
      }
      status := CheckRequest(request);
      if status == Ok {
        status := Admission(know, request.kind);
      }
    }

    method OpenOperation(request: Request, options: Options, id: OpId) returns (a: Active)
      requires Valid()
      ensures a == Opened(View(), request, options, id)
    {
      hide Summary, Requests, After, FirstPhase, DesiredWord, IsEffectful;
      a := NO_ACTIVE.(request := request, id := id);
      a := a.(startedMs := options.nowMs, deadlineMs := options.deadlineMs, nextDueMs := options.nowMs);
      a := a.(effect := if IsEffectful(request.kind) then NotAttempted else NoEffectWrite);
      a := a.(phase := FirstPhase(request.kind));
      if request.kind.Attach? {
        a := a.(nextDueMs := After(Wrapped, options.nowMs, settings.powerUpMs));
      }
      a := a.(desired := DesiredWord(request));
    }

    method OpenWork()
      requires Valid()
      modifies this
      ensures Valid()
      ensures View() == old(View()).(work := NO_VALUE, effectful := false)
    {
      hide Summary, Requests;
      work := NO_VALUE;
      lastEffectful := false;
    }

    method BeginOperation(request: Request, options: Options, id: OpId)
      requires Valid()
      modifies this
      ensures Valid() && active.id == id
      ensures View() == old(View()).(active := Opened(old(View()), request, options, id), activeValid := true,
                                     work := NO_VALUE, effectful := false,
                                     time := old(time).(ownerMs := options.nowMs, ownerValid := true),
                                     log := old(log) + [Admitted(id, request, options.nowMs, options.deadlineMs)])
    {
      hide Summary, Requests, After, FirstPhase, DesiredWord, IsEffectful;
      OpenWork();
      active := OpenOperation(request, options, id);
      time := time.(ownerMs := options.nowMs, ownerValid := true);
      activeValid := true;
      Logged(log, Admitted(id, request, options.nowMs, options.deadlineMs));
      log := log + [Admitted(id, request, options.nowMs, options.deadlineMs)];
    }

    method Admit(request: Request, options: Options) returns (status: Err, id: OpId)
      requires Orderly()
      modifies this
      ensures Orderly()
      ensures (View(), status) == Engine.Start(old(View()), request, options)
      ensures activeValid && !old(activeValid) ==> id == active.id
    {
      hide Summary, Requests, CheckStart, Opened, Reached, Reachable;
      Control.StartReachable(View(), request, options);
      id := NO_ID;
      status := ValidateStart(request, options);
      if status != Ok {
        return;
      }
      id := OpId(options.requestId, nextGeneration);
      BeginOperation(request, options, id);
      nextGeneration := if nextGeneration == MAX_U32 then 1 else nextGeneration + 1;
      status := InProgress;
    }

    /** Cancellation keeps what the wire may have done: a possible write costs the driver its knowledge. */
    method Withdraw(id: OpId, nowMs: nat) returns (status: Err)
      requires Orderly()
      modifies this
      ensures Orderly()
      ensures (View(), status) == Engine.Cancel(old(View()), id, nowMs)
    {
      hide Summary, Requests, Finish, Reached, Reachable, ForgetIf, BlockedIf, CancelEffect;
      if !activeValid {
        return if terminalValid then Busy else ResultNotReady;
      }
      if active.id != id {
        return StaleResult;
      }
      var at := if time.ownerValid && !Reached(Wrapped, nowMs, time.ownerMs) then time.ownerMs else nowMs;
      time := time.(ownerMs := at, ownerValid := true);
      ForgetWhen(active.callbacks != 0 && active.wrote);
      var effect := CancelEffectNow();
      MarkIndeterminate(active.wrote);
      Control.FinishTimes(View(), OutcomeCancelled, effect, Cancelled, at);
      FinishOperation(OutcomeCancelled, effect, Cancelled, at);
      status := Ok;
    }

    method ForgetWhen(forget: bool)
      requires Valid()
      modifies this
      ensures Valid()
      ensures View() == old(View()).(know := ForgetIf(old(know), forget))
    {
      hide Summary, Requests, Forget;
      if forget {
        MarkReconciliationRequired();
      }
    }

    method CancelEffectNow() returns (effect: Effect)
      requires Valid()
      ensures effect == CancelEffect(active)
    {
      effect := active.effect;
      if active.callbacks == 0 {
        effect := if IsEffectful(active.request.kind) then NotAttempted else NoEffectWrite;
      } else if active.wrote && effect == NotAttempted {
        effect := UnknownEffect;
      }
    }

    method HandOver(id: OpId) returns (status: Err, result: Option<Result>)
      requires Orderly()
      modifies this
      ensures Orderly()
      ensures (View(), status, result) == Engine.TakeResult(old(View()), id)
    {
      hide Summary, Requests;
      result := None;
      if !terminalValid {
        return ResultNotReady, result;
      }
      if terminal.id != id {
        return StaleResult, result;
      }
      result := Some(terminal);
      terminal := NO_RESULT;
      terminalValid := false;
      Logged(log, Taken(id));
      log := log + [Taken(id)];
      status := Ok;
    }

    /** Unbinding turns active work into a retained cancelled result. */
    method CancelForEnd()
      requires Orderly()
      modifies this
      ensures Orderly() && !activeValid
      ensures View() == EndActive(old(View()))
    {
      hide Summary, Requests, Finish, Reachable, ForgetIf, BlockedIf;
      if activeValid && !terminalValid {
        var completedMs := if time.ownerValid then time.ownerMs else active.startedMs;
        var effect := active.effect;
        ForgetWhen(active.callbacks > 0);
        MarkIndeterminate(active.wrote);
        Control.FinishTimes(View(), OutcomeCancelled, effect, Cancelled, completedMs);
        FinishOperation(OutcomeCancelled, effect, Cancelled, completedMs);
      }
    }

    method Unbind()
      requires Orderly()
      modifies this
      ensures Orderly()
      ensures View() == Engine.End(old(View()))
    {
      hide Summary, Requests, EndActive;
      CancelForEnd();
      bound := false;
      know := know.(attached := false, mode := UnknownMode, evidence := NoEvidence, reconcile := true);
      settings := NO_SETTINGS;
      know := know.(identity := know.identity.(valid := false));
      know := know.(configuration := know.configuration.(verified := {}));
      know := know.(source := None);
      know := know.(sampleValid := false);
      meter := Meter(DEFAULT_THRESHOLD, meter.health.(state := Uninit));
      Logged(log, Unbound);
      log := log + [Unbound];
    }

    // ----- The public calls, and the run they belong to -----

    method Poll(nowMs: nat, budget: nat) returns (result: PollResult)
      requires Stable()
      modifies this, bus
      ensures Stable() && history == old(history) + [OpPoll(nowMs, budget)]
      ensures (View(), result) == Engine.Poll(old(View()), nowMs, budget, bus.Answer)
    {
      hide Summary, Requests, Reachable, Run, Engine.Poll;
      result := Advance(nowMs, budget);
      history := old(history) + [OpPoll(nowMs, budget)];
      RunSnoc(old(history), OpPoll(nowMs, budget), Wrapped, bus.Answer);
    }

    method Begin(config: Config) returns (status: Err)
      requires Stable()
      modifies this
      ensures Stable() && history == old(history) + [OpBegin(config)]
      ensures (View(), status) == Engine.Begin(old(View()), config)
    {
      hide Summary, Requests, Reachable, Run, Engine.Begin;
      status := Bind(config);
      history := old(history) + [OpBegin(config)];
      RunSnoc(old(history), OpBegin(config), Wrapped, bus.Answer);
    }

    method Start(request: Request, options: Options) returns (status: Err, id: OpId)
      requires Stable()
      modifies this
      ensures Stable() && history == old(history) + [OpStart(request, options)]
      ensures (View(), status) == Engine.Start(old(View()), request, options)
      ensures activeValid && !old(activeValid) ==> id == active.id
    {
      hide Summary, Requests, Reachable, Run, Engine.Start;
      status, id := Admit(request, options);
      history := old(history) + [OpStart(request, options)];
      RunSnoc(old(history), OpStart(request, options), Wrapped, bus.Answer);
    }

    method Cancel(id: OpId, nowMs: nat) returns (status: Err)
      requires Stable()
      modifies this
      ensures Stable() && history == old(history) + [OpCancel(id, nowMs)]
      ensures (View(), status) == Engine.Cancel(old(View()), id, nowMs)
    {
      hide Summary, Requests, Reachable, Run, Engine.Cancel;
      status := Withdraw(id, nowMs);
      history := old(history) + [OpCancel(id, nowMs)];
      RunSnoc(old(history), OpCancel(id, nowMs), Wrapped, bus.Answer);
    }

    method TakeResult(id: OpId) returns (status: Err, result: Option<Result>)
      requires Stable()
      modifies this
      ensures Stable() && history == old(history) + [OpTake(id)]
      ensures (View(), status, result) == Engine.TakeResult(old(View()), id)
    {
      hide Summary, Requests, Reachable, Run, Engine.TakeResult;
      status, result := HandOver(id);
      history := old(history) + [OpTake(id)];
      RunSnoc(old(history), OpTake(id), Wrapped, bus.Answer);
    }

    method End()
      requires Stable()
      modifies this
      ensures Stable() && history == old(history) + [OpEnd]
      ensures View() == Engine.End(old(View()))
    {
      hide Summary, Requests, Reachable, Run, Engine.End;
      Unbind();
      history := old(history) + [OpEnd];
      RunSnoc(old(history), OpEnd, Wrapped, bus.Answer);
    }

    method PeekLatestSample() returns (status: Err, sample: Option<Sample>)
      requires Valid()
      ensures know.sampleValid ==> status == Ok && sample == Some(know.sample)
      ensures !know.sampleValid ==> status == MeasurementNotReady && sample == None
    {
      if !know.sampleValid {
        return MeasurementNotReady, None;
      }
      status, sample := Ok, Some(know.sample);
    }
  }
}
