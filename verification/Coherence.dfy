/** What the driver believes always fits together, in every reachable state. */
module Coherence {
  import opened Clocks
  import opened Types
  import opened Commands
  import opened Codec
  import opened Engine
  import opened Exchanges
  import opened Control
  import opened Runs

  /** Kinds that keep the sensor attached until they end. */
  predicate StaysAttached(k: Kind) {
    !k.Attach? && !k.WakeUp? && !IsReset(k) && !IsDiagnostic(k)
  }

  /** Attachment, reconciliation, mode and evidence say the same; whatever is known belongs to the attached sensor. */
  predicate Known(k: Knowledge, bound: bool, strict: bool) {
    && (k.attached <==> !k.reconcile)
    && (k.attached <==> k.mode != UnknownMode)
    && (k.attached <==> k.evidence != NoEvidence)
    && (k.attached ==>
        bound && k.identity.valid && k.identity.epoch == k.epoch && (strict ==> k.identity.variant.Scd41?))
    && (k.configuration.verified != {} ==> k.attached)
    && (k.source.Some? ==> k.attached)
    && (k.sampleValid ==> k.attached && k.sample.epoch == k.epoch)
  }

  predicate Coherent(s: State) {
    && Known(s.know, s.bound, s.settings.strict)
    && (s.activeValid ==> s.bound)
    && (s.activeValid && StaysAttached(s.active.request.kind) ==> s.know.attached)
  }

  lemma ForgetKnown(k: Knowledge, bound: bool, strict: bool)
    ensures Known(Forget(k), bound, strict)
  {
  }

  lemma FinishCoherent(s: State, outcome: Outcome, effect: Effect, status: Err, at: nat)
    requires Known(s.know, s.bound, s.settings.strict) && (s.activeValid ==> s.bound)
    requires s.activeValid && !s.terminalValid
    ensures Coherent(Finish(s, outcome, effect, status, at))
  {
    hide Reached, ResetSettled;
  }

  lemma FailureCoherent(s: State, status: Err, at: nat)
    requires Known(s.know, s.bound, s.settings.strict) && (s.activeValid ==> s.bound)
    requires s.activeValid && !s.terminalValid
    ensures Coherent(FinishFailure(s, status, at))
  {
    hide Finish, Classify, EepromUncertain, PartialOutcome, Forget;
    var f := Classify(s, status);
    ForgetKnown(s.know, s.bound, s.settings.strict);
    FinishCoherent(Failing(s, status, f), PartialOutcome(s.active, f.outcome), f.effect, status, at);
  }

  lemma DisownedKnown(k: Knowledge, serial: nat, word: u16, bound: bool, strict: bool)
    ensures Known(Disowned(k, serial, word), bound, strict) && Known(DisownedVariant(k, word), bound, strict)
  {
    hide VariantOf;
  }

  lemma AttachCoherent(s: State, word: u16)
    requires Coherent(s) && s.activeValid
    ensures var j := JudgeAttach(s, word); Known(j.know, s.bound, s.settings.strict) && j.verdict.Done?
  {
    hide VariantOf, Disowned, SameSensor;
    DisownedKnown(s.know, s.work.identity.serial, word, s.bound, s.settings.strict);
  }

  lemma IdentityCoherent(s: State, word: u16)
    requires Coherent(s) && s.activeValid && Reachable(s.active) && s.active.phase == ReadVerify
    ensures var j := JudgeIdentity(s, word); Known(j.know, s.bound, s.settings.strict) && j.verdict.Done?
  {
    hide VariantOf, Disowned, SameSensor, OtherSensor;
    DisownedKnown(s.know, s.work.identity.serial, word, s.bound, s.settings.strict);
  }

  lemma VariantCoherent(s: State, word: u16)
    requires Coherent(s) && s.know.attached
    ensures var j := JudgeVariant(s, word); Known(j.know, s.bound, s.settings.strict) && j.verdict.Done?
  {
    hide VariantOf, DisownedVariant;
    DisownedKnown(s.know, 0, word, s.bound, s.settings.strict);
  }

  lemma FieldCoherent(s: State, f: Field, word: u16, now: nat)
    requires Coherent(s) && s.know.attached
    ensures Known(CacheField(s.know, f, word), s.bound, s.settings.strict)
    ensures Known(Unverify(s.know, f), s.bound, s.settings.strict)
    ensures Known(Selected(CacheField(s.know, f, word), f), s.bound, s.settings.strict)
    ensures CacheField(s.know, f, word).attached && Unverify(s.know, f).attached
  {
    hide DecodeField;
  }

  lemma SettingsCoherent(s: State, word: u16, now: nat)
    requires Coherent(s) && s.activeValid && s.know.attached
    ensures s.active.request.kind.ReadSetting? ==>
      GoodJudgement(s, JudgeSettingRead(s, s.active.request.kind.field, word))
    ensures s.active.request.kind.ReadConfiguration? ==> GoodJudgement(s, JudgeConfiguration(s, word, now))
    ensures s.active.request.kind.WriteSetting? ==>
      GoodJudgement(s, JudgeBefore(s, s.active.request.kind.field, word, now)) &&
      GoodJudgement(s, JudgeBack(s, s.active.request.kind.field, word))
  {
    hide CacheResult, FieldWordValid, CacheField, Unverify, FieldAt, Selected;
    var k := s.active.request.kind;
    if k.ReadSetting? || k.WriteSetting? { FieldCoherent(s, k.field, word, now); }
    FieldCoherent(s, FieldAt(s.active.index), word, now);
  }

  /** Coherent knowledge, taking nothing from an operation that goes on. */
  predicate GoodJudgement(s: State, j: Judged) {
    Known(j.know, s.bound, s.settings.strict) && j.active.request == s.active.request &&
    (j.know.attached || !j.verdict.Continue? || !StaysAttached(s.active.request.kind))
  }

  lemma JudgeCoherent(s: State, words: seq<u16>, now: nat)
    requires Coherent(s) && s.activeValid && Reachable(s.active) &&
      SendFor(s.active) == Some(Send(Read(|words|), Normal, false))
    requires |words| == ResponseWords(s.active) && |words| >= 1
    ensures GoodJudgement(s, Judge(s, words, now))
  {
    hide JudgeAttach, JudgeIdentity, JudgeVariant, JudgeSettingRead, JudgeConfiguration, JudgeBefore, JudgeBack,
      WithSerial, DataReady, TemperatureMilliC, HumidityMilliPct, Known;
    var k := s.active.request.kind;
    JudgedRequest(s, words, now);
    if k.Attach? {
      AttachCoherent(s, words[0]);
    } else if s.active.phase == ReadVerify {
      IdentityCoherent(s, words[0]);
    } else if k.ReadVariant? {
      VariantCoherent(s, words[0]);
    } else if k.ReadSetting? || k.ReadConfiguration? || k.WriteSetting? {
      SettingsCoherent(s, words[0], now);
    } else if IsMeasurement(k) && s.active.phase == ReadResponse {
      SampleKnown(s, words, !k.SingleShotRht?, now);
    }
  }

  lemma SampleKnown(s: State, words: seq<u16>, co2Valid: bool, now: nat)
    requires Coherent(s) && |words| == 3 && s.know.attached
    ensures Known(StoreSample(s.know, words, co2Valid, now), s.bound, s.settings.strict)
  {
    hide TemperatureMilliC, HumidityMilliPct;
  }

  /** Judging a response never changes the request. */
  lemma JudgedRequest(s: State, words: seq<u16>, now: nat)
    requires |words| == ResponseWords(s.active) && |words| >= 1
    ensures Judge(s, words, now).active.request == s.active.request
  {
    hide CacheResult, FieldWordValid, VariantOf, WithIdentity, WithSerial, DataReady, DecodeField, TemperatureMilliC,
      HumidityMilliPct, SerialOf, FieldAt, CacheField, Unverify, Disowned, DisownedVariant, ResetKnowledge, Attached,
      Identified, StoreSample, Rebased, StrictlyUnsupported, OtherSensor, SameSensor, Selected;
  }

  /** Knowledge after a write that completed, or that failed. */
  lemma SendKnown(s: State, d: Disposition, status: Err)
    requires Coherent(s) && s.activeValid
    ensures var k := KnowAfterSend(s, d, status);
      Known(k, s.bound, s.settings.strict) && (k.attached || !StaysAttached(s.active.request.kind))
  {
    hide Forget;
    ForgetKnown(s.know, s.bound, s.settings.strict);
  }

  lemma WriteEndCoherent(x: State, k: Knowledge, status: Err, at: nat)
    requires x.activeValid && !x.terminalValid && x.bound
    requires Known(k, x.bound, x.settings.strict) && (k.attached || !StaysAttached(x.active.request.kind))
    ensures Coherent(WriteEnd(x, k, status, at))
  {
    hide Finish, FinishFailure, Known, EffectAfterWrite, IndexAfterWrite, PhaseAfterWrite;
    if status != Ok {
      FailureCoherent(x.(know := k), status, at);
    } else if EndsAfterWrite(x.active.request.kind) {
      FinishCoherent(x.(know := k, active := Written(x.active, x.disposition, x.clock, at)), Succeeded, Acknowledged,
                     Ok, at);
    }
  }

  lemma ReadEndCoherent(x: State, j: Judged, at: nat)
    requires x.activeValid && !x.terminalValid && x.bound && GoodJudgement(x, j)
    ensures Coherent(ReadEnd(x, j, at))
  {
    hide Finish, FinishFailure, Known;
    var y := x.(active := j.active, know := j.know, work := j.work,
                log := if j.protocol.Some? then x.log + [ProtocolError(j.protocol.value, at)] else x.log);
    match j.verdict
    case Continue =>
    case Done(outcome, effect, status) => FinishCoherent(y, outcome, effect, status, at);
    case Reject(status) => FailureCoherent(y, status, at);
  }

  lemma MissEndCoherent(x: State, status: Err, p: seq<Event>, at: nat)
    requires x.activeValid && !x.terminalValid && Coherent(x)
    ensures Coherent(MissEnd(x, status, p, at))
  {
    hide Finish, FinishFailure, Known, IsPartial;
    var y := x.(log := x.log + p);
    FailureCoherent(y, status, at);
    FinishCoherent(y.(work := y.work.(configuration := y.know.configuration)), Partial, NoEffectWrite, status, at);
  }

  /** Finished waits: the mode becomes known only for an attached sensor. */
  lemma QuietKnown(s: State, k: Kind)
    requires Coherent(s) && s.activeValid && s.active.request.kind == k && EndsAfterWait(k)
    ensures Known(Marked(Cleaned(s.know), false), s.bound, s.settings.strict)
    ensures !k.PersistSettings? ==> Known(SetMode(s.know, TargetMode(k), ModeAcknowledged), s.bound, s.settings.strict)
  {
  }

  lemma TurnCoherent(s: State, now: nat, budget: nat, reply: Reply)
    requires Live(s) && Coherent(s)
    ensures Coherent(Iterate(s, now, budget, reply).s)
  {
    hide Iterate, Reachable, Finish, FinishFailure, Transferred, NormOf, Judge, TransferStatus, ReadEnd, WriteEnd,
      MissEnd, Wakes, ResponseWords, KnowAfterSend, SetMode, Known, SendFor;
    var c := Shape(s, now, budget, reply);
    match c
    case Held(_) =>
    case Roused(k) => assert Known(k, s.bound, s.settings.strict) by { CleanedKnown(s); }
    case Quiet(k, w, outcome, effect, status) =>
      if EndsAfterWait(s.active.request.kind) { QuietKnown(s, s.active.request.kind); }
      FinishCoherent(s.(know := k, work := w), outcome, effect, status, now);
    case Expired => FailureCoherent(s, Timeout, now);
    case Wrote(send, k) =>
      var n := NormOf(s, send, now, reply);
      var st := TransferStatus(s.clock, s.active.deadlineMs, send.intent, n);
      TransferredFrame(s, send, now, reply);
      SendKnown(s, n.disposition, st);
      WriteEndCoherent(Transferred(s, send, now, reply), k, st, n.doneMs);
    case Fetched(send, words) =>
      var n := NormOf(s, send, now, reply);
      var x := Transferred(s, send, now, reply);
      TransferredFrame(s, send, now, reply);
      SameStep(s.active, x.active);
      ReadsAreNormal(s.active);
      JudgeCoherent(x, words, n.doneMs);
      ReadEndCoherent(x, Judge(x, words, n.doneMs), n.doneMs);
    case Missed(send, status, p) =>
      TransferredFrame(s, send, now, reply);
      MissEndCoherent(Transferred(s, send, now, reply), status, p, NormOf(s, send, now, reply).doneMs);
  }

  lemma CleanedKnown(s: State)
    requires Known(s.know, s.bound, s.settings.strict)
    ensures Known(Cleaned(s.know), s.bound, s.settings.strict)
  {
  }

  lemma StopKnown(s: State, forget: bool)
    requires Known(s.know, s.bound, s.settings.strict)
    ensures Known(BlockedIf(ForgetIf(s.know, forget), s.active, s.active.wrote), s.bound, s.settings.strict)
  {
    hide Forget;
    ForgetKnown(s.know, s.bound, s.settings.strict);
  }

  lemma CancelCoherent(s: State, id: OpId, now: nat)
    requires Steady(s) && Coherent(s)
    ensures Coherent(Cancel(s, id, now).0)
  {
    hide Reachable, Finish, CancelEffect, CancelTime, Known, BlockedIf, ForgetIf;
    if s.activeValid && s.active.id == id {
      var forget := s.active.callbacks != 0 && s.active.wrote;
      var know := BlockedIf(ForgetIf(s.know, forget), s.active, s.active.wrote);
      var t := CancelTime(s, now);
      StopKnown(s, forget);
      FinishCoherent(s.(time := s.time.(ownerMs := t, ownerValid := true), know := know),
                     OutcomeCancelled, CancelEffect(s.active), Cancelled, t);
    }
  }

  lemma StartCoherent(s: State, r: Request, o: Options)
    requires Steady(s) && Coherent(s)
    ensures Coherent(Start(s, r, o).0)
  {
    hide Reachable, CheckStart, Known, DesiredWord, IsEffectful;
    if CheckStart(s, r, o) == Ok { AdmittedAttached(s, r, o); }
  }

  lemma EndCoherent(s: State)
    requires Steady(s)
    ensures Coherent(End(s))
  {
    hide Reachable, EndActive;
    EndSteady(s);
  }

  lemma OtherCoherent(s: State, op: Op)
    requires Steady(s) && Coherent(s) && !op.OpPoll?
    ensures Coherent(Apply(s, Other(op)))
  {
    hide Steady, Start, Cancel, End;
    match op
    case OpBegin(_) =>
    case OpStart(r, o) => StartCoherent(s, r, o);
    case OpCancel(id, now) => CancelCoherent(s, id, now);
    case OpTake(_) =>
    case OpEnd => EndCoherent(s);
  }

  /** Only ATTACH is admitted while nothing is attached. */
  lemma AdmittedAttached(s: State, r: Request, o: Options)
    requires CheckStart(s, r, o) == Ok
    ensures s.bound && (s.know.attached || r.kind.Attach?)
  {
    hide CheckRequest;
  }

  lemma SmallCoherent(s: State, m: Small)
    requires Steady(s) && Coherent(s) && Allowed(s, m)
    ensures Coherent(Apply(s, m))
  {
    hide Known, Reachable, Iterate, FinishFailure, Reached, Do, MayRun;
    match m
    case Watch(_) =>
    case Expiry(now) => FailureCoherent(s, Timeout, now);
    case Turns(now, budget, reply) => TurnCoherent(s, now, budget, reply);
    case Other(op) => OtherCoherent(s, op);
  }

  /** In every reachable state the driver's beliefs fit together. */
  lemma AlwaysCoherent(ops: seq<Op>, c: Clock, bus: nat -> Reply)
    ensures Steady(Run(ops, c, bus)) && Coherent(Run(ops, c, bus))
  {
    hide Coherent, Steady, Apply, Allowed, Run;
    assert Preserved(Coherent) by {
      forall s: State, m: Small | Steady(s) && Coherent(s) && Allowed(s, m) ensures Coherent(Apply(s, m)) {
        SmallCoherent(s, m);
      }
    }
    assert Coherent(Initial(c)) by { InitialCoherent(c); }
    Lift(Coherent, ops, c, bus);
  }

  lemma InitialCoherent(c: Clock)
    ensures Coherent(Initial(c))
  {
  }
}
