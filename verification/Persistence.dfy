/**
  The dirty mask is complete, so persistence is sound: when no diagnostic interferes, a setting whose
  working and stored values differ is always dirty, and a successful persist, even
  one that writes nothing, leaves them equal.
 */
module Persistence {
  import opened Clocks
  import opened Types
  import opened Commands
  import opened Codec
  import opened Engine
  import opened Exchanges
  import opened Control
  import opened Runs
  import opened Ledger
  import opened Effort
  import opened Evidence
  import opened Coherence
  import opened Sensors
  import opened Belief
  import opened Promises
  import Lens
  import Spacing

  predicate Differs(v: Sensor, f: Field) { Persistable(f) && Get(v.runtime, f) != Get(v.eeprom, f) }

  /**
    Every difference is dirty; before the first identification, and for a sensor that strict checking refuses, there
    is none.
   */
  predicate Kept(k: Knowledge, bound: bool, strict: bool, v: Sensor) {
    bound ==>
      (forall f: Field :: Differs(v, f) ==> f in k.configuration.dirty) &&
      (!k.identity.valid ==> Agrees(v)) &&
      (strict && VariantOf(v.variant) != Scd41 ==> Agrees(v))
  }

  /** Settings agree at each binding, and no diagnostic ever reaches the bus. */
  predicate Undisturbed(log: seq<Event>, history: nat -> Sensor) {
    forall i | 0 <= i < |log| ::
      (log[i].Bound? ==> Agrees(history(i))) && (log[i].Called? ==> !IsDiagnostic(log[i].call.kind))
  }

  lemma UndisturbedPrefix(a: seq<Event>, b: seq<Event>, history: nat -> Sensor)
    requires a <= b && Undisturbed(b, history)
    ensures Undisturbed(a, history)
  {
    forall i | 0 <= i < |a|
      ensures (a[i].Bound? ==> Agrees(history(i))) && (a[i].Called? ==> !IsDiagnostic(a[i].call.kind))
    {
      assert a[i] == b[i];
    }
  }

  lemma AgreeingKept(k: Knowledge, bound: bool, strict: bool, v: Sensor)
    requires Agrees(v)
    ensures Kept(k, bound, strict, v)
  {
  }

  /** Dirty marks and identification are only gained. */
  predicate Gains(k: Knowledge, l: Knowledge) {
    k.configuration.dirty <= l.configuration.dirty && (k.identity.valid ==> l.identity.valid)
  }

  lemma GainsKept(k: Knowledge, l: Knowledge, bound: bool, strict: bool, v: Sensor)
    requires Gains(k, l) && Kept(k, bound, strict, v)
    ensures Kept(l, bound, strict, v)
  {
  }

  // ----- How the sensor can drift -----

  predicate NoNewDirt(v: Sensor, w: Sensor) {
    w.variant == v.variant && forall f: Field :: Differs(w, f) ==> Differs(v, f)
  }

  predicate DirtOnly(v: Sensor, w: Sensor, f: Field) {
    w.variant == v.variant && forall g: Field :: g != f && Differs(w, g) ==> Differs(v, g)
  }

  lemma SameButClean(v: Sensor, w: Sensor)
    requires SameBut(v, w)
    ensures NoNewDirt(v, w)
  {
  }

  lemma NoNewDirtKept(k: Knowledge, bound: bool, strict: bool, v: Sensor, w: Sensor)
    requires Kept(k, bound, strict, v) && NoNewDirt(v, w)
    ensures Kept(k, bound, strict, w)
  {
    if Agrees(v) {
      assert Agrees(w) by {
        forall f: Field | Persistable(f) ensures Get(w.runtime, f) == Get(w.eeprom, f) { assert !Differs(v, f); }
      }
    }
  }

  lemma DoneClean(k: Kind, v: Sensor, w: Sensor)
    requires CommandDone(k, v, w) && Managed(k)
    ensures NoNewDirt(v, w)
  {
  }

  /** ATTACH and WAKE_UP only wake and stop. */
  lemma WakingWire(a: Active, send: Send)
    requires Reachable(a) && SendFor(a) == Some(send) && send.effectful &&
      (a.request.kind.Attach? || a.request.kind.WakeUp?)
    ensures send.wire == Write(CMD_WAKE_UP) || send.wire == Write(CMD_STOP_PERIODIC)
  {
  }

  /** A change of the setting that an operation writes. */
  predicate SettingDrift(a: Active, v: Sensor, w: Sensor) {
    IsSettingWrite(a) && a.changed && !a.request.kind.field.AmbientPressure? && DirtOnly(v, w, a.request.kind.field)
  }

  /** What an accepted write can do to the agreement of settings. */
  lemma ExecutedDrift(s: State, send: Send, v: Sensor, w: Sensor)
    requires s.activeValid && Reachable(s.active) && SendFor(s.active) == Some(send) && !send.wire.Read?
    requires Coherent(s) && Sound(s, v) && !IsDiagnostic(s.active.request.kind) && Executes(v, send.wire, w)
    ensures NoNewDirt(v, w) || SettingDrift(s.active, v, w)
  {
    hide SendFor, Reachable, Coherent, Sound, Facts, ModeFact, NoNewDirt, SettingDrift, PastCommand, Permits, Agrees,
      CommandDone, Selects, OpFacts, ExecutesWord;
    var a := s.active;
    SoundParts(s, v);
    if !send.effectful {
      SelectingWire(a, send);
      SelectsOnly(send.wire.command);
      SameButClean(v, w);
    } else {
      EffectfulKinds(a, send);
      if a.request.kind.WriteSetting? {
        MaySend(s, send, v);
        SettingExecuted(a, send, s.work, s.know, v, w);
      } else if Managed(a.request.kind) {
        MaySend(s, send, v);
        CommandUnsent(a, send);
        IdleCommand(a, send, s.know.mode, v);
        OwnCommand(a, send, v, w);
        DoneClean(a.request.kind, v, w);
      } else {
        WakingWire(a, send);
        WakingClean(send, v, w);
      }
    }
  }

  lemma CommandUnsent(a: Active, send: Send)
    requires Reachable(a) && SendFor(a) == Some(send) && send.effectful && Managed(a.request.kind)
    ensures !PastCommand(a)
  {
  }

  lemma WakingClean(send: Send, v: Sensor, w: Sensor)
    requires (send.wire == Write(CMD_WAKE_UP) || send.wire == Write(CMD_STOP_PERIODIC)) && Executes(v, send.wire, w)
    ensures NoNewDirt(v, w)
  {
  }

  lemma SettingExecuted(a: Active, send: Send, wk: Value, k: Knowledge, v: Sensor, w: Sensor)
    requires IsSettingWrite(a) && SendFor(a) == Some(send) && OpFacts(a, wk, k, v) && Executes(v, send.wire, w)
    requires Permits(v.mode, send.wire)
    ensures NoNewDirt(v, w) || SettingDrift(a, v, w)
  {
    hide Expected, HasSerial, CheckRequest, DesiredWord, ModeAdmits, Agrees, PastCommand, Permits;
    var f := a.request.kind.field;
    SettingCommand(f);
    forall g ensures Get(w.runtime, g) == if g == f then a.desired else Get(v.runtime, g) {
      GetPut(v.runtime, f, g, a.desired);
    }
    assert w.eeprom == v.eeprom;
    forall g: Field | Differs(w, g) && g != f ensures Differs(v, g) { assert Get(w.runtime, g) == Get(v.runtime, g); }
    if !a.changed || f.AmbientPressure? {
      forall g: Field | Differs(w, g) ensures Differs(v, g) {
        assert Get(w.runtime, g) == Get(v.runtime, g) || g.AmbientPressure?;
      }
    }
  }

  /** Whatever became of a write, what it may have dirtied is marked. */
  lemma SentKept(s: State, send: Send, now: nat, reply: Reply, v: Sensor, w: Sensor)
    requires s.activeValid && Reachable(s.active) && SendFor(s.active) == Some(send) && !send.wire.Read?
    requires Coherent(s) && Sound(s, v) && !IsDiagnostic(s.active.request.kind) &&
      Moves(v, CallOf(s, send, now, reply), w)
    requires Kept(s.know, s.bound, s.settings.strict, v)
    ensures var n := NormOf(s, send, now, reply);
      Kept(KnowAfterSend(s, n.disposition, TransferStatus(s.clock, s.active.deadlineMs, send.intent, n)), s.bound,
           s.settings.strict, w)
  {
    hide SendFor, Reachable, Coherent, Sound, Kept, Executes, NoNewDirt, DirtOnly, NormOf, TransferStatus,
      KnowAfterSend, Settle, TransferTimeout;
    var n := NormOf(s, send, now, reply);
    var st := TransferStatus(s.clock, s.active.deadlineMs, send.intent, n);
    var k := KnowAfterSend(s, n.disposition, st);
    SentGains(s, n.disposition, st);
    if Executes(v, send.wire, w) {
      ExecutedDrift(s, send, v, w);
      if NoNewDirt(v, w) {
        NoNewDirtKept(s.know, s.bound, s.settings.strict, v, w);
        GainsKept(s.know, k, s.bound, s.settings.strict, w);
      } else if w == v {
        GainsKept(s.know, k, s.bound, s.settings.strict, v);
      } else {
        SettingIntent(s.active, send);
        NormalForm(s, send, now, reply);
        DriftKept(s, n.disposition, st, v, w);
      }
    } else {
      GainsKept(s.know, k, s.bound, s.settings.strict, v);
    }
  }

  lemma SettingIntent(a: Active, send: Send)
    requires SendFor(a) == Some(send) && IsSettingWrite(a)
    ensures send.intent == Normal && send.wire.WriteWord?
  {
  }

  lemma SentGains(s: State, d: Disposition, st: Err)
    ensures Gains(s.know, KnowAfterSend(s, d, st))
  {
  }

  lemma DriftKept(s: State, d: Disposition, st: Err, v: Sensor, w: Sensor)
    requires s.activeValid && Coherent(s) && Sound(s, v) && Kept(s.know, s.bound, s.settings.strict, v)
    requires SettingDrift(s.active, v, w) && d != NotStarted && d != NoEffect && d != BadDisposition
    ensures Kept(KnowAfterSend(s, d, st), s.bound, s.settings.strict, w)
  {
    hide OpFacts, ModeFact, FieldWordValid, DecodeField, VariantOf, KnowAfterWrite;
    assert s.know.attached;
    SentGains(s, d, st);
    DriftMarked(s, d, st);
  }

  lemma DriftMarked(s: State, d: Disposition, st: Err)
    requires IsSettingWrite(s.active) && s.active.changed && !s.active.request.kind.field.AmbientPressure?
    requires d == Complete || d == Unproven
    ensures s.active.request.kind.field in KnowAfterSend(s, d, st).configuration.dirty
  {
  }

  // ----- Endings -----

  /** Settled resets discard dirty work: only ever when there is none. */
  lemma FinishKept(y: State, outcome: Outcome, effect: Effect, status: Err, at: nat, v: Sensor)
    requires y.activeValid && !y.terminalValid && Kept(y.know, y.bound, y.settings.strict, v)
    requires IsReset(y.active.request.kind) && y.active.phase == WaitExecution ==> Agrees(v)
    ensures var t := Finish(y, outcome, effect, status, at); Kept(t.know, t.bound, t.settings.strict, v)
  {
    hide Reached, Published, ResultOf, Kept;
    if Agrees(v) { AgreeingKept(Discarded(y.know, y.clock, y.active, at), y.bound, y.settings.strict, v); }
  }

  lemma FailureKept(y: State, status: Err, at: nat, v: Sensor)
    requires y.activeValid && !y.terminalValid && Kept(y.know, y.bound, y.settings.strict, v)
    requires IsReset(y.active.request.kind) && y.active.phase == WaitExecution ==> Agrees(v)
    ensures var t := FinishFailure(y, status, at); Kept(t.know, t.bound, t.settings.strict, v)
  {
    hide Finish, Classify, EepromUncertain, PartialOutcome, PartialWork, Kept;
    var f := Classify(y, status);
    FailingGains(y, status, f);
    GainsKept(y.know, Failing(y, status, f).know, y.bound, y.settings.strict, v);
    FinishKept(Failing(y, status, f), PartialOutcome(y.active, f.outcome), f.effect, status, at, v);
  }

  lemma FailingGains(y: State, status: Err, f: Failure)
    ensures Gains(y.know, Failing(y, status, f).know)
  {
    hide EepromUncertain, PartialWork;
  }

  /** While a reset waits, and once it is verified, settings agree. */
  lemma ResetAgrees(s: State, v: Sensor)
    requires s.activeValid && Reachable(s.active) && Sound(s, v)
    ensures IsReset(s.active.request.kind) && s.active.phase != SendCommand ==> Agrees(v)
    ensures s.active.request.kind.PersistSettings? && s.active.phase != SendCommand ==> Agrees(v)
  {
    hide Agrees, Facts, ModeFact, Expected, HasSerial, CheckRequest, DesiredWord, ModeAdmits, SettingFacts;
  }

  // ----- Reads -----

  lemma AttachKept(s: State, v: Sensor)
    requires Facts(s.know, v) && s.work.identity.serial == v.serial && Kept(s.know, s.bound, s.settings.strict, v)
    ensures Kept(JudgeAttach(s, v.variant).know, s.bound, s.settings.strict, v)
  {
    hide FieldWordValid, DecodeField, VariantOf, Agrees;
    if Agrees(v) { AgreeingKept(JudgeAttach(s, v.variant).know, s.bound, s.settings.strict, v); }
  }

  lemma IdentityKept(s: State, v: Sensor)
    requires Facts(s.know, v) && s.work.identity.serial == v.serial && Kept(s.know, s.bound, s.settings.strict, v)
    requires IsReset(s.active.request.kind) ==> Agrees(v)
    requires IsReadLike(s.active.request.kind) || IsModeCommand(s.active.request.kind) || IsReset(s.active.request.kind)
    ensures Kept(JudgeIdentity(s, v.variant).know, s.bound, s.settings.strict, v)
  {
    hide FieldWordValid, DecodeField, VariantOf, Agrees;
    if Agrees(v) {
      AgreeingKept(JudgeIdentity(s, v.variant).know, s.bound, s.settings.strict, v);
    } else if s.bound {
      GainsKept(s.know, JudgeIdentity(s, v.variant).know, s.bound, s.settings.strict, v);
    }
  }

  lemma VerifyKinds(a: Active)
    requires Reachable(a) && a.phase == ReadVerify
    ensures a.request.kind.Attach? || IsReadLike(a.request.kind) || IsModeCommand(a.request.kind) ||
      IsReset(a.request.kind)
    ensures a.phase != SendCommand
  {
  }

  lemma VariantKept(s: State, v: Sensor)
    requires Facts(s.know, v) && Kept(s.know, s.bound, s.settings.strict, v)
    ensures Kept(JudgeVariant(s, v.variant).know, s.bound, s.settings.strict, v)
  {
    hide FieldWordValid, DecodeField, VariantOf, Agrees;
    if Agrees(v) {
      AgreeingKept(JudgeVariant(s, v.variant).know, s.bound, s.settings.strict, v);
    } else if s.bound {
      GainsKept(s.know, JudgeVariant(s, v.variant).know, s.bound, s.settings.strict, v);
    }
  }

  lemma SettingsGain(s: State, f: Field, word: u16, now: nat)
    ensures Gains(s.know, JudgeSettingRead(s, f, word).know)
    ensures Gains(s.know, JudgeBefore(s, f, word, now).know)
    ensures Gains(s.know, JudgeBack(s, f, word).know)
  {
    hide FieldWordValid, DecodeField, CacheResult;
  }

  lemma SimpleGain(s: State, words: seq<u16>, now: nat)
    requires |words| >= 1
    ensures Gains(s.know, JudgeConfiguration(s, words[0], now).know)
    ensures |words| == 3 ==> Gains(s.know, JudgeSample(s, words, now).know) && JudgeSerial(s, words, now).know == s.know
    ensures JudgeReady(s, words[0]).know == s.know && JudgeDeferred(s, words[0]).know == s.know
  {
    hide JudgeSettingRead, DataReady, SerialOf, TemperatureMilliC, HumidityMilliPct;
    SettingsGain(s, FieldAt(s.active.index), words[0], now);
  }

  lemma JudgeKept(s: State, words: seq<u16>, now: nat, v: Sensor)
    requires s.activeValid && Reachable(s.active) && SendFor(s.active) == Some(Send(Read(|words|), Normal, false))
    requires |words| == ResponseWords(s.active) && |words| >= 1 && Answers(v, words)
    requires Sound(s, v) && Kept(s.know, s.bound, s.settings.strict, v)
    ensures Kept(Judge(s, words, now).know, s.bound, s.settings.strict, v)
  {
    hide SendFor, Reachable, Facts, ModeFact, OpFacts, JudgeSerial, JudgeAttach, JudgeIdentity, JudgeVariant,
      JudgeSettingRead, Sound, JudgeConfiguration, JudgeBefore, JudgeBack, JudgeReady, JudgeSample, JudgeDeferred,
      DataReady, Answers, SerialOf, InFlight, IsSerialResponse, ResponseWords, Expected, HasSerial, Kept, Gains, Agrees;
    var a, k := s.active, s.active.request.kind;
    SoundParts(s, v);
    ReadingExpected(a);
    Fetches(a, |words|);
    AnswersAre(v, words);
    PendingPart(a, s.work, s.know, v);
    ResetAgrees(s, v);
    SerialWordCount(a);
    SimpleGain(s, words, now);
    if IsSerialResponse(a) || IsDiagnostic(k) || k.ReadDataReady? {
    } else if k.Attach? {
      AttachKept(s, v);
    } else if a.phase == ReadVerify {
      VerifyKinds(a);
      IdentityKept(s, v);
    } else if k.ReadVariant? {
      VariantKept(s, v);
    } else {
      if k.ReadSetting? || k.WriteSetting? { SettingsGain(s, k.field, words[0], now); }
      GainsKept(s.know, Judge(s, words, now).know, s.bound, s.settings.strict, v);
    }
  }

  // ----- Steps -----

  lemma WriteTurnKept(s: State, send: Send, k: Knowledge, now: nat, budget: nat, reply: Reply, v: Sensor, w: Sensor)
    requires Live(s) && Coherent(s) && Sound(s, v) && Kept(s.know, s.bound, s.settings.strict, v)
    requires Fits(s, now, budget, reply, Wrote(send, k)) && Moves(v, CallOf(s, send, now, reply), w)
    requires !IsDiagnostic(s.active.request.kind)
    ensures var t := Leads(s, now, reply, Wrote(send, k)); Kept(t.know, t.bound, t.settings.strict, w)
  {
    hide SendFor, Reachable, Transferred, NormOf, TransferStatus, FinishFailure, Finish, Sound, CallOf, Kept, Coherent,
      Moves, KnowAfterSend, Written, Timed, PersistBlocked, PersistNotNeeded, GateClosed, Reached;
    LiveSlot(s);
    SentKept(s, send, now, reply, v, w);
    var x, n := Transferred(s, send, now, reply), NormOf(s, send, now, reply);
    var st := TransferStatus(s.clock, s.active.deadlineMs, send.intent, n);
    TransferredFrame(s, send, now, reply);
    WritingPlace(s.active, send);
    if st != Ok {
      FailureKept(x.(know := k), st, n.doneMs, w);
    }
  }

  lemma WritingPlace(a: Active, send: Send)
    requires Reachable(a) && SendFor(a) == Some(send) && !IsDiagnostic(a.request.kind)
    ensures a.phase != WaitExecution && !EndsAfterWrite(a.request.kind)
  {
  }

  lemma ReadTurnKept(s: State, send: Send, words: seq<u16>, now: nat, budget: nat, reply: Reply, v: Sensor, w: Sensor)
    requires Live(s) && Sound(s, v) && Kept(s.know, s.bound, s.settings.strict, v)
    requires Fits(s, now, budget, reply, Fetched(send, words)) && send == Send(Read(|words|), Normal, false)
    requires Moves(v, CallOf(s, send, now, reply), w)
    ensures var t := Leads(s, now, reply, Fetched(send, words)); Kept(t.know, t.bound, t.settings.strict, w)
  {
    hide SendFor, Reachable, Transferred, NormOf, TransferStatus, FinishFailure, Finish, Sound, Kept, Judge, Answers,
      SameBut, ResponseWords, Timed, PersistBlocked, PersistNotNeeded, GateClosed, Reached, Settle, TransferTimeout,
      Facts, ModeFact, OpFacts;
    LiveSlot(s);
    var x, n := Transferred(s, send, now, reply), NormOf(s, send, now, reply);
    TransferredFrame(s, send, now, reply);
    StatusOk(s, send, now, reply);
    SameStep(s.active, x.active);
    XSound(s, x, v);
    JudgeKept(x, words, n.doneMs, v);
    JudgedPlace(x, words, n.doneMs);
    SameButClean(v, w);
    var j := Judge(x, words, n.doneMs);
    NoNewDirtKept(j.know, s.bound, s.settings.strict, v, w);
    var y := x.(active := j.active, know := j.know, work := j.work,
                log := if j.protocol.Some? then x.log + [ProtocolError(j.protocol.value, n.doneMs)] else x.log);
    match j.verdict
    case Continue =>
    case Done(outcome, effect, status) => FinishKept(y, outcome, effect, status, n.doneMs, w);
    case Reject(status) => FailureKept(y, status, n.doneMs, w);
  }

  lemma XSound(s: State, x: State, v: Sensor)
    requires Sound(s, v) && s.activeValid && x.activeValid && x.know == s.know && x.work == s.work
    requires x.active == s.active.(callbacks := x.active.callbacks, wrote := x.active.wrote, effect := x.active.effect)
    ensures Sound(x, v)
  {
    hide Facts, ModeFact, OpFacts, InFlight;
    SameOpFacts(s.active, x.active, s.work, s.know, v);
  }

  lemma JudgedPlace(s: State, words: seq<u16>, now: nat)
    requires Reachable(s.active) && SendFor(s.active) == Some(Send(Read(|words|), Normal, false))
    requires |words| == ResponseWords(s.active) && |words| >= 1
    ensures Judge(s, words, now).active.phase != WaitExecution
  {
    hide Judge;
    Lens.JudgedResting(s, words, now);
  }

  lemma MissTurnKept(s: State, send: Send, status: Err, p: seq<Event>, now: nat, reply: Reply, v: Sensor, w: Sensor)
    requires Live(s) && Kept(s.know, s.bound, s.settings.strict, v) && SendFor(s.active) == Some(send) &&
      send.wire.Read?
    requires Moves(v, CallOf(s, send, now, reply), w)
    ensures var t := Leads(s, now, reply, Missed(send, status, p)); Kept(t.know, t.bound, t.settings.strict, w)
  {
    hide SendFor, Reachable, Transferred, NormOf, FinishFailure, Finish, Kept, SameBut, Settle, TransferTimeout,
      IsPartial, Delivers;
    LiveSlot(s);
    var x, n := Transferred(s, send, now, reply), NormOf(s, send, now, reply);
    TransferredFrame(s, send, now, reply);
    SendingMoves(s.active);
    SameButClean(v, w);
    NoNewDirtKept(s.know, s.bound, s.settings.strict, v, w);
    var y := x.(log := x.log + p);
    FailureKept(y, status, n.doneMs, w);
    FinishKept(y.(work := y.work.(configuration := y.know.configuration)), Partial, NoEffectWrite, status, n.doneMs, w);
  }

  lemma QuietKept(s: State, now: nat, budget: nat, reply: Reply, c: Case, v: Sensor)
    requires Live(s) && Sound(s, v) && Kept(s.know, s.bound, s.settings.strict, v) && c.Quiet? &&
      Fits(s, now, budget, reply, c)
    ensures var t := Leads(s, now, reply, c); Kept(t.know, t.bound, t.settings.strict, v)
    ensures s.active.request.kind.PersistSettings? && c.outcome == Succeeded && s.bound ==> Agrees(v)
  {
    hide Reachable, Finish, Reached, GateClosed, Sound, Agrees;
    LiveSlot(s);
    ResetAgrees(s, v);
    QuietEnds(s.active);
    if Agrees(v) { AgreeingKept(c.k, s.bound, s.settings.strict, v); }
    CleanAgrees(s, v);
    FinishKept(s.(know := c.k, work := c.w), c.outcome, c.effect, c.status, now, v);
  }

  lemma QuietEnds(a: Active)
    requires Reachable(a)
    ensures EndsAfterWait(a.request.kind) ==> !IsReset(a.request.kind)
    ensures EndsAfterWait(a.request.kind) && Resting(a) ==> a.phase != SendCommand
    ensures a.request.kind.PersistSettings? ==> !IsReset(a.request.kind)
  {
  }

  /** Nothing dirty, nothing different. */
  lemma CleanAgrees(s: State, v: Sensor)
    requires Kept(s.know, s.bound, s.settings.strict, v)
    ensures PersistNotNeeded(s) && s.bound ==> Agrees(v)
  {
    if PersistNotNeeded(s) && s.bound {
      forall f: Field | Persistable(f) ensures Get(v.runtime, f) == Get(v.eeprom, f) { assert !Differs(v, f); }
    }
  }

  lemma TurnKept(s: State, now: nat, budget: nat, reply: Reply, history: nat -> Sensor)
    requires Live(s) && Coherent(s)
    requires var t := Iterate(s, now, budget, reply).s; Follows(t.log, history) && Undisturbed(t.log, history)
    requires Sound(s, history(|s.log|)) && Kept(s.know, s.bound, s.settings.strict, history(|s.log|))
    ensures var t := Iterate(s, now, budget, reply).s; Kept(t.know, t.bound, t.settings.strict, history(|t.log|))
  {
    hide Iterate, Live, Finish, FinishFailure, Transferred, NormOf, Judge, TransferStatus, Wakes, Resting, Leads,
      Coherent, Kept, ResponseWords, KnowAfterSend, Reachable, Words, AllWordsOk, SetMode, EndsAfterWait, Sound, Moves,
      CallOf, SendFor, PersistBlocked, PersistNotNeeded, Timed, GateClosed, Reached, Follows, Agrees;
    LiveSlot(s);
    var c := Shape(s, now, budget, reply);
    var t := Iterate(s, now, budget, reply).s;
    IterateOwner(s, now, budget, reply);
    CaseCalls(s, now, budget, reply, c);
    NextSensor(s, t, history, Transfers(c));
    LeadsHeld(s, now, reply, c);
    var v, w := history(|s.log|), history(|t.log|);
    ResetAgrees(s, v);
    match c
    case Held(_) =>
    case Roused(k) => if IsReset(s.active.request.kind) { RestPlace(s.active); } RousedKept(s, k, v);
    case Quiet(_, _, _, _, _) => QuietKept(s, now, budget, reply, c, v);
    case Expired => FailureKept(s, Timeout, now, v);
    case Wrote(send, k) =>
      CallKind(s, send, now, reply);
      WriteTurnKept(s, send, k, now, budget, reply, v, w);
    case Fetched(send, words) =>
      ReadsAreNormal(s.active);
      ReadTurnKept(s, send, words, now, budget, reply, v, w);
    case Missed(send, status, p) => MissTurnKept(s, send, status, p, now, reply, v, w);
  }

  lemma RestPlace(a: Active)
    requires Resting(a) && IsReset(a.request.kind)
    ensures a.phase == WaitExecution
  {
  }

  lemma RousedKept(s: State, k: Knowledge, v: Sensor)
    requires Kept(s.know, s.bound, s.settings.strict, v) &&
      (IsReset(s.active.request.kind) ==> Agrees(v) || k == s.know)
    requires k == (if IsReset(s.active.request.kind) then Cleaned(s.know) else s.know)
    ensures Kept(k, s.bound, s.settings.strict, v)
  {
    if Agrees(v) { AgreeingKept(k, s.bound, s.settings.strict, v); }
  }

  lemma OtherKept(s: State, op: Op, v: Sensor)
    requires Steady(s) && Sound(s, v) && !op.OpPoll?
    requires Kept(s.know, s.bound, s.settings.strict, v)
    requires op.OpBegin? && Begin(s, op.config).1 == Ok ==> Agrees(v)
    ensures var t := Apply(s, Other(op)); Kept(t.know, t.bound, t.settings.strict, v)
  {
    hide Reachable, Finish, CheckStart, CancelEffect, CancelTime, Reached, Sound, Opened, Kept, Agrees, EndActive;
    match op
    case OpBegin(c) =>
      if Begin(s, c).1 == Ok {
        AgreeingKept(Begin(s, c).0.know, Begin(s, c).0.bound, Begin(s, c).0.settings.strict, v);
      }
    case OpCancel(id, now) =>
      if s.activeValid && s.active.id == id {
        var a := s.active;
        var know := BlockedIf(ForgetIf(s.know, a.callbacks != 0 && a.wrote), a, a.wrote);
        var t := CancelTime(s, now);
        StopGains(s.know, a, a.callbacks != 0 && a.wrote, a.wrote);
        GainsKept(s.know, know, s.bound, s.settings.strict, v);
        ResetAgrees(s, v);
        FinishKept(s.(time := s.time.(ownerMs := t, ownerValid := true), know := know), OutcomeCancelled,
                   CancelEffect(a), Cancelled, t, v);
      }
    case OpEnd => UnboundKept(End(s), v);
    case _ =>
  }

  lemma UnboundKept(t: State, v: Sensor)
    requires !t.bound
    ensures Kept(t.know, t.bound, t.settings.strict, v)
  {
  }

  lemma StopGains(k: Knowledge, a: Active, forget: bool, possible: bool)
    ensures Gains(k, BlockedIf(ForgetIf(k, forget), a, possible))
  {
  }

  // ----- Every run -----

  /** Every successful persist left working and stored settings equal. */
  predicate AllPersisted(log: seq<Event>, history: nat -> Sensor) {
    forall i | 0 <= i < |log| && log[i].Finished? ::
      log[i].result.kind.PersistSettings? && log[i].result.outcome == Succeeded ==> Agrees(history(i))
  }

  predicate Saved(s: State, history: nat -> Sensor) {
    Follows(s.log, history) && Undisturbed(s.log, history) ==>
      Kept(s.know, s.bound, s.settings.strict, history(|s.log|)) && AllPersisted(s.log, history)
  }

  lemma PersistedGrows(a: seq<Event>, b: seq<Event>, history: nat -> Sensor)
    requires AllPersisted(a, history) && a <= b
    requires forall i | |a| <= i < |b| && b[i].Finished? ::
      b[i].result.kind.PersistSettings? && b[i].result.outcome == Succeeded ==> Agrees(history(i))
    ensures AllPersisted(b, history)
  {
    hide Agrees;
    forall i | 0 <= i < |b| && b[i].Finished?
      ensures b[i].result.kind.PersistSettings? && b[i].result.outcome == Succeeded ==> Agrees(history(i))
    {
      if i < |a| { assert b[i] == a[i]; }
    }
  }

  lemma TurnPersisted(s: State, now: nat, budget: nat, reply: Reply, history: nat -> Sensor)
    requires Live(s) && s.bound && Balanced(s) && AllPersisted(s.log, history)
    requires Follows(Iterate(s, now, budget, reply).s.log, history)
    requires Sound(s, history(|s.log|)) && Kept(s.know, s.bound, s.settings.strict, history(|s.log|))
    ensures AllPersisted(Iterate(s, now, budget, reply).s.log, history)
  {
    hide Iterate, Live, Finish, FinishFailure, Transferred, NormOf, Judge, TransferStatus, Wakes, Resting, Leads, Kept,
      Audit, ResponseWords, KnowAfterSend, Reachable, Words, AllWordsOk, SetMode, EndsAfterWait, Sound, Moves, CallOf,
      SendFor, PersistBlocked, PersistNotNeeded, Timed, GateClosed, Reached, Follows, Agrees, AllPersisted;
    LiveSlot(s);
    var c := Shape(s, now, budget, reply);
    var t := Iterate(s, now, budget, reply).s;
    IterateOwner(s, now, budget, reply);
    CaseCalls(s, now, budget, reply, c);
    LeadsHeld(s, now, reply, c);
    match c {
    case Held(_) =>
    case Roused(_) =>
    case Quiet(k, w, outcome, effect, status) =>
      LeadsQuiet(s, now, reply, c);
      FinishCloses(s.(know := k, work := w), outcome, effect, status, now);
      QuietKept(s, now, budget, reply, c, history(|s.log|));
    case Expired =>
      FailureCloses(s, Timeout, now);
      Spacing.ClassifyFails(s, Timeout);
    case _ => PersistNeverByTransfer(s, now, budget, reply, c);
    }
    PersistedGrows(s.log, t.log, history);
  }

  /** A persist never succeeds in the iteration of a callback: its wait must pass first. */
  lemma PersistNeverByTransfer(s: State, now: nat, budget: nat, reply: Reply, c: Case)
    requires Live(s) && Balanced(s) && Transfers(c) && Fits(s, now, budget, reply, c)
    ensures var t := Leads(s, now, reply, c);
      forall i | |s.log| <= i < |t.log| && t.log[i].Finished? ::
        !(t.log[i].result.kind.PersistSettings? && t.log[i].result.outcome == Succeeded)
  {
    hide Reachable, Transferred, NormOf, TransferStatus, FinishFailure, Finish, Audit, Written, CallOf, Judge, SendFor,
      KnowAfterSend, ResponseWords, IsPartial, MayTransfer, Classify;
    LiveSlot(s);
    var n := NormOf(s, c.send, now, reply);
    var x := Transferred(s, c.send, now, reply);
    TransferredFrame(s, c.send, now, reply);
    match c
    case Wrote(send, k) =>
      var st := TransferStatus(s.clock, s.active.deadlineMs, send.intent, n);
      var y := x.(know := k, active := Written(x.active, x.disposition, x.clock, n.doneMs));
      WrittenKeeps(x.active, x.disposition, x.clock, n.doneMs);
      if st != Ok {
        FailureCloses(x.(know := k), st, n.doneMs);
        Spacing.ClassifyFails(x.(know := k), st);
      } else if EndsAfterWrite(x.active.request.kind) {
        FinishCloses(y, Succeeded, Acknowledged, Ok, n.doneMs);
      }
    case Fetched(send, words) =>
      PersistNeverReads(s, send, now, budget);
      JudgedTicket(x, words, n.doneMs);
      ReadEndKind(x, Judge(x, words, n.doneMs), n.doneMs);
    case Missed(send, status, p) =>
      PersistNeverReads(s, send, now, budget);
      MissEndKind(x, status, p, n.doneMs);
  }

  /** Results are of the operation's own kind. */
  predicate OwnResults(x: State, t: State) {
    x.log <= t.log && forall i | |x.log| <= i < |t.log| &&
    t.log[i].Finished? :: t.log[i].result.kind == x.active.request.kind
  }

  lemma ReadEndKind(x: State, j: Judged, at: nat)
    requires x.activeValid && !x.terminalValid && SameTicket(x.active, j.active)
    ensures OwnResults(x, ReadEnd(x, j, at))
  {
    hide Finish, FinishFailure, Classify;
    var y := x.(active := j.active, know := j.know, work := j.work,
                log := if j.protocol.Some? then x.log + [ProtocolError(j.protocol.value, at)] else x.log);
    match j.verdict
    case Continue =>
    case Done(outcome, effect, status) => FinishCloses(y, outcome, effect, status, at);
    case Reject(status) => FailureCloses(y, status, at);
  }

  lemma MissEndKind(x: State, status: Err, p: seq<Event>, at: nat)
    requires x.activeValid && !x.terminalValid && (p == [] || (|p| == 1 && p[0].ProtocolError?))
    ensures OwnResults(x, MissEnd(x, status, p, at))
  {
    hide Finish, FinishFailure, Classify, IsPartial;
    var y := x.(log := x.log + p);
    FinishCloses(y.(work := y.work.(configuration := y.know.configuration)), Partial, NoEffectWrite, status, at);
    FailureCloses(y, status, at);
  }

  lemma PersistNeverReads(s: State, send: Send, now: nat, budget: nat)
    requires MayTransfer(s, now, budget, send) && send.wire.Read? && Reachable(s.active)
    ensures !s.active.request.kind.PersistSettings?
  {
  }

  lemma SmallSaved(s: State, m: Small, history: nat -> Sensor)
    requires Steady(s) && Coherent(s) && Tracked(s) && Believes(s, history) && Saved(s, history) && Allowed(s, m)
    ensures Saved(Apply(s, m), history)
  {
    hide Reachable, Iterate, FinishFailure, Reached, MayRun, Do, Sound, Known, Moves, Follows, Kept, AllPersisted,
      Audit, Agrees, AllFaithful, Acts, OwnEvidence, Spent, LastTransfer, Undisturbed;
    var t := Apply(s, m);
    if Follows(t.log, history) && Undisturbed(t.log, history) {
      match m
      case Watch(now) =>
      case Expiry(now) =>
        FailureOwner(s, Timeout, now);
        FollowsPrefix(s.log, t.log, history);
        UndisturbedPrefix(s.log, t.log, history);
        NextSensor(s, t, history, false);
        ResetAgrees(s, history(|s.log|));
        FailureKept(s, Timeout, now, history(|s.log|));
        FailureCloses(s, Timeout, now);
        Spacing.ClassifyFails(s, Timeout);
        PersistedGrows(s.log, t.log, history);
      case Turns(now, budget, reply) =>
        IterateOwner(s, now, budget, reply);
        FollowsPrefix(s.log, t.log, history);
        UndisturbedPrefix(s.log, t.log, history);
        TurnKept(s, now, budget, reply, history);
        TurnPersisted(s, now, budget, reply, history);
      case Other(op) =>
        OtherAdds(s, op);
        FollowsPrefix(s.log, t.log, history);
        UndisturbedPrefix(s.log, t.log, history);
        NextSensor(s, t, history, false);
        BindingAgrees(s, op, history);
        OtherKept(s, op, history(|s.log|));
        PersistedGrows(s.log, t.log, history);
    }
  }

  lemma BindingAgrees(s: State, op: Op, history: nat -> Sensor)
    requires !op.OpPoll? && Undisturbed(Apply(s, Other(op)).log, history)
    ensures op.OpBegin? && Begin(s, op.config).1 == Ok ==> Agrees(history(|s.log|))
  {
    hide Start, Cancel, TakeResult, End, Agrees;
    if op.OpBegin? && Begin(s, op.config).1 == Ok {
      assert Apply(s, Other(op)).log[|s.log|].Bound?;
    }
  }

  /**
    Dirty-mask completeness and persistence soundness: if settings agree whenever the driver is bound and no
    diagnostic runs, then in every reachable state every persistable setting that differs is dirty, and
    every successful persist, with or without a write, left working and stored settings equal.
   */
  lemma AlwaysSaved(ops: seq<Op>, c: Clock, bus: nat -> Reply, history: nat -> Sensor)
    requires Follows(Run(ops, c, bus).log, history) && Undisturbed(Run(ops, c, bus).log, history)
    ensures var s := Run(ops, c, bus); var v := history(|s.log|);
      (s.bound ==>
       forall f: Field :: Persistable(f) && Get(v.runtime, f) != Get(v.eeprom, f) ==>
         f in s.know.configuration.dirty) &&
      forall i | 0 <= i < |s.log| && s.log[i].Finished? ::
        s.log[i].result.kind.PersistSettings? && s.log[i].result.outcome == Succeeded ==> Agrees(history(i))
  {
    hide Coherent, Tracked, Believes, Saved, Steady, Apply, Allowed, Run, Follows, Undisturbed;
    var inv := (s: State) => Coherent(s) && Tracked(s) && Believes(s, history) && Saved(s, history);
    assert Preserved(inv) by {
      forall s: State, m: Small | Steady(s) && inv(s) && Allowed(s, m) ensures inv(Apply(s, m)) {
        SmallCoherent(s, m);
        SmallTracked(s, m);
        SmallSound(s, m, history);
        SmallSaved(s, m, history);
      }
    }
    assert inv(Initial(c)) by {
      InitialCoherent(c);
      InitialTracked(c);
      InitialSound(c, history);
      assert Saved(Initial(c), history) by { InitialSaved(c, history); }
    }
    Lift(inv, ops, c, bus);
    SavedAll(Run(ops, c, bus), history);
  }

  lemma SavedAll(s: State, history: nat -> Sensor)
    requires Saved(s, history) && Follows(s.log, history) && Undisturbed(s.log, history)
    ensures Kept(s.know, s.bound, s.settings.strict, history(|s.log|)) && AllPersisted(s.log, history)
    ensures var v := history(|s.log|);
      s.bound ==>
        forall f: Field :: Persistable(f) && Get(v.runtime, f) != Get(v.eeprom, f) ==> f in s.know.configuration.dirty
  {
    hide Agrees;
    var v := history(|s.log|);
    forall f: Field | s.bound && Persistable(f) &&
      Get(v.runtime, f) != Get(v.eeprom, f) ensures f in s.know.configuration.dirty {
      assert Differs(v, f);
    }
  }

  lemma InitialSaved(c: Clock, history: nat -> Sensor)
    ensures Saved(Initial(c), history)
  {
  }
}
