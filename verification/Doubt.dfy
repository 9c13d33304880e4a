/**
  Doubt about persistence: while a persist or a factory reset may have half happened,
  no persist is sent, and only a verified reset, another sensor or a rebind ends it.
 */
module Doubt {
  import opened Clocks
  import opened Types
  import opened Commands
  import opened Codec
  import opened Engine
  import opened Exchanges
  import opened Control
  import opened Runs
  import opened Ledger
  import opened Evidence
  import opened Coherence
  import opened Sensors
  import opened Belief
  import Promises
  import Persistence

  // ----- No blind persist -----

  predicate InDoubt(k: Knowledge) { k.configuration.indeterminate }

  /** A persist that has been sent was not in doubt. */
  predicate PersistSure(s: State) {
    s.activeValid && s.active.request.kind.PersistSettings? && s.active.phase != SendCommand ==> !InDoubt(s.know)
  }

  /** While persistence is in doubt no persist command is sent. */
  lemma NoBlindPersist(s: State, now: nat, budget: nat, reply: Reply)
    requires Live(s)
    ensures var t := Iterate(s, now, budget, reply).s;
      forall i | |s.log| <= i < |t.log| && t.log[i].Called? && t.log[i].call.kind.PersistSettings? :: !InDoubt(s.know)
  {
    hide Iterate, Reachable, Timed, Reached, GateClosed, CallOf;
    LiveSlot(s);
    IterateOwner(s, now, budget, reply);
    if CanTransfer(s, now, budget) {
      Promises.CallKind(s, SendFor(s.active).value, now, reply);
      PersistSends(s.active);
    }
  }

  lemma PersistSends(a: Active)
    ensures a.request.kind.PersistSettings? && SendFor(a).Some? && Reachable(a) ==> a.phase == SendCommand
  {
  }

  // ----- What ends doubt -----

  /** The driver knew a sensor, and has seen another. */
  predicate NewSensor(k: Knowledge, l: Knowledge) {
    k.identity.valid && (l.identity.serial != k.identity.serial || l.identity.variant != k.identity.variant)
  }

  /** A reload or reset that has just been verified. */
  predicate ResetVerified(s: State, t: State) {
    s.activeValid && t.terminalValid && t.terminal.id == s.active.id && IsReset(t.terminal.kind) &&
    t.terminal.outcome == Succeeded
  }

  predicate EndsDoubt(s: State, t: State) { NewSensor(s.know, t.know) || ResetVerified(s, t) }

  /** A known sensor that the driver may go on with. */
  predicate Vouches(k: Knowledge, strict: bool) { k.identity.valid && (strict ==> k.identity.variant.Scd41?) }

  /** Doubt, and whatever may raise it, is about a known sensor. */
  predicate Vouched(s: State) {
    (s.bound && InDoubt(s.know) ==> Vouches(s.know, s.settings.strict)) &&
    (s.activeValid && TouchesEeprom(s.active.request.kind) ==> Vouches(s.know, s.settings.strict))
  }

  /** The doubt and the sensor it is about are the same. */
  predicate Carries(k: Knowledge, l: Knowledge, strict: bool) {
    InDoubt(l) == InDoubt(k) && (Vouches(k, strict) ==> Vouches(l, strict))
  }

  lemma FinishDoubt(y: State, outcome: Outcome, effect: Effect, status: Err, at: nat)
    requires y.activeValid && !y.terminalValid
    ensures var t := Finish(y, outcome, effect, status, at);
      InDoubt(t.know) == InDoubt(y.know) && t.know.identity == y.know.identity &&
      t.terminalValid && !t.activeValid && t.terminal.kind == y.active.request.kind && t.terminal.outcome == outcome &&
      t.terminal.id == y.active.id && t.bound == y.bound && t.settings == y.settings
  {
    hide Reached, Published;
  }

  lemma FailureDoubt(y: State, status: Err, at: nat)
    requires y.activeValid && !y.terminalValid
    ensures var t := FinishFailure(y, status, at);
      !t.activeValid && (InDoubt(y.know) ==> InDoubt(t.know)) && t.know.identity == y.know.identity &&
      (InDoubt(t.know) ==> InDoubt(y.know) || TouchesEeprom(y.active.request.kind)) &&
      t.bound == y.bound && t.settings == y.settings
  {
    hide Finish, Classify, EepromUncertain, PartialWork, PartialOutcome;
    var f := Classify(y, status);
    FinishDoubt(Failing(y, status, f), PartialOutcome(y.active, f.outcome), f.effect, status, at);
  }

  /** A judgement that leaves doubt as it is, or ends it as it should. */
  predicate Judges(s: State, j: Judged) {
    Carries(s.know, j.know, s.settings.strict) ||
    (j.verdict.Done? && !InDoubt(j.know) &&
     (NewSensor(s.know, j.know) || (IsReset(s.active.request.kind) && j.verdict.outcome == Succeeded)))
  }

  lemma FieldDoubt(k: Knowledge, f: Field, word: u16, strict: bool)
    ensures Carries(k, CacheField(k, f, word), strict) && Carries(k, Unverify(k, f), strict)
    ensures Carries(k, Selected(CacheField(k, f, word), f), strict)
  {
    hide DecodeField;
  }

  lemma SettingDoubt(s: State, f: Field, word: u16, now: nat)
    ensures Judges(s, JudgeSettingRead(s, f, word)) && Judges(s, JudgeBefore(s, f, word, now)) &&
      Judges(s, JudgeBack(s, f, word))
  {
    hide FieldWordValid, CacheField, Unverify, Selected, CacheResult, Carries, NewSensor;
    FieldDoubt(s.know, f, word, s.settings.strict);
    CarriesSelf(s.know, s.settings.strict);
  }

  lemma CarriesSelf(k: Knowledge, strict: bool)
    ensures Carries(k, k, strict)
  {
  }

  lemma ConfigurationDoubt(s: State, word: u16, now: nat)
    ensures Judges(s, JudgeConfiguration(s, word, now))
  {
    hide FieldWordValid, CacheField, Unverify, CacheResult, FieldAt, Carries, NewSensor;
    FieldDoubt(s.know, FieldAt(s.active.index), word, s.settings.strict);
  }

  lemma AttachDoubt(s: State, word: u16)
    requires InDoubt(s.know) ==> Vouches(s.know, s.settings.strict)
    ensures Judges(s, JudgeAttach(s, word))
  {
    hide VariantOf;
  }

  lemma IdentityDoubt(s: State, word: u16)
    requires InDoubt(s.know) ==> Vouches(s.know, s.settings.strict)
    requires IsReadLike(s.active.request.kind) || IsModeCommand(s.active.request.kind) || IsReset(s.active.request.kind)
    ensures Judges(s, JudgeIdentity(s, word))
  {
    hide VariantOf;
  }

  lemma VariantDoubt(s: State, word: u16)
    requires InDoubt(s.know) ==> Vouches(s.know, s.settings.strict)
    ensures Judges(s, JudgeVariant(s, word))
  {
    hide VariantOf;
  }

  lemma SimpleDoubt(s: State, words: seq<u16>, now: nat)
    requires |words| >= 1
    ensures |words| == 3 ==> Judges(s, JudgeSample(s, words, now)) && Judges(s, JudgeSerial(s, words, now))
    ensures Judges(s, JudgeReady(s, words[0])) && Judges(s, JudgeDeferred(s, words[0]))
  {
    hide DataReady, SerialOf, TemperatureMilliC, HumidityMilliPct;
  }

  lemma JudgeDoubt(s: State, words: seq<u16>, now: nat)
    requires Reachable(s.active) && |words| == ResponseWords(s.active) && |words| >= 1
    requires InDoubt(s.know) ==> Vouches(s.know, s.settings.strict)
    ensures Judges(s, Judge(s, words, now))
    ensures Judge(s, words, now).active.request == s.active.request && Judge(s, words, now).active.id == s.active.id
  {
    hide JudgeAttach, JudgeIdentity, JudgeVariant, JudgeSettingRead, JudgeConfiguration, JudgeBefore, JudgeBack,
      JudgeReady, JudgeSample, JudgeSerial, JudgeDeferred, Reachable, IsSerialResponse, ResponseWords, DataReady,
      Carries, NewSensor, Vouches;
    var a, k := s.active, s.active.request.kind;
    SerialWordCount(a);
    SettingDoubt(s, if k.ReadSetting? || k.WriteSetting? then k.field else TemperatureOffset, words[0], now);
    ConfigurationDoubt(s, words[0], now);
    SimpleDoubt(s, words, now);
    AttachDoubt(s, words[0]);
    VariantDoubt(s, words[0]);
    CarriesSelf(s.know, s.settings.strict);
    if a.phase == ReadVerify {
      Persistence.VerifyKinds(a);
      if !k.Attach? { IdentityDoubt(s, words[0]); }
    }
    JudgedTicket(s, words, now);
  }

  // ----- One turn -----

  lemma SentDoubt(s: State, d: Disposition, st: Err)
    ensures var k := KnowAfterSend(s, d, st);
      k.identity == s.know.identity && (InDoubt(s.know) ==> InDoubt(k)) &&
      (InDoubt(k) ==> InDoubt(s.know) || TouchesEeprom(s.active.request.kind)) &&
      (s.active.request.kind.PersistSettings? ==> k == s.know)
  {
  }

  /** What a step does to doubt, while it keeps an eye on the sensor. */
  predicate HandlesDoubt(s: State, t: State) {
    PersistSure(t) && Vouched(t) && (InDoubt(s.know) ==> InDoubt(t.know) || EndsDoubt(s, t))
  }

  /** An end that keeps the known sensor, and raises doubt only where it was vouched for. */
  lemma EndHandles(s: State, t: State)
    requires Vouched(s) && s.activeValid && s.bound && !t.activeValid && t.settings == s.settings
    requires t.know.identity == s.know.identity && (InDoubt(s.know) ==> InDoubt(t.know))
    requires InDoubt(t.know) ==> InDoubt(s.know) || TouchesEeprom(s.active.request.kind)
    ensures HandlesDoubt(s, t)
  {
  }

  lemma ReadDoubt(s: State, x: State, words: seq<u16>, at: nat, send: Send, now: nat, budget: nat)
    requires Reachable(s.active) && MayTransfer(s, now, budget, send) && send.wire.Read? && s.activeValid && s.bound &&
      Vouched(s)
    requires x.activeValid && !x.terminalValid && x.know == s.know && x.settings == s.settings && x.bound == s.bound
    requires x.active == s.active.(callbacks := x.active.callbacks, wrote := x.active.wrote, effect := x.active.effect)
    requires |words| == ResponseWords(x.active) && |words| >= 1
    ensures HandlesDoubt(s, ReadEnd(x, Judge(x, words, at), at))
  {
    hide Finish, FinishFailure, Judge, ResponseWords, Reachable, SendFor, Timed, GateClosed, Reached, Classify, Vouches,
      NewSensor, PersistBlocked, PersistNotNeeded;
    Persistence.PersistNeverReads(s, send, now, budget);
    SameStep(s.active, x.active);
    JudgeDoubt(x, words, at);
    var j := Judge(x, words, at);
    var y := x.(active := j.active, know := j.know, work := j.work,
                log := if j.protocol.Some? then x.log + [ProtocolError(j.protocol.value, at)] else x.log);
    match j.verdict
    case Continue =>
    case Done(outcome, effect, status) =>
      FinishDoubt(y, outcome, effect, status, at);
      VouchesSame(j.know, ReadEnd(x, j, at).know);
    case Reject(status) => FailureDoubt(y, status, at); VouchesSame(j.know, ReadEnd(x, j, at).know);
  }

  lemma VouchesSame(k: Knowledge, l: Knowledge)
    ensures k.identity == l.identity ==> forall strict :: Vouches(k, strict) == Vouches(l, strict)
    ensures k.identity == l.identity ==> forall from :: NewSensor(from, k) == NewSensor(from, l)
  {
  }

  lemma MissDoubt(s: State, x: State, status: Err, p: seq<Event>, at: nat)
    requires s.activeValid && s.bound && Vouched(s) && x.activeValid && !x.terminalValid && x.know == s.know
    requires x.settings == s.settings && x.active.request == s.active.request
    ensures HandlesDoubt(s, MissEnd(x, status, p, at))
  {
    hide Finish, FinishFailure, Vouches, IsPartial;
    var y := x.(log := x.log + p);
    FailureDoubt(y, status, at);
    FinishDoubt(y.(work := y.work.(configuration := y.know.configuration)), Partial, NoEffectWrite, status, at);
    EndHandles(s, MissEnd(x, status, p, at));
  }

  lemma TurnDoubt(s: State, now: nat, budget: nat, reply: Reply)
    requires Live(s) && Coherent(s) && PersistSure(s) && Vouched(s)
    ensures HandlesDoubt(s, Iterate(s, now, budget, reply).s)
  {
    hide Iterate, Finish, FinishFailure, Transferred, NormOf, Judge, TransferStatus, Wakes, Resting, SetMode, Classify,
      Known, ResponseWords, KnowAfterSend, Reachable, Words, AllWordsOk, Written, CallOf, SendFor, Timed, GateClosed,
      Reached, IsPartial;
    LiveSlot(s);
    var c := Shape(s, now, budget, reply);
    QuietPersist(s);
    match c
    case Held(_) =>
    case Roused(_) => RestPersist(s.active);
    case Quiet(k, w, outcome, effect, status) =>
      ModeDoubt(s.know, TargetMode(s.active.request.kind));
      FinishDoubt(s.(know := k, work := w), outcome, effect, status, now);
    case Expired =>
      FailureDoubt(s, Timeout, now);
      EndHandles(s, FinishFailure(s, Timeout, now));
    case Wrote(send, k) =>
      var x, n := Transferred(s, send, now, reply), NormOf(s, send, now, reply);
      var st := TransferStatus(s.clock, s.active.deadlineMs, send.intent, n);
      TransferredFrame(s, send, now, reply);
      SentDoubt(s, n.disposition, st);
      PersistSends(s.active);
      WrittenKeeps(x.active, x.disposition, x.clock, n.doneMs);
      FailureDoubt(x.(know := k), st, n.doneMs);
      FinishDoubt(x.(know := k, active := Written(x.active, x.disposition, x.clock, n.doneMs)), Succeeded, Acknowledged,
                  Ok, n.doneMs);
    case Fetched(send, words) =>
      var x, n := Transferred(s, send, now, reply), NormOf(s, send, now, reply);
      TransferredFrame(s, send, now, reply);
      ReadDoubt(s, x, words, n.doneMs, send, now, budget);
    case Missed(send, status, p) =>
      TransferredFrame(s, send, now, reply);
      MissDoubt(s, Transferred(s, send, now, reply), status, p, NormOf(s, send, now, reply).doneMs);
  }

  lemma ModeDoubt(k: Knowledge, m: Mode)
    ensures SetMode(k, m, ModeAcknowledged).configuration == k.configuration &&
      SetMode(k, m, ModeAcknowledged).identity == k.identity
  {
  }

  lemma QuietPersist(s: State)
    requires Reachable(s.active)
    ensures s.active.request.kind.PersistSettings? && EndsAfterWait(s.active.request.kind) && Resting(s.active) ==>
      s.active.phase != SendCommand
  {
  }

  lemma RestPersist(a: Active)
    ensures a.request.kind.PersistSettings? ==> EndsAfterWait(a.request.kind)
  {
  }

  // ----- Every step -----

  lemma SmallDoubt(s: State, m: Small)
    requires Steady(s) && Coherent(s) && PersistSure(s) && Vouched(s) && Allowed(s, m)
    ensures var t := Apply(s, m);
      PersistSure(t) && Vouched(t) &&
        (InDoubt(s.know) ==> InDoubt(t.know) || EndsDoubt(s, t) || (m.Other? && m.op.OpBegin?))
  {
    hide Reachable, Iterate, FinishFailure, Reached, MayRun, Known;
    match m
    case Watch(_) =>
    case Expiry(now) =>
      FailureDoubt(s, Timeout, now);
      EndHandles(s, FinishFailure(s, Timeout, now));
    case Turns(now, budget, reply) => TurnDoubt(s, now, budget, reply);
    case Other(op) => OtherDoubt(s, op);
  }

  lemma StoppedDoubt(s: State, know: Knowledge, at: nat, effect: Effect, time: Timing)
    requires s.activeValid && !s.terminalValid && s.bound && PersistSure(s) && Vouched(s)
    requires know.identity == s.know.identity && (InDoubt(s.know) ==> InDoubt(know))
    requires InDoubt(know) ==> InDoubt(s.know) || TouchesEeprom(s.active.request.kind)
    ensures var t := Finish(s.(time := time, know := know), OutcomeCancelled, effect, Cancelled, at);
      HandlesDoubt(s, t) && !t.activeValid && (InDoubt(s.know) ==> InDoubt(t.know))
  {
    hide Finish;
    FinishDoubt(s.(time := time, know := know), OutcomeCancelled, effect, Cancelled, at);
    EndHandles(s, Finish(s.(time := time, know := know), OutcomeCancelled, effect, Cancelled, at));
  }

  lemma StopKnow(k: Knowledge, a: Active, forget: bool)
    ensures var l := BlockedIf(ForgetIf(k, forget), a, a.wrote);
      l.identity == k.identity && (InDoubt(k) ==> InDoubt(l)) &&
      (InDoubt(l) ==> InDoubt(k) || TouchesEeprom(a.request.kind))
  {
  }

  lemma OtherDoubt(s: State, op: Op)
    requires Steady(s) && Coherent(s) && PersistSure(s) && Vouched(s) && !op.OpPoll?
    ensures var t := Apply(s, Other(op));
      PersistSure(t) && Vouched(t) && (InDoubt(s.know) ==> InDoubt(t.know) || op.OpBegin?)
  {
    hide Reachable, Finish, CheckStart, CancelEffect, CancelTime, Reached, DesiredWord, IsEffectful, BlockedIf,
      ForgetIf, EndActive, Start;
    match op
    case OpStart(r, o) => StartDoubt(s, r, o);
    case OpCancel(id, now) =>
      if s.activeValid && s.active.id == id {
        var a, at := s.active, CancelTime(s, now);
        var know := BlockedIf(ForgetIf(s.know, a.callbacks != 0 && a.wrote), a, a.wrote);
        StopKnow(s.know, a, a.callbacks != 0 && a.wrote);
        StoppedDoubt(s, know, at, CancelEffect(a), s.time.(ownerMs := at, ownerValid := true));
      }
    case OpEnd => EndActiveDoubt(s);
    case _ =>
  }

  lemma StartDoubt(s: State, r: Request, o: Options)
    requires Coherent(s) && PersistSure(s) && Vouched(s)
    ensures var t := Start(s, r, o).0; PersistSure(t) && Vouched(t) && t.know == s.know
  {
    hide CheckStart, DesiredWord, IsEffectful, Coherent, Vouches, After;
    if CheckStart(s, r, o) == Ok { AdmittedKnown(s, r, o); }
  }

  lemma EndActiveDoubt(s: State)
    requires Steady(s) && Coherent(s) && PersistSure(s) && Vouched(s)
    ensures !EndActive(s).activeValid && (InDoubt(s.know) ==> InDoubt(EndActive(s).know))
  {
    hide Reachable, Finish, BlockedIf, ForgetIf;
    if s.activeValid {
      var at := if s.time.ownerValid then s.time.ownerMs else s.active.startedMs;
      var know := BlockedIf(ForgetIf(s.know, s.active.callbacks > 0), s.active, s.active.wrote);
      StopKnow(s.know, s.active, s.active.callbacks > 0);
      FinishDoubt(s.(know := know), OutcomeCancelled, s.active.effect, Cancelled, at);
    }
  }

  /** Persists and factory resets are admitted only for a known sensor. */
  lemma AdmittedKnown(s: State, r: Request, o: Options)
    requires Coherent(s) && CheckStart(s, r, o) == Ok
    ensures TouchesEeprom(r.kind) ==> Vouches(s.know, s.settings.strict)
  {
    hide CheckRequest;
  }

  lemma SmallBlind(s: State, m: Small)
    requires Steady(s) && Allowed(s, m)
    ensures var t := Apply(s, m);
      InDoubt(s.know) ==> forall i | |s.log| <= i < |t.log| && t.log[i].Called? :: !t.log[i].call.kind.PersistSettings?
  {
    hide Reachable, Iterate, FinishFailure, Reached, MayRun, Do;
    match m
    case Watch(_) =>
    case Expiry(now) => FailureOwner(s, Timeout, now);
    case Turns(now, budget, reply) => NoBlindPersist(s, now, budget, reply);
    case Other(op) => OtherAdds(s, op);
  }

  lemma InitialDoubt(c: Clock)
    ensures Coherent(Initial(c)) && PersistSure(Initial(c)) && Vouched(Initial(c))
  {
  }

  lemma AlwaysVouched(ops: seq<Op>, c: Clock, bus: nat -> Reply)
    ensures var s := Run(ops, c, bus); Steady(s) && Coherent(s) && PersistSure(s) && Vouched(s)
  {
    hide Run, Steady, Coherent, PersistSure, Vouched, Apply, Allowed;
    var inv := (s: State) => Coherent(s) && PersistSure(s) && Vouched(s);
    assert Preserved(inv) by {
      forall s: State, m: Small | Steady(s) && inv(s) && Allowed(s, m) ensures inv(Apply(s, m)) {
        SmallCoherent(s, m);
        SmallDoubt(s, m);
      }
    }
    assert inv(Initial(c)) by { InitialDoubt(c); }
    Lift(inv, ops, c, bus);
  }

  /**
    From every reachable state: while persistence is in doubt no step sends a persist, doubt is always about a
    known sensor, and a step ends it only by verifying a reload or reset, by seeing another serial number or
    variant than the known sensor's, or by rebinding.
   */
  lemma DoubtIsKept(ops: seq<Op>, c: Clock, bus: nat -> Reply, m: Small)
    requires Allowed(Run(ops, c, bus), m)
    ensures var s := Run(ops, c, bus); var t := Apply(s, m);
      InDoubt(s.know) ==>
        (s.bound ==> s.know.identity.valid) &&
        (InDoubt(t.know) || NewSensor(s.know, t.know) || ResetVerified(s, t) || (m.Other? && m.op.OpBegin?)) &&
        forall i | |s.log| <= i < |t.log| && t.log[i].Called? :: !t.log[i].call.kind.PersistSettings?
  {
    hide Run, Reachable, Apply, Allowed, NewSensor, ResetVerified, PersistSure, Coherent, Steady;
    AlwaysVouched(ops, c, bus);
    var s := Run(ops, c, bus);
    SmallDoubt(s, m);
    SmallBlind(s, m);
  }

  // ----- Under a truthful adapter -----

  /** The believed identity is the same. */
  predicate SameSeen(k: Knowledge, l: Knowledge) {
    l.identity.serial == k.identity.serial && l.identity.variant == k.identity.variant
  }

  lemma AttachSame(s: State, v: Sensor)
    requires Facts(s.know, v) && Vouches(s.know, s.settings.strict) && s.work.identity.serial == v.serial
    ensures SameSeen(s.know, JudgeAttach(s, v.variant).know) && SameSeen(s.know, JudgeIdentity(s, v.variant).know)
  {
    hide VariantOf, FieldWordValid, DecodeField;
  }

  lemma VariantSame(s: State, v: Sensor)
    requires Facts(s.know, v) && Vouches(s.know, s.settings.strict)
    ensures SameSeen(s.know, JudgeVariant(s, v.variant).know)
  {
    hide VariantOf, FieldWordValid, DecodeField;
  }

  lemma FieldSame(k: Knowledge, f: Field, word: u16)
    ensures SameSeen(k, CacheField(k, f, word)) && SameSeen(k, Unverify(k, f)) &&
      SameSeen(k, Selected(CacheField(k, f, word), f))
  {
    hide DecodeField;
  }

  lemma SettingSame(s: State, f: Field, word: u16, now: nat)
    ensures SameSeen(s.know, JudgeSettingRead(s, f, word).know) && SameSeen(s.know, JudgeBefore(s, f, word, now).know)
    ensures SameSeen(s.know, JudgeBack(s, f, word).know)
  {
    hide FieldWordValid, CacheField, Unverify, Selected, CacheResult, SameSeen;
    FieldSame(s.know, f, word);
  }

  lemma OthersSame(s: State, words: seq<u16>, f: Field, now: nat)
    requires |words| >= 1
    ensures SameSeen(s.know, JudgeSettingRead(s, f, words[0]).know) &&
      SameSeen(s.know, JudgeBefore(s, f, words[0], now).know)
    ensures SameSeen(s.know, JudgeBack(s, f, words[0]).know) &&
      SameSeen(s.know, JudgeConfiguration(s, words[0], now).know)
    ensures |words| == 3 ==>
      SameSeen(s.know, JudgeSample(s, words, now).know) && SameSeen(s.know, JudgeSerial(s, words, now).know)
    ensures SameSeen(s.know, JudgeReady(s, words[0]).know) && SameSeen(s.know, JudgeDeferred(s, words[0]).know)
  {
    hide JudgeSettingRead, JudgeBefore, JudgeBack, FieldAt, DataReady, SerialOf, TemperatureMilliC, HumidityMilliPct;
    SettingSame(s, f, words[0], now);
    SettingSame(s, FieldAt(s.active.index), words[0], now);
  }

  /** A known sensor that is never swapped is always found to be the same. */
  lemma JudgeSame(s: State, words: seq<u16>, now: nat, v: Sensor)
    requires s.activeValid && Reachable(s.active) && SendFor(s.active) == Some(Send(Read(|words|), Normal, false))
    requires |words| == ResponseWords(s.active) && |words| >= 1 && Answers(v, words)
    requires Sound(s, v) && Vouches(s.know, s.settings.strict)
    ensures SameSeen(s.know, Judge(s, words, now).know)
  {
    hide SendFor, Reachable, Facts, ModeFact, OpFacts, JudgeSerial, JudgeAttach, JudgeIdentity, JudgeVariant,
      JudgeSettingRead, Sound, JudgeConfiguration, JudgeBefore, JudgeBack, JudgeReady, JudgeSample, JudgeDeferred,
      DataReady, Answers, SerialOf, InFlight, IsSerialResponse, ResponseWords, Expected, HasSerial, Vouches, SameSeen;
    var a, k := s.active, s.active.request.kind;
    SoundParts(s, v);
    ReadingExpected(a);
    ReadingPlaces(a);
    SerialWordCount(a);
    AnswersAre(v, words);
    PendingPart(a, s.work, s.know, v);
    SameSelf(s.know);
    OthersSame(s, words, if k.ReadSetting? || k.WriteSetting? then k.field else TemperatureOffset, now);
    if !IsSerialResponse(a) && !IsDiagnostic(k) {
      if k.Attach? || a.phase == ReadVerify {
        AttachSame(s, v);
      } else if k.ReadVariant? {
        VariantSame(s, v);
      }
    }
  }

  lemma SameSelf(k: Knowledge)
    ensures SameSeen(k, k)
  {
  }

  lemma ReadSame(s: State, send: Send, words: seq<u16>, now: nat, budget: nat, reply: Reply, v: Sensor, w: Sensor)
    requires Live(s) && Sound(s, v) && Vouches(s.know, s.settings.strict)
    requires Fits(s, now, budget, reply, Fetched(send, words)) && send == Send(Read(|words|), Normal, false)
    requires Moves(v, CallOf(s, send, now, reply), w)
    ensures SameSeen(s.know, Leads(s, now, reply, Fetched(send, words)).know)
  {
    hide SendFor, Reachable, Transferred, NormOf, TransferStatus, FinishFailure, Finish, Sound, Judge, Answers, SameBut,
      ResponseWords, Timed, PersistBlocked, PersistNotNeeded, GateClosed, Reached, Settle, TransferTimeout, Vouches;
    LiveSlot(s);
    var x, n := Transferred(s, send, now, reply), NormOf(s, send, now, reply);
    TransferredFrame(s, send, now, reply);
    StatusOk(s, send, now, reply);
    SameStep(s.active, x.active);
    Persistence.XSound(s, x, v);
    JudgeSame(x, words, n.doneMs, v);
    var j := Judge(x, words, n.doneMs);
    var y := x.(active := j.active, know := j.know, work := j.work,
                log := if j.protocol.Some? then x.log + [ProtocolError(j.protocol.value, n.doneMs)] else x.log);
    match j.verdict
    case Continue =>
    case Done(outcome, effect, status) => FinishDoubt(y, outcome, effect, status, n.doneMs);
    case Reject(status) => FailureDoubt(y, status, n.doneMs);
  }

  lemma TurnSame(s: State, now: nat, budget: nat, reply: Reply, history: nat -> Sensor)
    requires Live(s) && Vouches(s.know, s.settings.strict) && Sound(s, history(|s.log|))
    requires Follows(Iterate(s, now, budget, reply).s.log, history)
    ensures SameSeen(s.know, Iterate(s, now, budget, reply).s.know)
  {
    hide Iterate, Live, Finish, FinishFailure, Transferred, NormOf, Judge, TransferStatus, Wakes, Resting, Vouches,
      Classify, ResponseWords, KnowAfterSend, Reachable, Words, AllWordsOk, SetMode, EndsAfterWait, Sound, Moves,
      CallOf, SendFor, PersistBlocked, PersistNotNeeded, Timed, GateClosed, Reached, Follows, Written, IsPartial;
    LiveSlot(s);
    var c := Shape(s, now, budget, reply);
    var t := Iterate(s, now, budget, reply).s;
    IterateOwner(s, now, budget, reply);
    CaseCalls(s, now, budget, reply, c);
    NextSensor(s, t, history, Transfers(c));
    match c
    case Held(_) =>
    case Roused(_) =>
    case Quiet(k, w, outcome, effect, status) =>
      ModeDoubt(s.know, TargetMode(s.active.request.kind));
      FinishDoubt(s.(know := k, work := w), outcome, effect, status, now);
    case Expired => FailureDoubt(s, Timeout, now);
    case Wrote(send, k) =>
      var x, n := Transferred(s, send, now, reply), NormOf(s, send, now, reply);
      var st := TransferStatus(s.clock, s.active.deadlineMs, send.intent, n);
      TransferredFrame(s, send, now, reply);
      SentDoubt(s, n.disposition, st);
      FailureDoubt(x.(know := k), st, n.doneMs);
      FinishDoubt(x.(know := k, active := Written(x.active, x.disposition, x.clock, n.doneMs)), Succeeded, Acknowledged,
                  Ok, n.doneMs);
    case Fetched(send, words) =>
      ReadsAreNormal(s.active);
      ReadSame(s, send, words, now, budget, reply, history(|s.log|), history(|t.log|));
    case Missed(send, status, p) =>
      var x, n := Transferred(s, send, now, reply), NormOf(s, send, now, reply);
      TransferredFrame(s, send, now, reply);
      var y := x.(log := x.log + p);
      FailureDoubt(y, status, n.doneMs);
      FinishDoubt(y.(work := y.work.(configuration := y.know.configuration)), Partial, NoEffectWrite, status, n.doneMs);
  }

  /** With a sensor that is never swapped, only a verified reload or reset, or a rebind, ends doubt. */
  lemma OnlyResetEndsDoubt(ops: seq<Op>, c: Clock, bus: nat -> Reply, m: Small, history: nat -> Sensor)
    requires Allowed(Run(ops, c, bus), m) && Follows(Apply(Run(ops, c, bus), m).log, history)
    ensures var s := Run(ops, c, bus); var t := Apply(s, m);
      InDoubt(s.know) ==> InDoubt(t.know) || ResetVerified(s, t) || (m.Other? && m.op.OpBegin?)
  {
    hide Run, Reachable, Iterate, FinishFailure, Reached, MayRun, Do, Follows, NewSensor, ResetVerified, PersistSure,
      Coherent, Sound, Tracked, Known;
    AlwaysVouched(ops, c, bus);
    var s := Run(ops, c, bus);
    var t := Apply(s, m);
    SmallDoubt(s, m);
    if InDoubt(s.know) && !InDoubt(t.know) && m.Turns? {
      LiveBound(s, m);
      IterateOwner(s, m.now, m.budget, m.reply);
      FollowsPrefix(s.log, t.log, history);
      AlwaysSound(ops, c, bus, history);
      TurnSame(s, m.now, m.budget, m.reply, history);
      SameNotNew(s.know, t.know);
    } else if InDoubt(s.know) && !InDoubt(t.know) {
      OnlyTurnsEnd(s, m);
    }
  }

  lemma LiveBound(s: State, m: Small)
    requires Steady(s) && Coherent(s) && Vouched(s) && Allowed(s, m) && m.Turns? && InDoubt(s.know)
    ensures Live(s) && Vouches(s.know, s.settings.strict)
  {
    hide Reachable, Known, MayRun, OnTime;
    MayRunActive(s, m.now);
  }

  lemma MayRunActive(s: State, now: nat)
    requires MayRun(s, now)
    ensures s.activeValid
  {
  }

  lemma SameNotNew(k: Knowledge, l: Knowledge)
    requires SameSeen(k, l)
    ensures !NewSensor(k, l)
  {
  }

  lemma OnlyTurnsEnd(s: State, m: Small)
    requires Steady(s) && Coherent(s) && PersistSure(s) && Vouched(s) && Allowed(s, m) && InDoubt(s.know) && !m.Turns?
    ensures InDoubt(Apply(s, m).know) || (m.Other? && m.op.OpBegin?)
  {
    hide Reachable, FinishFailure, Reached, Known;
    match m
    case Watch(_) =>
    case Expiry(now) => FailureDoubt(s, Timeout, now);
    case Other(op) => OtherDoubt(s, op);
  }
}
