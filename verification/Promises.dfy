/** What true beliefs give the owner: permitted traffic, and results that mean what they say. */
module Promises {
  import opened Clocks
  import opened Types
  import opened Commands
  import opened Codec
  import opened Engine
  import opened Exchanges
  import opened Control
  import opened Runs
  import opened Ledger
  import opened Effort
  import opened Evidence
  import opened Coherence
  import opened Sensors
  import opened Belief
  import Refinement
  import Accounts
  import CodecProofs
  import Spacing

  // ----- Traffic -----

  /** Every regulated callback was permitted by the mode the sensor was in. */
  predicate AllPermitted(log: seq<Event>, history: nat -> Sensor) {
    forall i | 0 <= i < |log| && log[i].Called? &&
      Regulated(log[i].call.kind) :: Permits(history(i).mode, log[i].call.wire)
  }

  lemma PermittedGrows(a: seq<Event>, b: seq<Event>, history: nat -> Sensor)
    requires AllPermitted(a, history) && a <= b
    requires forall i | |a| <= i < |b| && b[i].Called? &&
      Regulated(b[i].call.kind) :: Permits(history(i).mode, b[i].call.wire)
    ensures AllPermitted(b, history)
  {
    forall i | 0 <= i < |b| && b[i].Called? &&
      Regulated(b[i].call.kind) ensures Permits(history(i).mode, b[i].call.wire) {
      if i < |a| { assert b[i] == a[i]; }
    }
  }

  lemma TurnPermitted(s: State, now: nat, budget: nat, reply: Reply, history: nat -> Sensor)
    requires Live(s) && Coherent(s) && Sound(s, history(|s.log|)) && AllPermitted(s.log, history)
    ensures AllPermitted(Iterate(s, now, budget, reply).s.log, history)
  {
    hide Iterate, Live, Coherent, Sound, Permits, SendFor, MayTransfer, CallOf;
    LiveSlot(s);
    IterateOwner(s, now, budget, reply);
    var t := Iterate(s, now, budget, reply).s;
    if |t.log| > |s.log| && t.log[|s.log|].Called? {
      var send := SendFor(s.active).value;
      Refinement.CallOfFacts(s, send, now, reply);
      CallKind(s, send, now, reply);
      if Regulated(s.active.request.kind) { MaySend(s, send, history(|s.log|)); }
    }
    PermittedGrows(s.log, t.log, history);
  }

  lemma CallKind(s: State, send: Send, now: nat, reply: Reply)
    ensures CallOf(s, send, now, reply).kind == s.active.request.kind && CallOf(s, send, now, reply).wire == send.wire
  {
  }

  // ----- Results -----

  /** Published values are the sensor's. */
  predicate PublishesTruth(c: Configuration, f: Field, v: Sensor) {
    f in c.verified && Cached(c, f) == DecodeField(f, Get(v.runtime, f))
  }

  /** The plain value of a setting's result is the published field. */
  predicate Reports(value: Value, f: Field) {
    var x := Cached(value.configuration, f);
    if f.TemperatureOffset? then value.signedValue == x
    else if f.AscEnabled? then value.boolValue == (x != 0)
    else value.value == (if x >= 0 then x else 0)
  }

  predicate IdentifiesTruly(i: Identity, v: Sensor) {
    i.serial == v.serial && i.variant == VariantOf(v.variant) && i.word == v.variant
  }

  /** What a success says about the sensor at that moment. */
  predicate Means(request: Request, value: Value, v: Sensor) {
    var kind := request.kind;
    && (kind.Attach? || kind.WakeUp? || IsReset(kind) ==> v.mode.Idle?)
    && (kind.Attach? || kind.WakeUp? || IsReset(kind) || kind.ReadIdentity? ==> IdentifiesTruly(value.identity, v))
    && (kind.ReadVariant? ==> value.value == v.variant && value.identity.variant == VariantOf(v.variant))
    && (IsReset(kind) ==> Agrees(v))
    && (Switches(kind) ==> v.mode == TargetMode(kind))
    && (kind.ReadSetting? ==> PublishesTruth(value.configuration, kind.field, v) && Reports(value, kind.field))
    && (kind.ReadConfiguration? ==> forall f: Field :: PublishesTruth(value.configuration, f, v))
    && (kind.WriteSetting? ==>
          CheckRequest(request) == Ok && Get(v.runtime, kind.field) == DesiredWord(request) &&
          PublishesTruth(value.configuration, kind.field, v) && Reports(value, kind.field) &&
          (IsCompensation(kind.field) ==> v.source == Some(kind.field)))
  }

  lemma IdentityMeans(s: State, v: Sensor)
    requires s.work.identity.serial == v.serial
    ensures var j := JudgeAttach(s, v.variant); j.verdict.Done? && j.verdict.outcome == Succeeded ==>
      IdentifiesTruly(j.work.identity, v)
    ensures var j := JudgeIdentity(s, v.variant); j.verdict.Done? && j.verdict.outcome == Succeeded ==>
      IdentifiesTruly(j.work.identity, v)
  {
    hide VariantOf;
  }

  lemma SettingMeans(s: State, now: nat, v: Sensor)
    requires s.active.request.kind.WriteSetting? && Facts(s.know, v) && OpFacts(s.active, s.work, s.know, v)
    requires s.active.index == 0 || s.active.index == 3
    ensures var f := s.active.request.kind.field; var w := Get(v.runtime, f);
      var j := if s.active.index == 0 then JudgeBefore(s, f, w, now) else JudgeBack(s, f, w);
      j.verdict.Done? && j.verdict.outcome == Succeeded ==>
        CheckRequest(s.active.request) == Ok && w == DesiredWord(s.active.request) &&
        PublishesTruth(j.know.configuration, f, v) && Reports(j.work.(configuration := j.know.configuration), f) &&
        (IsCompensation(f) ==> v.source == Some(f))
  {
    hide FieldWordValid, DecodeField, DesiredWord, CheckRequest, Expected, HasSerial, Agrees, PastCommand, ModeAdmits;
  }

  lemma ReadMeans(s: State, f: Field, v: Sensor)
    ensures var j := JudgeSettingRead(s, f, Get(v.runtime, f));
      j.verdict.Done? ==>
        PublishesTruth(j.know.configuration, f, v) && Reports(j.work.(configuration := j.know.configuration), f)
  {
    hide FieldWordValid, DecodeField;
  }

  lemma VariantMeans(s: State, v: Sensor)
    ensures var j := JudgeVariant(s, v.variant); j.verdict.Done? && j.verdict.outcome == Succeeded ==>
      j.work.value == v.variant && j.work.identity.variant == VariantOf(v.variant)
  {
    hide VariantOf;
  }

  // ----- The composite read -----

  /** Every field that a configuration read has passed is verified. */
  predicate Collected(s: State) {
    s.activeValid && s.active.request.kind.ReadConfiguration? ==>
      forall i | 0 <= i < s.active.index :: FieldAt(i) in s.know.configuration.verified
  }

  function Place(f: Field): (i: nat)
    ensures i <= 6 && FieldAt(i) == f
  {
    match f
    case TemperatureOffset => 0
    case SensorAltitude => 1
    case AmbientPressure => 2
    case AscEnabled => 3
    case AscTarget => 4
    case AscInitialPeriod => 5
    case AscStandardPeriod => 6
  }

  lemma ConfigurationMeans(s: State, now: nat, v: Sensor)
    requires s.activeValid && s.active.request.kind.ReadConfiguration? && s.active.index <= 6 && Collected(s) &&
      Facts(s.know, v)
    ensures var j := JudgeConfiguration(s, Get(v.runtime, FieldAt(s.active.index)), now);
      j.verdict.Done? && j.verdict.outcome == Succeeded ==>
        forall f: Field :: PublishesTruth(j.know.configuration, f, v)
  {
    hide FieldWordValid, DecodeField, CacheResult, FieldAt;
    var g := FieldAt(s.active.index);
    var j := JudgeConfiguration(s, Get(v.runtime, g), now);
    if j.verdict.Done? && j.verdict.outcome == Succeeded {
      forall f: Field ensures PublishesTruth(j.know.configuration, f, v) {
        assert f == g || f in s.know.configuration.verified by { assert FieldAt(Place(f)) == f; }
      }
    }
  }

  lemma JudgeCollected(s: State, words: seq<u16>, now: nat)
    requires s.activeValid && Reachable(s.active) && Collected(s) && |words| == ResponseWords(s.active) && |words| >= 1
    requires SendFor(s.active).Some? && SendFor(s.active).value.wire.Read?
    ensures var j := Judge(s, words, now); j.verdict.Continue? ==> Collected(s.(active := j.active, know := j.know))
  {
    hide SendFor, Reachable, JudgeAttach, JudgeIdentity, JudgeVariant, JudgeBefore, JudgeBack, JudgeReady, JudgeSample,
      JudgeDeferred, FieldWordValid, DecodeField, CacheResult, IsSerialResponse, ResponseWords, FieldAt;
    ReadingPlaces(s.active);
    CollectingPlaces(s.active);
    JudgedTicket(s, words, now);
  }

  lemma CollectingPlaces(a: Active)
    requires Reachable(a)
    ensures a.request.kind.ReadConfiguration? ==> !IsSerialResponse(a) && a.phase != ReadVerify && a.index <= 6
  {
  }

  /** A judged success means what it says. */
  lemma JudgeMeans(s: State, words: seq<u16>, now: nat, v: Sensor)
    requires Reachable(s.active) && SendFor(s.active) == Some(Send(Read(|words|), Normal, false))
    requires |words| == ResponseWords(s.active) && |words| >= 1 && Answers(v, words)
    requires Facts(s.know, v) && OpFacts(s.active, s.work, s.know, v) && s.activeValid && Collected(s)
    ensures var j := Judge(s, words, now);
      j.verdict.Done? && j.verdict.outcome == Succeeded ==>
        Means(s.active.request, j.work.(configuration := j.know.configuration), v)
  {
    hide SendFor, Reachable, Facts, JudgeAttach, JudgeIdentity, JudgeVariant, JudgeSettingRead, PublishesTruth,
      JudgeConfiguration, JudgeBefore, JudgeBack, JudgeReady, JudgeSample, JudgeDeferred, DataReady, Answers, SerialOf,
      OpFacts, IsSerialResponse, ResponseWords, Expected, HasSerial, VariantOf, DesiredWord, Agrees, PastCommand,
      Reports, IdentifiesTruly, Collected, CheckRequest;
    var a, k := s.active, s.active.request.kind;
    ReadingExpected(a);
    Fetches(a, |words|);
    AnswersAre(v, words);
    PendingPart(a, s.work, s.know, v);
    ReadingPlaces(a);
    SerialWordCount(a);
    SwitchesSilent(a);
    if IsSerialResponse(a) {
    } else if IsDiagnostic(k) {
    } else if k.Attach? {
      IdentityMeans(s, v);
    } else if a.phase == ReadVerify {
      IdentityMeans(s, v);
      ResetPart(a, s.work, s.know, v);
    } else if k.ReadVariant? {
      VariantMeans(s, v);
    } else if k.ReadDataReady? {
    } else if k.ReadConfiguration? {
      CollectingPlaces(a);
      ConfigurationMeans(s, now, v);
    } else if k.ReadSetting? {
      ReadMeans(s, k.field, v);
    } else if k.WriteSetting? {
      SettingMeans(s, now, v);
    }
  }

  lemma SwitchesSilent(a: Active)
    requires Reachable(a) && SendFor(a).Some? && SendFor(a).value.wire.Read?
    ensures !Switches(a.request.kind)
    ensures var k := a.request.kind;
      (k.WakeUp? || IsReset(k) || k.ReadIdentity?) && !IsSerialResponse(a) ==> a.phase == ReadVerify
  {
  }

  lemma ResetPart(a: Active, wk: Value, k: Knowledge, v: Sensor)
    requires Reachable(a) && OpFacts(a, wk, k, v) && a.phase == ReadVerify
    ensures IsReset(a.request.kind) ==> v.mode.Idle? && Agrees(v)
  {
    hide Agrees, Expected, HasSerial, DesiredWord, CheckRequest, ModeAdmits;
  }

  /** A success in the log means what it says about the sensor of that moment. */
  predicate ResultMeans(a: Account, r: Result, v: Sensor) {
    a.Working? && r.outcome == Succeeded ==> Means(a.request, r.value, v)
  }

  predicate AllMean(log: seq<Event>, history: nat -> Sensor) {
    forall i | 0 <= i < |log| && log[i].Finished? :: ResultMeans(Audit(log[..i]), log[i].result, history(i))
  }

  lemma AllMeanGrows(a: seq<Event>, b: seq<Event>, history: nat -> Sensor)
    requires AllMean(a, history) && a <= b
    requires forall i | |a| <= i < |b| && b[i].Finished? :: ResultMeans(Audit(b[..i]), b[i].result, history(i))
    ensures AllMean(b, history)
  {
    hide Audit, ResultMeans;
    forall i | 0 <= i < |b| && b[i].Finished? ensures ResultMeans(Audit(b[..i]), b[i].result, history(i)) {
      if i < |a| { assert b[i] == a[i] && b[..i] == a[..i]; }
    }
  }

  /** Closing an operation with a result that is no success, or one that means what it says. */
  lemma ClosedMeans(y: State, t: State, from: nat, history: nat -> Sensor)
    requires y.activeValid && Balanced(y) && Closes(y, t) && from <= |y.log|
    requires AllMean(y.log[..from], history) && forall i | from <= i < |y.log| :: !y.log[i].Finished?
    requires t.terminal.outcome == Succeeded ==>
      Means(y.active.request, t.terminal.value, history(|y.log|))
    ensures AllMean(t.log, history)
  {
    hide Audit, Means;
    forall i | from <= i < |t.log| &&
      t.log[i].Finished? ensures ResultMeans(Audit(t.log[..i]), t.log[i].result, history(i)) {
      assert i == |y.log|;
      assert t.log[..i] == y.log;
    }
    assert t.log[..from] == y.log[..from];
    AllMeanGrows(y.log[..from], t.log, history) by { assert y.log[..from] <= t.log; }
  }

  lemma FinishValue(y: State, outcome: Outcome, effect: Effect, status: Err, at: nat)
    requires y.activeValid && !y.terminalValid
    ensures var r := Finish(y, outcome, effect, status, at).terminal;
      r.value == y.work.(configuration := r.value.configuration) &&
      (PublishesConfiguration(y.active.request.kind) && !IsReset(y.active.request.kind) ==>
       r.value.configuration == y.know.configuration)
  {
    hide Reached;
  }

  lemma MeansIdentity(request: Request, x: Value, y: Value, v: Sensor)
    requires Means(request, x, v) && y == x.(configuration := y.configuration)
    requires request.kind.ReadSetting? || request.kind.WriteSetting? || request.kind.ReadConfiguration? ==>
      y.configuration == x.configuration
    ensures Means(request, y, v)
  {
    hide Agrees, PublishesTruth, Reports, DesiredWord, CheckRequest;
  }

  /** A command accepted and waited for means its target mode. */
  lemma QuietMeans(s: State, c: Case, now: nat, budget: nat, reply: Reply, v: Sensor, value: Value)
    requires Live(s) && Sound(s, v) && c.Quiet? && Fits(s, now, budget, reply, c)
    ensures Means(s.active.request, value, v)
  {
    hide Reachable, Facts, ModeFact, Expected, HasSerial, DesiredWord, CheckRequest, Agrees, ModeAdmits, SettingFacts,
      Reached, GateClosed, PublishesTruth, VariantOf, Reports;
    LiveSlot(s);
    QuietInFlight(s.active);
    QuietKinds(s);
  }

  lemma QuietKinds(s: State)
    ensures PersistBlocked(s) || PersistNotNeeded(s) ==> s.active.request.kind.PersistSettings?
    ensures var k := s.active.request.kind;
      EndsAfterWait(k) || k.PersistSettings? ==>
        !k.Attach? && !k.WakeUp? && !IsReadLike(k) && !IsReset(k) && !k.WriteSetting?
    ensures s.active.request.kind.PersistSettings? ==> !Switches(s.active.request.kind)
  {
  }

  lemma DiagnosticMeans(r: Request, value: Value, v: Sensor)
    requires EndsAfterWrite(r.kind)
    ensures Means(r, value, v)
  {
  }

  lemma MeansSameBut(request: Request, value: Value, v: Sensor, w: Sensor)
    requires Means(request, value, v) && SameBut(v, w)
    ensures Means(request, value, w)
  {
    hide DecodeField, DesiredWord, VariantOf, CheckRequest, Reports;
    if request.kind.ReadConfiguration? {
      forall f: Field ensures PublishesTruth(value.configuration, f, w) {
        assert PublishesTruth(value.configuration, f, v);
      }
    }
  }

  lemma FailedMeans(y: State, status: Err, at: nat, from: nat, history: nat -> Sensor)
    requires y.activeValid && !y.terminalValid && Balanced(y) && from <= |y.log|
    requires AllMean(y.log[..from], history) && forall i | from <= i < |y.log| :: !y.log[i].Finished?
    ensures AllMean(FinishFailure(y, status, at).log, history)
  {
    hide FinishFailure, Audit, Classify, AllMean;
    FailureCloses(y, status, at);
    Spacing.ClassifyFails(y, status);
    ClosedMeans(y, FinishFailure(y, status, at), from, history);
  }

  lemma ReadTurnMeans(s: State, send: Send, words: seq<u16>, now: nat, budget: nat, reply: Reply,
                      history: nat -> Sensor)
    requires Live(s) && Balanced(s) && Sound(s, history(|s.log|)) && AllMean(s.log, history) && Collected(s)
    requires Fits(s, now, budget, reply, Fetched(send, words)) && send == Send(Read(|words|), Normal, false)
    requires var t := Leads(s, now, reply, Fetched(send, words));
      Follows(t.log, history) && Moves(history(|s.log|), CallOf(s, send, now, reply), history(|s.log| + 1))
    ensures AllMean(Leads(s, now, reply, Fetched(send, words)).log, history)
  {
    hide SendFor, Reachable, Transferred, NormOf, TransferStatus, Facts, ModeFact, OpFacts, FinishFailure, Finish,
      Sound, Judge, Audit, Answers, SameBut, ResponseWords, InFlight, Settle, TransferTimeout, Classify, Means, AllMean,
      Follows, Collected;
    LiveSlot(s);
    var v, w := history(|s.log|), history(|s.log| + 1);
    var x, n := Transferred(s, send, now, reply), NormOf(s, send, now, reply);
    TransferredFrame(s, send, now, reply);
    TransferredBalanced(s, send, now, reply);
    SameStep(s.active, x.active);
    SoundParts(s, v);
    StatusOk(s, send, now, reply);
    SameOpFacts(s.active, x.active, x.work, x.know, v);
    assert Collected(x) by { SameCollected(s, x); }
    JudgeMeans(x, words, n.doneMs, v);
    var j := Judge(x, words, n.doneMs);
    JudgedTicket(x, words, n.doneMs);
    JudgedVerdict(x, words, n.doneMs);
    if j.verdict.Done? && j.verdict.outcome == Succeeded {
      assert SameBut(v, w) by { ReadingMoves(v, CallOf(s, send, now, reply), w); }
      MeansSameBut(s.active.request, j.work.(configuration := j.know.configuration), v, w);
    }
    assert x.log[..|s.log|] == s.log;
    ReadEndMeans(x, j, n.doneMs, |s.log|, w, history);
  }

  /** New events that are no results. */
  predicate NoResults(log: seq<Event>, from: nat) { forall i | from <= i < |log| :: !log[i].Finished? }

  lemma ReadEndMeans(x: State, j: Judged, at: nat, from: nat, w: Sensor, history: nat -> Sensor)
    requires x.activeValid && !x.terminalValid && Balanced(x) && SameTicket(x.active, j.active) && from < |x.log|
    requires AllMean(x.log[..from], history) && NoResults(x.log, from) && w == history(|x.log|)
    requires Follows(ReadEnd(x, j, at).log, history)
    requires j.verdict.Done? && j.verdict.outcome == Succeeded ==>
      Means(x.active.request, j.work.(configuration := j.know.configuration), w)
    ensures AllMean(ReadEnd(x, j, at).log, history)
  {
    hide Finish, FinishFailure, Audit, Means, AllMean, Follows, Balanced;
    var p := if j.protocol.Some? then [ProtocolError(j.protocol.value, at)] else [];
    var y := x.(active := j.active, know := j.know, work := j.work,
                log := if j.protocol.Some? then x.log + [ProtocolError(j.protocol.value, at)] else x.log);
    var t := ReadEnd(x, j, at);
    assert y.log == x.log + p;
    NotedBalanced(x, y, p);
    assert y.log[..from] == x.log[..from];
    match j.verdict
    case Continue => AllMeanGrows(x.log[..from], y.log, history) by { assert x.log[..from] <= y.log; }
    case Done(outcome, effect, status) => DoneMeans(x, y, j, at, from, w, history);
    case Reject(status) => FailedMeans(y, status, at, from, history);
  }

  lemma DoneMeans(x: State, y: State, j: Judged, at: nat, from: nat, w: Sensor, history: nat -> Sensor)
    requires j.verdict.Done? && y.know == j.know && y.work == j.work && y.active.request == x.active.request
    requires y.activeValid && !y.terminalValid && Balanced(y) && from <= |x.log| && x.log <= y.log
    requires AllMean(y.log[..from], history) && NoResults(y.log, from) && w == history(|x.log|)
    requires forall i | |x.log| <= i < |y.log| :: !y.log[i].Called?
    requires Follows(Finish(y, j.verdict.outcome, j.verdict.effect, j.verdict.status, at).log, history)
    requires j.verdict.outcome == Succeeded ==>
      Means(x.active.request, j.work.(configuration := j.know.configuration), w)
    ensures AllMean(Finish(y, j.verdict.outcome, j.verdict.effect, j.verdict.status, at).log, history)
  {
    hide Finish, Audit, Means, AllMean, Follows, Balanced;
    var t := Finish(y, j.verdict.outcome, j.verdict.effect, j.verdict.status, at);
    FinishCloses(y, j.verdict.outcome, j.verdict.effect, j.verdict.status, at);
    FinishValue(y, j.verdict.outcome, j.verdict.effect, j.verdict.status, at);
    assert y.log <= t.log;
    FollowsPrefix(y.log, t.log, history);
    QuietSensor(y.log, |x.log|, history);
    if j.verdict.outcome == Succeeded {
      SettingKinds(y.active.request.kind);
      MeansIdentity(y.active.request, j.work.(configuration := j.know.configuration), t.terminal.value, w);
    }
    ClosedMeans(y, t, from, history);
  }

  lemma ReadingMoves(v: Sensor, call: Call, w: Sensor)
    requires Moves(v, call, w) && call.wire.Read?
    ensures SameBut(v, w)
  {
  }

  lemma SettingKinds(k: Kind)
    ensures k.ReadSetting? || k.WriteSetting? || k.ReadConfiguration? ==> PublishesConfiguration(k) && !IsReset(k)
  {
  }

  lemma WriteTurnMeans(s: State, send: Send, k: Knowledge, now: nat, reply: Reply, history: nat -> Sensor)
    requires Live(s) && Balanced(s) && AllMean(s.log, history)
    ensures AllMean(Leads(s, now, reply, Wrote(send, k)).log, history)
  {
    hide Reachable, Transferred, NormOf, TransferStatus, FinishFailure, Finish, Audit, Written, Means, AllMean, CallOf;
    LiveSlot(s);
    var x, n := Transferred(s, send, now, reply), NormOf(s, send, now, reply);
    var st := TransferStatus(s.clock, s.active.deadlineMs, send.intent, n);
    TransferredFrame(s, send, now, reply);
    TransferredBalanced(s, send, now, reply);
    assert x.log[..|s.log|] == s.log;
    if st != Ok {
      NotedBalanced(x, x.(know := k), []);
      FailedMeans(x.(know := k), st, n.doneMs, |s.log|, history);
    } else {
      var y := x.(know := k, active := Written(x.active, x.disposition, x.clock, n.doneMs));
      WrittenKeeps(x.active, x.disposition, x.clock, n.doneMs);
      NotedBalanced(x, y, []);
      if EndsAfterWrite(x.active.request.kind) {
        var t := Finish(y, Succeeded, Acknowledged, Ok, n.doneMs);
        FinishCloses(y, Succeeded, Acknowledged, Ok, n.doneMs);
        DiagnosticMeans(y.active.request, t.terminal.value, history(|y.log|));
        ClosedMeans(y, t, |s.log|, history);
      } else {
        AllMeanGrows(s.log, x.log, history);
      }
    }
  }

  lemma MissTurnMeans(s: State, send: Send, status: Err, p: seq<Event>, now: nat, reply: Reply, history: nat -> Sensor)
    requires Live(s) && Balanced(s) && AllMean(s.log, history) && (p == [] || (|p| == 1 && p[0].ProtocolError?))
    ensures AllMean(Leads(s, now, reply, Missed(send, status, p)).log, history)
  {
    hide Reachable, Transferred, NormOf, FinishFailure, Finish, Audit, Means, AllMean, CallOf, IsPartial;
    LiveSlot(s);
    var x, n := Transferred(s, send, now, reply), NormOf(s, send, now, reply);
    TransferredFrame(s, send, now, reply);
    TransferredBalanced(s, send, now, reply);
    assert x.log[..|s.log|] == s.log;
    MissEndMeans(x, status, p, n.doneMs, |s.log|, history);
  }

  lemma MissEndMeans(x: State, status: Err, p: seq<Event>, at: nat, from: nat, history: nat -> Sensor)
    requires x.activeValid && !x.terminalValid && Balanced(x) && from <= |x.log|
    requires AllMean(x.log[..from], history) && NoResults(x.log, from) && (p == [] || (|p| == 1 && p[0].ProtocolError?))
    ensures AllMean(MissEnd(x, status, p, at).log, history)
  {
    hide FinishFailure, Finish, Audit, Means, AllMean, Balanced, IsPartial;
    var y := x.(log := x.log + p);
    assert y.log[..from] == x.log[..from];
    NotedBalanced(x, y, p);
    if IsPartial(x.active) {
      var z := y.(work := y.work.(configuration := y.know.configuration));
      NotedBalanced(y, z, []);
      FinishCloses(z, Partial, NoEffectWrite, status, at);
      ClosedMeans(z, MissEnd(x, status, p, at), from, history);
    } else {
      FailedMeans(y, status, at, from, history);
    }
  }

  lemma TurnMeans(s: State, now: nat, budget: nat, reply: Reply, history: nat -> Sensor)
    requires Live(s) && Balanced(s) && AllMean(s.log, history) && Collected(s)
    requires Follows(Iterate(s, now, budget, reply).s.log, history) && Sound(s, history(|s.log|))
    ensures AllMean(Iterate(s, now, budget, reply).s.log, history)
  {
    hide Iterate, Live, Finish, FinishFailure, Transferred, NormOf, Judge, TransferStatus, Wakes, Resting, Leads, Audit,
      ResponseWords, KnowAfterSend, Reachable, Words, AllWordsOk, SetMode, EndsAfterWait, Sound, Moves, CallOf, SendFor,
      PersistBlocked, PersistNotNeeded, Timed, GateClosed, Reached, Follows, AllMean, Means, Collected;
    LiveSlot(s);
    var c := Shape(s, now, budget, reply);
    var t := Iterate(s, now, budget, reply).s;
    IterateOwner(s, now, budget, reply);
    CaseCalls(s, now, budget, reply, c);
    NextSensor(s, t, history, Transfers(c));
    LeadsHeld(s, now, reply, c);
    assert s.log[..|s.log|] == s.log;
    match c
    case Held(_) =>
    case Roused(_) =>
    case Quiet(k, w, outcome, effect, status) =>
      var y := s.(know := k, work := w);
      LeadsQuiet(s, now, reply, c);
      NotedBalanced(s, y, []);
      FinishCloses(y, outcome, effect, status, now);
      QuietMeans(s, c, now, budget, reply, history(|s.log|), t.terminal.value);
      ClosedMeans(y, t, |s.log|, history);
    case Expired => FailedMeans(s, Timeout, now, |s.log|, history);
    case Wrote(send, k) => WriteTurnMeans(s, send, k, now, reply, history);
    case Fetched(send, words) =>
      ReadsAreNormal(s.active);
      ReadTurnMeans(s, send, words, now, budget, reply, history);
    case Missed(send, status, p) => MissTurnMeans(s, send, status, p, now, reply, history);
  }

  lemma SameCollected(s: State, x: State)
    requires Collected(s) && x.know == s.know && (x.activeValid ==> s.activeValid)
    requires x.active.request == s.active.request && x.active.index == s.active.index
    ensures Collected(x)
  {
    hide FieldAt;
  }

  lemma EndedCollected(t: State)
    requires !t.activeValid
    ensures Collected(t)
  {
  }

  lemma TurnCollected(s: State, now: nat, budget: nat, reply: Reply)
    requires Live(s) && Collected(s)
    ensures Collected(Iterate(s, now, budget, reply).s)
  {
    hide Iterate, Live, Finish, FinishFailure, Transferred, NormOf, Judge, TransferStatus, Wakes, Resting,
      ResponseWords, KnowAfterSend, Reachable, Words, AllWordsOk, SetMode, EndsAfterWait, CallOf, SendFor,
      PersistBlocked, PersistNotNeeded, Timed, GateClosed, Reached, Collected, Written, IsPartial;
    LiveSlot(s);
    var c := Shape(s, now, budget, reply);
    var t := Iterate(s, now, budget, reply).s;
    match c
    case Held(_) => SameCollected(s, t);
    case Roused(k) => RousedCollected(s, k, t);
    case Quiet(k, w, outcome, effect, status) =>
      FinishTimes(s.(know := k, work := w), outcome, effect, status, now);
      EndedCollected(t);
    case Expired =>
      FailureTimes(s, Timeout, now);
      EndedCollected(t);
    case Wrote(send, k) => WroteCollected(s, send, k, now, reply);
    case Fetched(send, words) =>
      var x, n := Transferred(s, send, now, reply), NormOf(s, send, now, reply);
      TransferredFrame(s, send, now, reply);
      SameStep(s.active, x.active);
      SameCollected(s, x);
      JudgeCollected(x, words, n.doneMs);
      ReadEndCollected(x, Judge(x, words, n.doneMs), n.doneMs);
    case Missed(send, status, p) =>
      TransferredFrame(s, send, now, reply);
      MissEndTimes(Transferred(s, send, now, reply), status, p, NormOf(s, send, now, reply).doneMs);
      EndedCollected(t);
  }

  lemma RousedCollected(s: State, k: Knowledge, t: State)
    requires Collected(s) && t == s.(active := s.active.(phase := Wakes(s.active)), know := k)
    requires k == (if IsReset(s.active.request.kind) then Cleaned(s.know) else s.know)
    ensures Collected(t)
  {
    hide FieldAt, Wakes;
  }

  lemma ReadEndCollected(x: State, j: Judged, at: nat)
    requires x.activeValid && !x.terminalValid &&
      (j.verdict.Continue? ==> Collected(x.(active := j.active, know := j.know)))
    ensures Collected(ReadEnd(x, j, at))
  {
    hide Finish, FinishFailure, FieldAt;
    var y := x.(active := j.active, know := j.know, work := j.work,
                log := if j.protocol.Some? then x.log + [ProtocolError(j.protocol.value, at)] else x.log);
    match j.verdict
    case Continue =>
    case Done(outcome, effect, status) => FinishTimes(y, outcome, effect, status, at);
    case Reject(status) => FailureTimes(y, status, at);
  }

  lemma WroteCollected(s: State, send: Send, k: Knowledge, now: nat, reply: Reply)
    requires Live(s) && Collected(s) && SendFor(s.active) == Some(send) && !send.wire.Read?
    requires var n := NormOf(s, send, now, reply);
      k == KnowAfterSend(s, n.disposition, TransferStatus(s.clock, s.active.deadlineMs, send.intent, n))
    ensures Collected(Leads(s, now, reply, Wrote(send, k)))
  {
    hide Transferred, NormOf, TransferStatus, Finish, FinishFailure, Reachable, SendFor, KnowAfterSend, FieldAt;
    LiveSlot(s);
    var x, n := Transferred(s, send, now, reply), NormOf(s, send, now, reply);
    var st := TransferStatus(s.clock, s.active.deadlineMs, send.intent, n);
    TransferredFrame(s, send, now, reply);
    CollectingSend(s, n.disposition, st);
    FailureTimes(x.(know := k), st, n.doneMs);
    FinishTimes(x.(know := k, active := Written(x.active, x.disposition, x.clock, n.doneMs)), Succeeded, Acknowledged,
                Ok, n.doneMs);
  }

  lemma CollectingSend(s: State, d: Disposition, st: Err)
    ensures s.active.request.kind.ReadConfiguration? ==> KnowAfterSend(s, d, st) == s.know
  {
  }

  lemma OtherCollected(s: State, op: Op)
    requires Steady(s) && Collected(s) && !op.OpPoll?
    ensures Collected(Apply(s, Other(op)))
  {
    hide Reachable, Finish, CheckStart, CancelEffect, CancelTime, Reached, BlockedIf, ForgetIf, FieldAt, EndActive,
      DesiredWord, IsEffectful;
    match op
    case OpCancel(id, now) =>
      if s.activeValid && s.active.id == id {
        var a, at := s.active, CancelTime(s, now);
        var know := BlockedIf(ForgetIf(s.know, a.callbacks != 0 && a.wrote), a, a.wrote);
        FinishTimes(s.(time := s.time.(ownerMs := at, ownerValid := true), know := know), OutcomeCancelled,
                    CancelEffect(a), Cancelled, at);
      }
    case OpEnd => EndSteady(s);
    case _ =>
  }

  lemma LeadsQuiet(s: State, now: nat, reply: Reply, c: Case)
    requires c.Quiet?
    ensures Leads(s, now, reply, c) == Finish(s.(know := c.k, work := c.w), c.outcome, c.effect, c.status, now)
  {
    hide Finish;
  }

  lemma OtherMeans(s: State, op: Op, history: nat -> Sensor)
    requires Steady(s) && Balanced(s) && AllMean(s.log, history) && !op.OpPoll?
    ensures AllMean(Apply(s, Other(op)).log, history)
  {
    hide Reachable, Finish, CheckStart, CancelEffect, CancelTime, Reached, BlockedIf, ForgetIf, Audit, Means, AllMean,
      Opened;
    var t := Apply(s, Other(op));
    match op
    case OpBegin(c) => AllMeanGrows(s.log, t.log, history);
    case OpStart(r, o) => AllMeanGrows(s.log, t.log, history);
    case OpCancel(id, now) =>
      if s.activeValid && s.active.id == id {
        var know := BlockedIf(ForgetIf(s.know, s.active.callbacks != 0 && s.active.wrote), s.active, s.active.wrote);
        var at := CancelTime(s, now);
        StoppedMeans(s, s.(time := s.time.(ownerMs := at, ownerValid := true), know := know), CancelEffect(s.active),
                     at, history);
      }
    case OpTake(id) => AllMeanGrows(s.log, t.log, history);
    case OpEnd =>
      if s.activeValid {
        var at := if s.time.ownerValid then s.time.ownerMs else s.active.startedMs;
        var know := BlockedIf(ForgetIf(s.know, s.active.callbacks > 0), s.active, s.active.wrote);
        StoppedMeans(s, s.(know := know), s.active.effect, at, history);
      }
      AllMeanGrows(EndActive(s).log, t.log, history);
  }

  lemma StoppedMeans(s: State, y: State, effect: Effect, at: nat, history: nat -> Sensor)
    requires Steady(s) && s.activeValid && Balanced(s) && AllMean(s.log, history) &&
      y == s.(time := y.time, know := y.know)
    ensures AllMean(Finish(y, OutcomeCancelled, effect, Cancelled, at).log, history)
  {
    hide Reachable, Finish, Audit, Means, AllMean;
    NotedBalanced(s, y, []);
    assert y.log[..|s.log|] == s.log;
    FinishCloses(y, OutcomeCancelled, effect, Cancelled, at);
    ClosedMeans(y, Finish(y, OutcomeCancelled, effect, Cancelled, at), |s.log|, history);
  }

  /** Permitted traffic and meaningful results, for a log that the sensor's history follows. */
  predicate Keeps(s: State, history: nat -> Sensor) {
    Follows(s.log, history) ==> AllPermitted(s.log, history) && AllMean(s.log, history)
  }

  lemma SmallKeeps(s: State, m: Small, history: nat -> Sensor)
    requires Steady(s) && Coherent(s) && Tracked(s) && Believes(s, history) && Keeps(s, history) && Collected(s) &&
      Allowed(s, m)
    ensures Keeps(Apply(s, m), history)
  {
    hide Reachable, Iterate, FinishFailure, Reached, MayRun, Do, Sound, Coherent, Moves, Follows, AllPermitted, AllMean,
      Audit, AllFaithful, Acts, OwnEvidence, Spent, LastTransfer, Collected;
    var t := Apply(s, m);
    if Follows(t.log, history) {
      match m
      case Watch(now) =>
      case Expiry(now) =>
        FailureOwner(s, Timeout, now);
        FollowsPrefix(s.log, t.log, history);
        PermittedGrows(s.log, t.log, history);
        assert s.log[..|s.log|] == s.log;
        FailedMeans(s, Timeout, now, |s.log|, history);
      case Turns(now, budget, reply) =>
        IterateOwner(s, now, budget, reply);
        FollowsPrefix(s.log, t.log, history);
        TurnPermitted(s, now, budget, reply, history);
        TurnMeans(s, now, budget, reply, history);
      case Other(op) =>
        OtherAdds(s, op);
        FollowsPrefix(s.log, t.log, history);
        PermittedGrows(s.log, t.log, history);
        OtherMeans(s, op, history);
    }
  }

  lemma SmallCollected(s: State, m: Small)
    requires Steady(s) && Collected(s) && Allowed(s, m)
    ensures Collected(Apply(s, m))
  {
    hide Reachable, Iterate, FinishFailure, Reached, MayRun, Do, FieldAt;
    match m
    case Watch(_) =>
    case Expiry(now) => FailureTimes(s, Timeout, now);
    case Turns(now, budget, reply) => TurnCollected(s, now, budget, reply);
    case Other(op) => OtherCollected(s, op);
  }

  /**
    Over every run against a truthful adapter: outside ATTACH, WAKE_UP and diagnostics nothing is sent to a
    sensor whose mode forbids it, and every success means what it says: ATTACH leaves the sensor idle and
    identified, a mode command in its mode, a setter with the requested register, verified, selected and
    reported, a configuration read with all seven fields verified and true.
   */
  lemma AlwaysKeeps(ops: seq<Op>, c: Clock, bus: nat -> Reply, history: nat -> Sensor)
    requires Follows(Run(ops, c, bus).log, history)
    ensures var s := Run(ops, c, bus); AllPermitted(s.log, history) && AllMean(s.log, history)
  {
    hide Coherent, Tracked, Believes, Keeps, Steady, Apply, Allowed, Run, Follows, Collected;
    var inv := (s: State) => Coherent(s) && Tracked(s) && Believes(s, history) && Keeps(s, history) && Collected(s);
    assert Preserved(inv) by {
      forall s: State, m: Small | Steady(s) && inv(s) && Allowed(s, m) ensures inv(Apply(s, m)) {
        SmallCoherent(s, m);
        SmallTracked(s, m);
        SmallSound(s, m, history);
        SmallKeeps(s, m, history);
        SmallCollected(s, m);
      }
    }
    assert inv(Initial(c)) by {
      InitialCoherent(c);
      InitialTracked(c);
      InitialSound(c, history);
      assert Keeps(Initial(c), history) && Collected(Initial(c)) by { InitialKeeps(c, history); }
    }
    Lift(inv, ops, c, bus);
    KeepsAll(Run(ops, c, bus), history);
  }

  lemma KeepsAll(s: State, history: nat -> Sensor)
    requires Keeps(s, history) && Follows(s.log, history)
    ensures AllPermitted(s.log, history) && AllMean(s.log, history)
  {
  }

  lemma InitialKeeps(c: Clock, history: nat -> Sensor)
    ensures Keeps(Initial(c), history) && Collected(Initial(c))
  {
  }

  /**
    Over every run: a successful offset write leaves the register that its admission asked for, and its result
    reports it, in the configuration and as the plain value, to within one thousandth of a degree.
   */
  lemma OffsetReported(ops: seq<Op>, c: Clock, bus: nat -> Reply, history: nat -> Sensor, j: nat) returns (i: nat)
    requires var log := Run(ops, c, bus).log;
      Follows(log, history) && j < |log| && log[j].Finished? && log[j].result.kind == WriteSetting(TemperatureOffset) &&
      log[j].result.outcome == Succeeded
    ensures var log := Run(ops, c, bus).log; i < j && log[i].Admitted? && log[i].id == log[j].result.id
    ensures var log := Run(ops, c, bus).log; var asked, value := log[i].request.signedValue, log[j].result.value;
      OffsetInRange(asked) && Get(history(j).runtime, TemperatureOffset) == EncodeOffset(asked) &&
      value.signedValue == Cached(value.configuration, TemperatureOffset) && asked - 1 <= value.signedValue <= asked + 1
  {
    hide Run, Follows, Audit, Agrees, FieldWordValid, Means;
    AlwaysKeeps(ops, c, bus, history);
    AlwaysBalanced(ops, c, bus);
    var log := Run(ops, c, bus).log;
    NotContradicted(Run(ops, c, bus));
    Accounts.Prefixes(log, j + 1);
    assert log[..j + 1] == log[..j] + [log[j]];
    AuditSnoc(log[..j], log[j]);
    i := Accounts.OpenedAt(log[..j]);
    assert ResultMeans(Audit(log[..j]), log[j].result, history(j));
    OffsetMeans(log[i].request, log[j].result.value, history(j));
  }

  lemma NotContradicted(s: State)
    requires Balanced(s)
    ensures !Audit(s.log).Contradicted?
  {
    hide Audit;
  }

  lemma OffsetMeans(request: Request, value: Value, v: Sensor)
    requires Means(request, value, v) && request.kind == WriteSetting(TemperatureOffset)
    ensures OffsetInRange(request.signedValue) && Get(v.runtime, TemperatureOffset) == EncodeOffset(request.signedValue)
    ensures value.signedValue == Cached(value.configuration, TemperatureOffset)
    ensures request.signedValue - 1 <= value.signedValue <= request.signedValue + 1
  {
    hide Agrees;
    CodecProofs.OffsetAccurate(request.signedValue);
  }
}
