/**
  Looking at the driver through a lens: times taken modulo 2^32, telemetry
  thresholds blanked out, or a past put before its log. The engine commutes with
  the lens, step by step.
 */
module Lens {
  import opened Clocks
  import opened Types
  import opened Commands
  import opened Codec
  import opened Engine
  import opened Exchanges
  import opened Control

  /**
    `wrap` sees 32-bit times; `blind` sees no offline threshold; `past` is seen before everything logged, and
    `earlier` callbacks before those counted.
   */
  datatype Lens = Lens(wrap: bool, blind: bool, past: seq<Event>, earlier: nat)

  function T(l: Lens, t: nat): nat { if l.wrap then Wrap(t) else t }

  function C(l: Lens, c: Clock): Clock { if l.wrap then Wrapped else c }

  function N(l: Lens, calls: nat): nat { calls + l.earlier }

  function OnActive(l: Lens, a: Active): Active {
    a.(startedMs := T(l, a.startedMs), deadlineMs := T(l, a.deadlineMs), nextDueMs := T(l, a.nextDueMs))
  }

  function OnTiming(l: Lens, t: Timing): Timing { t.(gateMs := T(l, t.gateMs), ownerMs := T(l, t.ownerMs)) }

  function OnSample(l: Lens, s: Sample): Sample { s.(capturedMs := T(l, s.capturedMs)) }

  function OnKnow(l: Lens, k: Knowledge): Knowledge { k.(sample := OnSample(l, k.sample)) }

  function OnValue(l: Lens, v: Value): Value { v.(sample := OnSample(l, v.sample)) }

  function OnResult(l: Lens, r: Result): Result {
    r.(startedMs := T(l, r.startedMs), completedMs := T(l, r.completedMs), deadlineMs := T(l, r.deadlineMs),
       value := OnValue(l, r.value))
  }

  function OnNorm(l: Lens, n: Norm): Norm { n.(doneMs := T(l, n.doneMs)) }

  function OnReply(l: Lens, r: Reply): Reply { r.(completedMs := T(l, r.completedMs)) }

  function OnCall(l: Lens, c: Call): Call {
    c.(startMs := T(l, c.startMs), deadlineMs := T(l, c.deadlineMs), raw := OnReply(l, c.raw),
       norm := OnNorm(l, c.norm))
  }

  function OnEvent(l: Lens, e: Event): Event {
    match e
    case Bound(threshold) => Bound(if l.blind then 0 else threshold)
    case Unbound => Unbound
    case Admitted(id, k, started, deadline) => Admitted(id, k, T(l, started), T(l, deadline))
    case Called(c) => Called(OnCall(l, c))
    case ProtocolError(err, at) => ProtocolError(err, T(l, at))
    case Finished(r) => Finished(OnResult(l, r))
    case Taken(id) => Taken(id)
  }

  function OnEvents(l: Lens, log: seq<Event>): (m: seq<Event>)
    ensures |m| == |log| && forall i | 0 <= i < |log| :: m[i] == OnEvent(l, log[i])
  {
    seq(|log|, i requires 0 <= i < |log| => OnEvent(l, log[i]))
  }

  function OnLog(l: Lens, log: seq<Event>): seq<Event> { l.past + OnEvents(l, log) }

  function On(l: Lens, s: State): State {
    State(C(l, s.clock), s.settings, s.bound, OnKnow(l, s.know), OnTiming(l, s.time), s.generation,
          OnActive(l, s.active),
          s.activeValid, OnResult(l, s.terminal), s.terminalValid, OnValue(l, s.work), s.disposition, s.effectful,
          N(l, s.calls), OnLog(l, s.log))
  }

  function OnIo(l: Lens, io: Io): Io { Io(io.status, On(l, io.s), T(l, io.now), io.budget) }

  lemma LogSeen(l: Lens, log: seq<Event>, e: Event)
    ensures OnLog(l, log + [e]) == OnLog(l, log) + [OnEvent(l, e)]
  {
    assert OnEvents(l, log + [e]) == OnEvents(l, log) + [OnEvent(l, e)];
  }

  // ----- The clock through the lens -----

  /** Close enough for 32-bit comparison to be comparison. */
  predicate Near(l: Lens, c: Clock, now: nat, target: nat) {
    l.wrap ==> c.Linear? && -(HALF as int) <= now - target < HALF
  }

  lemma ReachedSeen(l: Lens, c: Clock, now: nat, target: nat)
    requires Near(l, c, now, target)
    ensures Reached(C(l, c), T(l, now), T(l, target)) == Reached(c, now, target)
  {
    if l.wrap { WrapReached(now, target); }
  }

  lemma AfterSeen(l: Lens, c: Clock, t: nat, d: nat)
    requires l.wrap ==> c.Linear?
    ensures After(C(l, c), T(l, t), d) == T(l, After(c, t, d))
  {
    if l.wrap { WrapAfter(t, d); }
  }

  lemma SpanSeen(l: Lens, c: Clock, from: nat, to: nat)
    requires l.wrap ==> c.Linear? && 0 <= to - from < WRAP
    ensures Span(C(l, c), T(l, from), T(l, to)) == Span(c, from, to)
  {
    if l.wrap { WrapSpan(from, to); }
  }

  /** A completion claim from half a clock before the start to one clock after it is judged alike. */
  lemma CompletionSeen(l: Lens, c: Clock, start: nat, completed: nat)
    requires l.wrap ==> c.Linear? && -(HALF as int) <= completed - start < WRAP
    ensures CompletionValid(C(l, c), T(l, start), T(l, completed)) == CompletionValid(c, start, completed)
  {
    if l.wrap {
      assert (Wrap(completed) - Wrap(start)) % WRAP == (completed - start) % WRAP;
    }
  }

  // ----- Endings -----

  /** The only comparison an ending makes: has an acknowledged reset settled? */
  predicate EndNear(l: Lens, s: State, at: nat) {
    (l.wrap ==> s.clock.Linear?) &&
    (IsReset(s.active.request.kind) && s.active.phase == WaitExecution && s.active.effect == Acknowledged ==>
       Near(l, s.clock, at, s.active.nextDueMs))
  }

  lemma SettledSeen(l: Lens, s: State, at: nat)
    requires EndNear(l, s, at)
    ensures ResetSettled(C(l, s.clock), OnActive(l, s.active), T(l, at)) == ResetSettled(s.clock, s.active, at)
  {
    hide Reached;
    if IsReset(s.active.request.kind) && s.active.phase == WaitExecution && s.active.effect == Acknowledged {
      ReachedSeen(l, s.clock, at, s.active.nextDueMs);
    }
  }

  lemma FinishSeen(l: Lens, s: State, outcome: Outcome, effect: Effect, status: Err, at: nat)
    requires EndNear(l, s, at)
    ensures Finish(On(l, s), outcome, effect, status, T(l, at)) == On(l, Finish(s, outcome, effect, status, at))
  {
    hide ResetSettled, T, C, Wrap;
    SettledSeen(l, s, at);
    ConstantsSeen(l);
    if s.activeValid && !s.terminalValid {
      var know := Discarded(s.know, s.clock, s.active, at);
      var s1 := s.(know := know, work := Published(s.work, s.active, know));
      LogSeen(l, s.log, Finished(ResultOf(s1, outcome, effect, status, at)));
    }
  }

  lemma ConstantsSeen(l: Lens)
    ensures T(l, 0) == 0 && OnActive(l, NO_ACTIVE) == NO_ACTIVE && OnResult(l, NO_RESULT) == NO_RESULT &&
      OnValue(l, NO_VALUE) == NO_VALUE && OnSample(l, NO_SAMPLE) == NO_SAMPLE && OnKnow(l, NO_KNOWLEDGE) == NO_KNOWLEDGE
  {
  }

  lemma ClassifySeen(l: Lens, s: State, status: Err)
    ensures Classify(On(l, s), status) == Classify(s, status)
  {
    hide T, C, N;
  }

  lemma FailureSeen(l: Lens, s: State, status: Err, at: nat)
    requires EndNear(l, s, at)
    ensures FinishFailure(On(l, s), status, T(l, at)) == On(l, FinishFailure(s, status, at))
  {
    hide Finish, Classify, T, C, Forget, EepromUncertain;
    ClassifySeen(l, s, status);
    if s.activeValid {
      var f := Classify(s, status);
      FailingSeen(l, s, status, f);
      FinishSeen(l, Failing(s, status, f), PartialOutcome(s.active, f.outcome), f.effect, status, at);
    }
  }

  lemma FailingSeen(l: Lens, s: State, status: Err, f: Failure)
    ensures Failing(On(l, s), status, f) == On(l, Failing(s, status, f))
  {
    hide T, C, N;
  }

  // ----- One transfer -----

  /** What an adapter may claim about its completion time. */
  predicate ReplyNear(l: Lens, c: Clock, now: nat, reply: Reply) {
    l.wrap ==> c.Linear? && -(HALF as int) <= reply.completedMs - now < WRAP
  }

  lemma NormalizeSeen(l: Lens, c: Clock, now: nat, expected: nat, effectful: bool, reply: Reply)
    requires ReplyNear(l, c, now, reply)
    ensures Normalize(C(l, c), T(l, now), expected, effectful, OnReply(l, reply)) ==
      OnNorm(l, Normalize(c, now, expected, effectful, reply))
  {
    hide CompletionValid, T, C;
    CompletionSeen(l, c, now, reply.completedMs);
  }

  lemma NormSeen(l: Lens, s: State, send: Send, now: nat, reply: Reply)
    requires ReplyNear(l, s.clock, now, reply)
    ensures NormOf(On(l, s), send, T(l, now), OnReply(l, reply)) == OnNorm(l, NormOf(s, send, now, reply))
  {
    hide Normalize, T, C;
    NormalizeSeen(l, s.clock, now, WireLength(send.wire), send.effectful, reply);
  }

  lemma SettleSeen(l: Lens, a: Active, send: Send, n: Norm)
    ensures Settle(OnActive(l, a), send, OnNorm(l, n)) == Settle(a, send, n)
  {
    hide T, C, N;
  }

  /** The windows in which a live operation is seen alike. */
  predicate LiveNear(l: Lens, s: State, now: nat) {
    l.wrap ==>
      s.clock.Linear? && now - HALF < s.active.deadlineMs && s.active.deadlineMs - now < HALF
  }

  lemma TimeoutSeen(l: Lens, s: State, now: nat)
    requires LiveNear(l, s, now) && !Reached(s.clock, now, s.active.deadlineMs)
    ensures TransferTimeout(On(l, s), T(l, now)) == TransferTimeout(s, now)
  {
    hide T, C, N;
    SpanSeen(l, s.clock, now, s.active.deadlineMs);
  }

  lemma CallSeen(l: Lens, s: State, send: Send, now: nat, reply: Reply)
    requires ReplyNear(l, s.clock, now, reply) && LiveNear(l, s, now) && !Reached(s.clock, now, s.active.deadlineMs)
    ensures CallOf(On(l, s), send, T(l, now), OnReply(l, reply)) == OnCall(l, CallOf(s, send, now, reply))
  {
    hide NormOf, TransferTimeout, Settle, T, C, Reached;
    NormSeen(l, s, send, now, reply);
    TimeoutSeen(l, s, now);
    SettleSeen(l, s.active, send, NormOf(s, send, now, reply));
  }

  lemma TransferredSeen(l: Lens, s: State, send: Send, now: nat, reply: Reply)
    requires ReplyNear(l, s.clock, now, reply) && LiveNear(l, s, now) && !Reached(s.clock, now, s.active.deadlineMs)
    ensures Transferred(On(l, s), send, T(l, now), OnReply(l, reply)) == On(l, Transferred(s, send, now, reply))
  {
    hide NormOf, CallOf, Settle, T, C, Reached, After;
    var n := NormOf(s, send, now, reply);
    NormSeen(l, s, send, now, reply);
    CallSeen(l, s, send, now, reply);
    SettleSeen(l, s.active, send, n);
    AfterSeen(l, s.clock, n.doneMs, Settle(s.active, send, n));
    LogSeen(l, s.log, Called(CallOf(s, send, now, reply)));
  }

  lemma StatusSeen(l: Lens, c: Clock, deadlineMs: nat, intent: Intent, n: Norm)
    requires Near(l, c, n.doneMs, deadlineMs)
    ensures TransferStatus(C(l, c), T(l, deadlineMs), intent, OnNorm(l, n)) == TransferStatus(c, deadlineMs, intent, n)
  {
    hide Reached, T, C;
    ReachedSeen(l, c, n.doneMs, deadlineMs);
  }

  lemma AttemptSeen(l: Lens, s: State, send: Send, now: nat, budget: nat, reply: Reply)
    requires ReplyNear(l, s.clock, now, reply) && LiveNear(l, s, now) && !Reached(s.clock, now, s.active.deadlineMs)
    requires Near(l, s.clock, NormOf(s, send, now, reply).doneMs, s.active.deadlineMs)
    ensures Attempt(On(l, s), send, T(l, now), budget, OnReply(l, reply)) == OnIo(l,
      Attempt(s, send, now, budget, reply))
  {
    hide NormOf, Transferred, TransferStatus, TransferTimeout, T, C, Reached;
    ReachedSeen(l, s.clock, now, s.active.deadlineMs);
    TimeoutSeen(l, s, now);
    NormSeen(l, s, send, now, reply);
    TransferredSeen(l, s, send, now, reply);
    StatusSeen(l, s.clock, s.active.deadlineMs, send.intent, NormOf(s, send, now, reply));
  }

  // ----- Judging -----

  function OnJudged(l: Lens, j: Judged): Judged {
    j.(active := OnActive(l, j.active), know := OnKnow(l, j.know), work := OnValue(l, j.work))
  }

  lemma PlaceSeen(l: Lens, a: Active)
    ensures SendFor(OnActive(l, a)) == SendFor(a) && ResponseWords(OnActive(l, a)) == ResponseWords(a)
    ensures Resting(OnActive(l, a)) == Resting(a) && Timed(OnActive(l, a)) == Timed(a) &&
      Wakes(OnActive(l, a)) == Wakes(a)
    ensures IsSettingWrite(OnActive(l, a)) == IsSettingWrite(a) &&
      IsSerialResponse(OnActive(l, a)) == IsSerialResponse(a)
  {
    hide T;
    SameStep(a, OnActive(l, a));
  }

  lemma KnowSeen(l: Lens, k: Knowledge, serial: nat, word: u16)
    ensures Disowned(OnKnow(l, k), serial, word) == OnKnow(l, Disowned(k, serial, word))
    ensures Identified(OnKnow(l, k), serial, word) == OnKnow(l, Identified(k, serial, word))
    ensures Attached(OnKnow(l, k)) == OnKnow(l, Attached(k))
    ensures ResetKnowledge(OnKnow(l, k), serial, word) == OnKnow(l, ResetKnowledge(k, serial, word))
  {
    hide T, VariantOf;
  }

  lemma EndsSeen(l: Lens, s: State, outcome: Outcome, effect: Effect, status: Err, k: Knowledge)
    ensures var w := WithIdentity(s.work, k);
      Ends(On(l, s), outcome, effect, status, OnKnow(l, k), WithIdentity(On(l, s).work, OnKnow(l, k))) ==
        OnJudged(l, Ends(s, outcome, effect, status, k, w)) &&
      Ends(On(l, s), outcome, effect, status, OnKnow(l, k),
           WithIdentity(On(l, s).work, OnKnow(l, k)).(configuration := OnKnow(l, k).configuration)) ==
        OnJudged(l, Ends(s, outcome, effect, status, k, w.(configuration := k.configuration)))
  {
    hide T, C, N, OnTiming, OnResult, OnLog;
  }

  lemma OnParts(l: Lens, s: State)
    ensures On(l, s).know == OnKnow(l, s.know) && On(l, s).settings == s.settings &&
      On(l, s).active.request == s.active.request
    ensures On(l, s).know.identity == s.know.identity && On(l, s).work.identity == s.work.identity
  {
    hide T, C, N, OnTiming, OnResult, OnLog;
  }

  lemma IdentitySeen(l: Lens, s: State, word: u16)
    ensures JudgeIdentity(On(l, s), word) == OnJudged(l, JudgeIdentity(s, word))
  {
    hide On, OnKnow, OnJudged, Ends, WithIdentity, VariantOf, Disowned, Identified, Attached, ResetKnowledge,
      IsReadLike, IsModeCommand, IsReset, StrictlyUnsupported, OtherSensor;
    OnParts(l, s);
    var kind, serial, k := s.active.request.kind, s.work.identity.serial, s.know;
    var wrong := if IsReset(kind) then OutcomeIndeterminate else Failed;
    var effect := if IsReadLike(kind) then NoEffectWrite else UnknownEffect;
    KnowSeen(l, k, serial, word);
    KnowSeen(l, Identified(k, serial, word), 0, word);
    EndsSeen(l, s, wrong, effect, Unsupported, Disowned(k, serial, word));
    EndsSeen(l, s, wrong, effect, ReconciliationRequired, Disowned(k, serial, word));
    EndsSeen(l, s, Succeeded, NoEffectWrite, Ok, Identified(k, serial, word));
    EndsSeen(l, s, Succeeded, Verified, Ok, Attached(Identified(k, serial, word)));
    EndsSeen(l, s, Succeeded, Acknowledged, Ok, ResetKnowledge(k, serial, word));
  }

  lemma AttachSeen(l: Lens, s: State, word: u16)
    ensures JudgeAttach(On(l, s), word) == OnJudged(l, JudgeAttach(s, word))
  {
    hide T, C, N, VariantOf;
  }

  lemma VariantSeen(l: Lens, s: State, word: u16)
    ensures JudgeVariant(On(l, s), word) == OnJudged(l, JudgeVariant(s, word))
  {
    hide T, C, N, VariantOf;
  }

  lemma FieldSeen(l: Lens, k: Knowledge, v: Value, f: Field, word: u16)
    ensures CacheField(OnKnow(l, k), f, word) == OnKnow(l, CacheField(k, f, word))
    ensures Unverify(OnKnow(l, k), f) == OnKnow(l, Unverify(k, f))
    ensures CacheResult(OnValue(l, v), OnKnow(l, k), f) == OnValue(l, CacheResult(v, k, f))
    ensures Selected(OnKnow(l, k), f) == OnKnow(l, Selected(k, f))
  {
    hide T, DecodeField;
  }

  lemma SettingReadSeen(l: Lens, s: State, f: Field, word: u16)
    ensures JudgeSettingRead(On(l, s), f, word) == OnJudged(l, JudgeSettingRead(s, f, word))
  {
    hide T, C, N, CacheField, Unverify, CacheResult, FieldWordValid, Selected;
    FieldSeen(l, s.know, s.work, f, word);
    FieldSeen(l, CacheField(s.know, f, word), s.work, f, word);
  }

  lemma ConfigurationSeen(l: Lens, s: State, word: u16, now: nat)
    ensures JudgeConfiguration(On(l, s), word, T(l, now)) == OnJudged(l, JudgeConfiguration(s, word, now))
  {
    hide T, C, N, JudgeSettingRead, FieldAt;
    SettingReadSeen(l, s, FieldAt(s.active.index), word);
    RejectWork(s, FieldAt(s.active.index), word);
  }

  lemma RejectWork(s: State, f: Field, word: u16)
    ensures JudgeSettingRead(s, f, word).active == s.active
  {
  }

  lemma BeforeSeen(l: Lens, s: State, f: Field, word: u16, now: nat)
    ensures JudgeBefore(On(l, s), f, word, T(l, now)) == OnJudged(l, JudgeBefore(s, f, word, now))
  {
    hide T, C, N, CacheField, Unverify, CacheResult, FieldWordValid, Selected;
    FieldSeen(l, s.know, s.work, f, word);
    FieldSeen(l, CacheField(s.know, f, word), s.work, f, word);
  }

  lemma BackSeen(l: Lens, s: State, f: Field, word: u16)
    ensures JudgeBack(On(l, s), f, word) == OnJudged(l, JudgeBack(s, f, word))
  {
    hide T, C, N, CacheField, Unverify, CacheResult, FieldWordValid, Selected;
    FieldSeen(l, s.know, s.work, f, word);
    FieldSeen(l, CacheField(s.know, f, word), s.work, f, word);
  }

  lemma SampleSeen(l: Lens, s: State, words: seq<u16>, now: nat)
    requires |words| == 3
    ensures JudgeSample(On(l, s), words, T(l, now)) == OnJudged(l, JudgeSample(s, words, now))
  {
    hide T, C, N, TemperatureMilliC, HumidityMilliPct;
  }

  lemma SimpleSeen(l: Lens, s: State, words: seq<u16>, now: nat)
    requires |words| >= 1
    ensures |words| == 3 ==> JudgeSerial(On(l, s), words, T(l, now)) == OnJudged(l, JudgeSerial(s, words, now))
    ensures JudgeReady(On(l, s), words[0]) == OnJudged(l, JudgeReady(s, words[0]))
    ensures JudgeDeferred(On(l, s), words[0]) == OnJudged(l, JudgeDeferred(s, words[0]))
  {
    hide T, C, N, DataReady, SerialOf;
  }

  lemma JudgeSeen(l: Lens, s: State, words: seq<u16>, now: nat)
    requires |words| == ResponseWords(s.active) && |words| >= 1
    ensures ResponseWords(On(l, s).active) == |words|
    ensures Judge(On(l, s), words, T(l, now)) == OnJudged(l, Judge(s, words, now))
  {
    hide T, C, N, JudgeSerial, JudgeReady, JudgeDeferred, JudgeSample, JudgeBack, JudgeBefore, JudgeConfiguration,
      JudgeSettingRead, JudgeVariant, JudgeAttach, JudgeIdentity, IsSerialResponse, ResponseWords;
    hide OnJudged, OnTiming, OnResult, OnLog, OnKnow, OnValue, Ends;
    var k := s.active.request.kind;
    PlaceSeen(l, s.active);
    SerialWords(s.active);
    if IsSerialResponse(s.active) || IsMeasurement(k) {
      SimpleSeen(l, s, words, now);
      if |words| == 3 { SampleSeen(l, s, words, now); }
      IdentitySeen(l, s, words[0]);
    } else if IsDiagnostic(k) {
      PlainSeen(l, s, words);
    } else if k.Attach? {
      AttachSeen(l, s, words[0]);
    } else if s.active.phase == ReadVerify {
      IdentitySeen(l, s, words[0]);
    } else if k.ReadVariant? {
      VariantSeen(l, s, words[0]);
    } else if k.ReadDataReady? {
      PlainSeen(l, s, words);
    } else if k.ReadSetting? {
      SettingReadSeen(l, s, k.field, words[0]);
    } else if k.ReadConfiguration? {
      ConfigurationSeen(l, s, words[0], now);
    } else if k.WriteSetting? {
      BeforeSeen(l, s, k.field, words[0], now);
      BackSeen(l, s, k.field, words[0]);
    } else {
      SimpleSeen(l, s, words, now);
    }
  }

  lemma PlainSeen(l: Lens, s: State, words: seq<u16>)
    requires |words| >= 1
    ensures var w := s.work.(rawWords := words);
      Ends(On(l, s), Succeeded, Acknowledged, Ok, On(l, s).know, On(l, s).work.(rawWords := words)) ==
      OnJudged(l, Ends(s, Succeeded, Acknowledged, Ok, s.know, w))
    ensures var r := DataReady(words[0]);
      var w := s.work.(readyRaw := words[0], ready := r, boolValue := r);
      Ends(On(l, s), Succeeded, NoEffectWrite, Ok, On(l, s).know,
           On(l, s).work.(readyRaw := words[0], ready := r, boolValue := r)) ==
      OnJudged(l, Ends(s, Succeeded, NoEffectWrite, Ok, s.know, w))
  {
    hide T, C, N, DataReady;
  }

  lemma SerialWords(a: Active)
    ensures IsSerialResponse(a) || (IsMeasurement(a.request.kind) && a.phase == ReadResponse) ==> ResponseWords(a) == 3
  {
  }

  // ----- Steps -----

  lemma ReadSeen(l: Lens, s: State, words: seq<u16>, now: nat)
    requires |words| == ResponseWords(s.active) && |words| >= 1
    requires s.active.phase != WaitExecution && (l.wrap ==> s.clock.Linear?)
    requires Reachable(s.active) && SendFor(s.active) == Some(Send(Read(|words|), Normal, false))
    ensures ResponseWords(On(l, s).active) == |words|
    ensures AfterRead(On(l, s), words, T(l, now)) == OnIo(l, AfterRead(s, words, now))
  {
    hide T, C, N, Judge, Enacted, ResponseWords, SendFor, Reachable, On, OnJudged, OnIo;
    JudgeSeen(l, s, words, now);
    JudgedResting(s, words, now);
    EnactedSeen(l, s, Judge(s, words, now), now);
  }

  lemma EnactedSeen(l: Lens, s: State, j: Judged, now: nat)
    requires j.active.phase != WaitExecution && (l.wrap ==> s.clock.Linear?)
    ensures Enacted(On(l, s), OnJudged(l, j), T(l, now)) == OnIo(l, Enacted(s, j, now))
  {
    hide T, C, N, Finish, OnKnow, OnValue, OnTiming, OnResult, OnLog, OnActive;
    if j.protocol.Some? { LogSeen(l, s.log, ProtocolError(j.protocol.value, now)); }
    if j.verdict.Done? {
      var s1 := s.(active := j.active, know := j.know, work := j.work,
                   log := if j.protocol.Some? then s.log + [ProtocolError(j.protocol.value, now)] else s.log);
      FinishSeen(l, s1, j.verdict.outcome, j.verdict.effect, j.verdict.status, now);
    }
  }

  /** A response phase ends in a response phase, never in the wait of a reset. */
  lemma JudgedResting(s: State, words: seq<u16>, now: nat)
    requires |words| == ResponseWords(s.active) && |words| >= 1 && s.active.phase != WaitExecution
    ensures Judge(s, words, now).active.phase != WaitExecution
  {
    hide CacheResult, FieldWordValid, VariantOf, WithIdentity, WithSerial, DataReady, DecodeField, TemperatureMilliC,
      HumidityMilliPct, SerialOf, FieldAt, CacheField, Unverify, Disowned, DisownedVariant, ResetKnowledge, Attached,
      Identified, StoreSample, Rebased, StrictlyUnsupported, OtherSensor, SameSensor, Selected;
  }

  lemma WriteSeen(l: Lens, s: State, now: nat)
    requires s.active.phase != WaitExecution && (l.wrap ==> s.clock.Linear?)
    ensures AfterWrite(On(l, s), T(l, now)) == OnIo(l, AfterWrite(s, now))
  {
    hide T, C, N, Finish, KnowAfterWrite, EffectAfterWrite, IndexAfterWrite, PhaseAfterWrite, WaitAfter, After, OnValue,
      OnTiming, OnResult, OnKnow;
    WrittenSeen(l, s.active, s.disposition, s.clock, now);
    KnowWriteSeen(l, s.know, s.active);
    var s1 := s.(know := KnowAfterWrite(s.know, s.active), active := Written(s.active, s.disposition, s.clock, now));
    if EndsAfterWrite(s.active.request.kind) {
      FinishSeen(l, s1, Succeeded, Acknowledged, Ok, now);
    }
  }

  lemma WrittenSeen(l: Lens, a: Active, d: Disposition, c: Clock, now: nat)
    requires l.wrap ==> c.Linear?
    ensures Written(OnActive(l, a), d, C(l, c), T(l, now)) == OnActive(l, Written(a, d, c, now))
  {
    hide T, C, N, After;
    AfterSeen(l, c, now, WaitAfter(a));
  }

  lemma KnowWriteSeen(l: Lens, k: Knowledge, a: Active)
    ensures KnowAfterWrite(OnKnow(l, k), OnActive(l, a)) == OnKnow(l, KnowAfterWrite(k, a))
  {
    hide T;
  }

  lemma SettingWriteSeen(l: Lens, k: Knowledge, a: Active, d: Disposition)
    requires a.request.kind.WriteSetting?
    ensures KnowAfterSettingWrite(OnKnow(l, k), OnActive(l, a), d) == OnKnow(l, KnowAfterSettingWrite(k, a, d))
  {
    hide T;
  }

  lemma RestKnowSeen(l: Lens, k: Knowledge, mode: Mode, evidence: Evidence)
    ensures Marked(Cleaned(OnKnow(l, k)), false) == OnKnow(l, Marked(Cleaned(k), false))
    ensures Cleaned(OnKnow(l, k)) == OnKnow(l, Cleaned(k))
    ensures SetMode(OnKnow(l, k), mode, evidence) == OnKnow(l, SetMode(k, mode, evidence))
  {
    hide T;
  }

  lemma RestedSeen(l: Lens, s: State, now: nat)
    requires Resting(s.active) && (l.wrap ==> s.clock.Linear?)
    ensures Rested(On(l, s), T(l, now)) == OnIo(l, Rested(s, now))
  {
    hide Rested;
    if EndsAfterWait(s.active.request.kind) { RestedEndSeen(l, s, now); } else { RestedOnSeen(l, s, now); }
  }

  lemma RestedOnSeen(l: Lens, s: State, now: nat)
    requires Resting(s.active) && !EndsAfterWait(s.active.request.kind)
    ensures Rested(On(l, s), T(l, now)) == OnIo(l, Rested(s, now))
  {
    hide T, C, N, Wakes, Resting, OnTiming, OnResult, OnLog, OnSample, Cleaned;
    PlaceSeen(l, s.active);
    RestKnowSeen(l, s.know, UnknownMode, NoEvidence);
  }

  lemma RestedEndSeen(l: Lens, s: State, now: nat)
    requires EndsAfterWait(s.active.request.kind) && (l.wrap ==> s.clock.Linear?)
    ensures Rested(On(l, s), T(l, now)) == OnIo(l, Rested(s, now))
  {
    hide T, C, N, Finish, OnTiming, OnResult, OnLog, OnSample, OnValue, Marked, Cleaned, SetMode, TargetMode;
    var a := s.active;
    RestKnowSeen(l, s.know, TargetMode(a.request.kind), ModeAcknowledged);
    if a.request.kind.PersistSettings? {
      var know := Marked(Cleaned(s.know), false);
      var s1 := s.(know := know, work := s.work.(configuration := know.configuration));
      PersistEndSeen(l, s, s1, know);
      FinishSeen(l, s1, Succeeded, Acknowledged, Ok, now);
    } else {
      FinishSeen(l, s.(know := SetMode(s.know, TargetMode(a.request.kind), ModeAcknowledged)), Succeeded, Acknowledged,
                 Ok, now);
    }
  }

  lemma PersistEndSeen(l: Lens, s: State, s1: State, know: Knowledge)
    requires s1 == s.(know := know, work := s.work.(configuration := know.configuration))
    ensures On(l, s1) ==
      On(l, s).(know := OnKnow(l, know), work := On(l, s).work.(configuration := OnKnow(l, know).configuration))
  {
    hide T, C, N, OnTiming, OnResult, OnLog;
  }

  /** The windows in which one step is seen alike. */
  predicate StepNear(l: Lens, s: State, now: nat, budget: nat, reply: Reply) {
    l.wrap ==>
      && s.clock.Linear?
      && now < s.active.deadlineMs && s.active.deadlineMs - now < HALF
      && -(HALF as int) <= now - s.active.nextDueMs < HALF
      && (s.time.gateValid ==> -(HALF as int) <= now - s.time.gateMs < HALF)
      && -(HALF as int) <= reply.completedMs - now < HALF
  }

  lemma StepClocks(l: Lens, s: State, now: nat, budget: nat, reply: Reply)
    requires StepNear(l, s, now, budget, reply)
    ensures Reached(On(l, s).clock, T(l, now), On(l, s).active.deadlineMs) == Reached(s.clock, now, s.active.deadlineMs)
    ensures Reached(On(l, s).clock, T(l, now), On(l, s).active.nextDueMs) == Reached(s.clock, now, s.active.nextDueMs)
    ensures GateClosed(On(l, s), T(l, now)) == GateClosed(s, now)
    ensures forall send :: NormOf(s, send, now, reply).doneMs >= now || !l.wrap
    ensures l.wrap ==> forall send :: Near(l, s.clock, NormOf(s, send, now, reply).doneMs, s.active.deadlineMs)
  {
    hide T, C, N;
    if l.wrap {
      WrapReached(now, s.active.deadlineMs);
      WrapReached(now, s.active.nextDueMs);
      if s.time.gateValid { WrapReached(now, s.time.gateMs); }
      LensOpen(l, now, s.active.deadlineMs);
      LensOpen(l, s.active.nextDueMs, s.time.gateMs);
      forall send ensures NormOf(s, send, now, reply).doneMs >= now &&
        Near(l, s.clock, NormOf(s, send, now, reply).doneMs, s.active.deadlineMs) {
        DoneNear(s, send, now, reply);
      }
    } else {
      LensClosed(l, s.clock);
    }
  }

  lemma LensOpen(l: Lens, t: nat, u: nat)
    requires l.wrap
    ensures T(l, t) == Wrap(t) && T(l, u) == Wrap(u) && C(l, Linear) == Wrapped
  {
  }

  lemma LensClosed(l: Lens, c: Clock)
    requires !l.wrap
    ensures forall t :: T(l, t) == t
    ensures C(l, c) == c
  {
  }

  lemma DoneNear(s: State, send: Send, now: nat, reply: Reply)
    requires s.clock.Linear? && reply.completedMs - now < HALF
    ensures now <= NormOf(s, send, now, reply).doneMs < now + HALF
  {
  }

  lemma SentSeen(l: Lens, s: State, send: Send, now: nat, budget: nat, reply: Reply)
    requires StepNear(l, s, now, budget, reply) && !Reached(s.clock, now, s.active.deadlineMs)
    requires SendFor(s.active) == Some(send) && !send.wire.Read?
    ensures Sent(On(l, s), send, T(l, now), budget, OnReply(l, reply)) == OnIo(l, Sent(s, send, now, budget, reply))
  {
    hide T, C, N, Attempt, AfterWrite, KnowAfterSettingWrite, Reached, SendFor, NormOf, OnKnow, OnValue, OnTiming,
      OnResult, OnLog;
    NearFacts(l, s, send, now, budget, reply);
    AttemptSeen(l, s, send, now, budget, reply);
    AttemptFrame(s, send, now, budget, reply);
    PlaceSeen(l, s.active);
    SendingMoves(s.active);
    var io := Attempt(s, send, now, budget, reply);
    if io.status != InProgress {
      if IsSettingWrite(s.active) {
        SettingWriteSeen(l, io.s.know, s.active, io.s.disposition);
        WriteSeen(l, io.s.(know := KnowAfterSettingWrite(io.s.know, s.active, io.s.disposition)), io.now);
      } else {
        WriteSeen(l, io.s, io.now);
      }
    }
  }

  lemma NearFacts(l: Lens, s: State, send: Send, now: nat, budget: nat, reply: Reply)
    requires StepNear(l, s, now, budget, reply)
    ensures ReplyNear(l, s.clock, now, reply) && LiveNear(l, s, now) && (l.wrap ==> s.clock.Linear?)
    ensures Near(l, s.clock, NormOf(s, send, now, reply).doneMs, s.active.deadlineMs)
  {
    if l.wrap { DoneNear(s, send, now, reply); }
  }

  lemma ReceivedSeen(l: Lens, s: State, count: nat, now: nat, budget: nat, reply: Reply)
    requires StepNear(l, s, now, budget, reply) && !Reached(s.clock, now, s.active.deadlineMs)
    requires Reachable(s.active) && SendFor(s.active) == Some(Send(Read(count), Normal, false))
    requires count == ResponseWords(s.active) && count > 0
    ensures ResponseWords(On(l, s).active) == count
    ensures Received(On(l, s), count, T(l, now), budget, OnReply(l, reply)) == OnIo(l,
      Received(s, count, now, budget, reply))
  {
    hide T, C, N, Attempt, AfterRead, Reached, SendFor, NormOf, OnKnow, OnTiming, OnResult, AllWordsOk, Words, Buffer,
      Reachable, ResponseWords, Finish, OnActive;
    var send := Send(Read(count), Normal, false);
    NearFacts(l, s, send, now, budget, reply);
    AttemptSeen(l, s, send, now, budget, reply);
    AttemptFrame(s, send, now, budget, reply);
    PlaceSeen(l, s.active);
    SendingMoves(s.active);
    var io0 := Attempt(s, send, now, budget, reply);
    SameStep(s.active, io0.s.active);
    PlaceSeen(l, io0.s.active);
    DecodedSeen(l, io0, count, reply);
    var io := Decoded(io0, count, reply);
    if io.status == Ok {
      ReadSeen(l, io.s, Words(Buffer(reply.data, 3 * count), count), io.now);
    } else if io.status != InProgress {
      MissSeen(l, io.s, io.status, io.now, io.budget);
    }
  }

  lemma DecodedSeen(l: Lens, io: Io, count: nat, reply: Reply)
    ensures Decoded(OnIo(l, io), count, OnReply(l, reply)) == OnIo(l, Decoded(io, count, reply))
  {
    hide T, C, N, AllWordsOk, Buffer, OnActive, OnKnow, OnValue, OnTiming, OnResult;
    LogSeen(l, io.s.log, ProtocolError(CrcMismatch, io.now));
  }

  lemma MissSeen(l: Lens, s: State, status: Err, now: nat, budget: nat)
    requires s.active.phase != WaitExecution && (l.wrap ==> s.clock.Linear?)
    ensures ReadFailed(On(l, s), status, T(l, now), budget) == OnIo(l, ReadFailed(s, status, now, budget))
  {
    hide T, C, N, Finish, OnTiming, OnResult, OnLog;
    if s.active.request.kind.ReadConfiguration? && s.active.completed != {} {
      FinishSeen(l, s.(work := s.work.(configuration := s.know.configuration)), Partial, NoEffectWrite, status, now);
    }
  }

  lemma ExchangeSeen(l: Lens, s: State, now: nat, budget: nat, reply: Reply)
    requires StepNear(l, s, now, budget, reply) && !Reached(s.clock, now, s.active.deadlineMs) && Reachable(s.active)
    ensures Exchange(On(l, s), T(l, now), budget, OnReply(l, reply)) == OnIo(l, Exchange(s, now, budget, reply))
  {
    hide T, C, N, Sent, Received, Reached, SendFor, On, Reachable, StepNear, ResponseWords;
    assert On(l, s).active == OnActive(l, s.active) by { ActiveSeen(l, s); }
    PlaceSeen(l, s.active);
    if SendFor(s.active).Some? {
      var send := SendFor(s.active).value;
      if send.wire.Read? {
        ReadsAreNormal(s.active);
        Fetches(s.active, send.wire.count);
        ReceivedSeen(l, s, send.wire.count, now, budget, reply);
      } else {
        SentSeen(l, s, send, now, budget, reply);
      }
    }
  }

  lemma ActiveSeen(l: Lens, s: State)
    ensures On(l, s).active == OnActive(l, s.active) && On(l, s).time == OnTiming(l, s.time) &&
      On(l, s).clock == C(l, s.clock) && On(l, s).activeValid == s.activeValid &&
        On(l, s).terminalValid == s.terminalValid &&
      On(l, s).calls == N(l, s.calls)
  {
  }

  lemma AnswerSeen(l: Lens, s: State, outcome: Outcome, effect: Effect, status: Err, now: nat, budget: nat)
    requires s.active.request.kind.PersistSettings? && (l.wrap ==> s.clock.Linear?)
    ensures PersistAnswer(On(l, s), outcome, effect, status, T(l, now), budget) ==
      OnIo(l, PersistAnswer(s, outcome, effect, status, now, budget))
  {
    hide T, C, N, Finish, OnTiming, OnResult, OnLog;
    FinishSeen(l, s.(work := s.work.(configuration := s.know.configuration)), outcome, effect, status, now);
  }

  lemma StepSeen(l: Lens, s: State, now: nat, budget: nat, reply: Reply)
    requires StepNear(l, s, now, budget, reply) && Reachable(s.active)
    ensures Step(On(l, s), T(l, now), budget, OnReply(l, reply)) == OnIo(l, Step(s, now, budget, reply))
  {
    hide T, C, N, Exchange, Rested, Reached, Reachable, PersistAnswer, Resting, Timed, GateClosed, OnKnow, OnValue,
      OnResult, OnLog;
    StepClocks(l, s, now, budget, reply);
    PlaceSeen(l, s.active);
    LinearNear(l, s, now, budget, reply);
    PersistSeen(l, s);
    if !Reached(s.clock, now, s.active.deadlineMs) {
      ExchangeSeen(l, s, now, budget, reply);
      if Resting(s.active) { RestedSeen(l, s, now); }
      if s.active.request.kind.PersistSettings? {
        AnswerSeen(l, s, OutcomeIndeterminate, UnknownEffect, Indeterminate, now, budget);
        AnswerSeen(l, s, Succeeded, NotAttempted, Ok, now, budget);
      }
    }
  }

  lemma LinearNear(l: Lens, s: State, now: nat, budget: nat, reply: Reply)
    requires StepNear(l, s, now, budget, reply)
    ensures l.wrap ==> s.clock.Linear?
  {
  }

  lemma PersistSeen(l: Lens, s: State)
    ensures PersistBlocked(On(l, s)) == PersistBlocked(s) && PersistNotNeeded(On(l, s)) == PersistNotNeeded(s)
  {
    hide T, C, N;
  }

  // ----- Iterations -----

  function OnTurn(l: Lens, t: Turn): Turn { Turn(On(l, t.s), T(l, t.now), t.budget, t.more) }

  /** A step fails only in a phase that transfers, once the deadline is ahead. */
  lemma FailingPhase(s: State, now: nat, budget: nat, reply: Reply)
    requires Live(s) && !Reached(s.clock, now, s.active.deadlineMs)
    ensures var io := Step(s, now, budget, reply);
      io.s.activeValid && io.status != Ok && io.status != InProgress ==> io.s.active.phase != WaitExecution
  {
    hide Exchange, Resting, Reachable, Reached, Finish;
    LiveSlot(s);
    if !Resting(s.active) { ExchangePhase(s, now, budget, reply); }
  }

  lemma ExchangePhase(s: State, now: nat, budget: nat, reply: Reply)
    requires Live(s) && !Resting(s.active)
    ensures var io := Exchange(s, now, budget, reply);
      io.s.activeValid && io.status != Ok && io.status != InProgress ==> io.s.active.phase != WaitExecution
  {
    hide Attempt, SendFor, Reachable, ResponseWords, Judge, Words, Buffer, AllWordsOk, Written, KnowAfterWrite,
      KnowAfterSettingWrite, Exchange, Finish, Live, Resting;
    LiveSlot(s);
    AlwaysSends(s.active);
    SendingMoves(s.active);
    var send := SendFor(s.active).value;
    AttemptFrame(s, send, now, budget, reply);
    if send.wire.Read? {
      ReceivingExchange(s, send.wire.count, now, budget, reply);
      var io := Decoded(Attempt(s, send, now, budget, reply), send.wire.count, reply);
      if io.status == Ok {
        JudgedResting(io.s, Words(Buffer(reply.data, 3 * send.wire.count), send.wire.count), io.now);
      }
    } else {
      SentPhase(s, send, now, budget, reply);
    }
  }

  lemma SentPhase(s: State, send: Send, now: nat, budget: nat, reply: Reply)
    requires SendFor(s.active) == Some(send) && !send.wire.Read? && s.active.phase != WaitExecution
    ensures var io := Exchange(s, now, budget, reply);
      io.s.activeValid && io.status != Ok && io.status != InProgress ==> io.s.active.phase != WaitExecution
  {
    hide Attempt, SendFor, Written, KnowAfterWrite, KnowAfterSettingWrite, Finish;
    AttemptFrame(s, send, now, budget, reply);
  }

  /** Two due times that agree modulo 2^32 and are close are the same. */
  lemma DueSeen(l: Lens, a: nat, b: nat)
    requires l.wrap ==> -(WRAP as int) < a - b < WRAP
    ensures T(l, a) == T(l, b) <==> a == b
  {
    if l.wrap { assert a == WRAP * (a / WRAP) + a % WRAP && b == WRAP * (b / WRAP) + b % WRAP; }
  }

  /** The windows after a step. */
  predicate StepDone(l: Lens, s: State, io: Io) {
    io.s.activeValid && (io.status == Ok || io.status == InProgress) ==>
      Near(l, io.s.clock, io.now, io.s.active.nextDueMs) &&
      (l.wrap ==> -(WRAP as int) < io.s.active.nextDueMs - s.active.nextDueMs < WRAP)
  }

  lemma IterateSeen(l: Lens, s: State, now: nat, budget: nat, reply: Reply)
    requires Live(s) && StepNear(l, s, now, budget, reply) && StepDone(l, s, Step(s, now, budget, reply))
    requires l.wrap ==> !Reached(s.clock, now, s.active.deadlineMs)
    requires !l.wrap || Step(s, now, budget, reply).s.clock.Linear?
    ensures Iterate(On(l, s), T(l, now), budget, OnReply(l, reply)) == OnTurn(l, Iterate(s, now, budget, reply))
  {
    hide T, C, N, Step, FinishFailure, Reached, StepNear, OnKnow, OnValue, OnTiming, OnResult, OnLog, Reachable;
    LiveSlot(s);
    StepSeen(l, s, now, budget, reply);
    var io := Step(s, now, budget, reply);
    if io.s.activeValid && !io.s.terminalValid {
      if io.status != Ok && io.status != InProgress {
        if l.wrap { FailingPhase(s, now, budget, reply); } else { LensClosed(l, io.s.clock); }
        FailureSeen(l, io.s, io.status, io.now);
      } else {
        ReachedSeen(l, io.s.clock, io.now, io.s.active.nextDueMs);
        DueSeen(l, io.s.active.nextDueMs, s.active.nextDueMs);
      }
    }
  }
}
