/**
  The control skeleton: which phases an operation moves through. Every lemma here
  is about the operation's own progress record, whatever the transport answers.
 */
module Control {
  import opened Clocks
  import opened Types
  import opened Commands
  import opened Codec
  import opened Engine
  import opened Exchanges

  // ----- Frames -----

  /** Binding, generation and the owner's clock are the caller's. */
  predicate SameOwner(s: State, t: State) {
    t.clock == s.clock && t.settings == s.settings && t.bound == s.bound && t.generation == s.generation &&
    t.time.ownerMs == s.time.ownerMs && t.time.ownerValid == s.time.ownerValid
  }

  /**
    A callback changes the operation's charge and evidence, the gate and the record of the transfer, and nothing
    else.
   */
  lemma TransferredFrame(s: State, send: Send, now: nat, reply: Reply)
    ensures var x, n := Transferred(s, send, now, reply), NormOf(s, send, now, reply);
      && x.activeValid == s.activeValid && x.terminalValid == s.terminalValid && x.know == s.know && x.work == s.work
      && x.active == s.active.(callbacks := x.active.callbacks, wrote := x.active.wrote, effect := x.active.effect)
      && x.disposition == n.disposition && x.effectful == send.effectful
      && x.calls == s.calls + 1 && x.log == s.log + [Called(CallOf(s, send, now, reply))]
      && SameOwner(s, x) && ResponseWords(x.active) == ResponseWords(s.active)
  {
    hide NormOf, CallOf, Settle;
    var x := Transferred(s, send, now, reply);
    SameStep(s.active, x.active);
  }

  /** An operation that goes on keeps the times of its last callback. */
  predicate SameTimes(x: State, t: State) { t.time == x.time && t.clock == x.clock && t.calls == x.calls }

  lemma FinishTimes(x: State, outcome: Outcome, effect: Effect, status: Err, at: nat)
    requires x.activeValid && !x.terminalValid
    ensures var t := Finish(x, outcome, effect, status, at); SameTimes(x, t) && !t.activeValid && t.terminalValid
  {
    hide Discarded, Published, ResultOf;
  }

  lemma FailureTimes(x: State, status: Err, at: nat)
    requires x.activeValid && !x.terminalValid
    ensures SameTimes(x, FinishFailure(x, status, at)) && !FinishFailure(x, status, at).activeValid
  {
    hide Finish, Classify, ForgetIf, BlockedIf, EepromUncertain, PartialWork, PartialOutcome;
    var f := Classify(x, status);
    FinishTimes(Failing(x, status, f), PartialOutcome(x.active, f.outcome), f.effect, status, at);
  }

  /** What is left once the other handlers have taken their kinds. */
  lemma OnlyReads(a: Active)
    requires Reachable(a)
    ensures var k := a.request.kind;
      k.Attach? || IsMeasurement(k) || IsMaintenance(k) || IsDiagnostic(k) || k.WriteSetting? || IsModeCommand(k) ||
      IsReadLike(k)
  {
  }

  /** A finished wait leads to a phase of the same operation. */
  lemma WakesReachable(a: Active)
    requires Reachable(a) && Resting(a) && !EndsAfterWait(a.request.kind)
    ensures Reachable(a.(phase := Wakes(a)))
  {
  }

  /** So does a completed write. */
  lemma WrittenReachable(a: Active, d: Disposition, c: Clock, now: nat)
    requires Reachable(a) && SendFor(a).Some? && !SendFor(a).value.wire.Read?
    ensures Reachable(Written(a, d, c, now))
  {
    hide EffectAfterWrite, WaitAfter, After;
  }

  /** And so does a judged response, unless it ends the operation. */
  lemma JudgedReachable(s: State, words: seq<u16>, now: nat)
    requires Reachable(s.active) && SendFor(s.active) == Some(Send(Read(|words|), Normal, false))
    requires |words| == ResponseWords(s.active) && |words| >= 1
    ensures !Judge(s, words, now).verdict.Done? ==> Reachable(Judge(s, words, now).active)
  {
    hide CacheField, CacheResult, Unverify, FieldWordValid, Disowned, Identified, Attached, VariantOf, SameSensor,
      OtherSensor, Rebased, ResetKnowledge, DisownedVariant, NextEpoch, StrictlyUnsupported, WithIdentity, WithSerial,
      StoreSample, DataReady;
  }

  lemma ExchangeReachable(s: State, now: nat, budget: nat, reply: Reply)
    requires s.activeValid && !s.terminalValid && Reachable(s.active)
    ensures var io := Exchange(s, now, budget, reply);
      io.s.activeValid ==> Reachable(io.s.active) && !io.s.terminalValid
  {
    hide Attempt, SendFor, Reachable, ResponseWords, Judge, Words, Buffer, AllWordsOk, Written, KnowAfterWrite,
      KnowAfterSettingWrite;
    if SendFor(s.active).Some? {
      var send := SendFor(s.active).value;
      AttemptFrame(s, send, now, budget, reply);
      var io := Attempt(s, send, now, budget, reply);
      SameStep(s.active, io.s.active);
      if send.wire.Read? {
        if 1 <= send.wire.count <= 3 {
          ReceivingReachable(s, send.wire.count, now, budget, reply);
        }
      } else {
        WrittenReachable(io.s.active, io.s.disposition, io.s.clock, io.now);
      }
    }
  }

  lemma ReceivingReachable(s: State, count: nat, now: nat, budget: nat, reply: Reply)
    requires s.activeValid && !s.terminalValid && Reachable(s.active)
    requires SendFor(s.active).Some? && SendFor(s.active).value.wire == Read(count) && 1 <= count <= 3
    ensures var io := Exchange(s, now, budget, reply);
      io.s.activeValid ==> Reachable(io.s.active) && !io.s.terminalValid
  {
    hide Attempt, SendFor, Reachable, ResponseWords, Judge, Words, Buffer, AllWordsOk, Exchange;
    ReadsAreNormal(s.active);
    ReceivingExchange(s, count, now, budget, reply);
    AttemptFrame(s, Send(Read(count), Normal, false), now, budget, reply);
    var io := Decoded(Attempt(s, Send(Read(count), Normal, false), now, budget, reply), count, reply);
    if io.status == Ok {
      JudgedReachable(io.s, Words(Buffer(reply.data, 3 * count), count), io.now);
    }
  }

  lemma ReadsAreNormal(a: Active)
    requires SendFor(a).Some? && SendFor(a).value.wire.Read?
    ensures SendFor(a) == Some(Send(Read(SendFor(a).value.wire.count), Normal, false))
  {
  }

  /** A step keeps the operation in its own phases, or ends it: every other phase is dead. */
  lemma StepReachable(s: State, now: nat, budget: nat, reply: Reply)
    requires s.activeValid && !s.terminalValid && Reachable(s.active)
    ensures var io := Step(s, now, budget, reply);
      io.s.activeValid ==> Reachable(io.s.active) && !io.s.terminalValid
  {
    hide Exchange, Reachable, Resting, Wakes;
    ExchangeReachable(s, now, budget, reply);
    SameStep(s.active, s.active.(nextDueMs := s.time.gateMs));
    if Resting(s.active) && !EndsAfterWait(s.active.request.kind) {
      WakesReachable(s.active);
    }
  }

  /** So does an iteration of the poll loop. */
  lemma IterateReachable(s: State, now: nat, budget: nat, reply: Reply)
    requires s.activeValid && !s.terminalValid && Reachable(s.active)
    ensures var t := Iterate(s, now, budget, reply);
      t.s.activeValid ==> Reachable(t.s.active) && !t.s.terminalValid
  {
    hide Step, Reachable, Classify, ForgetIf, BlockedIf, EepromUncertain, PartialWork;
    StepReachable(s, now, budget, reply);
  }

  /** A started operation is in its first phase. */
  lemma StartReachable(s: State, r: Request, o: Options)
    requires s.activeValid ==> Reachable(s.active) && !s.terminalValid
    ensures Start(s, r, o).0.activeValid ==> Reachable(Start(s, r, o).0.active) && !Start(s, r, o).0.terminalValid
  {
    hide Admission;
  }

  // ----- What one iteration can be -----

  /** The ways an iteration ends, with what it learned. */
  datatype Case =
    | Held(due: nat)                                     // nothing moves; only the due time may
    | Roused(k: Knowledge)                               // a wait has passed
    | Quiet(k: Knowledge, w: Value, outcome: Outcome, effect: Effect, status: Err)  // an end without a callback
    | Expired                                            // the deadline
    | Wrote(send: Send, k: Knowledge)                    // a callback that wrote
    | Fetched(send: Send, words: seq<u16>)               // a callback that read words
    | Missed(send: Send, status: Err, p: seq<Event>)     // a callback that read none

  /** Progress after a completed write. */
  function WriteEnd(x: State, k: Knowledge, status: Err, at: nat): State {
    if status != Ok then FinishFailure(x.(know := k), status, at)
    else
      var y := x.(know := k, active := Written(x.active, x.disposition, x.clock, at));
      if EndsAfterWrite(x.active.request.kind) then Finish(y, Succeeded, Acknowledged, Ok, at) else y
  }

  /** Progress after a judged response. */
  function ReadEnd(x: State, j: Judged, at: nat): State {
    var y := x.(active := j.active, know := j.know, work := j.work,
                log := if j.protocol.Some? then x.log + [ProtocolError(j.protocol.value, at)] else x.log);
    match j.verdict
    case Continue => y
    case Done(outcome, effect, status) => Finish(y, outcome, effect, status, at)
    case Reject(status) => FinishFailure(y, status, at)
  }

  function MissEnd(x: State, status: Err, p: seq<Event>, at: nat): State {
    var y := x.(log := x.log + p);
    if IsPartial(x.active)
    then Finish(y.(work := y.work.(configuration := y.know.configuration)), Partial, NoEffectWrite, status, at)
    else FinishFailure(y, status, at)
  }

  /** The state an iteration leads to, case by case. */
  function Leads(s: State, now: nat, reply: Reply, c: Case): State {
    match c
    case Held(due) => s.(active := s.active.(nextDueMs := due))
    case Roused(k) => s.(active := s.active.(phase := Wakes(s.active)), know := k)
    case Quiet(k, w, outcome, effect, status) => Finish(s.(know := k, work := w), outcome, effect, status, now)
    case Expired => FinishFailure(s, Timeout, now)
    case Wrote(send, k) =>
      var x, n := Transferred(s, send, now, reply), NormOf(s, send, now, reply);
      WriteEnd(x, k, TransferStatus(s.clock, s.active.deadlineMs, send.intent, n), n.doneMs)
    case Fetched(send, words) =>
      var x, n := Transferred(s, send, now, reply), NormOf(s, send, now, reply);
      if |words| == ResponseWords(s.active) && |words| >= 1 then ReadEnd(x, Judge(x, words, n.doneMs), n.doneMs) else x
    case Missed(send, status, p) =>
      MissEnd(Transferred(s, send, now, reply), status, p, NormOf(s, send, now, reply).doneMs)
  }

  /** A callback may begin: before the deadline, with the gate open, the phase due, and budget left. */
  predicate MayTransfer(s: State, now: nat, budget: nat, send: Send) {
    SendFor(s.active) == Some(send) && budget > 0 &&
    !Reached(s.clock, now, s.active.deadlineMs) && !GateClosed(s, now) &&
    (Timed(s.active) ==> Reached(s.clock, now, s.active.nextDueMs)) &&
    !PersistBlocked(s) && !PersistNotNeeded(s)
  }

  predicate CanTransfer(s: State, now: nat, budget: nat) {
    SendFor(s.active).Some? && MayTransfer(s, now, budget, SendFor(s.active).value)
  }

  /** What the driver knows after a write, by its final disposition and status. */
  function KnowAfterSend(s: State, d: Disposition, status: Err): Knowledge {
    var k := if IsSettingWrite(s.active) then KnowAfterSettingWrite(s.know, s.active, d) else s.know;
    if status == Ok then KnowAfterWrite(k, s.active) else k
  }

  predicate RestDone(s: State, now: nat) {
    !Reached(s.clock, now, s.active.deadlineMs) && !GateClosed(s, now) &&
    Resting(s.active) && Reached(s.clock, now, s.active.nextDueMs)
  }

  /** When each case applies. */
  predicate Fits(s: State, now: nat, budget: nat, reply: Reply, c: Case) {
    match c
    case Held(due) =>
      !Reached(s.clock, now, s.active.deadlineMs) && !RestDone(s, now) && !CanTransfer(s, now, budget) &&
      (if GateClosed(s, now) then due == s.time.gateMs
       else due == s.active.nextDueMs && !PersistBlocked(s) && !PersistNotNeeded(s))
    case Roused(k) =>
      RestDone(s, now) && !EndsAfterWait(s.active.request.kind) &&
      k == (if IsReset(s.active.request.kind) then Cleaned(s.know) else s.know)
    case Quiet(k, w, outcome, effect, status) =>
      !Reached(s.clock, now, s.active.deadlineMs) && !GateClosed(s, now) &&
      if EndsAfterWait(s.active.request.kind) && Resting(s.active) then
        RestDone(s, now) && outcome == Succeeded && effect == Acknowledged && status == Ok &&
        (if s.active.request.kind.PersistSettings?
         then k == Marked(Cleaned(s.know), false) && w == s.work.(configuration := k.configuration)
         else k == SetMode(s.know, TargetMode(s.active.request.kind), ModeAcknowledged) && w == s.work)
      else
        k == s.know && w == s.work.(configuration := s.know.configuration) &&
        if PersistBlocked(s) then outcome == OutcomeIndeterminate && effect == UnknownEffect && status == Indeterminate
        else PersistNotNeeded(s) && outcome == Succeeded && effect == NotAttempted && status == Ok
    case Expired => Reached(s.clock, now, s.active.deadlineMs)
    case Wrote(send, k) =>
      var n := NormOf(s, send, now, reply);
      MayTransfer(s, now, budget, send) && !send.wire.Read? &&
      k == KnowAfterSend(s, n.disposition, TransferStatus(s.clock, s.active.deadlineMs, send.intent, n))
    case Fetched(send, words) =>
      var n := NormOf(s, send, now, reply);
      MayTransfer(s, now, budget, send) && send.wire.Read? && send.wire.count == ResponseWords(s.active) &&
      1 <= send.wire.count <= 3 &&
      TransferStatus(s.clock, s.active.deadlineMs, send.intent, n) == Ok &&
      AllWordsOk(Buffer(reply.data, 3 * send.wire.count), send.wire.count) &&
      words == Words(Buffer(reply.data, 3 * send.wire.count), send.wire.count)
    case Missed(send, status, p) =>
      var n := NormOf(s, send, now, reply);
      MayTransfer(s, now, budget, send) && send.wire.Read? && status != Ok && status != InProgress &&
      (if p == [] then status == TransferStatus(s.clock, s.active.deadlineMs, send.intent, n)
       else TransferStatus(s.clock, s.active.deadlineMs, send.intent, n) == Ok && status == CrcMismatch &&
            p == [ProtocolError(CrcMismatch, n.doneMs)])
  }

  predicate Transfers(c: Case) { c.Wrote? || c.Fetched? || c.Missed? }

  /** The clock advances to the callback's completion, and the budget pays for it. */
  function TimeAfter(s: State, now: nat, reply: Reply, c: Case): nat {
    if Transfers(c) then NormOf(s, c.send, now, reply).doneMs else now
  }

  predicate Live(s: State) {
    s.activeValid && !s.terminalValid && Reachable(s.active) && s.settings.timeoutMs > 0
  }

  lemma LiveSlot(s: State)
    requires Live(s)
    ensures s.activeValid && !s.terminalValid && Reachable(s.active)
  {
  }

  /** A live deadline leaves some time. */
  lemma TimeRemains(s: State, now: nat)
    requires s.settings.timeoutMs > 0 && !Reached(s.clock, now, s.active.deadlineMs)
    ensures 0 < TransferTimeout(s, now) <= s.settings.timeoutMs && TransferTimeout(s, now) <= TimeLeft(s, now)
  {
    if s.clock.Wrapped? { SpanPositive(now, s.active.deadlineMs); }
  }

  lemma RestCases(s: State, now: nat, budget: nat, reply: Reply) returns (c: Case)
    requires Live(s) && RestDone(s, now)
    ensures Fits(s, now, budget, reply, c) && !Transfers(c)
    ensures var io := Step(s, now, budget, reply);
      io.s == Leads(s, now, reply, c) && (io.status == Ok || io.status == InProgress) && io.now == now &&
      io.budget == budget
  {
    hide Exchange, Resting, Reachable, Finish, Wakes, Reached;
    var k := s.active.request.kind;
    if k.PersistSettings? {
      var know := Marked(Cleaned(s.know), false);
      c := Quiet(know, s.work.(configuration := know.configuration), Succeeded, Acknowledged, Ok);
    } else if EndsAfterWait(k) {
      c := Quiet(SetMode(s.know, TargetMode(k), ModeAcknowledged), s.work, Succeeded, Acknowledged, Ok);
    } else {
      c := Roused(if IsReset(k) then Cleaned(s.know) else s.know);
    }
  }

  /** A step's outcome once failure handling is done, as the loop does it. */
  function Concluded(io: Io): State {
    if io.s.activeValid && !io.s.terminalValid && io.status != Ok && io.status != InProgress
    then FinishFailure(io.s, io.status, io.now) else io.s
  }

  lemma TransferStatusEnds(c: Clock, deadlineMs: nat, intent: Intent, n: Norm)
    ensures TransferStatus(c, deadlineMs, intent, n) != InProgress
  {
  }

  lemma AttemptStarts(s: State, send: Send, now: nat, budget: nat, reply: Reply)
    requires s.settings.timeoutMs > 0 && MayTransfer(s, now, budget, send)
    ensures var n := NormOf(s, send, now, reply);
      Attempt(s, send, now, budget, reply) ==
      Io(TransferStatus(s.clock, s.active.deadlineMs, send.intent, n), Transferred(s, send, now, reply), n.doneMs,
         budget - 1)
  {
    hide NormOf, TransferStatus, Transferred, SendFor, Timed, Reached;
    TimeRemains(s, now);
  }

  lemma WriteCases(s: State, send: Send, now: nat, budget: nat, reply: Reply) returns (c: Case)
    requires Live(s) && MayTransfer(s, now, budget, send) && !send.wire.Read?
    ensures c.Wrote? && Fits(s, now, budget, reply, c)
    ensures var io := Exchange(s, now, budget, reply);
      Concluded(io) == Leads(s, now, reply, c) && io.now == TimeAfter(s, now, reply, c) && io.budget == budget - 1
  {
    hide Attempt, NormOf, TransferStatus, SendFor, Timed, Reached, KnowAfterWrite, KnowAfterSettingWrite, Written,
      Reachable, FinishFailure, PersistBlocked, PersistNotNeeded, Transferred;
    AttemptStarts(s, send, now, budget, reply);
    AttemptFrame(s, send, now, budget, reply);
    var n := NormOf(s, send, now, reply);
    var st := TransferStatus(s.clock, s.active.deadlineMs, send.intent, n);
    var x := Transferred(s, send, now, reply);
    TransferStatusEnds(s.clock, s.active.deadlineMs, send.intent, n);
    c := Wrote(send, KnowAfterSend(s, n.disposition, st));
    assert x.disposition == n.disposition by { TransferredFrame(s, send, now, reply); }
    var k := if IsSettingWrite(s.active) then KnowAfterSettingWrite(s.know, s.active, n.disposition) else s.know;
    SamePlace(s.active, x.active, k);
    assert x.know == s.know;
    var io := Exchange(s, now, budget, reply);
    if st == Ok {
      assert io == AfterWrite(x.(know := k), n.doneMs).(budget := budget - 1);
    } else {
      assert io == Io(st, x.(know := k), n.doneMs, budget - 1);
    }
  }

  lemma SamePlace(a: Active, b: Active, k: Knowledge)
    requires b == a.(callbacks := b.callbacks, wrote := b.wrote, effect := b.effect)
    ensures IsSettingWrite(a) == IsSettingWrite(b) && KnowAfterWrite(k, a) == KnowAfterWrite(k, b)
  {
  }

  lemma ReadCases(s: State, send: Send, now: nat, budget: nat, reply: Reply) returns (c: Case)
    requires Live(s) && MayTransfer(s, now, budget, send) && send.wire.Read?
    ensures (c.Fetched? || c.Missed?) && Fits(s, now, budget, reply, c)
    ensures var io := Exchange(s, now, budget, reply);
      Concluded(io) == Leads(s, now, reply, c) && io.now == TimeAfter(s, now, reply, c) && io.budget == budget - 1
  {
    hide Attempt, NormOf, TransferStatus, SendFor, Timed, Reached, Reachable, FinishFailure, PersistBlocked,
      PersistNotNeeded, Transferred, Exchange, ResponseWords, Words, AllWordsOk, Buffer, Judge;
    var count := send.wire.count;
    ReadsAreNormal(s.active);
    ReceivingExchange(s, count, now, budget, reply);
    AttemptStarts(s, send, now, budget, reply);
    AttemptFrame(s, send, now, budget, reply);
    var n := NormOf(s, send, now, reply);
    var st := TransferStatus(s.clock, s.active.deadlineMs, send.intent, n);
    var x := Transferred(s, send, now, reply);
    TransferStatusEnds(s.clock, s.active.deadlineMs, send.intent, n);
    SameStep(s.active, x.active);
    var io := Exchange(s, now, budget, reply);
    if st != Ok {
      c := Missed(send, st, []);
      assert x.(log := x.log + []) == x;
    } else if !AllWordsOk(Buffer(reply.data, 3 * count), count) {
      c := Missed(send, CrcMismatch, [ProtocolError(CrcMismatch, n.doneMs)]);
    } else {
      var words := Words(Buffer(reply.data, 3 * count), count);
      c := Fetched(send, words);
      assert io == AfterRead(x, words, n.doneMs).(budget := budget - 1);
      ReadEnds(x, words, n.doneMs);
    }
  }

  lemma ReadEnds(x: State, words: seq<u16>, at: nat)
    requires |words| == ResponseWords(x.active) && |words| >= 1
    requires x.activeValid && !x.terminalValid
    ensures forall b :: Concluded(AfterRead(x, words, at).(budget := b)) == ReadEnd(x, Judge(x, words, at), at)
  {
    hide Judge, ResponseWords;
    JudgeFails(x, words, at);
  }

  /** A refused response has a failing status. */
  lemma JudgeFails(x: State, words: seq<u16>, at: nat)
    requires |words| == ResponseWords(x.active) && |words| >= 1
    ensures var v := Judge(x, words, at).verdict; v.Reject? ==> v.status == CommandFailed
  {
  }

  /** A phase that does not rest has something to put on the wire. */
  lemma AlwaysSends(a: Active)
    requires Reachable(a) && !Resting(a)
    ensures SendFor(a).Some?
    ensures SendFor(a).value.wire.Read? ==>
      SendFor(a) == Some(Send(Read(ResponseWords(a)), Normal, false)) && 1 <= ResponseWords(a) <= 3
  {
  }

  /** Without budget an exchange does nothing. */
  lemma BrokeExchange(s: State, now: nat, reply: Reply)
    requires Reachable(s.active) && !Resting(s.active)
    ensures Exchange(s, now, 0, reply) == Io(InProgress, s, now, 0)
  {
    hide Reachable, SendFor, Resting, AfterWrite, AfterRead, KnowAfterSettingWrite, ResponseWords;
    AlwaysSends(s.active);
  }

  lemma PhaseCases(s: State, now: nat, budget: nat, reply: Reply) returns (c: Case)
    requires Live(s) && !Reached(s.clock, now, s.active.deadlineMs) && !GateClosed(s, now)
    ensures Fits(s, now, budget, reply, c)
    ensures var io := PhaseStep(s, now, budget, reply);
      Concluded(io) == Leads(s, now, reply, c) && io.now == TimeAfter(s, now, reply, c) &&
      io.budget == if Transfers(c) then budget - 1 else budget
  {
    hide Exchange, Resting, Timed, Reachable, FinishFailure, Reached, Rested, SendFor, Judge, Transferred, NormOf,
      WriteEnd, ReadEnd, Finish, MissEnd, Words, AllWordsOk, Buffer, GateClosed, TransferStatus, KnowAfterSend,
      ResponseWords;
    if s.activeValid && !s.terminalValid {
      var y := s.(work := s.work.(configuration := s.know.configuration));
      FinishTimes(y, OutcomeIndeterminate, UnknownEffect, Indeterminate, now);
      FinishTimes(y, Succeeded, NotAttempted, Ok, now);
    }
    if Timed(s.active) && !Reached(s.clock, now, s.active.nextDueMs) {
      TimedSettled(s);
      c := Held(s.active.nextDueMs);
    } else if Resting(s.active) {
      assert Timed(s.active) by { RestingIsTimed(s.active); }
      c := RestCases(s, now, budget, reply);
    } else if PersistBlocked(s) {
      c := Quiet(s.know, s.work.(configuration := s.know.configuration), OutcomeIndeterminate, UnknownEffect,
                 Indeterminate);
    } else if PersistNotNeeded(s) {
      c := Quiet(s.know, s.work.(configuration := s.know.configuration), Succeeded, NotAttempted, Ok);
    } else if budget == 0 {
      c := Held(s.active.nextDueMs);
      BrokeExchange(s, now, reply);
    } else {
      AlwaysSends(s.active);
      if SendFor(s.active).value.wire.Read? {
        c := ReadCases(s, SendFor(s.active).value, now, budget, reply);
      } else {
        c := WriteCases(s, SendFor(s.active).value, now, budget, reply);
      }
    }
  }

  lemma TimedSettled(s: State)
    requires Timed(s.active)
    ensures !PersistBlocked(s) && !PersistNotNeeded(s)
  {
  }

  lemma RestingIsTimed(a: Active)
    requires Resting(a)
    ensures Timed(a)
  {
  }

  /** Every iteration of the poll loop is one of the cases. */
  lemma Shape(s: State, now: nat, budget: nat, reply: Reply) returns (c: Case)
    requires Live(s)
    ensures Fits(s, now, budget, reply, c)
    ensures var t := Iterate(s, now, budget, reply);
      t.s == Leads(s, now, reply, c) && t.now == TimeAfter(s, now, reply, c) &&
      t.budget == if Transfers(c) then budget - 1 else budget
  {
    hide Exchange, Resting, Timed, Reachable, Finish, FinishFailure, Reached, Rested, PersistBlocked, PersistNotNeeded;
    if Reached(s.clock, now, s.active.deadlineMs) {
      c := Expired;
    } else if GateClosed(s, now) {
      c := Held(s.time.gateMs);
    } else {
      c := PhaseCases(s, now, budget, reply);
    }
  }

  // ----- What no step of an operation touches -----

  /** The log only grows, here by protocol errors and results alone. */
  predicate Adds(s: State, t: State) {
    s.log <= t.log && forall i | |s.log| <= i < |t.log| :: t.log[i].ProtocolError? || t.log[i].Finished?
  }

  lemma FinishOwner(s: State, outcome: Outcome, effect: Effect, status: Err, at: nat)
    ensures SameOwner(s, Finish(s, outcome, effect, status, at)) && Adds(s, Finish(s, outcome, effect, status, at))
  {
  }

  lemma FailureOwner(s: State, status: Err, at: nat)
    ensures SameOwner(s, FinishFailure(s, status, at)) && Adds(s, FinishFailure(s, status, at))
  {
    hide Finish, Classify, ForgetIf, BlockedIf, EepromUncertain, PartialWork, PartialOutcome;
    var f := Classify(s, status);
    FinishOwner(Failing(s, status, f), PartialOutcome(s.active, f.outcome), f.effect, status, at);
  }

  lemma ReadEndOwner(x: State, j: Judged, at: nat)
    ensures SameOwner(x, ReadEnd(x, j, at)) && Adds(x, ReadEnd(x, j, at))
  {
    hide Finish, FinishFailure;
    var y := x.(active := j.active, know := j.know, work := j.work,
                log := if j.protocol.Some? then x.log + [ProtocolError(j.protocol.value, at)] else x.log);
    match j.verdict
    case Continue =>
    case Done(outcome, effect, status) => FinishOwner(y, outcome, effect, status, at);
    case Reject(status) => FailureOwner(y, status, at);
  }

  lemma WriteEndOwner(x: State, k: Knowledge, status: Err, at: nat)
    ensures SameOwner(x, WriteEnd(x, k, status, at)) && Adds(x, WriteEnd(x, k, status, at))
  {
    hide Finish, FinishFailure, Written;
    FailureOwner(x.(know := k), status, at);
    FinishOwner(x.(know := k, active := Written(x.active, x.disposition, x.clock, at)), Succeeded, Acknowledged, Ok,
                at);
  }

  lemma MissEndOwner(x: State, status: Err, p: seq<Event>, at: nat)
    requires forall i | 0 <= i < |p| :: p[i].ProtocolError?
    ensures SameOwner(x, MissEnd(x, status, p, at)) && Adds(x, MissEnd(x, status, p, at))
  {
    hide Finish, FinishFailure, IsPartial;
    var y := x.(log := x.log + p);
    FailureOwner(y, status, at);
    FinishOwner(y.(work := y.work.(configuration := y.know.configuration)), Partial, NoEffectWrite, status, at);
  }

  /** What an iteration adds to the log: at most one callback, first, and then only errors and a result. */
  predicate Grows(s: State, now: nat, budget: nat, reply: Reply, t: State) {
    s.log <= t.log &&
    (forall i | |s.log| < i < |t.log| :: t.log[i].ProtocolError? || t.log[i].Finished?) &&
    (|t.log| > |s.log| && !t.log[|s.log|].ProtocolError? && !t.log[|s.log|].Finished? ==>
      SendFor(s.active).Some? && MayTransfer(s, now, budget, SendFor(s.active).value) &&
      t.log[|s.log|] == Called(CallOf(s, SendFor(s.active).value, now, reply)))
  }

  lemma IterateOwner(s: State, now: nat, budget: nat, reply: Reply)
    requires Live(s)
    ensures SameOwner(s, Iterate(s, now, budget, reply).s) &&
      Grows(s, now, budget, reply, Iterate(s, now, budget, reply).s)
  {
    hide Iterate, Live, Finish, FinishFailure, Transferred, NormOf, Judge, TransferStatus, ReadEnd, WriteEnd, MissEnd,
      Wakes, ResponseWords, KnowAfterSend, Reached, SetMode, AllWordsOk, Words, Buffer, GateClosed, PersistBlocked,
      PersistNotNeeded, Timed, SendFor, CallOf;
    var c := Shape(s, now, budget, reply);
    match c
    case Held(_) =>
    case Roused(_) =>
    case Quiet(k, w, outcome, effect, status) => FinishOwner(s.(know := k, work := w), outcome, effect, status, now);
    case Expired => FailureOwner(s, Timeout, now);
    case Wrote(send, k) =>
      var n := NormOf(s, send, now, reply);
      TransferredFrame(s, send, now, reply);
      WriteEndOwner(Transferred(s, send, now, reply), k, TransferStatus(s.clock, s.active.deadlineMs, send.intent, n),
                    n.doneMs);
    case Fetched(send, words) =>
      var n := NormOf(s, send, now, reply);
      var x := Transferred(s, send, now, reply);
      TransferredFrame(s, send, now, reply);
      if |words| == ResponseWords(s.active) && |words| >= 1 {
        assert ResponseWords(x.active) == ResponseWords(s.active) by { TransferredFrame(s, send, now, reply); }
        ReadEndOwner(x, Judge(x, words, n.doneMs), n.doneMs);
      }
    case Missed(send, status, p) =>
      TransferredFrame(s, send, now, reply);
      MissEndOwner(Transferred(s, send, now, reply), status, p, NormOf(s, send, now, reply).doneMs);
  }

  // ----- The gate -----

  lemma SettlePositive(a: Active, send: Send, n: Norm)
    ensures 1 <= Settle(a, send, n) <= SELF_TEST_MS
  {
  }

  /** A gate armed a settle ahead of `at` is closed at `at`, on either clock. */
  lemma ArmedAhead(c: Clock, at: nat, settleMs: nat)
    requires 1 <= settleMs <= SELF_TEST_MS
    ensures !Reached(c, at, After(c, at, settleMs))
  {
    if c.Wrapped? {
      var target := (at + settleMs) % WRAP;
      var q := (at + settleMs) / WRAP;
      assert target == at + settleMs - WRAP * q;
      assert (at - target) % WRAP == WRAP - settleMs by {
        assert at - target == WRAP * (q - 1) + (WRAP - settleMs);
        ModUnique(q - 1, WRAP - settleMs);
      }
    }
  }

  lemma ModUnique(q: int, r: nat)
    requires r < WRAP
    ensures (WRAP * q + r) % WRAP == r
  {
  }

  lemma DoneAfterStart(c: Clock, start: nat, expected: nat, effectful: bool, r: Reply)
    ensures c.Linear? ==> Normalize(c, start, expected, effectful, r).doneMs >= start
  {
  }

  lemma SuccessStarted(s: State, send: Send, now: nat, reply: Reply)
    requires TransferStatus(s.clock, s.active.deadlineMs, send.intent, NormOf(s, send, now, reply)) == Ok
    ensures NormOf(s, send, now, reply).disposition != NotStarted
  {
  }

  lemma SuccessNorm(s: State, send: Send, now: nat, reply: Reply)
    requires TransferStatus(s.clock, s.active.deadlineMs, send.intent, NormOf(s, send, now, reply)) == Ok
    ensures var n := NormOf(s, send, now, reply);
      n.disposition == Complete || n.disposition == Unproven || ExpectedNack(send.intent, n)
  {
  }

  /** A callback that succeeds arms the gate ahead of its completion. */
  lemma TransferredGate(s: State, send: Send, now: nat, reply: Reply)
    requires TransferStatus(s.clock, s.active.deadlineMs, send.intent, NormOf(s, send, now, reply)) == Ok
    ensures var x := Transferred(s, send, now, reply); var n := NormOf(s, send, now, reply);
      GateClosed(x, n.doneMs) && x.time.gateMs == After(s.clock, n.doneMs, Settle(s.active, send, n)) &&
      x.time.gateValid && x.calls == s.calls + 1
  {
    hide NormOf, TransferStatus, Settle, Reached, After;
    var n := NormOf(s, send, now, reply);
    SuccessStarted(s, send, now, reply);
    SettlePositive(s.active, send, n);
    ArmedAhead(s.clock, n.doneMs, Settle(s.active, send, n));
  }

  lemma WriteEndTimes(x: State, k: Knowledge, status: Err, at: nat)
    requires x.activeValid && !x.terminalValid
    ensures SameTimes(x, WriteEnd(x, k, status, at)) && (status != Ok ==> !WriteEnd(x, k, status, at).activeValid)
  {
    hide Finish, FinishFailure, Written;
    FailureTimes(x.(know := k), status, at);
    FinishTimes(x.(know := k, active := Written(x.active, x.disposition, x.clock, at)), Succeeded, Acknowledged, Ok,
                at);
  }

  lemma ReadEndTimes(x: State, j: Judged, at: nat)
    requires x.activeValid && !x.terminalValid
    ensures SameTimes(x, ReadEnd(x, j, at))
  {
    hide Finish, FinishFailure;
    var y := x.(active := j.active, know := j.know, work := j.work,
                log := if j.protocol.Some? then x.log + [ProtocolError(j.protocol.value, at)] else x.log);
    match j.verdict
    case Continue =>
    case Done(outcome, effect, status) => FinishTimes(y, outcome, effect, status, at);
    case Reject(status) => FailureTimes(y, status, at);
  }

  lemma MissEndTimes(x: State, status: Err, p: seq<Event>, at: nat)
    requires x.activeValid && !x.terminalValid
    ensures SameTimes(x, MissEnd(x, status, p, at)) && !MissEnd(x, status, p, at).activeValid
  {
    hide Finish, FinishFailure, IsPartial;
    var y := x.(log := x.log + p);
    FailureTimes(y, status, at);
    FinishTimes(y.(work := y.work.(configuration := y.know.configuration)), Partial, NoEffectWrite, status, at);
  }

  /** One iteration: at most one callback, none while the gate is closed, and a closed gate after one. */
  lemma IterateGate(s: State, now: nat, budget: nat, reply: Reply)
    requires Live(s)
    ensures var t := Iterate(s, now, budget, reply);
      && (t.s.calls == s.calls || (t.s.calls == s.calls + 1 && budget > 0 && !GateClosed(s, now)))
      && (t.s.calls == s.calls && t.s.activeValid ==> t.now == now && t.s.time == s.time && t.budget == budget)
      && (t.s.calls != s.calls && t.s.activeValid ==> GateClosed(t.s, t.now) && t.budget == budget - 1)
      && (s.clock.Linear? ==> t.now >= now)
  {
    hide Iterate, Live, Transferred, NormOf, Judge, TransferStatus, ReadEnd, WriteEnd, MissEnd, Wakes, Reached, SetMode,
      ResponseWords, KnowAfterSend, SendFor, Timed, Discarded, Published, ResultOf, Classify, ForgetIf, BlockedIf,
      EepromUncertain, PartialWork, PartialOutcome, AllWordsOk, Words, Buffer, PersistBlocked, PersistNotNeeded;
    assert s.activeValid && !s.terminalValid by { LiveSlot(s); }
    var c := Shape(s, now, budget, reply);
    if Transfers(c) {
      var n := NormOf(s, c.send, now, reply);
      var x := Transferred(s, c.send, now, reply);
      TransferredFrame(s, c.send, now, reply);
      assert s.clock.Linear? ==> n.doneMs >= now by { DoneAfter(s, c.send, now, reply); }
      if TransferStatus(s.clock, s.active.deadlineMs, c.send.intent, n) == Ok {
        TransferredGate(s, c.send, now, reply);
      }
      match c
      case Wrote(send, k) =>
        WriteEndTimes(x, k, TransferStatus(s.clock, s.active.deadlineMs, send.intent, n), n.doneMs);
      case Fetched(send, words) =>
        assert ResponseWords(x.active) == ResponseWords(s.active) by { TransferredFrame(s, send, now, reply); }
        if |words| == ResponseWords(s.active) && |words| >= 1 { ReadEndTimes(x, Judge(x, words, n.doneMs), n.doneMs); }
      case Missed(_, status, p) => MissEndTimes(x, status, p, n.doneMs);
    }
  }

  lemma DoneAfter(s: State, send: Send, now: nat, reply: Reply)
    ensures s.clock.Linear? ==> NormOf(s, send, now, reply).doneMs >= now
  {
    hide Normalize;
    DoneAfterStart(s.clock, now, WireLength(send.wire), send.effectful, reply);
  }

  // ----- Facts about callbacks that several proofs share -----

  lemma SendingMoves(a: Active)
    requires SendFor(a).Some?
    ensures a.phase != WaitExecution
  {
  }

  lemma SettleSame(a: Active, b: Active, send: Send, n: Norm)
    requires a.request == b.request && a.phase == b.phase
    ensures Settle(a, send, n) == Settle(b, send, n)
  {
  }

  lemma CallsMove(s: State, now: nat, reply: Reply, c: Case)
    requires s.activeValid && !s.terminalValid && Transfers(c)
    requires c.Fetched? ==> |c.words| == ResponseWords(s.active) && |c.words| >= 1
    ensures Leads(s, now, reply, c).calls == s.calls + 1
  {
    hide Transferred, NormOf, Judge, TransferStatus, ReadEnd, WriteEnd, MissEnd, ResponseWords;
    TransferredFrame(s, c.send, now, reply);
    var n := NormOf(s, c.send, now, reply);
    var x := Transferred(s, c.send, now, reply);
    match c
    case Wrote(send, k) => WriteEndTimes(x, k, TransferStatus(s.clock, s.active.deadlineMs, send.intent, n), n.doneMs);
    case Fetched(send, words) =>
      assert ResponseWords(x.active) == ResponseWords(s.active) by { TransferredFrame(s, send, now, reply); }
      ReadEndTimes(x, Judge(x, words, n.doneMs), n.doneMs);
    case Missed(_, status, p) => MissEndTimes(x, status, p, n.doneMs);
  }
}
