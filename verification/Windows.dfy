/**
  When 32-bit time is enough: an owner that calls often enough, callbacks that
  finish soon enough, and the windows that keep every comparison of the driver
  inside half a clock.
 */
module Windows {
  import opened Clocks
  import opened Types
  import opened Commands
  import opened Codec
  import opened Engine
  import opened Exchanges
  import opened Control
  import opened Runs

  /** Polls less than 2^30 ms apart, callbacks shorter than 2^30 ms. */
  const QUARTER: nat := 0x4000_0000

  const SLACK: nat := QUARTER + SELF_TEST_MS

  /** A callback's claimed completion is at most half a clock before its start, and soon after it. */
  predicate CallPunctual(c: Call) {
    -(HALF as int) <= c.raw.completedMs - c.startMs < QUARTER
  }

  predicate CallsPunctual(log: seq<Event>) { forall i | 0 <= i < |log| && log[i].Called? :: CallPunctual(log[i].call) }

  /** Inside a poll: everything is anchored at the owner's time. */
  predicate Window(s: State, now: nat) {
    var o := s.time.ownerMs;
    && s.clock.Linear? && s.time.ownerValid && o <= now < o + QUARTER
    && (now == o || s.time.gateValid)
    && (s.time.gateValid ==> now < s.time.gateMs <= o + SLACK)
    && (s.activeValid ==>
          var a := s.active;
          && a.startedMs <= o && a.startedMs <= a.nextDueMs <= o + SLACK
          && now < a.deadlineMs && a.deadlineMs - a.startedMs < HALF
          && (IsReset(a.request.kind) && a.phase == WaitExecution && s.time.gateValid ==> s.time.gateMs <= a.nextDueMs))
  }

  /** Between calls: everything is anchored at the last accepted poll. */
  predicate Between(s: State, last: nat) {
    && s.clock.Linear? && s.settings.powerUpMs <= POWER_UP_MAX_MS
    && (s.time.ownerValid ==> last <= s.time.ownerMs < last + QUARTER)
    && (s.time.gateValid ==> s.time.ownerValid && last < s.time.gateMs <= last + SLACK)
    && (s.activeValid ==>
          var a := s.active;
          && s.time.ownerValid && a.startedMs <= s.time.ownerMs && a.startedMs <= a.nextDueMs <= last + SLACK
          && last < a.deadlineMs && 0 < a.deadlineMs - a.startedMs < HALF
          && (IsReset(a.request.kind) && a.phase == WaitExecution ==>
                last < a.nextDueMs && (s.time.gateValid ==> s.time.gateMs <= a.nextDueMs)))
  }

  /** The gate, if armed, is ahead of the owner and near. */
  predicate GateWindow(s: State) {
    s.time.gateValid ==> s.time.ownerMs < s.time.gateMs <= s.time.ownerMs + SLACK
  }

  // ----- One iteration inside the windows -----

  /** How a callback's times relate to the owner's. */
  lemma TransferWindow(s: State, send: Send, now: nat, budget: nat, reply: Reply)
    requires Window(s, now) && MayTransfer(s, now, budget, send) && reply.completedMs - now < QUARTER
    ensures var x := Transferred(s, send, now, reply); var n := NormOf(s, send, now, reply);
      now == s.time.ownerMs && now <= n.doneMs < now + QUARTER && x.time.ownerMs == now && x.time.ownerValid &&
      x.clock.Linear? &&
      GateWindow(x) &&
      (TransferStatus(s.clock, s.active.deadlineMs, send.intent, n) == Ok ==>
         n.doneMs < s.active.deadlineMs && x.time.gateValid && n.doneMs < x.time.gateMs <= now + SLACK &&
         x.time.gateMs == n.doneMs + Settle(s.active, send, n))
  {
    hide Normalize, Settle, SendFor, Timed, PersistBlocked, PersistNotNeeded, TransferTimeout;
    var n := NormOf(s, send, now, reply);
    DoneSoon(s, send, now, reply);
    SettlePositive(s.active, send, n);
    if TransferStatus(s.clock, s.active.deadlineMs, send.intent, n) == Ok {
      SuccessStarted(s, send, now, reply);
      TransferredGate(s, send, now, reply);
    }
  }

  lemma DoneSoon(s: State, send: Send, now: nat, reply: Reply)
    requires s.clock.Linear? && reply.completedMs - now < QUARTER
    ensures now <= NormOf(s, send, now, reply).doneMs < now + QUARTER
  {
  }

  lemma WrittenWindow(a: Active, d: Disposition, at: nat, send: Send, n: Norm)
    requires Reachable(a) && SendFor(a) == Some(send) && !send.wire.Read? && !EndsAfterWrite(a.request.kind)
    requires n.disposition == Complete || n.disposition == Unproven || ExpectedNack(send.intent, n)
    ensures var b := Written(a, d, Linear, at);
      at < b.nextDueMs <= at + SELF_TEST_MS && b.startedMs == a.startedMs && b.deadlineMs == a.deadlineMs &&
      (IsReset(b.request.kind) && b.phase == WaitExecution ==> b.nextDueMs == at + Settle(a, send, n))
  {
    hide EffectAfterWrite, IndexAfterWrite, ExpectedNack;
  }

  lemma JudgedWindow(s: State, words: seq<u16>, at: nat)
    requires Reachable(s.active) && SendFor(s.active) == Some(Send(Read(|words|), Normal, false))
    requires |words| == ResponseWords(s.active) && |words| >= 1
    ensures var b := Judge(s, words, at).active;
      b.startedMs == s.active.startedMs && b.deadlineMs == s.active.deadlineMs && b.phase != WaitExecution &&
      (b.nextDueMs == at || b.nextDueMs == s.active.nextDueMs)
  {
    hide CacheField, CacheResult, Unverify, FieldWordValid, Disowned, Identified, Attached, VariantOf, SameSensor,
      OtherSensor, Rebased, ResetKnowledge, DisownedVariant, NextEpoch, StrictlyUnsupported, WithIdentity, WithSerial,
      StoreSample, DataReady;
  }

  /** The windows are kept as long as the operation goes on. */
  lemma IterateWindow(s: State, now: nat, budget: nat, reply: Reply)
    requires Live(s) && Window(s, now) && OnTime(s, now)
    requires Iterate(s, now, budget, reply).s.calls != s.calls ==> reply.completedMs - now < QUARTER
    ensures var t := Iterate(s, now, budget, reply);
      (t.s.activeValid ==> Window(t.s, t.now) && ResetWaits(t.s)) && t.s.time.ownerMs == s.time.ownerMs &&
      GateWindow(t.s)
  {
    hide Iterate, Live, Finish, FinishFailure, Transferred, NormOf, Judge, TransferStatus, Wakes, Reached, Resting,
      ResponseWords, KnowAfterSend, SendFor, Reachable, Words, AllWordsOk, WriteEnd, ReadEnd, MissEnd, SetMode,
      RestDone, EndsAfterWait, Timed, PersistBlocked, PersistNotNeeded, GateClosed, Window, ResetWaits, GateWindow;
    LiveSlot(s);
    assert GateWindow(s) by { WindowGate(s, now); }
    IterateOwner(s, now, budget, reply);
    var c := Shape(s, now, budget, reply);
    match c
    case Held(due) => HeldWindow(s, due, now);
    case Roused(k) => RousedWindow(s, k, now);
    case Quiet(k, w, outcome, effect, status) =>
      FinishTimes(s.(know := k, work := w), outcome, effect, status, now);
      GateAlike(s, Leads(s, now, reply, c));
    case Expired => FailureTimes(s, Timeout, now); GateAlike(s, Leads(s, now, reply, c));
    case Wrote(send, k) => CallsMove(s, now, reply, c); WriteWindow(s, send, k, now, budget, reply);
    case Fetched(send, words) =>
      CallsMove(s, now, reply, c);
      ReadsAreNormal(s.active);
      ReadWindow(s, send, words, now, budget, reply);
    case Missed(send, status, p) =>
      TransferredFrame(s, send, now, reply);
      MissEndTimes(Transferred(s, send, now, reply), status, p, NormOf(s, send, now, reply).doneMs);
      TransferWindow(s, send, now, budget, reply);
      GateAlike(Transferred(s, send, now, reply), Leads(s, now, reply, c));
  }

  lemma WindowGate(s: State, now: nat)
    requires Window(s, now)
    ensures GateWindow(s)
  {
  }

  lemma GateAlike(s: State, t: State)
    requires GateWindow(s) && t.time == s.time
    ensures GateWindow(t)
  {
  }

  /** A reset that still waits is not due yet. */
  predicate ResetWaits(s: State) {
    IsReset(s.active.request.kind) && s.active.phase == WaitExecution ==> s.active.nextDueMs > s.time.ownerMs
  }

  lemma HeldWindow(s: State, due: nat, now: nat)
    requires s.activeValid && Window(s, now) && !RestDone(s, now)
    requires due == s.active.nextDueMs || (GateClosed(s, now) && due == s.time.gateMs)
    ensures var t := s.(active := s.active.(nextDueMs := due)); Window(t, now) && ResetWaits(t) && GateWindow(t)
  {
  }

  lemma RousedWindow(s: State, k: Knowledge, now: nat)
    requires Live(s) && Window(s, now) && RestDone(s, now) && !EndsAfterWait(s.active.request.kind)
    ensures var t := s.(active := s.active.(phase := Wakes(s.active)), know := k);
      Window(t, now) && ResetWaits(t) && GateWindow(t)
  {
    hide Reachable, Resting;
  }

  lemma WriteWindow(s: State, send: Send, k: Knowledge, now: nat, budget: nat, reply: Reply)
    requires Live(s) && Window(s, now) && MayTransfer(s, now, budget, send) && !send.wire.Read? &&
      reply.completedMs - now < QUARTER
    ensures var t := Leads(s, now, reply, Wrote(send, k));
      (t.activeValid ==> Window(t, NormOf(s, send, now, reply).doneMs) && ResetWaits(t)) && GateWindow(t)
  {
    hide Reachable, Finish, FinishFailure, Written, Transferred, NormOf, TransferStatus, SendFor, Timed, PersistBlocked,
      PersistNotNeeded, GateClosed, Reached, Settle;
    var x, n := Transferred(s, send, now, reply), NormOf(s, send, now, reply);
    var st := TransferStatus(s.clock, s.active.deadlineMs, send.intent, n);
    TransferWindow(s, send, now, budget, reply);
    TransferredFrame(s, send, now, reply);
    SameStep(s.active, x.active);
    if st != Ok {
      FailureTimes(x.(know := k), st, n.doneMs);
    } else {
      var y := x.(know := k, active := Written(x.active, x.disposition, x.clock, n.doneMs));
      if EndsAfterWrite(x.active.request.kind) {
        FinishTimes(y, Succeeded, Acknowledged, Ok, n.doneMs);
      } else {
        SuccessNorm(s, send, now, reply);
        WrittenWindow(x.active, x.disposition, n.doneMs, send, n);
        SettleSame(s.active, x.active, send, n);
      }
    }
  }

  lemma ReadWindow(s: State, send: Send, words: seq<u16>, now: nat, budget: nat, reply: Reply)
    requires Live(s) && Window(s, now) && MayTransfer(s, now, budget, send) && reply.completedMs - now < QUARTER
    requires send == Send(Read(|words|), Normal, false) && |words| == ResponseWords(s.active) && |words| >= 1
    requires TransferStatus(s.clock, s.active.deadlineMs, send.intent, NormOf(s, send, now, reply)) == Ok
    ensures var t := Leads(s, now, reply, Fetched(send, words));
      (t.activeValid ==> Window(t, NormOf(s, send, now, reply).doneMs) && ResetWaits(t)) && GateWindow(t)
  {
    hide Reachable, Finish, FinishFailure, Transferred, NormOf, TransferStatus, SendFor, Timed, PersistBlocked, Judge,
      ResponseWords, PersistNotNeeded, GateClosed, Reached, Settle;
    var x, n := Transferred(s, send, now, reply), NormOf(s, send, now, reply);
    TransferWindow(s, send, now, budget, reply);
    TransferredFrame(s, send, now, reply);
    SameStep(s.active, x.active);
    JudgedWindow(x, words, n.doneMs);
    var j := Judge(x, words, n.doneMs);
    var y := x.(active := j.active, know := j.know, work := j.work,
                log := if j.protocol.Some? then x.log + [ProtocolError(j.protocol.value, n.doneMs)] else x.log);
    match j.verdict
    case Continue =>
    case Done(outcome, effect, status) => FinishTimes(y, outcome, effect, status, n.doneMs);
    case Reject(status) => FailureTimes(y, status, n.doneMs);
  }
}
