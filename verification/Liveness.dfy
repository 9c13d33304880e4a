/**
  Bounded liveness: an owner who polls when the driver asks, over transfers that
  honour their timeout, sees every operation end inside the published deadline
  formula, in a bounded number of polls, and never by timeout.
 */
module Liveness {
  import opened Clocks
  import opened Types
  import opened Commands
  import opened Codec
  import opened Engine
  import opened Exchanges
  import opened Control
  import opened Runs
  import opened Ledger
  import opened Effort
  import opened Evidence
  import opened Spacing
  import opened Pace
  import Refinement

  /** `n` transfers of at most `t` milliseconds. */
  function Cost(n: nat, t: nat): nat { n * t }

  lemma CostSucc(n: nat, t: nat)
    ensures Cost(n + 1, t) == Cost(n, t) + t
  {
  }

  lemma CostMono(n: nat, m: nat, t: nat)
    requires n <= m
    ensures Cost(n, t) <= Cost(m, t)
    decreases m
  {
    if n < m {
      CostMono(n, m - 1, t);
      CostSucc(m - 1, t);
    }
  }

  /** The waits an operation has scheduled by the time it is in its place. */
  function Scheduled(a: Active): nat {
    Spent(a) +
    (if a.request.kind.Attach? then
       POWER_UP_MAX_MS + (if Spent(a) >= 1 then POWER_UP_MS - 1 else 0) + (if Spent(a) >= 2 then STOP_MS - 1 else 0)
     else if PastCommand(a) then ExecutionWait(a.request.kind) - 1
     else 0)
  }

  lemma ScheduledBound(a: Active)
    requires Reachable(a)
    ensures Scheduled(a) <= LimitsOf(a.request.kind).maxWaitMs
  {
  }

  /** The latest time at which an operation can be ready to leave its place. */
  function Latest(a: Active, t: nat): nat { a.startedMs + Scheduled(a) + Cost(Spent(a), t) }

  /** The published deadline formula. */
  function Formula(k: Kind, started: nat, t: nat): nat {
    started + LimitsOf(k).maxWaitMs + Cost(LimitsOf(k).maxCallbacks, t)
  }

  lemma LatestBound(a: Active, t: nat)
    requires Reachable(a)
    ensures Latest(a, t) <= Formula(a.request.kind, a.startedMs, t)
    ensures SendFor(a).Some? ==> Latest(a, t) + t <= Formula(a.request.kind, a.startedMs, t)
  {
    hide Cost, Spent, Scheduled, LimitsOf, SendFor;
    ScheduledBound(a);
    SpentBounded(a);
    CostMono(Spent(a), LimitsOf(a.request.kind).maxCallbacks, t);
    if SendFor(a).Some? {
      SendingBound(a);
      CostMono(Spent(a) + 1, LimitsOf(a.request.kind).maxCallbacks, t);
      CostSucc(Spent(a), t);
    }
  }

  /** An operation on schedule at `now`. */
  predicate OnSchedule(s: State, now: nat, t: nat) {
    s.clock.Linear? &&
    (s.activeValid ==>
       var x := Latest(s.active, t);
       now <= x && s.active.nextDueMs <= x && (s.time.gateValid ==> s.time.gateMs <= x) &&
       Formula(s.active.request.kind, s.active.startedMs, t) < s.active.deadlineMs)
  }

  /** How much an operation may still move. */
  function Rank(s: State): int {
    3 * (LimitsOf(s.active.request.kind).maxCallbacks - Spent(s.active)) +
    (if Resting(s.active) then 1 else 0) +
    (if s.time.gateValid && s.time.gateMs > s.active.nextDueMs then 1 else 0)
  }

  /** What an operation that ended in time leaves. */
  predicate EndedInTime(k: Kind, started: nat, id: OpId, s: State, t: nat) {
    !s.activeValid && s.terminalValid && s.terminal.id == id && s.terminal.kind == k && s.terminal.status != Timeout &&
    s.terminal.completedMs <= Formula(k, started, t)
  }

  /** One turn of an operation on schedule: it stays on schedule and does not move back, or ends in time. */
  predicate GoodTurn(s: State, u: State, at: nat, t: nat, moved: bool) {
    if u.activeValid then
      OnSchedule(u, at, t) && u.active.request.kind == s.active.request.kind &&
        u.active.startedMs == s.active.startedMs &&
      u.active.id == s.active.id && Reachable(u.active) && 0 <= Rank(u) <= Rank(s) && (moved ==> Rank(u) < Rank(s))
    else EndedInTime(s.active.request.kind, s.active.startedMs, s.active.id, u, t)
  }

  lemma RankPositive(s: State)
    requires Reachable(s.active)
    ensures 0 <= Rank(s) <= 3 * LimitsOf(s.active.request.kind).maxCallbacks + 2
  {
    hide Spent, LimitsOf, Resting, Reachable;
    SpentBounded(s.active);
  }

  lemma ScheduledSame(a: Active, b: Active)
    requires a.request == b.request && a.phase == b.phase && a.index == b.index && a.startedMs == b.startedMs
    ensures Scheduled(a) == Scheduled(b) && Spent(a) == Spent(b) && (forall t :: Latest(a, t) == Latest(b, t)) &&
      Resting(a) == Resting(b)
  {
    hide Spent, PastCommand, Cost;
    SamePast(a, b);
  }

  lemma HeldTurn(s: State, due: nat, now: nat, t: nat)
    requires Live(s) && OnSchedule(s, now, t)
    requires if GateClosed(s, now) then due == s.time.gateMs else due == s.active.nextDueMs
    ensures GoodTurn(s, s.(active := s.active.(nextDueMs := due)), now, t, GateClosed(s, now) &&
                     due != s.active.nextDueMs && now >= s.active.nextDueMs)
  {
    hide Reachable, Latest, Spent, Resting, LimitsOf, Formula;
    LiveSlot(s);
    var u := s.(active := s.active.(nextDueMs := due));
    ScheduledSame(s.active, u.active);
    SameStep(s.active, u.active);
    RankPositive(u);
  }

  lemma RousedTurn(s: State, k: Knowledge, now: nat, t: nat)
    requires Live(s) && OnSchedule(s, now, t) && Resting(s.active) && !EndsAfterWait(s.active.request.kind)
    ensures GoodTurn(s, s.(active := s.active.(phase := Wakes(s.active)), know := k), now, t, true)
  {
    hide Reachable, Spent, Resting, LimitsOf, Formula, PastCommand, Wakes, EndsAfterWait, Cost;
    LiveSlot(s);
    var u := s.(active := s.active.(phase := Wakes(s.active)), know := k);
    RousedSpent(s.active);
    WakesReachable(s.active);
    WokenWorks(s.active);
    RankPositive(u);
  }

  lemma QuietTurn(s: State, now: nat, budget: nat, reply: Reply, c: Case, t: nat)
    requires Live(s) && OnSchedule(s, now, t) && c.Quiet? && Fits(s, now, budget, reply, c)
    ensures GoodTurn(s, Leads(s, now, reply, c), now, t, true)
  {
    hide Reachable, Spent, Finish, Reached, GateClosed, Formula, Latest, SetMode, Resting;
    LiveSlot(s);
    LatestBound(s.active, t);
    FinishCloses(s.(know := c.k, work := c.w), c.outcome, c.effect, c.status, now);
  }

  /** A prompt transfer ends before the formula, so never at the deadline. */
  lemma PromptTransfer(s: State, send: Send, now: nat, budget: nat, reply: Reply, t: nat)
    requires Live(s) && OnSchedule(s, now, t) && MayTransfer(s, now, budget, send)
    requires now <= reply.completedMs <= now + t && t < HALF
    ensures var n := NormOf(s, send, now, reply); var x := Transferred(s, send, now, reply);
      n.doneMs == reply.completedMs &&
      n.doneMs <= Latest(s.active, t) + t <= Formula(s.active.request.kind, s.active.startedMs, t) &&
      TransferStatus(s.clock, s.active.deadlineMs, send.intent, n) != Timeout &&
      (TransferStatus(s.clock, s.active.deadlineMs, send.intent, n) == Ok ==>
         x.time.gateValid && x.time.gateMs == n.doneMs + Settle(s.active, send, n))
  {
    hide Reachable, Spent, Formula, Latest, Settle, SendFor, Timed, PersistBlocked, PersistNotNeeded, GateClosed,
      Transferred;
    LiveSlot(s);
    LatestBound(s.active, t);
    PromptNorm(s, send, now, reply);
    var n := NormOf(s, send, now, reply);
    if TransferStatus(s.clock, s.active.deadlineMs, send.intent, n) == Ok { TransferredGate(s, send, now, reply); }
  }

  lemma PromptNorm(s: State, send: Send, now: nat, reply: Reply)
    requires s.clock.Linear? && now <= reply.completedMs < now + HALF
    ensures NormOf(s, send, now, reply).doneMs == reply.completedMs
    ensures forall d :: NormOf(s, send, now, reply).doneMs < d ==>
      TransferStatus(s.clock, d, send.intent, NormOf(s, send, now, reply)) != Timeout
  {
  }

  /** The next due time and the next gate are one settle after a completed write. */
  lemma WrittenSchedule(a: Active, d: Disposition, at: nat, send: Send, n: Norm)
    requires Reachable(a) && SendFor(a) == Some(send) && !send.wire.Read? && !EndsAfterWrite(a.request.kind)
    requires n.disposition == Complete || n.disposition == Unproven || ExpectedNack(send.intent, n)
    ensures var b := Written(a, d, Linear, at);
      b.nextDueMs == at + Settle(a, send, n) && Scheduled(b) == Scheduled(a) + Settle(a, send, n) &&
      Spent(b) == Spent(a) + 1 &&
      b.startedMs == a.startedMs && b.deadlineMs == a.deadlineMs && b.request == a.request && b.id == a.id &&
      Reachable(b)
  {
    hide EffectAfterWrite, ExpectedNack, Spent, PastCommand, Reachable, IndexAfterWrite, PhaseAfterWrite, SendFor;
    WrittenSpent(a, d, Linear, at);
    WrittenReachable(a, d, Linear, at);
    WaitPlaces(a, d, Linear, at);
    WaitIsSettle(a, send, n);
  }

  lemma WaitIsSettle(a: Active, send: Send, n: Norm)
    requires Reachable(a) && SendFor(a) == Some(send) && !send.wire.Read? && !EndsAfterWrite(a.request.kind)
    requires n.disposition == Complete || n.disposition == Unproven || ExpectedNack(send.intent, n)
    ensures WaitAfter(a) == Settle(a, send, n)
    ensures send.effectful ==>
      WaitAfter(a) == (if a.request.kind.Attach? then (if a.phase == SendWake then POWER_UP_MS else STOP_MS)
                       else ExecutionWait(a.request.kind))
    ensures !send.effectful ==> WaitAfter(a) == SHORT_MS
  {
    hide ExpectedNack;
  }

  lemma WriteTurn(s: State, send: Send, k: Knowledge, now: nat, budget: nat, reply: Reply, t: nat)
    requires Live(s) && OnSchedule(s, now, t) && MayTransfer(s, now, budget, send) && !send.wire.Read?
    requires now <= reply.completedMs <= now + t && t < HALF
    ensures GoodTurn(s, Leads(s, now, reply, Wrote(send, k)), NormOf(s, send, now, reply).doneMs, t, true)
  {
    hide Reachable, Finish, FinishFailure, Written, Transferred, NormOf, TransferStatus, SendFor, Timed, PersistBlocked,
      PersistNotNeeded, GateClosed, Reached, Settle, Spent, Scheduled, Formula, Cost, Resting, LimitsOf;
    LiveSlot(s);
    var x, n := Transferred(s, send, now, reply), NormOf(s, send, now, reply);
    var st := TransferStatus(s.clock, s.active.deadlineMs, send.intent, n);
    PromptTransfer(s, send, now, budget, reply, t);
    TransferredFrame(s, send, now, reply);
    ScheduledSame(s.active, x.active);
    SameStep(s.active, x.active);
    if st != Ok {
      FailureCloses(x.(know := k), st, n.doneMs);
    } else {
      var y := x.(know := k, active := Written(x.active, x.disposition, x.clock, n.doneMs));
      if EndsAfterWrite(x.active.request.kind) {
        WrittenKeeps(x.active, x.disposition, x.clock, n.doneMs);
        FinishCloses(y, Succeeded, Acknowledged, Ok, n.doneMs);
      } else {
        SuccessNorm(s, send, now, reply);
        WrittenSchedule(x.active, x.disposition, n.doneMs, send, n);
        SettleSame(s.active, x.active, send, n);
        CostSucc(Spent(s.active), t);
        RankPositive(y);
      }
    }
  }

  lemma ReadTurn(s: State, send: Send, words: seq<u16>, now: nat, budget: nat, reply: Reply, t: nat)
    requires Live(s) && OnSchedule(s, now, t) && MayTransfer(s, now, budget, send) &&
      send == Send(Read(|words|), Normal, false)
    requires now <= reply.completedMs <= now + t && t < HALF
    requires TransferStatus(s.clock, s.active.deadlineMs, send.intent, NormOf(s, send, now, reply)) == Ok
    requires |words| == ResponseWords(s.active) && |words| >= 1
    ensures GoodTurn(s, Leads(s, now, reply, Fetched(send, words)), NormOf(s, send, now, reply).doneMs, t, true)
  {
    hide Reachable, Finish, FinishFailure, Transferred, NormOf, TransferStatus, SendFor, Timed, PersistBlocked, Judge,
      PersistNotNeeded, GateClosed, Reached, Settle, Spent, Formula, Cost, Resting, LimitsOf, PastCommand,
      ResponseWords;
    LiveSlot(s);
    var x, n := Transferred(s, send, now, reply), NormOf(s, send, now, reply);
    PromptTransfer(s, send, now, budget, reply, t);
    TransferredFrame(s, send, now, reply);
    ScheduledSame(s.active, x.active);
    SamePast(s.active, x.active);
    SameStep(s.active, x.active);
    ReadSettles(s.active, send, n);
    var j := Judge(x, words, n.doneMs);
    JudgedTicket(x, words, n.doneMs);
    JudgedSpent(x, words, n.doneMs);
    JudgedReachable(x, words, n.doneMs);
    JudgedPhase(x, words, n.doneMs);
    JudgeStatus(x, words, n.doneMs);
    if s.active.request.kind.Attach? { AttachReads(s.active); }
    var y := x.(active := j.active, know := j.know, work := j.work,
                log := if j.protocol.Some? then x.log + [ProtocolError(j.protocol.value, n.doneMs)] else x.log);
    match j.verdict
    case Continue =>
      CostSucc(Spent(s.active), t);
      RankPositive(y);
    case Done(outcome, effect, status) => FinishCloses(y, outcome, effect, status, n.doneMs);
    case Reject(status) => FailureCloses(y, status, n.doneMs);
  }

  lemma AttachReads(a: Active)
    requires Reachable(a) && SendFor(a).Some? && SendFor(a).value.wire.Read? && a.request.kind.Attach?
    ensures Spent(a) >= 2
  {
  }

  /** No judgement is a timeout. */
  lemma JudgeStatus(s: State, words: seq<u16>, now: nat)
    requires |words| == ResponseWords(s.active) && |words| >= 1
    ensures var v := Judge(s, words, now).verdict; !v.Continue? ==> v.status != Timeout
  {
    hide CacheField, CacheResult, Unverify, FieldWordValid, Disowned, Identified, Attached, VariantOf, SameSensor,
      OtherSensor, Rebased, ResetKnowledge, DisownedVariant, NextEpoch, StrictlyUnsupported, WithIdentity, WithSerial,
      StoreSample, DataReady;
  }

  lemma MissTurn(s: State, send: Send, status: Err, p: seq<Event>, now: nat, budget: nat, reply: Reply, t: nat)
    requires Live(s) && OnSchedule(s, now, t) && MayTransfer(s, now, budget, send)
    requires now <= reply.completedMs <= now + t && t < HALF
    requires status == CrcMismatch ||
      status == TransferStatus(s.clock, s.active.deadlineMs, send.intent, NormOf(s, send, now, reply))
    ensures GoodTurn(s, Leads(s, now, reply, Missed(send, status, p)), NormOf(s, send, now, reply).doneMs, t, true)
  {
    hide Reachable, Finish, FinishFailure, Transferred, NormOf, TransferStatus, SendFor, Timed, PersistBlocked,
      PersistNotNeeded, GateClosed, Reached, Spent, Formula, Latest, IsPartial, MayTransfer;
    LiveSlot(s);
    var x, n := Transferred(s, send, now, reply), NormOf(s, send, now, reply);
    PromptTransfer(s, send, now, budget, reply, t);
    TransferredFrame(s, send, now, reply);
    var y := x.(log := x.log + p);
    FailureCloses(y, status, n.doneMs);
    FinishCloses(y.(work := y.work.(configuration := y.know.configuration)), Partial, NoEffectWrite, status, n.doneMs);
  }

  // ----- Turns and polls -----

  predicate PromptCall(c: Call, t: nat) { c.startMs <= c.raw.completedMs <= c.startMs + t }

  /** Every callback logged since `from` took at most `t`. */
  predicate AllPrompt(log: seq<Event>, from: nat, t: nat) {
    forall i | from <= i < |log| && log[i].Called? :: PromptCall(log[i].call, t)
  }

  /** An iteration of an operation on schedule; the first one of a due operation moves it. */
  lemma TurnOnSchedule(s: State, now: nat, budget: nat, reply: Reply, t: nat)
    requires Live(s) && OnSchedule(s, now, t) && t < HALF && AllPrompt(Iterate(s, now, budget, reply).s.log, |s.log|, t)
    ensures var u := Iterate(s, now, budget, reply);
      GoodTurn(s, u.s, u.now, t, budget > 0 && now >= s.active.nextDueMs &&
               !(GateClosed(s, now) && s.active.nextDueMs >= s.time.gateMs))
  {
    hide Iterate, Live, Finish, FinishFailure, Transferred, NormOf, Judge, TransferStatus, Wakes, Resting, Latest,
      Formula, Rank, ResponseWords, KnowAfterSend, SendFor, Reachable, Words, AllWordsOk, WriteEnd, ReadEnd, MissEnd,
      GoodTurn, EndsAfterWait, PersistBlocked, PersistNotNeeded, CallOf, Timed;
    LiveSlot(s);
    LatestBound(s.active, t);
    var c := Shape(s, now, budget, reply);
    if CanTransfer(s, now, budget) {
      Refinement.TransferHappens(s, now, budget, reply);
      Refinement.CallOfFacts(s, SendFor(s.active).value, now, reply);
    }
    match c
    case Held(due) =>
      HeldTurn(s, due, now, t);
      if budget > 0 && now >= s.active.nextDueMs && !GateClosed(s, now) { NeverHeld(s, now, budget); }
      GoodWeaker(s, s.(active := s.active.(nextDueMs := due)), now, t, GateClosed(s, now) &&
                 due != s.active.nextDueMs && now >= s.active.nextDueMs,
                 budget > 0 && now >= s.active.nextDueMs &&
                 !(GateClosed(s, now) && s.active.nextDueMs >= s.time.gateMs));
    case Roused(k) => RousedTurn(s, k, now, t); GoodAny(s, Leads(s, now, reply, c), now, t);
    case Quiet(_, _, _, _, _) => QuietTurn(s, now, budget, reply, c, t); GoodAny(s, Leads(s, now, reply, c), now, t);
    case Expired =>
    case Wrote(send, k) =>
      WriteTurn(s, send, k, now, budget, reply, t);
      GoodAny(s, Leads(s, now, reply, c), NormOf(s, send, now, reply).doneMs, t);
    case Fetched(send, words) =>
      ReadsAreNormal(s.active);
      ReadTurn(s, send, words, now, budget, reply, t);
      GoodAny(s, Leads(s, now, reply, c), NormOf(s, send, now, reply).doneMs, t);
    case Missed(send, status, p) =>
      MissTurn(s, send, status, p, now, budget, reply, t);
      GoodAny(s, Leads(s, now, reply, c), NormOf(s, send, now, reply).doneMs, t);
  }

  lemma GoodAny(s: State, u: State, at: nat, t: nat)
    requires GoodTurn(s, u, at, t, true)
    ensures GoodTurn(s, u, at, t, false)
  {
  }

  lemma GoodWeaker(s: State, u: State, at: nat, t: nat, strong: bool, weak: bool)
    requires GoodTurn(s, u, at, t, strong) && (weak ==> strong)
    ensures GoodTurn(s, u, at, t, weak)
  {
  }

  /** A due operation behind an open gate is never held. */
  lemma NeverHeld(s: State, now: nat, budget: nat)
    requires Live(s) && s.clock.Linear? && budget > 0 && now >= s.active.nextDueMs && !GateClosed(s, now) &&
      now < s.active.deadlineMs
    ensures RestDone(s, now) || CanTransfer(s, now, budget) || PersistBlocked(s) || PersistNotNeeded(s)
  {
    hide Reachable, SendFor, Timed, Resting, GateClosed, PersistBlocked, PersistNotNeeded;
    LiveSlot(s);
    if !Resting(s.active) { AlwaysSends(s.active); }
  }

  /** The loop is its turns. */
  lemma {:induction false} LoopOnSchedule(s: State, now: nat, budget: nat, transitions: nat, bus: nat -> Reply, t: nat)
    requires Steady(s) && s.activeValid && OnSchedule(s, now, t) && t < HALF
    requires AllPrompt(Loop(s, now, budget, transitions, bus).s.log, |s.log|, t)
    ensures var u := Loop(s, now, budget, transitions, bus);
      u.now >= now && SameOwner(s, u.s) && s.log <= u.s.log &&
      GoodTurn(s, u.s, u.now, t, transitions < MAX_TRANSITIONS && budget > 0 && now >= s.active.nextDueMs &&
                                 !(GateClosed(s, now) && s.active.nextDueMs >= s.time.gateMs))
    decreases MAX_TRANSITIONS - transitions
  {
    hide Iterate, GoodTurn, OnSchedule, GateClosed, AllPrompt, Reachable;
    if transitions < MAX_TRANSITIONS && MayRun(s, now) {
      var u := Iterate(s, now, budget, bus(s.calls));
      IterateOwner(s, now, budget, bus(s.calls));
      IterateReachable(s, now, budget, bus(s.calls));
      IterateGate(s, now, budget, bus(s.calls));
      assert s.clock.Linear? by { ScheduleClock(s, now, t); }
      MoreIsActive(s, now, budget, bus(s.calls));
      if u.more {
        Refinement.LoopLog(u.s, u.now, u.budget, transitions + 1, bus);
      }
      var v := Loop(s, now, budget, transitions, bus);
      PromptPart(u.s.log, v.s.log, |s.log|, |s.log|, t);
      TurnOnSchedule(s, now, budget, bus(s.calls), t);
      if u.more {
        PromptPart(v.s.log, v.s.log, |s.log|, |u.s.log|, t);
        assert OnSchedule(u.s, u.now, t) by {
          TurnSchedule(s, u.s, u.now, t, budget > 0 && now >= s.active.nextDueMs &&
                       !(GateClosed(s, now) && s.active.nextDueMs >= s.time.gateMs));
        }
        LoopOnSchedule(u.s, u.now, u.budget, transitions + 1, bus, t);
        TurnsCompose(s, u.s, v.s, u.now, v.now, t,
                     budget > 0 && now >= s.active.nextDueMs &&
                     !(GateClosed(s, now) && s.active.nextDueMs >= s.time.gateMs),
                     transitions + 1 < MAX_TRANSITIONS && u.budget > 0 && u.now >= u.s.active.nextDueMs &&
                     !(GateClosed(u.s, u.now) && u.s.active.nextDueMs >= u.s.time.gateMs));
      }
    } else {
      NoTurn(s, now, budget, t, transitions < MAX_TRANSITIONS && budget > 0 && now >= s.active.nextDueMs &&
                        !(GateClosed(s, now) && s.active.nextDueMs >= s.time.gateMs));
    }
  }

  lemma ScheduleClock(s: State, now: nat, t: nat)
    requires OnSchedule(s, now, t)
    ensures s.clock.Linear?
  {
  }

  lemma TurnSchedule(s: State, u: State, at: nat, t: nat, moved: bool)
    requires GoodTurn(s, u, at, t, moved) && u.activeValid
    ensures OnSchedule(u, at, t)
  {
  }

  lemma PromptPart(a: seq<Event>, b: seq<Event>, from: nat, to: nat, t: nat)
    requires a <= b && from <= to && AllPrompt(b, from, t)
    ensures AllPrompt(a, to, t)
  {
    forall i | to <= i < |a| && a[i].Called? ensures PromptCall(a[i].call, t) { assert a[i] == b[i]; }
  }

  lemma TurnsCompose(s: State, u: State, v: State, at: nat, at': nat, t: nat, m1: bool, m2: bool)
    requires u.activeValid && GoodTurn(s, u, at, t, m1) && GoodTurn(u, v, at', t, m2)
    ensures GoodTurn(s, v, at', t, m1)
  {
    hide OnSchedule, Rank, Reachable, EndedInTime;
  }

  /** A loop that does not start was not due. */
  lemma NoTurn(s: State, now: nat, budget: nat, t: nat, moved: bool)
    requires Live(s) && OnSchedule(s, now, t)
    requires moved ==> now >= s.active.nextDueMs && MayRun(s, now) == false
    ensures GoodTurn(s, s, now, t, moved)
  {
    hide Rank, Reachable, Latest, Formula;
    LiveSlot(s);
    RankPositive(s);
  }

  // ----- Polite owners -----

  /** The later of the published due time and the owner's last time. */
  function NextPolite(s: State): nat {
    if s.activeValid && NextPollDue(s) >= s.time.ownerMs then NextPollDue(s) else s.time.ownerMs
  }

  /** A poll with some budget, no later than asked. */
  predicate InGoodTime(s: State, op: Op) { op.OpPoll? && op.budget > 0 && op.now <= NextPolite(s) }

  predicate AllInGoodTime(s: State, polls: seq<Op>, bus: nat -> Reply) {
    polls == [] ||
    (AllInGoodTime(s, polls[..|polls| - 1], bus) &&
     InGoodTime(Resume(s, polls[..|polls| - 1], bus), polls[|polls| - 1]))
  }

  /** How many of the polls come exactly when asked. */
  function Asked(s: State, polls: seq<Op>, bus: nat -> Reply): nat {
    if polls == [] then 0
    else
      var t, op := Resume(s, polls[..|polls| - 1], bus), polls[|polls| - 1];
      Asked(s, polls[..|polls| - 1], bus) + if op.OpPoll? && op.now == NextPolite(t) then 1 else 0
  }

  /** A poll no later than asked keeps the operation on schedule, and one when asked moves it. */
  lemma PolitePoll(s: State, now: nat, budget: nat, bus: nat -> Reply, t: nat)
    requires Steady(s) && s.activeValid && s.time.ownerValid && OnSchedule(s, s.time.ownerMs, t) && t < HALF &&
      budget > 0 && s.time.ownerMs <= now <= NextPolite(s)
    requires AllPrompt(Poll(s, now, budget, bus).0.log, |s.log|, t)
    ensures var u := Poll(s, now, budget, bus).0;
      s.log <= u.log && GoodTurn(s, u, u.time.ownerMs, t, now == NextPolite(s)) && SameTerms(s, u) &&
      u.time.ownerMs <= Formula(s.active.request.kind, s.active.startedMs, t)
  {
    hide Reachable, Loop, FinishFailure, GoodTurn, Latest, Formula, AllPrompt, Rank;
    LatestBound(s.active, t);
    var s1 := Observe(s, now);
    ObserveRank(s, now);
    LoopOnSchedule(s1, now, budget, 0, bus, t);
    var u := Loop(s1, now, budget, 0, bus);
    GoodFromObserve(s, s1, u.s, u.now, now, t, now == NextPolite(s), now >= s1.active.nextDueMs &&
                    !(GateClosed(s1, now) && s1.active.nextDueMs >= s1.time.gateMs));
  }

  /** A poll leaves the clock and the settings as they are, and the owner's time recorded. */
  predicate SameTerms(s: State, u: State) { u.clock == s.clock && u.settings == s.settings && u.time.ownerValid }

  lemma ObserveRank(s: State, now: nat)
    requires s.clock.Linear?
    ensures var s1 := Observe(s, now); Rank(s1) <= Rank(s) && s1.active == s.active
  {
    hide Spent, Resting, LimitsOf;
  }

  lemma GoodFromObserve(s: State, s1: State, u: State, at: nat, now: nat, t: nat, asked: bool, moved: bool)
    requires GoodTurn(s1, u, at, t, moved) && (asked ==> moved)
    requires s1.active == s.active && Rank(s1) <= Rank(s) && u.time.ownerMs == now <= at
    ensures GoodTurn(s, u, u.time.ownerMs, t, asked)
  {
    hide Rank, Reachable, Latest, Formula;
  }

  /** An operation on schedule after some polls in good time, `n` of them when asked. */
  predicate Progressed(s: State, u: State, n: nat, t: nat) {
    Steady(u) && SameTerms(s, u) && s.log <= u.log && GoodTurn(s, u, u.time.ownerMs, t, false) &&
    u.time.ownerMs <= Formula(s.active.request.kind, s.active.startedMs, t) &&
    (u.activeValid ==> Rank(u) + n <= Rank(s))
  }

  lemma PollProgress(s: State, u: State, n: nat, op: Op, bus: nat -> Reply, t: nat)
    requires s.clock.Linear? && s.activeValid && Progressed(s, u, n, t) && InGoodTime(u, op) && t < HALF
    requires AllPrompt(Do(u, op, bus).log, |s.log|, t)
    ensures Progressed(s, Do(u, op, bus), n + if op.now == NextPolite(u) then 1 else 0, t)
  {
    hide Reachable, Poll, OnSchedule, Rank, NextPolite, Formula, AllPrompt;
    var v := Do(u, op, bus);
    OnlyPolls(u, op);
    PollSteady(u, op.now, op.budget, bus);
    PollLog(u, op.now, op.budget, bus);
    PromptPart(v.log, v.log, |s.log|, |u.log|, t);
    if u.activeValid && u.time.ownerMs <= op.now {
      PolitePoll(u, op.now, op.budget, bus, t);
      TurnsCompose(s, u, v, u.time.ownerMs, v.time.ownerMs, t, false, op.now == NextPolite(u));
    } else {
      IdlePoll(u, op.now, op.budget, bus);
    }
  }

  /** Nothing but the owner's time moves when there is no work, nor at a time that runs back. */
  lemma IdlePoll(s: State, now: nat, budget: nat, bus: nat -> Reply)
    requires !s.activeValid || (s.clock.Linear? && s.time.ownerValid && now < s.time.ownerMs)
    ensures Poll(s, now, budget, bus).0 == Observe(s, now)
    ensures s.activeValid ==> Observe(s, now) == s
    ensures now <= NextPolite(s) && s.time.ownerValid && s.clock.Linear? && !s.activeValid ==>
      Observe(s, now).time.ownerMs == s.time.ownerMs && Observe(s, now).time.ownerValid
    ensures s.activeValid && s.time.ownerValid && s.clock.Linear? ==> now != NextPolite(s)
  {
    hide Expire, Loop;
  }

  lemma {:induction false} PollsProgress(s: State, polls: seq<Op>, bus: nat -> Reply, t: nat)
    requires Steady(s) && s.activeValid && s.time.ownerValid && OnSchedule(s, s.time.ownerMs, t) && t < HALF
    requires AllInGoodTime(s, polls, bus) && AllPrompt(Resume(s, polls, bus).log, |s.log|, t)
    ensures Progressed(s, Resume(s, polls, bus), Asked(s, polls, bus), t)
  {
    hide Steady, Do, Progressed, InGoodTime, NextPolite, OnSchedule, AllPrompt;
    ScheduleClock(s, s.time.ownerMs, t);
    if polls == [] {
      FreshProgress(s, t);
    } else {
      var prefix, op := polls[..|polls| - 1], polls[|polls| - 1];
      var u := Resume(s, prefix, bus);
      ResumeSteady(s, prefix, bus);
      OnlyPolls(u, op);
      PollLog(u, op.now, op.budget, bus);
      PollSteady(u, op.now, op.budget, bus);
      PromptPart(u.log, Resume(s, polls, bus).log, |s.log|, |s.log|, t);
      PollsProgress(s, prefix, bus, t);
      PollProgress(s, u, Asked(s, prefix, bus), op, bus, t);
    }
  }

  lemma OnlyPolls(s: State, op: Op)
    requires InGoodTime(s, op)
    ensures op.OpPoll? && op == OpPoll(op.now, op.budget)
  {
  }

  lemma FreshProgress(s: State, t: nat)
    requires Steady(s) && s.activeValid && s.time.ownerValid && OnSchedule(s, s.time.ownerMs, t)
    ensures Progressed(s, s, 0, t)
  {
    hide Formula, Latest, Rank, Reachable;
    LatestBound(s.active, t);
    RankPositive(s);
  }

  lemma PollLog(s: State, now: nat, budget: nat, bus: nat -> Reply)
    requires Steady(s)
    ensures s.log <= Poll(s, now, budget, bus).0.log
  {
    hide Reachable, Loop, FinishFailure, Reached;
    var s1 := Observe(s, now);
    if s1.activeValid && OwnerClockOk(s, now) {
      FailureOwner(s1, Timeout, now);
      FailureSteady(s1, Timeout, now);
      Refinement.LoopLog(Expire(s1, now), now, budget, 0, bus);
    }
  }

  /** Admitted after any run with a deadline beyond the formula, polled in good time over prompt transfers. */
  predicate WellServed(ops: seq<Op>, bus: nat -> Reply, r: Request, o: Options, polls: seq<Op>) {
    var s := Run(ops, Linear, bus);
    var (u, status) := Start(s, r, o);
    status == InProgress && o.deadlineMs > Formula(r.kind, o.nowMs, s.settings.timeoutMs) &&
    AllInGoodTime(u, polls, bus) && AllPrompt(Resume(u, polls, bus).log, |s.log|, s.settings.timeoutMs)
  }

  /**
    The published deadline formula is enough, for every kind and from every reachable state: if each
    transfer takes at most the configured timeout and the deadline lies beyond start + maxWaitMs +
    maxCallbacks * timeout, an owner who never polls later than asked sees the operation end by that time,
    not by timeout, and at the latest with the 3 * maxCallbacks + 3rd poll that comes when asked.
   */
  lemma EveryOperationEnds(ops: seq<Op>, bus: nat -> Reply, r: Request, o: Options, polls: seq<Op>)
    requires WellServed(ops, bus, r, o, polls)
    ensures var s := Run(ops, Linear, bus); var end := Formula(r.kind, o.nowMs, s.settings.timeoutMs);
      var u := Resume(Start(s, r, o).0, polls, bus);
      u.time.ownerMs <= end &&
      (Asked(Start(s, r, o).0, polls, bus) >= 3 * LimitsOf(r.kind).maxCallbacks + 3 ==> !u.activeValid) &&
      (!u.activeValid ==>
         u.terminalValid && u.terminal.id == OpId(o.requestId, s.generation) && u.terminal.kind == r.kind &&
         u.terminal.status != Timeout && u.terminal.completedMs <= end)
  {
    hide Run, Reachable, Resume, CheckStart, Rank, AllPrompt, AllInGoodTime, Asked, Formula, LimitsOf, OnSchedule;
    var s := Run(ops, Linear, bus);
    var t := s.settings.timeoutMs;
    RunSteady(ops, Linear, bus);
    SameClock(ops, Linear, bus);
    Admissible(s, r, o);
    var u := Start(s, r, o).0;
    StartReachable(s, r, o);
    FreshSchedule(s, r, o);
    RankPositive(u);
    var v := Resume(u, polls, bus);
    PromptPart(v.log, v.log, |s.log|, |u.log|, t);
    PollsProgress(u, polls, bus, t);
    if v.activeValid { assert 0 <= Rank(v); }
  }

  lemma Admissible(s: State, r: Request, o: Options)
    requires Start(s, r, o).1 == InProgress
    ensures CheckStart(s, r, o) == Ok
  {
    hide Reached, LimitsOf;
  }

  lemma FreshSchedule(s: State, r: Request, o: Options)
    requires Steady(s) && s.clock.Linear? && CheckStart(s, r, o) == Ok
    requires o.deadlineMs > Formula(r.kind, o.nowMs, s.settings.timeoutMs)
    ensures var u := Start(s, r, o).0; OnSchedule(u, u.time.ownerMs, s.settings.timeoutMs)
  {
    hide CheckStart, Reachable, DesiredWord, Formula, IsEffectful, Spent, PastCommand;
    AdmittedFree(s, r, o);
    FreshPlace(Opened(s, r, o, OpId(o.requestId, s.generation)));
  }
}
