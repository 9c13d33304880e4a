/**
  The driver on 32-bit times is the driver on mathematical integers, seen modulo
  2^32: same requests, same results, same decisions, over whole runs.
 */
module Refinement {
  import opened Clocks
  import opened Types
  import opened Commands
  import opened Codec
  import opened Engine
  import opened Exchanges
  import opened Control
  import opened Runs
  import opened Lens
  import opened Windows
  import Pace
  import Ledger
  import Evidence

  /** The answers through the lens; those to earlier callbacks are of no interest. */
  function OnBus(l: Lens, bus: nat -> Reply): nat -> Reply {
    (n: nat) => OnReply(l, if n < l.earlier then bus(0) else bus(n - l.earlier))
  }

  /** Without a callback the answer does not matter. */
  lemma AnswerUnused(s: State, now: nat, budget: nat, r1: Reply, r2: Reply)
    requires Live(s) && !CanTransfer(s, now, budget)
    ensures Iterate(s, now, budget, r1) == Iterate(s, now, budget, r2)
  {
    hide Exchange, Reachable, Resting, Timed, Rested, PersistAnswer, FinishFailure, SendFor, GateClosed, Reached;
    LiveSlot(s);
    if !Resting(s.active) {
      AlwaysSends(s.active);
      if budget == 0 {
        BrokeExchange(s, now, r1);
        BrokeExchange(s, now, r2);
      }
    }
  }

  /** An iteration that may transfer does. */
  lemma TransferHappens(s: State, now: nat, budget: nat, reply: Reply)
    requires Live(s) && CanTransfer(s, now, budget)
    ensures var t := Iterate(s, now, budget, reply);
      |t.s.log| > |s.log| && t.s.log[|s.log|] == Called(CallOf(s, SendFor(s.active).value, now, reply))
  {
    hide Iterate, Live, Finish, FinishFailure, Transferred, NormOf, Judge, TransferStatus, Wakes, Resting,
      ResponseWords, KnowAfterSend, Reachable, Words, AllWordsOk, WriteEnd, ReadEnd, MissEnd, SetMode, EndsAfterWait,
      CallOf, SendFor, PersistBlocked, PersistNotNeeded, Timed, GateClosed, Reached;
    LiveSlot(s);
    var c := Shape(s, now, budget, reply);
    SendingRests(s.active);
    var send := SendFor(s.active).value;
    var n := NormOf(s, send, now, reply);
    var x := Transferred(s, send, now, reply);
    TransferredFrame(s, send, now, reply);
    match c
    case Held(due) =>
    case Roused(_) =>
    case Quiet(_, _, _, _, _) =>
    case Expired =>
    case Wrote(_, k) => WriteEndOwner(x, k, TransferStatus(s.clock, s.active.deadlineMs, send.intent, n), n.doneMs);
    case Fetched(_, words) =>
      assert ResponseWords(x.active) == ResponseWords(s.active) by { TransferredFrame(s, send, now, reply); }
      ReadEndOwner(x, Judge(x, words, n.doneMs), n.doneMs);
    case Missed(_, status, p) => MissEndOwner(x, status, p, n.doneMs);
  }

  lemma SendingRests(a: Active)
    requires SendFor(a).Some?
    ensures !Resting(a)
  {
  }

  /** The windows, needed only when the lens wraps. */
  predicate Framed(l: Lens, s: State, now: nat) { l.wrap ==> s.activeValid ==> Window(s, now) && OnTime(s, now) }

  lemma OnLive(l: Lens, s: State)
    ensures Live(On(l, s)) == Live(s)
  {
    hide T, C, N;
    SameStep(s.active, OnActive(l, s.active));
  }

  lemma FramedNear(l: Lens, s: State, now: nat, budget: nat, reply: Reply)
    requires Live(s) && Framed(l, s, now)
    requires l.wrap ==> -(HALF as int) <= reply.completedMs - now < QUARTER
    ensures StepNear(l, s, now, budget, reply)
    ensures l.wrap ==> !Reached(s.clock, now, s.active.deadlineMs)
  {
    hide Reachable;
  }

  /** A step that leaves the operation going is an iteration that does. */
  lemma StepGoesOn(s: State, now: nat, budget: nat, reply: Reply)
    requires Live(s)
    ensures var io := Step(s, now, budget, reply); var t := Iterate(s, now, budget, reply);
      io.s.activeValid && (io.status == Ok || io.status == InProgress) ==> t.s == io.s && t.now == io.now
    ensures Step(s, now, budget, reply).s.clock == s.clock
  {
    hide Step, FinishFailure;
    StepReachable(s, now, budget, reply);
    IterateOwner(s, now, budget, reply);
    if Step(s, now, budget, reply).s.clock != s.clock {
      FailureOwner(Step(s, now, budget, reply).s, Step(s, now, budget, reply).status, Step(s, now, budget, reply).now);
    }
  }

  lemma FramedDone(l: Lens, s: State, now: nat, budget: nat, reply: Reply)
    requires Live(s) && Framed(l, s, now)
    requires l.wrap ==> -(HALF as int) <= reply.completedMs - now < QUARTER
    ensures StepDone(l, s, Step(s, now, budget, reply))
  {
    hide Step, Iterate, Reachable, OnTime;
    StepGoesOn(s, now, budget, reply);
    if l.wrap { IterateWindow(s, now, budget, reply); }
  }

  /** One iteration, with the answer that it may or may not use. */
  lemma TurnSeen(l: Lens, s: State, now: nat, budget: nat, reply: Reply)
    requires Live(s) && Framed(l, s, now)
    requires l.wrap ==> CallsPunctual(Iterate(s, now, budget, reply).s.log)
    ensures Iterate(On(l, s), T(l, now), budget, OnReply(l, reply)) == OnTurn(l, Iterate(s, now, budget, reply))
    ensures var t := Iterate(s, now, budget, reply); Framed(l, t.s, t.now)
  {
    hide Iterate, Live, Framed, T, C, On, OnTime, Window, StepNear, StepDone, CallOf, OnReply, MayTransfer, SendFor;
    var r := if CanTransfer(s, now, budget) then reply else reply.(completedMs := now);
    if l.wrap && CanTransfer(s, now, budget) {
      TransferHappens(s, now, budget, reply);
      CallOfFacts(s, SendFor(s.active).value, now, reply);
    }
    OnLive(l, s);
    FramedNear(l, s, now, budget, r);
    FramedDone(l, s, now, budget, r);
    StepGoesOn(s, now, budget, r);
    assert l.wrap ==> s.clock.Linear? by { FramedLinear(l, s, now); }
    IterateSeen(l, s, now, budget, r);
    FramedKept(l, s, now, budget, r);
    if !CanTransfer(s, now, budget) {
      AnswerUnused(s, now, budget, reply, r);
      CannotTransferSeen(l, s, now, budget, r);
      AnswerUnused(On(l, s), T(l, now), budget, OnReply(l, reply), OnReply(l, r));
    }
  }

  lemma FramedLinear(l: Lens, s: State, now: nat)
    requires Framed(l, s, now) && Live(s)
    ensures l.wrap ==> s.clock.Linear?
  {
  }

  lemma FramedKept(l: Lens, s: State, now: nat, budget: nat, reply: Reply)
    requires Live(s) && Framed(l, s, now)
    requires l.wrap ==> -(HALF as int) <= reply.completedMs - now < QUARTER
    ensures var t := Iterate(s, now, budget, reply); Framed(l, t.s, t.now)
  {
    hide Iterate, Reachable, OnTime, Window;
    LiveSlot(s);
    if l.wrap {
      IterateWindow(s, now, budget, reply);
      IterateOnTime(s, now, budget, reply);
    }
  }

  lemma CallOfFacts(s: State, send: Send, now: nat, reply: Reply)
    ensures CallOf(s, send, now, reply).raw == reply && CallOf(s, send, now, reply).startMs == now
  {
  }

  lemma CannotTransferSeen(l: Lens, s: State, now: nat, budget: nat, reply: Reply)
    requires Live(s) && StepNear(l, s, now, budget, reply)
    ensures CanTransfer(On(l, s), T(l, now), budget) == CanTransfer(s, now, budget)
  {
    hide T, C, N, Timed, SendFor, Reached, GateClosed, StepNear, OnKnow, OnValue, OnResult, OnLog, Reachable,
      PersistBlocked, PersistNotNeeded;
    StepClocks(l, s, now, budget, reply);
    PlaceSeen(l, s.active);
    PersistSeen(l, s);
  }

  lemma {:induction false} LoopSeen(l: Lens, s: State, now: nat, budget: nat, transitions: nat, bus: nat -> Reply)
    requires Steady(s) && Framed(l, s, now)
    requires l.wrap ==> CallsPunctual(Loop(s, now, budget, transitions, bus).s.log)
    ensures Loop(On(l, s), T(l, now), budget, transitions, OnBus(l, bus)) == OnTurn(l,
      Loop(s, now, budget, transitions, bus))
    decreases MAX_TRANSITIONS - transitions
  {
    hide Iterate, Reachable, T, C, Framed, CallsPunctual, GateClosed, OnActive, OnKnow, OnValue, OnTiming, OnResult,
      OnLog;
    if transitions < MAX_TRANSITIONS {
      if s.activeValid { MayRunSeen(l, s, now); }
      if MayRun(s, now) {
        var t := Iterate(s, now, budget, bus(s.calls));
        IterateReachable(s, now, budget, bus(s.calls));
        IterateOwner(s, now, budget, bus(s.calls));
        if t.more { LoopLog(t.s, t.now, t.budget, transitions + 1, bus); }
        if l.wrap { PunctualPrefix(t.s.log, Loop(s, now, budget, transitions, bus).s.log); }
        TurnSeen(l, s, now, budget, bus(s.calls));
        if t.more { LoopSeen(l, t.s, t.now, t.budget, transitions + 1, bus); }
      }
    }
  }

  lemma MayRunSeen(l: Lens, s: State, now: nat)
    requires Live(s) && Framed(l, s, now)
    ensures MayRun(On(l, s), T(l, now)) == MayRun(s, now)
  {
    hide T, C, N, Reached, GateClosed, StepNear, OnKnow, OnValue, OnResult, OnLog, Reachable, Framed;
    var r := Reply(CodeOk, Complete, 0, now, []);
    FramedNear(l, s, now, 0, r);
    StepClocks(l, s, now, 0, r);
  }

  lemma PunctualPrefix(a: seq<Event>, b: seq<Event>)
    requires a <= b && CallsPunctual(b)
    ensures CallsPunctual(a)
  {
    forall i | 0 <= i < |a| && a[i].Called? ensures CallPunctual(a[i].call) { assert a[i] == b[i]; }
  }

  lemma {:induction false} LoopLog(s: State, now: nat, budget: nat, transitions: nat, bus: nat -> Reply)
    requires Steady(s)
    ensures s.log <= Loop(s, now, budget, transitions, bus).s.log
    decreases MAX_TRANSITIONS - transitions
  {
    hide Iterate, Reachable;
    if transitions < MAX_TRANSITIONS && MayRun(s, now) {
      var t := Iterate(s, now, budget, bus(s.calls));
      IterateReachable(s, now, budget, bus(s.calls));
      IterateOwner(s, now, budget, bus(s.calls));
      if t.more { LoopLog(t.s, t.now, t.budget, transitions + 1, bus); }
    }
  }

  // ----- The windows over whole calls -----

  lemma {:induction false} LoopWindow(s: State, now: nat, budget: nat, transitions: nat, bus: nat -> Reply)
    requires Steady(s) && GateWindow(s) && (s.activeValid ==> Window(s, now) && OnTime(s, now))
    requires CallsPunctual(Loop(s, now, budget, transitions, bus).s.log)
    ensures var t := Loop(s, now, budget, transitions, bus);
      Steady(t.s) && SameOwner(s, t.s) && GateWindow(t.s) &&
      (t.s.activeValid ==> Window(t.s, t.now) && (transitions < MAX_TRANSITIONS || ResetWaits(s) ==> ResetWaits(t.s)))
    decreases MAX_TRANSITIONS - transitions
  {
    hide Iterate, Reachable, Window, CallsPunctual, GateWindow, ResetWaits, OnTime;
    if transitions < MAX_TRANSITIONS {
      if MayRun(s, now) {
        var t := Iterate(s, now, budget, bus(s.calls));
        IterateReachable(s, now, budget, bus(s.calls));
        IterateOwner(s, now, budget, bus(s.calls));
        if t.more { LoopLog(t.s, t.now, t.budget, transitions + 1, bus); }
        PunctualPrefix(t.s.log, Loop(s, now, budget, transitions, bus).s.log);
        CallAnswered(s, now, budget, bus(s.calls));
        IterateWindow(s, now, budget, bus(s.calls));
        IterateOnTime(s, now, budget, bus(s.calls));
        if t.more {
          Pace.MoreIsActive(s, now, budget, bus(s.calls));
          LoopWindow(t.s, t.now, t.budget, transitions + 1, bus);
        }
      } else if s.activeValid {
        NotRunWaits(s, now);
      }
    }
  }

  lemma NotRunWaits(s: State, now: nat)
    requires s.activeValid && !MayRun(s, now) && Window(s, now)
    ensures ResetWaits(s)
  {
  }

  lemma CallAnswered(s: State, now: nat, budget: nat, reply: Reply)
    requires Live(s) && CallsPunctual(Iterate(s, now, budget, reply).s.log)
    ensures Iterate(s, now, budget, reply).s.calls != s.calls ==> reply.completedMs - now < QUARTER
  {
    hide Iterate, Live, MayTransfer, SendFor, CallOf;
    if CanTransfer(s, now, budget) {
      TransferHappens(s, now, budget, reply);
      CallOfFacts(s, SendFor(s.active).value, now, reply);
    } else {
      SilentIteration(s, now, budget, reply);
    }
  }

  lemma SilentIteration(s: State, now: nat, budget: nat, reply: Reply)
    requires Live(s) && !CanTransfer(s, now, budget)
    ensures Iterate(s, now, budget, reply).s.calls == s.calls
  {
    hide Iterate, Live, Transferred, NormOf, Judge, TransferStatus, Wakes, Resting, MayTransfer, ResponseWords,
      KnowAfterSend, Reachable, Words, AllWordsOk, WriteEnd, ReadEnd, MissEnd, SetMode, EndsAfterWait, CallOf, SendFor,
      PersistBlocked, PersistNotNeeded, Timed, GateClosed, Reached, Finish, FinishFailure;
    LiveSlot(s);
    var c := Shape(s, now, budget, reply);
    if Transfers(c) { TransferCan(s, now, budget, reply, c); }
    match c
    case Quiet(k, w, outcome, effect, status) =>
      Ledger.FinishCloses(s.(know := k, work := w), outcome, effect, status, now);
    case Expired => Ledger.FailureCloses(s, Timeout, now);
    case _ =>
  }

  lemma TransferCan(s: State, now: nat, budget: nat, reply: Reply, c: Case)
    requires Fits(s, now, budget, reply, c) && Transfers(c)
    ensures CanTransfer(s, now, budget)
  {
    hide SendFor, Reached, GateClosed, Timed, PersistBlocked, PersistNotNeeded, TransferStatus, NormOf, KnowAfterSend,
      ResponseWords;
  }

  // ----- Punctual owners -----

  /** The owner's time is not long behind its last and not long after the last poll. */
  predicate OwnerPunctual(s: State, last: nat, now: nat) {
    s.time.ownerValid ==> s.time.ownerMs - HALF <= now < last + QUARTER
  }

  /** A call that 32-bit time can follow. */
  predicate Punctual(s: State, last: nat, op: Op, bus: nat -> Reply) {
    match op
    case OpPoll(now, _) => OwnerPunctual(s, last, now) && CallsPunctual(Do(s, op, bus).log)
    case OpStart(_, o) => OwnerPunctual(s, last, o.nowMs) && -(HALF as int) <= o.deadlineMs - o.nowMs < WRAP
    case OpCancel(_, now) => OwnerPunctual(s, last, now)
    case _ => true
  }

  /** The last accepted poll, or the first accepted time. */
  function LastPoll(s: State, last: nat, op: Op): nat {
    match op
    case OpPoll(now, _) => if OwnerClockOk(s, now) then now else last
    case OpStart(r, o) => if !s.time.ownerValid && CheckStart(s, r, o) == Ok then o.nowMs else last
    case _ => last
  }

  function LastOf(ops: seq<Op>, bus: nat -> Reply): nat {
    if ops == [] then 0 else LastPoll(Run(ops[..|ops| - 1], Linear, bus), LastOf(ops[..|ops| - 1], bus), ops[|ops| - 1])
  }

  predicate AllPunctual(ops: seq<Op>, bus: nat -> Reply) {
    ops == [] ||
    (AllPunctual(ops[..|ops| - 1], bus) &&
     Punctual(Run(ops[..|ops| - 1], Linear, bus), LastOf(ops[..|ops| - 1], bus), ops[|ops| - 1], bus))
  }

  lemma WatchWindow(s: State, last: nat, now: nat)
    requires Steady(s) && Between(s, last) && OwnerPunctual(s, last, now) && OwnerClockOk(s, now)
    ensures var s1 := Observe(s, now);
      GateWindow(s1) && s1.time.ownerMs == now && OnTime(s1, now) &&
      (s1.activeValid && !Reached(s1.clock, now, s1.active.deadlineMs) ==> Window(s1, now))
  {
    hide Reachable;
  }

  lemma PollBetween(s: State, last: nat, now: nat, budget: nat, bus: nat -> Reply)
    requires Steady(s) && Between(s, last) && Punctual(s, last, OpPoll(now, budget), bus)
    ensures Between(Poll(s, now, budget, bus).0, LastPoll(s, last, OpPoll(now, budget)))
  {
    hide Reachable, Loop, FinishFailure, Reached, Between, Window, GateWindow, CallsPunctual, ResetWaits, OnTime;
    if OwnerClockOk(s, now) {
      var s1 := Observe(s, now);
      WatchWindow(s, last, now);
      BetweenFacts(s, last);
      if s1.activeValid {
        var s2 := Expire(s1, now);
        FailureSteady(s1, Timeout, now);
        FailureTimes(s1, Timeout, now);
        FailureOwner(s1, Timeout, now);
        if s2 != s1 { GateAlike(s1, s2); }
        LoopWindow(s2, now, budget, 0, bus);
        var t := Loop(s2, now, budget, 0, bus);
        LoopBetween(t.s, t.now, now);
      } else {
        LoopBetween(s1, now, now);
      }
    } else {
      assert Observe(s, now) == s;
    }
  }

  lemma BetweenFacts(s: State, last: nat)
    requires Between(s, last)
    ensures s.clock.Linear? && s.settings.powerUpMs <= POWER_UP_MAX_MS
  {
  }

  /** After a poll the windows are anchored at it. */
  lemma LoopBetween(t: State, at: nat, now: nat)
    requires t.time.ownerValid && t.time.ownerMs == now && t.clock.Linear? && t.settings.powerUpMs <= POWER_UP_MAX_MS
    requires GateWindow(t) && (t.activeValid ==> Window(t, at) && ResetWaits(t))
    ensures Between(t, now)
  {
  }

  lemma OtherBetween(s: State, last: nat, op: Op, bus: nat -> Reply)
    requires Steady(s) && Between(s, last) && Punctual(s, last, op, bus) && !op.OpPoll?
    ensures Between(Do(s, op, bus), LastPoll(s, last, op))
  {
    hide Reachable, Finish, CheckStart, CancelEffect, BlockedIf, ForgetIf, Start, Cancel, End;
    match op
    case OpStart(r, o) =>
      if CheckStart(s, r, o) == Ok { StartBetween(s, last, r, o); } else { Evidence.StartRefused(s, r, o); }
    case OpCancel(id, now) => CancelBetween(s, last, id, now);
    case OpEnd => EndBetween(s, last);
    case _ =>
  }

  lemma StartBetween(s: State, last: nat, r: Request, o: Options)
    requires Steady(s) && Between(s, last) && OwnerPunctual(s, last, o.nowMs) && CheckStart(s, r, o) == Ok
    ensures Between(Start(s, r, o).0, LastPoll(s, last, OpStart(r, o)))
  {
    hide Reachable, CheckStart, DesiredWord, IsEffectful;
    Ledger.AdmittedFree(s, r, o);
  }

  lemma CancelBetween(s: State, last: nat, id: OpId, now: nat)
    requires Steady(s) && Between(s, last) && OwnerPunctual(s, last, now)
    ensures Between(Cancel(s, id, now).0, last)
  {
    hide Reachable, Finish, BlockedIf, ForgetIf, CancelEffect;
    if s.activeValid && s.active.id == id {
      var t := CancelTime(s, now);
      var know := BlockedIf(ForgetIf(s.know, s.active.callbacks != 0 && s.active.wrote), s.active, s.active.wrote);
      var y := s.(time := s.time.(ownerMs := t, ownerValid := true), know := know);
      FinishTimes(y, OutcomeCancelled, CancelEffect(s.active), Cancelled, t);
      FinishOwner(y, OutcomeCancelled, CancelEffect(s.active), Cancelled, t);
    }
  }

  lemma EndBetween(s: State, last: nat)
    requires Steady(s) && Between(s, last)
    ensures Between(End(s), last)
  {
    hide Reachable, Finish, BlockedIf, ForgetIf;
    if s.activeValid {
      var t := if s.time.ownerValid then s.time.ownerMs else s.active.startedMs;
      var y := s.(know := BlockedIf(ForgetIf(s.know, s.active.callbacks > 0), s.active, s.active.wrote));
      FinishTimes(y, OutcomeCancelled, s.active.effect, Cancelled, t);
      FinishOwner(y, OutcomeCancelled, s.active.effect, Cancelled, t);
    }
    EndSteady(s);
  }

  lemma {:induction false} RunBetween(ops: seq<Op>, bus: nat -> Reply)
    requires AllPunctual(ops, bus)
    ensures Steady(Run(ops, Linear, bus)) && Between(Run(ops, Linear, bus), LastOf(ops, bus))
  {
    hide Steady, Between, Do, Punctual, LastPoll;
    if ops == [] {
      InitialBetween();
    } else {
      var prefix, op := ops[..|ops| - 1], ops[|ops| - 1];
      RunBetween(prefix, bus);
      StepBetween(Run(prefix, Linear, bus), LastOf(prefix, bus), op, bus);
    }
  }

  lemma StepBetween(s: State, last: nat, op: Op, bus: nat -> Reply)
    requires Steady(s) && Between(s, last) && Punctual(s, last, op, bus)
    ensures Steady(Do(s, op, bus)) && Between(Do(s, op, bus), LastPoll(s, last, op))
  {
    hide Steady, Between, Punctual, LastPoll, Poll;
    if op.OpPoll? {
      PollBetween(s, last, op.now, op.budget, bus);
      TriviallyPreserved();
      LiftPoll((s: State) => true, s, op.now, op.budget, bus);
    } else {
      OtherBetween(s, last, op, bus);
      DoSteady(s, op, bus);
    }
  }

  lemma InitialBetween()
    ensures Steady(Initial(Linear)) && Between(Initial(Linear), 0)
  {
  }

  // ----- Public calls through the lens -----

  function OnOptions(l: Lens, o: Options): Options { o.(nowMs := T(l, o.nowMs), deadlineMs := T(l, o.deadlineMs)) }

  function OnPollResult(l: Lens, r: PollResult): PollResult { r.(nextDueMs := T(l, r.nextDueMs)) }

  function OnOp(l: Lens, op: Op): Op {
    match op
    case OpBegin(c) => OpBegin(if l.blind then c.(offlineThreshold := 0) else c)
    case OpStart(r, o) => OpStart(r, OnOptions(l, o))
    case OpPoll(now, budget) => OpPoll(T(l, now), budget)
    case OpCancel(id, now) => OpCancel(id, T(l, now))
    case OpTake(id) => OpTake(id)
    case OpEnd => OpEnd
  }

  lemma OwnerSeen(l: Lens, s: State, last: nat, now: nat)
    requires l.wrap ==> Between(s, last) && OwnerPunctual(s, last, now)
    ensures OwnerClockOk(On(l, s), T(l, now)) == OwnerClockOk(s, now)
  {
    hide T, C, N, Reached;
    if s.time.ownerValid { ReachedSeen(l, s.clock, now, s.time.ownerMs); }
  }

  lemma GateSeen(l: Lens, s: State, last: nat, now: nat)
    requires l.wrap ==> Between(s, last) && OwnerPunctual(s, last, now) && OwnerClockOk(s, now)
    ensures GateClosed(On(l, s), T(l, now)) == GateClosed(s, now)
  {
    hide T, C, N, OnKnow, OnValue, OnResult, OnLog, OnActive;
    if s.time.gateValid {
      ReachedSeen(l, s.clock, now, s.time.gateMs);
    }
  }

  lemma ObserveSeen(l: Lens, s: State, last: nat, now: nat)
    requires l.wrap ==> Between(s, last) && OwnerPunctual(s, last, now)
    ensures Observe(On(l, s), T(l, now)) == On(l, Observe(s, now))
  {
    hide T, C, N, Reached, Between, OnKnow, OnValue, OnResult, OnLog, OnActive;
    OwnerSeen(l, s, last, now);
    if OwnerClockOk(s, now) && s.time.gateValid {
      GateSeen(l, s, last, now);
    }
  }

  lemma ReportSeen(l: Lens, s: State, last: nat, status: Err, used: nat)
    requires l.wrap ==> Between(s, last)
    ensures Report(On(l, s), status, used) == OnPollResult(l, Report(s, status, used))
  {
    hide T, C, N, Reached, OnKnow, OnValue, OnLog;
    ConstantsSeen(l);
    if s.activeValid { ReachedSeen(l, s.clock, s.active.nextDueMs, s.active.deadlineMs); }
  }

  /** An expiry is seen alike: a reset that still waits is not long past its due time. */
  lemma ExpireSeen(l: Lens, s: State, last: nat, now: nat)
    requires s.activeValid
    requires l.wrap ==> Between(s, last) && OwnerPunctual(s, last, now) && OwnerClockOk(s, now)
    ensures Expire(On(l, Observe(s, now)), T(l, now)) == On(l, Expire(Observe(s, now), now))
  {
    hide T, C, N, Reached, FinishFailure, OnKnow, OnValue, OnResult, OnLog, OnTiming;
    hide Between, OwnerClockOk, OwnerPunctual;
    var s1 := Observe(s, now);
    ExpireNear(l, s, last, now);
    ReachedSeen(l, s1.clock, now, s1.active.deadlineMs);
    FailureSeen(l, s1, Timeout, now);
  }

  lemma ExpireNear(l: Lens, s: State, last: nat, now: nat)
    requires s.activeValid
    requires l.wrap ==> Between(s, last) && OwnerPunctual(s, last, now) && OwnerClockOk(s, now)
    ensures var s1 := Observe(s, now);
      Near(l, s1.clock, now, s1.active.deadlineMs) && EndNear(l, s1, now)
  {
  }

  lemma PollSeen(l: Lens, s: State, last: nat, now: nat, budget: nat, bus: nat -> Reply)
    requires Steady(s) && (l.wrap ==> Between(s, last) && Punctual(s, last, OpPoll(now, budget), bus))
    ensures var p, q := Poll(s, now, budget, bus), Poll(On(l, s), T(l, now), budget, OnBus(l, bus));
      q.0 == On(l, p.0) && q.1 == OnPollResult(l, p.1)
  {
    hide T, C, N, Reached, Between, OnKnow, OnValue, OnResult, OnLog, OnActive, OnTiming, Loop, Expire, Report,
      Reachable, OnPollResult, OwnerClockOk, CallsPunctual, Framed, Observe;
    var s1 := Observe(s, now);
    ObserveSeen(l, s, last, now);
    OwnerSeen(l, s, last, now);
    ObserveKeeps(s, now);
    var last1 := LastPoll(s, last, OpPoll(now, budget));
    if l.wrap { PollBetween(s, last, now, budget, bus); }
    if s1.terminalValid || !s1.activeValid {
      ReportSeen(l, s1, last1, Ok, 0);
    } else if !OwnerClockOk(s, now) {
      ReportSeen(l, s1, last, InvalidParam, 0);
    } else {
      ExpireSeen(l, s, last, now);
      var s2 := Expire(s1, now);
      ExpireFramed(l, s, last, now);
      LoopSeen(l, s2, now, budget, 0, bus);
      var t := Loop(s2, now, budget, 0, bus);
      ReportSeen(l, t.s, last1, InProgress, if t.budget <= budget then budget - t.budget else 0);
    }
  }

  lemma ObserveKeeps(s: State, now: nat)
    ensures var t := Observe(s, now);
      t.activeValid == s.activeValid && t.terminalValid == s.terminalValid && (!OwnerClockOk(s, now) ==> t == s)
  {
  }

  lemma ExpireFramed(l: Lens, s: State, last: nat, now: nat)
    requires Steady(s) && s.activeValid && OwnerClockOk(s, now)
    requires l.wrap ==> Between(s, last) && OwnerPunctual(s, last, now)
    ensures var s2 := Expire(Observe(s, now), now); Steady(s2) && Framed(l, s2, now)
  {
    hide Reachable, FinishFailure, Reached, Between, Window, OnTime;
    var s1 := Observe(s, now);
    FailureSteady(s1, Timeout, now);
    FailureTimes(s1, Timeout, now);
    if l.wrap { WatchWindow(s, last, now); }
  }

  lemma CheckSeen(l: Lens, s: State, last: nat, r: Request, o: Options)
    requires l.wrap ==>
      Between(s, last) && Punctual(s, last, OpStart(r, o), _ => Reply(BadCode, BadDisposition, 0, 0, []))
    ensures CheckStart(On(l, s), r, OnOptions(l, o)) == CheckStart(s, r, o)
  {
    hide T, C, N, Reached, Between, OnValue, OnResult, OnLog, OnActive, GateClosed, CheckRequest, Admission,
      DeadlineValid, LimitsOf;
    OwnerSeen(l, s, last, o.nowMs);
    AdmissionSeen(l, s.know, r.kind);
    if l.wrap { BetweenFacts(s, last); }
    DeadlineSeen(l, s, o);
    if OwnerClockOk(s, o.nowMs) { GateSeen(l, s, last, o.nowMs); }
  }

  lemma AdmissionSeen(l: Lens, k: Knowledge, kind: Kind)
    ensures Admission(OnKnow(l, k), kind) == Admission(k, kind)
  {
    hide T;
  }

  lemma DeadlineSeen(l: Lens, s: State, o: Options)
    requires l.wrap ==> s.clock.Linear? && -(HALF as int) <= o.deadlineMs - o.nowMs < WRAP
    ensures DeadlineValid(C(l, s.clock), T(l, o.nowMs), T(l, o.deadlineMs)) == DeadlineValid(s.clock, o.nowMs,
      o.deadlineMs)
  {
    if l.wrap {
      assert (Wrap(o.deadlineMs) - Wrap(o.nowMs)) % WRAP == (o.deadlineMs - o.nowMs) % WRAP;
    }
  }

  lemma StartSeen(l: Lens, s: State, last: nat, r: Request, o: Options)
    requires l.wrap ==>
      Between(s, last) && Punctual(s, last, OpStart(r, o), _ => Reply(BadCode, BadDisposition, 0, 0, []))
    ensures var p, q := Start(s, r, o), Start(On(l, s), r, OnOptions(l, o));
      q.0 == On(l, p.0) && q.1 == p.1
  {
    hide T, C, N, CheckStart, Between, OnKnow, OnResult, OnLog, DesiredWord, IsEffectful, After, FirstPhase;
    CheckSeen(l, s, last, r, o);
    ConstantsSeen(l);
    if l.wrap { BetweenFacts(s, last); }
    AfterSeen(l, s.clock, o.nowMs, s.settings.powerUpMs);
    LogSeen(l, s.log, Admitted(OpId(o.requestId, s.generation), r, o.nowMs, o.deadlineMs));
  }

  lemma CancelTimeSeen(l: Lens, s: State, last: nat, now: nat)
    requires s.activeValid && (l.wrap ==> Between(s, last) && OwnerPunctual(s, last, now))
    ensures CancelTime(On(l, s), T(l, now)) == T(l, CancelTime(s, now))
    ensures l.wrap ==> s.time.ownerMs <= CancelTime(s, now) < last + QUARTER
  {
    hide T, C, N, OnKnow, OnValue, OnResult, OnLog, OnActive, Reached;
    OwnerSeen(l, s, last, now);
    if l.wrap { CancelSoon(s, last, now); }
  }

  lemma CancelSoon(s: State, last: nat, now: nat)
    requires s.activeValid && Between(s, last) && OwnerPunctual(s, last, now)
    ensures s.time.ownerMs <= CancelTime(s, now) < last + QUARTER
  {
  }

  lemma CancelSeen(l: Lens, s: State, last: nat, id: OpId, now: nat)
    requires l.wrap ==> Between(s, last) && OwnerPunctual(s, last, now)
    ensures var p, q := Cancel(s, id, now), Cancel(On(l, s), id, T(l, now));
      q.0 == On(l, p.0) && q.1 == p.1
  {
    hide T, C, N, Finish, BlockedIf, ForgetIf, OnResult, OnLog, OnValue, Between, CancelTime, OnSample, CancelEffect;
    if s.activeValid && s.active.id == id {
      CancelTimeSeen(l, s, last, now);
      var t := CancelTime(s, now);
      var a := s.active;
      StopKnowSeen(l, s.know, a, a.callbacks != 0 && a.wrote);
      CancelEffectSeen(l, a);
      var y := s.(time := s.time.(ownerMs := t, ownerValid := true),
                  know := BlockedIf(ForgetIf(s.know, a.callbacks != 0 && a.wrote), a, a.wrote));
      StopNear(l, s, last, y, t, now);
      FinishSeen(l, y, OutcomeCancelled, CancelEffect(a), Cancelled, t);
    }
  }

  lemma CancelEffectSeen(l: Lens, a: Active)
    ensures CancelEffect(OnActive(l, a)) == CancelEffect(a)
  {
    hide T;
  }

  lemma StopKnowSeen(l: Lens, k: Knowledge, a: Active, forget: bool)
    ensures BlockedIf(ForgetIf(OnKnow(l, k), forget), OnActive(l, a), a.wrote) == OnKnow(l,
      BlockedIf(ForgetIf(k, forget), a, a.wrote))
  {
    hide T;
  }

  lemma StopNear(l: Lens, s: State, last: nat, y: State, at: nat, now: nat)
    requires s.activeValid && y.active == s.active && y.clock == s.clock
    requires l.wrap ==> Between(s, last) && s.time.ownerMs <= at < last + QUARTER
    ensures EndNear(l, y, at)
  {
  }

  lemma EndSeen(l: Lens, s: State, last: nat)
    requires l.wrap ==> Between(s, last)
    ensures End(On(l, s)) == On(l, End(s))
  {
    hide T, C, N, OnResult, OnLog, OnValue, Between, EndActive;
    EndActiveSeen(l, s, last);
    LogSeen(l, EndActive(s).log, Unbound);
  }

  lemma EndActiveSeen(l: Lens, s: State, last: nat)
    requires l.wrap ==> Between(s, last)
    ensures EndActive(On(l, s)) == On(l, EndActive(s))
  {
    hide T, C, N, Finish, BlockedIf, ForgetIf, OnResult, OnLog, OnValue, Between;
    if s.activeValid && !s.terminalValid {
      var a := s.active;
      var t := if s.time.ownerValid then s.time.ownerMs else a.startedMs;
      StopKnowSeen(l, s.know, a, a.callbacks > 0);
      var y := s.(know := BlockedIf(ForgetIf(s.know, a.callbacks > 0), a, a.wrote));
      if l.wrap { EndTime(s, last); }
      StopNear(l, s, last, y, t, t);
      FinishSeen(l, y, OutcomeCancelled, a.effect, Cancelled, t);
    }
  }

  lemma EndTime(s: State, last: nat)
    requires Between(s, last) && s.activeValid
    ensures s.time.ownerValid && s.time.ownerMs < last + QUARTER && s.clock.Linear?
  {
  }

  lemma SlotSeen(l: Lens, s: State, id: OpId, c: Config)
    ensures var p, q := TakeResult(s, id), TakeResult(On(l, s), id);
      q.0 == On(l, p.0) && q.1 == p.1 && q.2 == (if p.2.Some? then Some(OnResult(l, p.2.value)) else None)
    ensures var p, q := Begin(s, c), Begin(On(l, s), if l.blind then c.(offlineThreshold := 0) else c);
      q.0 == On(l, p.0) && q.1 == p.1
  {
    hide T, C, N, OnLog;
    ConstantsSeen(l);
    LogSeen(l, s.log, Taken(id));
    LogSeen(l, s.log, Bound(c.offlineThreshold));
  }

  lemma DoSeen(l: Lens, s: State, last: nat, op: Op, bus: nat -> Reply)
    requires Steady(s) && (l.wrap ==> Between(s, last) && Punctual(s, last, op, bus))
    ensures Do(On(l, s), OnOp(l, op), OnBus(l, bus)) == On(l, Do(s, op, bus))
  {
    hide On, Poll, Begin, Start, Cancel, TakeResult, End, Between, T, C, Steady;
    match op
    case OpBegin(c) => SlotSeen(l, s, NO_ID, c);
    case OpStart(r, o) => StartSeen(l, s, last, r, o);
    case OpPoll(now, budget) => PollSeen(l, s, last, now, budget, bus);
    case OpCancel(id, now) => CancelSeen(l, s, last, id, now);
    case OpTake(id) => SlotSeen(l, s, id, Config(false, NO_SETTINGS, 0));
    case OpEnd => EndSeen(l, s, last);
  }

  function OnOps(l: Lens, ops: seq<Op>): (m: seq<Op>)
    ensures |m| == |ops| && forall i | 0 <= i < |ops| :: m[i] == OnOp(l, ops[i])
  {
    seq(|ops|, i requires 0 <= i < |ops| => OnOp(l, ops[i]))
  }

  lemma {:induction false} RunSeen(l: Lens, ops: seq<Op>, c: Clock, bus: nat -> Reply)
    requires l.past == [] && l.earlier == 0 && (l.wrap ==> c.Linear? && AllPunctual(ops, bus))
    ensures Run(OnOps(l, ops), C(l, c), OnBus(l, bus)) == On(l, Run(ops, c, bus))
  {
    hide Do, Punctual, Between, Steady, LastPoll, OnOp;
    if ops == [] {
      InitialSeen(l, c);
    } else {
      var prefix, op := ops[..|ops| - 1], ops[|ops| - 1];
      RunSeen(l, prefix, c, bus);
      assert OnOps(l, ops)[..|ops| - 1] == OnOps(l, prefix);
      var s := Run(prefix, c, bus);
      RunSteady(prefix, c, bus);
      if l.wrap { RunBetween(prefix, bus); }
      DoSeen(l, s, LastOf(prefix, bus), op, bus);
    }
  }

  lemma InitialSeen(l: Lens, c: Clock)
    requires l.past == [] && l.earlier == 0
    ensures On(l, Initial(c)) == Initial(C(l, c))
  {
    ConstantsSeen(l);
  }

  // ----- The two lenses -----

  const MODULO := Lens(true, false, [], 0)
  const BLIND := Lens(false, true, [], 0)

  /**
    The wrapped clock refines unbounded time: for an owner and a transport that keep inside the windows,
    the 32-bit driver fed 32-bit times goes through exactly the states of the driver on mathematical
    integers, times taken modulo 2^32; its log shows the same callbacks with the same bytes and timeouts.
   */
  lemma WrappedRefinesLinear(ops: seq<Op>, bus: nat -> Reply)
    requires AllPunctual(ops, bus)
    ensures Run(OnOps(MODULO, ops), Wrapped, OnBus(MODULO, bus)) == On(MODULO, Run(ops, Linear, bus))
    ensures var w, s := Run(OnOps(MODULO, ops), Wrapped, OnBus(MODULO, bus)), Run(ops, Linear, bus);
      |w.log| == |s.log| && w.calls == s.calls &&
      forall i | 0 <= i < |s.log| && s.log[i].Called? ::
        w.log[i].Called? && w.log[i].call.wire == s.log[i].call.wire && w.log[i].call.intent == s.log[i].call.intent &&
        w.log[i].call.timeoutMs == s.log[i].call.timeoutMs && w.log[i].call.startMs == Wrap(s.log[i].call.startMs)
  {
    hide Run, AllPunctual;
    RunSeen(MODULO, ops, Linear, bus);
  }

  /** And the next call answers alike. */
  lemma WrappedAnswersAlike(ops: seq<Op>, bus: nat -> Reply, now: nat, budget: nat)
    requires AllPunctual(ops + [OpPoll(now, budget)], bus)
    ensures var s := Run(ops, Linear, bus);
      Poll(On(MODULO, s), Wrap(now), budget, OnBus(MODULO, bus)).1 == OnPollResult(MODULO, Poll(s, now, budget, bus).1)
  {
    hide Run, Poll, Punctual, Between, Steady;
    var all := ops + [OpPoll(now, budget)];
    assert all[..|ops|] == ops;
    RunSteady(ops, Linear, bus);
    RunBetween(ops, bus);
    PollSeen(MODULO, Run(ops, Linear, bus), LastOf(ops, bus), now, budget, bus);
  }

  // ----- The transport is its answers -----

  lemma {:induction false} LoopByAnswers(s: State, now: nat, budget: nat, transitions: nat, b1: nat -> Reply,
                                         b2: nat -> Reply)
    requires forall n :: b1(n) == b2(n)
    ensures Loop(s, now, budget, transitions, b1) == Loop(s, now, budget, transitions, b2)
    decreases MAX_TRANSITIONS - transitions
  {
    hide Iterate, MayRun;
    if transitions < MAX_TRANSITIONS && MayRun(s, now) {
      var t := Iterate(s, now, budget, b1(s.calls));
      if t.more { LoopByAnswers(t.s, t.now, t.budget, transitions + 1, b1, b2); }
    }
  }

  lemma DoByAnswers(s: State, op: Op, b1: nat -> Reply, b2: nat -> Reply)
    requires forall n :: b1(n) == b2(n)
    ensures Do(s, op, b1) == Do(s, op, b2)
    ensures op.OpPoll? ==> Poll(s, op.now, op.budget, b1) == Poll(s, op.now, op.budget, b2)
  {
    hide Begin, Start, Cancel, TakeResult, End, Loop, Report, Observe, Expire;
    if op.OpPoll? {
      LoopByAnswers(Expire(Observe(s, op.now), op.now), op.now, op.budget, 0, b1, b2);
    }
  }

  lemma {:induction false} RunByAnswers(ops: seq<Op>, c: Clock, b1: nat -> Reply, b2: nat -> Reply)
    requires forall n :: b1(n) == b2(n)
    ensures Run(ops, c, b1) == Run(ops, c, b2)
  {
    hide Do;
    if ops != [] {
      RunByAnswers(ops[..|ops| - 1], c, b1, b2);
      DoByAnswers(Run(ops[..|ops| - 1], c, b1), ops[|ops| - 1], b1, b2);
    }
  }
}
