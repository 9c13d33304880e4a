/**
  Whole runs: any sequence of public calls against any transport, the small
  steps each call is made of, and the rule that lifts an invariant of the small
  steps to every reachable state.
 */
module Runs {
  import opened Clocks
  import opened Types
  import opened Commands
  import opened Engine
  import Control

  /** One public call. */
  datatype Op =
    | OpBegin(config: Config)
    | OpStart(request: Request, options: Options)
    | OpPoll(now: nat, budget: nat)
    | OpCancel(id: OpId, now: nat)
    | OpTake(id: OpId)
    | OpEnd

  function Do(s: State, op: Op, bus: nat -> Reply): State {
    match op
    case OpBegin(c) => Begin(s, c).0
    case OpStart(r, o) => Start(s, r, o).0
    case OpPoll(now, budget) => Poll(s, now, budget, bus).0
    case OpCancel(id, now) => Cancel(s, id, now).0
    case OpTake(id) => TakeResult(s, id).0
    case OpEnd => End(s)
  }

  /** The state after a sequence of calls; the n-th callback gets the n-th answer. */
  function Run(ops: seq<Op>, c: Clock, bus: nat -> Reply): State {
    if ops == [] then Initial(c) else Do(Run(ops[..|ops| - 1], c, bus), ops[|ops| - 1], bus)
  }

  lemma RunSnoc(ops: seq<Op>, op: Op, c: Clock, bus: nat -> Reply)
    ensures Run(ops + [op], c, bus) == Do(Run(ops, c, bus), op, bus)
  {
    assert (ops + [op])[..|ops|] == ops;
  }

  // ----- Small steps -----

  /** A poll is a watch, perhaps an expiry, and some turns of the loop; any other call is one step. */
  datatype Small =
    | Watch(now: nat)
    | Expiry(now: nat)
    | Turns(now: nat, budget: nat, reply: Reply)
    | Other(op: Op)

  function Apply(s: State, m: Small): State {
    match m
    case Watch(now) => Observe(s, now)
    case Expiry(now) => FinishFailure(s, Timeout, now)
    case Turns(now, budget, reply) => Iterate(s, now, budget, reply).s
    case Other(op) => if op.OpPoll? then s else Do(s, op, _ => Reply(BadCode, BadDisposition, 0, 0, []))
  }

  /** On the linear clock the driver's time is the owner's, or runs ahead of it behind a closed gate. */
  predicate OnTime(s: State, now: nat) {
    s.clock.Linear? ==> s.time.ownerValid && (now == s.time.ownerMs || (now > s.time.ownerMs && GateClosed(s, now)))
  }

  predicate Allowed(s: State, m: Small) {
    match m
    case Watch(_) => true
    case Expiry(now) =>
      s.activeValid && !s.terminalValid && Reached(s.clock, now, s.active.deadlineMs) && OnTime(s, now)
    case Turns(now, budget, reply) => s.activeValid && !s.terminalValid && MayRun(s, now) && OnTime(s, now)
    case Other(op) => !op.OpPoll?
  }

  /** At most one slot is taken, and work in progress is in one of its own phases. */
  predicate Steady(s: State) {
    (s.activeValid ==> Reachable(s.active) && !s.terminalValid) &&
    0 < s.settings.timeoutMs <= 1000 && s.settings.powerUpMs <= POWER_UP_MAX_MS
  }

  /** The small steps keep `inv`, given what `Steady` says. */
  ghost predicate Preserved(inv: State -> bool) {
    forall s: State, m: Small {:trigger Apply(s, m)} ::
      Steady(s) && inv(s) && Allowed(s, m) ==> inv(Apply(s, m))
  }

  lemma FinishSteady(s: State, outcome: Outcome, effect: Effect, status: Err, at: nat)
    requires Steady(s)
    ensures Steady(Finish(s, outcome, effect, status, at)) && !Finish(s, outcome, effect, status, at).activeValid
  {
    hide Reachable;
  }

  lemma FailureSteady(s: State, status: Err, at: nat)
    requires Steady(s)
    ensures Steady(FinishFailure(s, status, at))
  {
    hide Reachable, Finish, Classify, ForgetIf, BlockedIf, EepromUncertain, PartialWork, PartialOutcome;
    if s.activeValid {
      var f := Classify(s, status);
      FinishSteady(Failing(s, status, f), PartialOutcome(s.active, f.outcome), f.effect, status, at);
    }
  }

  lemma DoSteady(s: State, op: Op, bus: nat -> Reply)
    requires Steady(s) && !op.OpPoll?
    ensures Steady(Do(s, op, bus))
  {
    hide Reachable, Finish, ForgetIf, BlockedIf, CancelEffect, Reached, Start, EndActive;
    match op
    case OpStart(r, o) => Control.StartReachable(s, r, o); StartSettings(s, r, o);
    case OpCancel(id, now) => CancelSteady(s, id, now);
    case OpEnd => EndSteady(s);
    case _ =>
  }

  lemma StartSettings(s: State, r: Request, o: Options)
    ensures Start(s, r, o).0.settings == s.settings
  {
    hide CheckStart, Opened;
  }

  lemma CancelSteady(s: State, id: OpId, now: nat)
    requires Steady(s)
    ensures Steady(Cancel(s, id, now).0)
  {
    hide Reachable, Finish, ForgetIf, BlockedIf, CancelEffect, Reached;
    if s.activeValid && s.active.id == id {
      var t := CancelTime(s, now);
      var know := BlockedIf(ForgetIf(s.know, s.active.callbacks != 0 && s.active.wrote), s.active, s.active.wrote);
      FinishSteady(s.(time := s.time.(ownerMs := t, ownerValid := true), know := know),
                   OutcomeCancelled, CancelEffect(s.active), Cancelled, t);
    }
  }

  lemma EndSteady(s: State)
    requires Steady(s)
    ensures Steady(End(s)) && !EndActive(s).activeValid
  {
    hide Reachable, Finish, ForgetIf, BlockedIf;
    if s.activeValid {
      var t := if s.time.ownerValid then s.time.ownerMs else s.active.startedMs;
      var know := BlockedIf(ForgetIf(s.know, s.active.callbacks > 0), s.active, s.active.wrote);
      FinishSteady(s.(know := know), OutcomeCancelled, s.active.effect, Cancelled, t);
    }
  }

  lemma SmallSteady(s: State, m: Small)
    requires Steady(s) && Allowed(s, m)
    ensures Steady(Apply(s, m))
  {
    hide Reachable, Iterate, FinishFailure, Reached, Do, MayRun;
    match m
    case Watch(now) =>
    case Expiry(now) => FailureSteady(s, Timeout, now);
    case Turns(now, budget, reply) =>
      Control.IterateReachable(s, now, budget, reply);
      Control.IterateOwner(s, now, budget, reply);
    case Other(op) => DoSteady(s, op, _ => Reply(BadCode, BadDisposition, 0, 0, []));
  }

  // ----- Lifting -----

  /** The loop's clock only moves forward, and a callback leaves the gate closed behind it. */
  lemma IterateOnTime(s: State, now: nat, budget: nat, reply: Reply)
    requires Control.Live(s) && OnTime(s, now)
    ensures var t := Iterate(s, now, budget, reply);
      t.s.activeValid ==> OnTime(t.s, t.now)
  {
    hide Iterate, Control.Live, Reachable;
    Control.IterateOwner(s, now, budget, reply);
    Control.IterateGate(s, now, budget, reply);
  }

  lemma {:induction false} LiftLoop(inv: State -> bool, s: State, now: nat, budget: nat, transitions: nat,
                                    bus: nat -> Reply)
    requires Preserved(inv) && Steady(s) && inv(s) && (s.activeValid ==> OnTime(s, now))
    ensures var t := Loop(s, now, budget, transitions, bus).s; Steady(t) && inv(t)
    decreases MAX_TRANSITIONS - transitions
  {
    hide Iterate, Reachable, GateClosed;
    if transitions < MAX_TRANSITIONS && MayRun(s, now) {
      var m := Turns(now, budget, bus(s.calls));
      assert Apply(s, m) == Iterate(s, now, budget, bus(s.calls)).s;
      SmallSteady(s, m);
      IterateOnTime(s, now, budget, bus(s.calls));
      var t := Iterate(s, now, budget, bus(s.calls));
      if t.more { LiftLoop(inv, t.s, t.now, t.budget, transitions + 1, bus); }
    }
  }

  lemma LiftPoll(inv: State -> bool, s: State, now: nat, budget: nat, bus: nat -> Reply)
    requires Preserved(inv) && Steady(s) && inv(s)
    ensures var t := Poll(s, now, budget, bus).0; Steady(t) && inv(t)
  {
    hide Reachable, Loop, FinishFailure, Iterate;
    var s1 := Observe(s, now);
    assert Apply(s, Watch(now)) == s1;
    SmallSteady(s, Watch(now));
    if s1.activeValid && !s1.terminalValid && OwnerClockOk(s, now) {
      if Reached(s1.clock, now, s1.active.deadlineMs) {
        assert Apply(s1, Expiry(now)) == FinishFailure(s1, Timeout, now);
        SmallSteady(s1, Expiry(now));
        Control.FailureOwner(s1, Timeout, now);
      }
      LiftLoop(inv, Expire(s1, now), now, budget, 0, bus);
    }
  }

  /** An invariant of the small steps holds in every reachable state. */
  lemma {:induction false} Lift(inv: State -> bool, ops: seq<Op>, c: Clock, bus: nat -> Reply)
    requires Preserved(inv) && inv(Initial(c))
    ensures Steady(Run(ops, c, bus)) && inv(Run(ops, c, bus))
  {
    hide Reachable, Poll, Begin, Start, Cancel, TakeResult, End, Iterate, FinishFailure, Observe;
    if ops != [] {
      var s, op := Run(ops[..|ops| - 1], c, bus), ops[|ops| - 1];
      Lift(inv, ops[..|ops| - 1], c, bus);
      if op.OpPoll? {
        LiftPoll(inv, s, op.now, op.budget, bus);
      } else {
        var m := Other(op);
        SmallSteady(s, m);
        assert Apply(s, m) == Do(s, op, bus);
      }
    }
  }

  lemma TriviallyPreserved()
    ensures Preserved((s: State) => true)
  {
  }

  lemma RunSteady(ops: seq<Op>, c: Clock, bus: nat -> Reply)
    ensures Steady(Run(ops, c, bus))
  {
    hide Run;
    TriviallyPreserved();
    Lift((s: State) => true, ops, c, bus);
  }

  /** The state after further calls. */
  function Resume(s: State, ops: seq<Op>, bus: nat -> Reply): State {
    if ops == [] then s else Do(Resume(s, ops[..|ops| - 1], bus), ops[|ops| - 1], bus)
  }

  lemma {:induction false} RunResumes(first: seq<Op>, more: seq<Op>, c: Clock, bus: nat -> Reply)
    ensures Run(first + more, c, bus) == Resume(Run(first, c, bus), more, bus)
    decreases |more|
  {
    hide Do;
    if more == [] {
      assert first + more == first;
    } else {
      RunResumes(first, more[..|more| - 1], c, bus);
      assert (first + more)[..|first + more| - 1] == first + more[..|more| - 1];
    }
  }

  lemma {:induction false} ResumeSteady(s: State, ops: seq<Op>, bus: nat -> Reply)
    requires Steady(s)
    ensures Steady(Resume(s, ops, bus))
  {
    hide Do, Steady;
    if ops != [] {
      var t, op := Resume(s, ops[..|ops| - 1], bus), ops[|ops| - 1];
      ResumeSteady(s, ops[..|ops| - 1], bus);
      if op.OpPoll? { PollSteady(t, op.now, op.budget, bus); } else { DoSteady(t, op, bus); }
    }
  }

  lemma PollSteady(s: State, now: nat, budget: nat, bus: nat -> Reply)
    requires Steady(s)
    ensures Steady(Poll(s, now, budget, bus).0) && Do(s, OpPoll(now, budget), bus) == Poll(s, now, budget, bus).0
  {
    hide Steady, Poll;
    TriviallyPreserved();
    LiftPoll((x: State) => true, s, now, budget, bus);
  }

  lemma SmallClock(s: State, m: Small)
    requires Steady(s) && Allowed(s, m)
    ensures Apply(s, m).clock == s.clock
  {
    hide Reachable, Iterate, FinishFailure, Reached, MayRun, Finish, CheckStart, BlockedIf, ForgetIf, CancelEffect,
      CancelTime;
    match m
    case Watch(_) =>
    case Expiry(now) => Control.FailureOwner(s, Timeout, now);
    case Turns(now, budget, reply) => Control.IterateOwner(s, now, budget, reply);
    case Other(op) => OtherClock(s, op);
  }

  lemma OtherClock(s: State, op: Op)
    requires !op.OpPoll?
    ensures Apply(s, Other(op)).clock == s.clock
  {
    hide CheckStart, BlockedIf, ForgetIf, CancelEffect, CancelTime, Discarded, Published, ResultOf, Opened;
  }

  /** A driver never changes clocks. */
  lemma SameClock(ops: seq<Op>, c: Clock, bus: nat -> Reply)
    ensures Run(ops, c, bus).clock == c
  {
    hide Apply, Allowed, Run, Steady;
    var inv := (s: State) => s.clock == c;
    assert Preserved(inv) by {
      forall s: State, m: Small | Steady(s) && inv(s) && Allowed(s, m) ensures inv(Apply(s, m)) {
        SmallClock(s, m);
      }
    }
    Lift(inv, ops, c, bus);
  }
}
