/**
  Time on the bus: callbacks respect their deadline, never reach a sensor that is
  still executing the previous command, and a success takes at least its waits.
 */
module Pace {
  import opened Clocks
  import opened Types
  import opened Commands
  import opened Codec
  import opened Engine
  import opened Control
  import opened Runs
  import opened Ledger

  // ----- One callback -----

  /** The callback starts before its deadline, with a positive timeout inside the limit and the time left. */
  predicate Disciplined(c: Clock, call: Call) {
    !Reached(c, call.startMs, call.deadlineMs) &&
    0 < call.timeoutMs <= call.limitMs && call.timeoutMs <= Span(c, call.startMs, call.deadlineMs)
  }

  /** How long the sensor executes a managed command word. */
  function CommandTime(w: Wire): nat {
    if w.Read? then SHORT_MS
    else if w.command == CMD_STOP_PERIODIC then STOP_MS
    else if w.command == CMD_WAKE_UP then POWER_UP_MS
    else if w.command == CMD_SINGLE_SHOT then SINGLE_SHOT_MS
    else if w.command == CMD_SINGLE_SHOT_RHT then SINGLE_SHOT_RHT_MS
    else if w.command == CMD_REINIT then REINIT_MS
    else if w.command == CMD_SELF_TEST then SELF_TEST_MS
    else if w.command == CMD_FORCED_RECALIBRATION then FRC_MS
    else if w.command == CMD_PERSIST_SETTINGS then PERSIST_MS
    else if w.command == CMD_FACTORY_RESET then FACTORY_RESET_MS
    else SHORT_MS
  }

  /** The sensor may have accepted the transfer. */
  predicate MayHaveEffect(call: Call) {
    call.norm.disposition == Complete || call.norm.disposition == Unproven || ExpectedNack(call.intent, call.norm)
  }

  /** The wait kept after a managed callback covers what its command may execute. */
  predicate Covered(call: Call) {
    call.settleMs >= 1 && (MayHaveEffect(call) && !IsDiagnostic(call.kind) ==> call.settleMs >= CommandTime(call.wire))
  }

  predicate Fit(c: Clock, call: Call) { Disciplined(c, call) && Covered(call) }

  predicate AllFit(c: Clock, log: seq<Event>) { forall i | 0 <= i < |log| && log[i].Called? :: Fit(c, log[i].call) }

  lemma NewDisciplined(s: State, send: Send, now: nat, budget: nat, reply: Reply)
    requires Live(s) && MayTransfer(s, now, budget, send)
    ensures Disciplined(s.clock, CallOf(s, send, now, reply))
  {
    hide NormOf, Settle, SendFor, Reachable, Timed, Reached, PersistBlocked, PersistNotNeeded, Span;
    TimeRemains(s, now);
  }

  lemma NewCovered(s: State, send: Send, now: nat, reply: Reply)
    requires Reachable(s.active) && SendFor(s.active) == Some(send)
    ensures Covered(CallOf(s, send, now, reply))
  {
    hide NormOf, TransferTimeout, SendFor, Reachable, ExecutionWait, CommandTime;
    SettlePositive(s.active, send, NormOf(s, send, now, reply));
    if !IsDiagnostic(s.active.request.kind) { CommandCovered(s.active, send); }
  }

  /** The wait for each effectful command is its execution time, and the others are short. */
  lemma CommandCovered(a: Active, send: Send)
    requires Reachable(a) && SendFor(a) == Some(send) && !IsDiagnostic(a.request.kind)
    ensures !send.effectful ==> CommandTime(send.wire) == SHORT_MS
    ensures send.effectful ==>
      CommandTime(send.wire) ==
      if a.request.kind.Attach? then (if a.phase == SendWake then POWER_UP_MS else STOP_MS)
        else ExecutionWait(a.request.kind)
  {
  }

  /** Every callback of every run is disciplined and covered, under clock wrap too. */
  lemma SmallFit(s: State, m: Small)
    requires Steady(s) && AllFit(s.clock, s.log) && Allowed(s, m)
    ensures AllFit(Apply(s, m).clock, Apply(s, m).log)
  {
    hide Reachable, Iterate, FinishFailure, Reached, MayRun, Fit, Do, MayTransfer, CallOf, SendFor;
    SmallClock(s, m);
    match m
    case Watch(_) =>
    case Expiry(now) => FailureOwner(s, Timeout, now);
    case Turns(now, budget, reply) =>
      IterateOwner(s, now, budget, reply);
      var t := Iterate(s, now, budget, reply).s;
      if |t.log| > |s.log| && t.log[|s.log|].Called? {
        var send := SendFor(s.active).value;
        NewDisciplined(s, send, now, budget, reply);
        NewCovered(s, send, now, reply);
        assert Fit(s.clock, t.log[|s.log|].call) by { FitBoth(s.clock, t.log[|s.log|].call); }
      }
    case Other(op) => OtherAdds(s, op);
  }

  lemma FitBoth(c: Clock, call: Call)
    requires Disciplined(c, call) && Covered(call)
    ensures Fit(c, call)
  {
  }

  lemma AlwaysFit(ops: seq<Op>, c: Clock, bus: nat -> Reply)
    ensures AllFit(c, Run(ops, c, bus).log)
  {
    hide AllFit, Steady, Apply, Allowed, Run;
    var inv := (s: State) => AllFit(s.clock, s.log);
    assert Preserved(inv) by {
      forall s: State, m: Small | Steady(s) && inv(s) && Allowed(s, m) ensures inv(Apply(s, m)) {
        SmallFit(s, m);
      }
    }
    assert inv(Initial(c)) by { InitialFit(c); }
    Lift(inv, ops, c, bus);
    SameClock(ops, c, bus);
  }

  lemma InitialFit(c: Clock)
    ensures AllFit(Initial(c).clock, Initial(c).log)
  {
  }

  // ----- One poll -----

  lemma {:induction false} ClosedLoop(s: State, now: nat, budget: nat, transitions: nat, bus: nat -> Reply)
    requires Steady(s) && (s.activeValid ==> GateClosed(s, now))
    ensures Loop(s, now, budget, transitions, bus).s.calls == s.calls
    decreases MAX_TRANSITIONS - transitions
  {
    hide Iterate, Reachable, GateClosed;
    if transitions < MAX_TRANSITIONS && MayRun(s, now) {
      var t := Iterate(s, now, budget, bus(s.calls));
      IterateGate(s, now, budget, bus(s.calls));
      IterateReachable(s, now, budget, bus(s.calls));
      IterateOwner(s, now, budget, bus(s.calls));
      MoreIsActive(s, now, budget, bus(s.calls));
      if t.more {
        GateKept(s, t.s, now);
        ClosedLoop(t.s, t.now, t.budget, transitions + 1, bus);
      }
    }
  }

  lemma GateKept(s: State, t: State, now: nat)
    requires GateClosed(s, now) && t.time == s.time && t.clock == s.clock
    ensures GateClosed(t, now)
  {
  }

  lemma {:induction false} LoopCallsOnce(s: State, now: nat, budget: nat, transitions: nat, bus: nat -> Reply)
    requires Steady(s)
    ensures var t := Loop(s, now, budget, transitions, bus);
      s.calls <= t.s.calls <= s.calls + 1 && (budget == 0 ==> t.s.calls == s.calls)
    decreases MAX_TRANSITIONS - transitions
  {
    hide Iterate, Reachable, GateClosed;
    if transitions < MAX_TRANSITIONS && MayRun(s, now) {
      var t := Iterate(s, now, budget, bus(s.calls));
      IterateGate(s, now, budget, bus(s.calls));
      IterateReachable(s, now, budget, bus(s.calls));
      IterateOwner(s, now, budget, bus(s.calls));
      MoreIsActive(s, now, budget, bus(s.calls));
      if t.more {
        if t.s.calls == s.calls {
          LoopCallsOnce(t.s, t.now, t.budget, transitions + 1, bus);
        } else {
          ClosedLoop(t.s, t.now, t.budget, transitions + 1, bus);
        }
      }
    }
  }

  lemma MoreIsActive(s: State, now: nat, budget: nat, reply: Reply)
    ensures Iterate(s, now, budget, reply).more ==>
      Iterate(s, now, budget, reply).s.activeValid && Iterate(s, now, budget, reply).budget != 0
  {
    hide Step, FinishFailure;
  }

  /** One poll makes at most one callback, whatever its budget, and none without budget. */
  lemma OneCallbackPerPoll(s: State, now: nat, budget: nat, bus: nat -> Reply)
    requires Steady(s)
    ensures var t := Poll(s, now, budget, bus).0;
      s.calls <= t.calls <= s.calls + 1 && (budget == 0 ==> t.calls == s.calls)
  {
    hide Reachable, Loop, Discarded, Published, ResultOf, Classify, ForgetIf, BlockedIf, EepromUncertain, PartialWork,
      PartialOutcome, Reached;
    var s1 := Observe(s, now);
    if s1.activeValid && OwnerClockOk(s, now) {
      FailureSteady(s1, Timeout, now);
      LoopCallsOnce(Expire(s1, now), now, budget, 0, bus);
    }
  }

  /** The loop stops by its own checks within `n` iterations, far from its cap. */
  predicate StopsWithin(s: State, now: nat, budget: nat, n: nat, bus: nat -> Reply)
    decreases n
  {
    !MayRun(s, now) ||
    (n > 0 &&
     (var t := Iterate(s, now, budget, bus(s.calls));
      !t.more || StopsWithin(t.s, t.now, t.budget, n - 1, bus)))
  }

  /** Behind a closed gate an iteration changes at most the due time, and is the last. */
  lemma ClosedStops(s: State, now: nat, budget: nat, bus: nat -> Reply)
    requires Live(s) && GateClosed(s, now)
    ensures !Iterate(s, now, budget, bus(s.calls)).more
  {
    hide PhaseStep, Reachable, FinishFailure;
  }

  /** A phase that does not rest is transferred, held or ended; what follows is behind a closed gate. */
  lemma WorkingStops(s: State, now: nat, budget: nat, bus: nat -> Reply)
    requires Live(s) && !GateClosed(s, now) && !Resting(s.active)
    ensures StopsWithin(s, now, budget, 2, bus)
  {
    hide Reachable, Iterate, Resting, Fits, Leads, GateClosed;
    var t := Iterate(s, now, budget, bus(s.calls));
    MoreIsActive(s, now, budget, bus(s.calls));
    if MayRun(s, now) && t.more {
      IterateGate(s, now, budget, bus(s.calls));
      IterateReachable(s, now, budget, bus(s.calls));
      IterateOwner(s, now, budget, bus(s.calls));
      if t.s.calls != s.calls {
        ClosedStops(t.s, t.now, t.budget, bus);
      } else {
        IdleIteration(s, now, budget, bus(s.calls));
      }
    }
  }

  /** Without a callback a working phase is stuck or over. */
  lemma IdleIteration(s: State, now: nat, budget: nat, reply: Reply)
    requires Live(s) && !GateClosed(s, now) && !Resting(s.active)
    ensures var t := Iterate(s, now, budget, reply); t.s.calls == s.calls ==> !t.more
  {
    hide Reachable, Iterate, Resting, Transferred, NormOf, Judge, TransferStatus, ReadEnd, WriteEnd, MissEnd, Wakes,
      Reached, SetMode, ResponseWords, KnowAfterSend, SendFor, Timed, AllWordsOk, Words, Buffer, PersistBlocked,
      PersistNotNeeded, GateClosed, Finish, FinishFailure;
    var c := Shape(s, now, budget, reply);
    match c
    case Held(due) => HeldStops(s, now, budget, reply);
    case Roused(_) =>
    case Quiet(k, w, outcome, effect, status) =>
      FinishTimes(s.(know := k, work := w), outcome, effect, status, now);
      MoreIsActive(s, now, budget, reply);
    case Expired =>
      FailureCloses(s, Timeout, now);
      MoreIsActive(s, now, budget, reply);
    case _ => CallsMove(s, now, reply, c);
  }

  lemma HeldStops(s: State, now: nat, budget: nat, reply: Reply)
    requires Live(s) && !GateClosed(s, now)
    requires Iterate(s, now, budget, reply).s == s && Iterate(s, now, budget, reply).budget == budget
    ensures !Iterate(s, now, budget, reply).more
  {
    hide Step, Reachable, Reached, GateClosed;
    if Iterate(s, now, budget, reply).more { SameAfterFailure(s, now, budget, reply); }
  }

  lemma SameAfterFailure(s: State, now: nat, budget: nat, reply: Reply)
    requires Live(s) && Iterate(s, now, budget, reply).more
    ensures var io := Step(s, now, budget, reply);
      Iterate(s, now, budget, reply).s == io.s && Iterate(s, now, budget, reply).budget == io.budget
  {
    hide Step, FinishFailure;
  }

  lemma WokenWorks(a: Active)
    requires Reachable(a) && Resting(a) && !EndsAfterWait(a.request.kind)
    ensures !Resting(a.(phase := Wakes(a)))
  {
  }

  lemma RestingStops(s: State, now: nat, budget: nat, bus: nat -> Reply)
    requires Live(s) && !GateClosed(s, now) && Resting(s.active)
    ensures StopsWithin(s, now, budget, 3, bus)
  {
    hide Reachable, Iterate, Resting, Transferred, NormOf, Judge, TransferStatus, ReadEnd, WriteEnd, MissEnd, Wakes,
      Reached, SetMode, ResponseWords, KnowAfterSend, SendFor, Timed, AllWordsOk, Words, Buffer, PersistBlocked,
      PersistNotNeeded, GateClosed, Finish, FinishFailure, MayRun;
    var reply := bus(s.calls);
    var t := Iterate(s, now, budget, reply);
    MoreIsActive(s, now, budget, reply);
    var c := Shape(s, now, budget, reply);
    match c
    case Held(due) => HeldStops(s, now, budget, reply);
    case Roused(k) =>
      if t.more {
        IterateReachable(s, now, budget, reply);
        IterateOwner(s, now, budget, reply);
        WokenWorks(s.active);
        OpenStays(s, t.s, now);
        WorkingStops(t.s, now, t.budget, bus);
      }
    case Quiet(k, w, outcome, effect, status) => FinishTimes(s.(know := k, work := w), outcome, effect, status, now);
    case Expired => FailureCloses(s, Timeout, now);
    case _ => RestingSilent(s.active);
  }

  lemma OpenStays(s: State, t: State, now: nat)
    requires !GateClosed(s, now) && t.time == s.time && t.clock == s.clock
    ensures !GateClosed(t, now)
  {
  }

  lemma RestingSilent(a: Active)
    requires Resting(a)
    ensures SendFor(a).None?
  {
  }

  /** The poll loop always ends by its own progress checks, after at most three iterations: the cap of 32 never acts. */
  lemma LoopEndsByItself(s: State, now: nat, budget: nat, bus: nat -> Reply)
    requires Steady(s)
    ensures StopsWithin(s, now, budget, 3, bus)
  {
    hide Reachable, Iterate, Resting, GateClosed;
    if s.activeValid {
      if GateClosed(s, now) {
        ClosedStops(s, now, budget, bus);
      } else if Resting(s.active) {
        RestingStops(s, now, budget, bus);
      } else {
        WorkingStops(s, now, budget, bus);
        StopsLonger(s, now, budget, 2, bus);
      }
    }
  }

  lemma {:induction false} StopsLonger(s: State, now: nat, budget: nat, n: nat, bus: nat -> Reply)
    requires StopsWithin(s, now, budget, n, bus)
    ensures StopsWithin(s, now, budget, n + 1, bus)
    decreases n
  {
    hide Iterate, MayRun;
    if MayRun(s, now) {
      var t := Iterate(s, now, budget, bus(s.calls));
      if t.more { StopsLonger(t.s, t.now, t.budget, n - 1, bus); }
    }
  }

  /** So a loop that was allowed only three more iterations would give the same result. */
  lemma {:induction false} CapUnused(s: State, now: nat, budget: nat, n: nat, transitions: nat, bus: nat -> Reply)
    requires StopsWithin(s, now, budget, n, bus) && transitions + n <= MAX_TRANSITIONS
    ensures Loop(s, now, budget, transitions, bus) == Loop(s, now, budget, MAX_TRANSITIONS - n, bus)
    decreases n
  {
    hide Iterate;
    if MayRun(s, now) && n > 0 {
      var t := Iterate(s, now, budget, bus(s.calls));
      if t.more {
        CapUnused(t.s, t.now, t.budget, n - 1, transitions + 1, bus);
        CapUnused(t.s, t.now, t.budget, n - 1, MAX_TRANSITIONS - n + 1, bus);
      }
    }
  }
}
