/**
  The engine never reads its log: what happened before, how it was counted and
  against which threshold decides nothing.
 */
module Passivity {
  import opened Clocks
  import opened Types
  import opened Engine
  import opened Control
  import opened Runs
  import opened Lens
  import opened Refinement
  import opened Telemetry
  import Spacing

  /** The state without its history. */
  function Bare(s: State): State { s.(log := [], calls := 0) }

  /** A bare state with a history. */
  function Aged(s: State, past: seq<Event>, earlier: nat): State { s.(log := past + s.log, calls := s.calls + earlier) }

  /** What has happened since a log was `n` long. */
  function Tail(log: seq<Event>, n: nat): seq<Event>
    requires n <= |log|
  {
    log[n..]
  }

  function Behind(past: seq<Event>, earlier: nat): Lens { Lens(false, false, past, earlier) }

  lemma PlainEvents(l: Lens, log: seq<Event>)
    requires !l.wrap && !l.blind
    ensures OnEvents(l, log) == log
  {
    forall i | 0 <= i < |log| ensures OnEvents(l, log)[i] == log[i] {}
  }

  lemma PlainState(past: seq<Event>, earlier: nat, s: State)
    ensures On(Behind(past, earlier), s) == Aged(s, past, earlier)
  {
    PlainEvents(Behind(past, earlier), s.log);
  }

  // ----- Only answers still to come matter -----

  ghost predicate AlikeFrom(n: nat, b1: nat -> Reply, b2: nat -> Reply) { forall k | k >= n :: b1(k) == b2(k) }

  lemma {:induction false} LoopAhead(s: State, now: nat, budget: nat, transitions: nat, b1: nat -> Reply,
                                     b2: nat -> Reply)
    requires Steady(s) && AlikeFrom(s.calls, b1, b2)
    ensures var t := Loop(s, now, budget, transitions, b1);
      t == Loop(s, now, budget, transitions, b2) && t.s.calls >= s.calls
    decreases MAX_TRANSITIONS - transitions
  {
    hide Iterate, MayRun, Reachable;
    if transitions < MAX_TRANSITIONS && MayRun(s, now) {
      var t := Iterate(s, now, budget, b1(s.calls));
      RunsLive(s, now);
      IterateGate(s, now, budget, b1(s.calls));
      TurnSteady(s, now, budget, b1(s.calls));
      if t.more { LoopAhead(t.s, t.now, t.budget, transitions + 1, b1, b2); }
    }
  }

  lemma RunsLive(s: State, now: nat)
    requires Steady(s) && MayRun(s, now)
    ensures Live(s)
  {
    hide Reachable;
  }

  lemma TurnSteady(s: State, now: nat, budget: nat, reply: Reply)
    requires Steady(s) && Live(s)
    ensures Steady(Iterate(s, now, budget, reply).s)
  {
    hide Iterate, Reachable;
    IterateReachable(s, now, budget, reply);
    IterateOwner(s, now, budget, reply);
  }

  lemma DoAhead(s: State, op: Op, b1: nat -> Reply, b2: nat -> Reply)
    requires Steady(s) && AlikeFrom(s.calls, b1, b2)
    ensures var t := Do(s, op, b1); t == Do(s, op, b2) && t.calls >= s.calls && Steady(t)
    ensures op.OpPoll? ==> Poll(s, op.now, op.budget, b1) == Poll(s, op.now, op.budget, b2)
  {
    hide Poll, Reachable;
    if op.OpPoll? {
      PollAhead(s, op.now, op.budget, b1, b2);
      TriviallyPreserved();
      LiftPoll((x: State) => true, s, op.now, op.budget, b1);
    } else {
      OtherCalls(s, op, b1);
      DoSteady(s, op, b1);
    }
  }

  lemma PollAhead(s: State, now: nat, budget: nat, b1: nat -> Reply, b2: nat -> Reply)
    requires Steady(s) && AlikeFrom(s.calls, b1, b2)
    ensures Poll(s, now, budget, b1) == Poll(s, now, budget, b2) && Poll(s, now, budget, b1).0.calls >= s.calls
  {
    hide Loop, Report, Reachable, FinishFailure, Reached;
    var s1 := Observe(s, now);
    if s1.activeValid && !s1.terminalValid && OwnerClockOk(s, now) {
      FailureSteady(s1, Timeout, now);
      ExpireCalls(s1, now);
      LoopAhead(Expire(s1, now), now, budget, 0, b1, b2);
    }
  }

  lemma ExpireCalls(s: State, now: nat)
    requires s.activeValid && !s.terminalValid
    ensures Expire(s, now).calls == s.calls
  {
    hide FinishFailure;
    FailureTimes(s, Timeout, now);
  }

  lemma OtherCalls(s: State, op: Op, bus: nat -> Reply)
    requires !op.OpPoll?
    ensures Do(s, op, bus).calls == s.calls
  {
    hide CheckStart, ForgetIf, BlockedIf, CancelEffect, CancelTime, Discarded, Published, ResultOf, Opened;
  }

  // ----- One call -----

  /** `b2` answers after `earlier` callbacks as `b1` does from the start. */
  ghost predicate Continues(b1: nat -> Reply, earlier: nat, b2: nat -> Reply) {
    forall n: nat :: At(b2, earlier, n) == b1(n)
  }

  /** The answer to a callback, counted from a number of callbacks on. */
  function At(bus: nat -> Reply, calls: nat, n: nat): Reply { bus(calls + n) }

  lemma AgedAnswers(past: seq<Event>, earlier: nat, calls: nat, b1: nat -> Reply, b2: nat -> Reply)
    requires Continues(b1, earlier, b2)
    ensures AlikeFrom(earlier + calls, OnBus(Behind(past, earlier), b1), b2)
  {
    var l := Behind(past, earlier);
    forall k | k >= earlier + calls ensures OnBus(l, b1)(k) == b2(k) {
      var n := k - earlier;
      assert At(b2, earlier, n) == b1(n);
      assert OnBus(l, b1)(k) == OnReply(l, b1(n));
    }
  }

  lemma AgedSteady(s: State, past: seq<Event>, earlier: nat)
    requires Steady(s)
    ensures Steady(Aged(s, past, earlier)) && Steady(Bare(s))
  {
    hide Reachable;
  }

  /** What a call tells its caller. */
  datatype Answer = Told(status: Err) | Reported(report: PollResult) | Handed(status: Err,
    result: Option<Result>) | Silent

  function Answered(s: State, op: Op, bus: nat -> Reply): Answer {
    match op
    case OpBegin(c) => Told(Begin(s, c).1)
    case OpStart(r, o) => Told(Start(s, r, o).1)
    case OpPoll(now, budget) => Reported(Poll(s, now, budget, bus).1)
    case OpCancel(id, now) => Told(Cancel(s, id, now).1)
    case OpTake(id) => Handed(TakeResult(s, id).1, TakeResult(s, id).2)
    case OpEnd => Silent
  }

  /** Blindness to thresholds and a past change nothing that a call tells. */
  lemma AnsweredSeen(l: Lens, s: State, op: Op, bus: nat -> Reply)
    requires Steady(s) && !l.wrap
    ensures Answered(On(l, s), OnOp(l, op), OnBus(l, bus)) == Answered(s, op, bus)
  {
    hide On, OnBus, Poll, Begin, Start, Cancel, TakeResult, End, Steady;
    match op
    case OpBegin(c) => SlotSeen(l, s, NO_ID, c);
    case OpStart(r, o) => StartSeen(l, s, 0, r, o);
    case OpPoll(now, budget) => PollSeen(l, s, 0, now, budget, bus);
    case OpCancel(id, now) => CancelSeen(l, s, 0, id, now);
    case OpTake(id) => SlotSeen(l, s, id, Config(false, NO_SETTINGS, 0));
    case OpEnd =>
  }

  lemma AnsweredAhead(s: State, op: Op, b1: nat -> Reply, b2: nat -> Reply)
    requires Steady(s) && AlikeFrom(s.calls, b1, b2)
    ensures Answered(s, op, b1) == Answered(s, op, b2)
  {
    hide Poll, Begin, Start, Cancel, TakeResult, End, Steady;
    DoAhead(s, op, b1, b2);
  }

  /** A call does to a state with a history what it does to a bare one, and adds to the history. */
  lemma AgedDo(s: State, op: Op, past: seq<Event>, earlier: nat, b1: nat -> Reply, b2: nat -> Reply)
    requires Steady(s) && Continues(b1, earlier, b2)
    ensures Do(Aged(s, past, earlier), op, b2) == Aged(Do(s, op, b1), past, earlier)
    ensures Answered(Aged(s, past, earlier), op, b2) == Answered(s, op, b1)
  {
    hide Do, Steady, On, OnBus, Answered;
    var l := Behind(past, earlier);
    DoSeen(l, s, 0, op, b1);
    PlainState(past, earlier, s);
    PlainState(past, earlier, Do(s, op, b1));
    PlainOp(l, op);
    AgedSteady(s, past, earlier);
    AgedAnswers(past, earlier, s.calls, b1, b2);
    DoAhead(Aged(s, past, earlier), op, OnBus(l, b1), b2);
    AnsweredSeen(l, s, op, b1);
    AnsweredAhead(Aged(s, past, earlier), op, OnBus(l, b1), b2);
  }

  lemma PlainOp(l: Lens, op: Op)
    requires !l.wrap && !l.blind
    ensures OnOp(l, op) == op
  {
  }

  /**
    The engine only appends to its log: with another log every call has the same effect, tells the same, and
    adds the same events.
   */
  lemma LogIsNeverRead(s: State, op: Op, bus: nat -> Reply, past: seq<Event>)
    requires Steady(s)
    ensures var t := Do(s, op, bus);
      s.log <= t.log && Do(s.(log := past), op, bus) == t.(log := past + Tail(t.log, |s.log|)) &&
      Answered(s.(log := past), op, bus) == Answered(s, op, bus)
  {
    hide Do, Steady, Answered;
    var e := s.(log := []);
    assert Steady(e) by { EmptySteady(s); }
    AgedDo(e, op, s.log, 0, bus, bus);
    AgedDo(e, op, past, 0, bus, bus);
    assert Aged(e, s.log, 0) == s && Aged(e, past, 0) == s.(log := past);
    var u := Do(e, op, bus);
    assert Tail(s.log + u.log, |s.log|) == u.log;
  }

  lemma EmptySteady(s: State)
    requires Steady(s)
    ensures Steady(s.(log := []))
  {
    hide Reachable;
  }

  // ----- From any state on -----

  lemma {:induction false} AgedResume(s: State, ops: seq<Op>, past: seq<Event>, earlier: nat, b1: nat -> Reply,
                                      b2: nat -> Reply)
    requires Steady(s) && Continues(b1, earlier, b2)
    ensures Resume(Aged(s, past, earlier), ops, b2) == Aged(Resume(s, ops, b1), past, earlier)
  {
    hide Do, Steady, Aged, Continues;
    if ops != [] {
      AgedResume(s, ops[..|ops| - 1], past, earlier, b1, b2);
      ResumeSteady(s, ops[..|ops| - 1], b1);
      AgedDo(Resume(s, ops[..|ops| - 1], b1), ops[|ops| - 1], past, earlier, b1, b2);
    }
  }

  lemma {:induction false} BlindResume(s: State, ops: seq<Op>, bus: nat -> Reply)
    requires Steady(s)
    ensures Resume(On(BLIND, s), OnOps(BLIND, ops), OnBus(BLIND, bus)) == On(BLIND, Resume(s, ops, bus))
  {
    hide Do, Steady, On, OnBus, OnOp;
    if ops != [] {
      var prefix, op := ops[..|ops| - 1], ops[|ops| - 1];
      BlindResume(s, prefix, bus);
      ResumeSteady(s, prefix, bus);
      assert OnOps(BLIND, ops)[..|ops| - 1] == OnOps(BLIND, prefix);
      DoSeen(BLIND, Resume(s, prefix, bus), 0, op, bus);
    }
  }

  // ----- Two drivers with different pasts -----

  /** The events as one who sees no thresholds sees them. */
  function Unmetered(log: seq<Event>): seq<Event> { OnEvents(BLIND, log) }

  lemma BlindState(s: State)
    ensures On(BLIND, s) == Aged(Bare(s), Unmetered(s.log), s.calls)
  {
  }

  /** What a driver does from now on, with thresholds unseen, is what a bare driver does. */
  lemma ResumedBare(s: State, ops: seq<Op>, b: nat -> Reply, ahead: nat -> Reply)
    requires Steady(s) && Continues(ahead, s.calls, b)
    ensures var u, w := Resume(s, ops, b), Resume(Bare(s), OnOps(BLIND, ops), ahead);
      Bare(u) == Bare(w) && s.log <= u.log && Unmetered(Tail(u.log, |s.log|)) == w.log && u.calls == s.calls + w.calls
  {
    hide Resume, Steady, Continues, On, OnOps, OnBus;
    var blind := OnBus(BLIND, b);
    BlindResume(s, ops, b);
    BlindState(s);
    AgedSteady(s, [], 0);
    BlindContinues(ahead, s.calls, b);
    AgedResume(Bare(s), OnOps(BLIND, ops), Unmetered(s.log), s.calls, ahead, blind);
    var u, w := Resume(s, ops, b), Resume(Bare(s), OnOps(BLIND, ops), ahead);
    BlindState(u);
    ResumeGrows(s, ops, b);
    assert Unmetered(u.log) == Unmetered(s.log) + w.log;
    TailUnmetered(u.log, s.log, w.log);
  }

  lemma BlindContinues(ahead: nat -> Reply, earlier: nat, b: nat -> Reply)
    requires Continues(ahead, earlier, b)
    ensures Continues(ahead, earlier, OnBus(BLIND, b))
  {
    forall n: nat ensures At(OnBus(BLIND, b), earlier, n) == ahead(n) {
      assert At(b, earlier, n) == ahead(n);
      BlindReply(b, earlier + n);
    }
  }

  lemma BlindReply(b: nat -> Reply, n: nat)
    ensures OnBus(BLIND, b)(n) == b(n)
  {
    assert OnBus(BLIND, b)(n) == OnReply(BLIND, b(n - BLIND.earlier));
  }

  lemma {:induction false} ResumeGrows(s: State, ops: seq<Op>, b: nat -> Reply)
    requires Steady(s)
    ensures s.log <= Resume(s, ops, b).log
  {
    hide Do, Steady;
    if ops != [] {
      ResumeGrows(s, ops[..|ops| - 1], b);
      ResumeSteady(s, ops[..|ops| - 1], b);
      LogIsNeverRead(Resume(s, ops[..|ops| - 1], b), ops[|ops| - 1], b, []);
    }
  }

  lemma TailUnmetered(log: seq<Event>, past: seq<Event>, more: seq<Event>)
    requires past <= log && Unmetered(log) == Unmetered(past) + more
    ensures Unmetered(Tail(log, |past|)) == more
  {
    hide OnEvent;
    assert |more| == |log| - |past|;
    forall i | 0 <= i < |more| ensures Unmetered(Tail(log, |past|))[i] == more[i] {
      assert Unmetered(log)[|past| + i] == more[i];
    }
  }

  /** Two transports that answer alike from here on. */
  ghost predicate AlikeAhead(b1: nat -> Reply, i: nat, b2: nat -> Reply, j: nat) {
    forall n: nat :: At(b1, i, n) == At(b2, j, n)
  }

  /** The answers to come, counted from the next one. */
  function Ahead(bus: nat -> Reply, calls: nat): nat -> Reply { (n: nat) => At(bus, calls, n) }

  lemma LaterContinues(b1: nat -> Reply, i: nat, b2: nat -> Reply, j: nat, more: nat)
    requires AlikeAhead(b1, i, b2, j)
    ensures Continues(Ahead(b1, i + more), i + more, b1) && Continues(Ahead(b1, i + more), j + more, b2)
  {
    var i', j' := i + more, j + more;
    forall n: nat ensures At(b2, j', n) == At(b1, i', n) {
      var k := more + n;
      assert At(b1, i, k) == At(b2, j, k);
    }
  }

  /**
    Two drivers whose states agree but for their histories, whatever was logged and counted before and against
    whatever thresholds: further calls that differ at most in thresholds, answered alike, leave them in states
    that agree, having added the same events, and then each call tells the same.
   */
  lemma PastIsPassive(s: State, t: State, p: seq<Op>, q: seq<Op>, b1: nat -> Reply, b2: nat -> Reply)
    requires Steady(s) && Steady(t) && Bare(s) == Bare(t) && OnOps(BLIND, p) == OnOps(BLIND, q)
    requires AlikeAhead(b1, s.calls, b2, t.calls)
    ensures var u, v := Resume(s, p, b1), Resume(t, q, b2);
      Bare(u) == Bare(v) && s.log <= u.log && t.log <= v.log &&
      Unmetered(Tail(u.log, |s.log|)) == Unmetered(Tail(v.log, |t.log|)) &&
      u.calls - s.calls == v.calls - t.calls
    ensures var u, v := Resume(s, p, b1), Resume(t, q, b2);
      forall op :: Answered(u, op, b1) == Answered(v, op, b2)
  {
    hide Resume, Steady, Continues, OnOps, Answered, Unmetered, Bare, Tail, AlikeAhead;
    var ahead := Ahead(b1, s.calls);
    LaterContinues(b1, s.calls, b2, t.calls, 0);
    ResumedBare(s, p, b1, ahead);
    ResumedBare(t, q, b2, ahead);
    var u, v := Resume(s, p, b1), Resume(t, q, b2);
    ResumeSteady(s, p, b1);
    ResumeSteady(t, q, b2);
    var w := Resume(Bare(s), OnOps(BLIND, p), ahead);
    LaterContinues(b1, s.calls, b2, t.calls, w.calls);
    forall op ensures Answered(u, op, b1) == Answered(v, op, b2) {
      BareAnswered(u, op, b1, Ahead(b1, u.calls));
      BareAnswered(v, op, b2, Ahead(b1, u.calls));
    }
  }

  /** A call tells a driver's owner what it would tell the owner of a bare one. */
  lemma BareAnswered(s: State, op: Op, b: nat -> Reply, ahead: nat -> Reply)
    requires Steady(s) && Continues(ahead, s.calls, b)
    ensures Answered(s, op, b) == Answered(Bare(s), op, ahead)
  {
    hide Answered, Steady, Do, Continues;
    AgedSteady(s, [], 0);
    AgedDo(Bare(s), op, s.log, s.calls, ahead, b);
    assert Aged(Bare(s), s.log, s.calls) == s;
  }

  // ----- Such drivers exist -----

  const ATTACHING := NO_REQUEST.(kind := Attach)

  function Binding(threshold: nat): Op { OpBegin(Config(true, NO_SETTINGS, threshold)) }

  /** An attachment that is cancelled before its first callback, and one that is polled too late. */
  function Abandoned(threshold: nat): seq<Op> {
    [Binding(threshold), OpStart(ATTACHING, Options(1, 0, 10)), OpCancel(OpId(1, 1), 10), OpTake(OpId(1, 1))]
  }

  function Overdue(threshold: nat): seq<Op> {
    [Binding(threshold), OpStart(ATTACHING, Options(1, 0, 10)), OpPoll(10, 0), OpTake(OpId(1, 1))]
  }

  lemma RunOfFour(a: Op, b: Op, c: Op, d: Op, clock: Clock, bus: nat -> Reply)
    ensures Run([a, b, c, d], clock, bus) == Do(Do(Do(Do(Initial(clock), a, bus), b, bus), c, bus), d, bus)
  {
    hide Do, Initial;
    assert [a] == [] + [a] && [a, b] == [a] + [b] && [a, b, c] == [a, b] + [c] && [a, b, c, d] == [a, b, c] + [d];
    RunSnoc([], a, clock, bus);
    RunSnoc([a], b, clock, bus);
    RunSnoc([a, b], c, clock, bus);
    RunSnoc([a, b, c], d, clock, bus);
  }

  function Opening(threshold: nat): State {
    Do(Do(Initial(Wrapped), Binding(threshold), _ => Reply(BadCode, BadDisposition, 0, 0, [])),
       OpStart(ATTACHING, Options(1, 0, 10)), _ => Reply(BadCode, BadDisposition, 0, 0, []))
  }

  lemma OpeningIs(threshold: nat, bus: nat -> Reply)
    ensures var s := Opening(threshold);
      s == Do(Do(Initial(Wrapped), Binding(threshold), bus), OpStart(ATTACHING, Options(1, 0, 10)), bus) &&
      s.activeValid && !s.terminalValid && s.active.id == OpId(1, 1) && s.active.callbacks == 0 && !s.active.wrote &&
      s.terminal == NO_RESULT && !s.effectful && s.active.request.kind.Attach? && s.active.deadlineMs == 10 &&
      s.time == Timing(0, false, 0, true) && s.clock.Wrapped?
    ensures var s := Opening(threshold); |s.log| == 2 && s.log[0] == Bound(threshold) && s.log[1].Admitted?
    ensures Bare(Opening(threshold)) == Bare(Opening(0))
  {
  }

  /** The opened state with its operation over, and only its log telling how. */
  predicate Closed(s: State, t: State, outcome: Outcome) {
    |t.log| == |s.log| + 2 && s.log <= t.log && t.log[|s.log|].Finished? && t.log[|s.log|].result.outcome == outcome &&
    t.log[|s.log| + 1].Taken? &&
    t == s.(active := NO_ACTIVE, activeValid := false, time := Timing(0, false, 10, true), log := t.log)
  }

  lemma AbandonedIs(threshold: nat, bus: nat -> Reply)
    ensures Closed(Opening(threshold), Run(Abandoned(threshold), Wrapped, bus), OutcomeCancelled)
  {
    hide Initial, Opening, CheckStart, Run;
    OpeningIs(threshold, bus);
    RunOfFour(Binding(threshold), OpStart(ATTACHING, Options(1, 0, 10)), OpCancel(OpId(1, 1), 10), OpTake(OpId(1, 1)),
              Wrapped, bus);
    var s := Opening(threshold);
    var t := Cancel(s, OpId(1, 1), 10).0;
    assert t == s.(active := NO_ACTIVE, activeValid := false, terminal := t.terminal, terminalValid := true,
                   time := Timing(0, false, 10, true), log := t.log);
  }

  lemma OverdueIs(threshold: nat, bus: nat -> Reply)
    ensures Closed(Opening(threshold), Run(Overdue(threshold), Wrapped, bus), TimedOut)
  {
    hide Initial, Opening, CheckStart, Run, Poll;
    OpeningIs(threshold, bus);
    RunOfFour(Binding(threshold), OpStart(ATTACHING, Options(1, 0, 10)), OpPoll(10, 0), OpTake(OpId(1, 1)), Wrapped,
              bus);
    ExpiredOpening(threshold, bus);
  }

  lemma ExpiredOpening(threshold: nat, bus: nat -> Reply)
    ensures var s := Opening(threshold); var t := Poll(s, 10, 0, bus).0;
      t == s.(active := NO_ACTIVE, activeValid := false, terminal := t.terminal, terminalValid := true,
              time := Timing(0, false, 10, true), log := s.log + [Finished(t.terminal)]) &&
      t.terminal.id == OpId(1, 1) && t.terminal.outcome == TimedOut
  {
    hide Initial, Opening, CheckStart, Loop;
    OpeningIs(threshold, bus);
    var s := Opening(threshold);
    var t := FinishFailure(Observe(s, 10), Timeout, 10);
    assert Expire(Observe(s, 10), 10) == t;
    Spacing.OverLoop(t, 10, 0, bus);
  }

  lemma ClosedCounts(s: State, t: State, outcome: Outcome, threshold: nat)
    requires Closed(s, t, outcome) && |s.log| == 2 && s.log[0] == Bound(threshold) && s.log[1].Admitted?
    ensures var m := Summary(t.log);
      m.threshold == threshold && m.health.cancelled == (if outcome.OutcomeCancelled? then 1 else 0) &&
      (outcome.TimedOut? ==> m.health.failed == 1)
  {
    hide Count;
    var e := t.log;
    assert e == [e[0], e[1], e[2], e[3]] && e[0] == s.log[0] && e[1] == s.log[1];
    Logged([], e[0]);
    Logged([e[0]], e[1]);
    Logged([e[0], e[1]], e[2]);
    Logged([e[0], e[1], e[2]], e[3]);
    assert [] + [e[0]] == [e[0]] && [e[0]] + [e[1]] == [e[0], e[1]] && [e[0], e[1]] + [e[2]] == [e[0], e[1], e[2]] &&
      [e[0], e[1], e[2]] + [e[3]] == e;
    ClosedCount(e[0], e[1], e[2], e[3], threshold);
  }

  lemma ClosedCount(a: Event, b: Event, c: Event, d: Event, threshold: nat)
    requires a == Bound(threshold) && b.Admitted? && c.Finished? && d.Taken?
    ensures var m := Count(Count(Count(Count(NO_METER, a), b), c), d);
      m.threshold == threshold && m.health.cancelled == (if c.result.outcome.OutcomeCancelled? then 1 else 0) &&
      (c.result.outcome.TimedOut? ==> m.health.failed == 1) &&
      (c.result.outcome.OutcomeCancelled? ==> m.health.failed == 0)
  {
  }

  /** Bare states that agree can have different counters and thresholds behind them. */
  lemma CountersMayDiffer(x: nat, y: nat, bus: nat -> Reply)
    ensures var s, t := Run(Abandoned(x), Wrapped, bus), Run(Overdue(y), Wrapped, bus);
      Bare(s) == Bare(t) && Summary(s.log).threshold == x && Summary(t.log).threshold == y &&
      Summary(s.log).health.cancelled == 1 && Summary(t.log).health.cancelled == 0 && Summary(t.log).health.failed == 1
  {
    hide Opening, Run, Summary;
    OpeningIs(x, bus);
    OpeningIs(y, bus);
    AbandonedIs(x, bus);
    OverdueIs(y, bus);
    var s, t := Run(Abandoned(x), Wrapped, bus), Run(Overdue(y), Wrapped, bus);
    ClosedCounts(Opening(x), s, OutcomeCancelled, x);
    ClosedCounts(Opening(y), t, TimedOut, y);
  }
}
