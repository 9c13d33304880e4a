/** What a never-contradicted log means: exactly-once results, distinct identities, conserved counters. */
module Accounts {
  import opened Clocks
  import opened Types
  import opened Engine
  import opened Control
  import opened Runs
  import opened Telemetry
  import opened Ledger

  // ----- Exactly once -----

  /** Events that belong to the operation in progress. */
  predicate InProgressEvent(e: Event) { e.Called? || e.ProtocolError? }

  /** A contradiction is never repaired. */
  lemma Prefixes(log: seq<Event>, n: nat)
    requires n <= |log| && !Audit(log).Contradicted?
    ensures !Audit(log[..n]).Contradicted?
    decreases |log|
  {
    if n < |log| {
      Prefixes(log[..|log| - 1], n);
      assert log[..|log| - 1][..n] == log[..n];
    } else {
      assert log[..n] == log;
    }
  }

  /** Work in progress goes back to its admission without interruption. */
  lemma {:induction false} OpenedAt(log: seq<Event>) returns (i: nat)
    requires Audit(log).Working?
    ensures i < |log| &&
      log[i] == Admitted(Audit(log).id, Audit(log).request, Audit(log).startedMs, Audit(log).deadlineMs)
    ensures forall m | i < m < |log| :: InProgressEvent(log[m])
    ensures |Audit(log).calls| <= |log|
  {
    var rest, e := log[..|log| - 1], log[|log| - 1];
    if e.Admitted? {
      i := |log| - 1;
    } else {
      i := OpenedAt(rest);
    }
  }

  /**
    Every result closes one admission: same id, kind, start and deadline, with only that operation's events between.
   */
  lemma ResultHasAdmission(log: seq<Event>, j: nat) returns (i: nat)
    requires !Audit(log).Contradicted? && j < |log| && log[j].Finished?
    ensures var r := log[j].result;
      i < j && log[i].Admitted? && log[i].id == r.id && log[i].request.kind == r.kind &&
      log[i].startedMs == r.startedMs && log[i].deadlineMs == r.deadlineMs &&
      forall m | i < m < j :: InProgressEvent(log[m])
  {
    Prefixes(log, j + 1);
    assert log[..j + 1] == log[..j] + [log[j]];
    AuditSnoc(log[..j], log[j]);
    i := OpenedAt(log[..j]);
  }

  /** Every taking hands out a result that was still pending: nothing but unbinding came between. */
  lemma {:induction false} HeldSince(log: seq<Event>) returns (i: nat)
    requires Audit(log).Holding?
    ensures i < |log| && log[i].Finished? && log[i].result == Audit(log).result
    ensures forall m | i < m < |log| :: log[m].Unbound?
  {
    if log[|log| - 1].Finished? {
      i := |log| - 1;
    } else {
      i := HeldSince(log[..|log| - 1]);
    }
  }

  lemma TakenWasPending(log: seq<Event>, j: nat) returns (i: nat)
    requires !Audit(log).Contradicted? && j < |log| && log[j].Taken?
    ensures i < j && log[i].Finished? && log[i].result.id == log[j].id
    ensures forall m | i < m < j :: log[m].Unbound?
  {
    Prefixes(log, j + 1);
    assert log[..j + 1] == log[..j] + [log[j]];
    AuditSnoc(log[..j], log[j]);
    i := HeldSince(log[..j]);
  }

  /** Admissions, results and takings so far. */
  datatype Flow = Flow(admitted: nat, finished: nat, taken: nat)

  function Flows(log: seq<Event>): Flow {
    if log == [] then Flow(0, 0, 0)
    else
      var f := Flows(log[..|log| - 1]);
      match log[|log| - 1]
      case Admitted(_, _, _, _) => f.(admitted := f.admitted + 1)
      case Finished(_) => f.(finished := f.finished + 1)
      case Taken(_) => f.(taken := f.taken + 1)
      case _ => f
  }

  lemma {:induction false} FlowConserved(log: seq<Event>)
    requires !Audit(log).Contradicted?
    ensures var f := Flows(log);
      f.admitted == f.finished + (if Audit(log).Working? then 1 else 0) &&
      f.finished == f.taken + (if Audit(log).Holding? then 1 else 0)
  {
    if log != [] {
      Prefixes(log, |log| - 1);
      FlowConserved(log[..|log| - 1]);
    }
  }

  /**
    Exactly once, over any run: every admission is working or has its one result,
    and every result is pending or was taken once.
   */
  lemma ExactlyOnce(ops: seq<Op>, c: Clock, bus: nat -> Reply)
    ensures var s := Run(ops, c, bus);
      var f := Flows(s.log);
      !Audit(s.log).Contradicted? &&
      f.admitted == f.finished + (if s.activeValid then 1 else 0) &&
      f.finished == f.taken + (if s.terminalValid then 1 else 0)
  {
    hide Run, Audit, Flows;
    AlwaysBalanced(ops, c, bus);
    FlowConserved(Run(ops, c, bus).log);
  }

  // ----- Distinct identities -----

  /** Generations count admissions, skipping zero. */
  predicate Numbered(log: seq<Event>) {
    forall i | 0 <= i < |log| && log[i].Admitted? :: log[i].id.generation == Flows(log[..i]).admitted % MAX_U32 + 1
  }

  predicate Counted(s: State) {
    s.generation == Flows(s.log).admitted % MAX_U32 + 1 && Numbered(s.log)
  }

  /** Events other than admissions change no count of admissions. */
  lemma {:induction false} QuietGrowth(log: seq<Event>, n: nat)
    requires n <= |log| && Numbered(log[..n]) && forall i | n <= i < |log| :: !log[i].Admitted?
    ensures Flows(log).admitted == Flows(log[..n]).admitted && Numbered(log)
    decreases |log|
  {
    if n == |log| {
      assert log[..n] == log;
    } else {
      var rest := log[..|log| - 1];
      assert rest[..n] == log[..n];
      QuietGrowth(rest, n);
      forall i | 0 <= i < |log| && log[i].Admitted?
        ensures log[i].id.generation == Flows(log[..i]).admitted % MAX_U32 + 1
      {
        assert rest[i] == log[i] && rest[..i] == log[..i];
      }
    }
  }

  lemma FlowsSnoc(log: seq<Event>, e: Event)
    requires e.Admitted?
    ensures Flows(log + [e]).admitted == Flows(log).admitted + 1
  {
    assert (log + [e])[..|log|] == log;
  }

  lemma AdmissionCounted(log: seq<Event>, e: Event)
    requires Numbered(log) && e.Admitted? && e.id.generation == Flows(log).admitted % MAX_U32 + 1
    ensures Numbered(log + [e]) && Flows(log + [e]).admitted == Flows(log).admitted + 1
  {
    hide Flows;
    var l := log + [e];
    FlowsSnoc(log, e);
    assert l[..|log|] == log;
    forall i | 0 <= i < |l| && l[i].Admitted? ensures l[i].id.generation == Flows(l[..i]).admitted % MAX_U32 + 1 {
      if i < |log| { assert log[i] == l[i] && log[..i] == l[..i]; }
    }
  }

  lemma GrowthCounted(s: State, t: State)
    requires Counted(s) && t.generation == s.generation && s.log <= t.log
    requires forall i | |s.log| <= i < |t.log| :: !t.log[i].Admitted?
    ensures Counted(t)
  {
    hide Flows;
    assert t.log[..|s.log|] == s.log;
    QuietGrowth(t.log, |s.log|);
  }

  lemma SmallCounted(s: State, m: Small)
    requires Steady(s) && Counted(s) && Allowed(s, m)
    ensures Counted(Apply(s, m))
  {
    hide Counted, Reachable, Iterate, FinishFailure, Reached, MayRun, Finish, CheckStart, Forget, BlockedIf, ForgetIf,
      CancelEffect, CancelTime, Admission;
    match m
    case Watch(_) => GrowthCounted(s, Apply(s, m));
    case Expiry(now) =>
      FailureOwner(s, Timeout, now);
      GrowthCounted(s, FinishFailure(s, Timeout, now));
    case Turns(now, budget, reply) =>
      IterateOwner(s, now, budget, reply);
      GrowthCounted(s, Iterate(s, now, budget, reply).s);
    case Other(op) =>
      if op.OpStart? {
        StartCounted(s, op.request, op.options);
      } else {
        OtherAdds(s, op);
        GrowthCounted(s, Apply(s, m));
      }
  }

  lemma StartCounted(s: State, r: Request, o: Options)
    requires Counted(s)
    ensures Counted(Start(s, r, o).0)
  {
    hide CheckStart, Opened, Flows;
    AdmissionCounted(s.log, Admitted(OpId(o.requestId, s.generation), r, o.nowMs, o.deadlineMs));
  }

  lemma AlwaysCounted(ops: seq<Op>, c: Clock, bus: nat -> Reply)
    ensures Counted(Run(ops, c, bus))
  {
    hide Counted, Steady, Apply, Allowed, Run;
    assert Preserved(Counted) by {
      forall s: State, m: Small | Steady(s) && Counted(s) && Allowed(s, m) ensures Counted(Apply(s, m)) {
        SmallCounted(s, m);
      }
    }
    assert Counted(Initial(c)) by { InitialCounted(c); }
    Lift(Counted, ops, c, bus);
  }

  lemma InitialCounted(c: Clock)
    ensures Counted(Initial(c))
  {
  }

  lemma {:induction false} FlowsMonotone(log: seq<Event>, i: nat)
    requires i < |log| && log[i].Admitted?
    ensures Flows(log[..i]).admitted < Flows(log).admitted
    decreases |log|
  {
    if i < |log| - 1 {
      FlowsMonotone(log[..|log| - 1], i);
      assert log[..|log| - 1][..i] == log[..i];
    }
  }

  /** Identities of admissions fewer than 2^32 - 1 apart differ, whatever request ids the owner chose. */
  lemma DistinctIdentities(ops: seq<Op>, c: Clock, bus: nat -> Reply, i: nat, j: nat)
    requires var log := Run(ops, c, bus).log;
      i < j < |log| && log[i].Admitted? && log[j].Admitted? &&
      Flows(log[..j]).admitted - Flows(log[..i]).admitted < MAX_U32
    ensures var log := Run(ops, c, bus).log; log[i].id != log[j].id
  {
    hide Run, Flows;
    var log := Run(ops, c, bus).log;
    AlwaysCounted(ops, c, bus);
    FlowsMonotone(log[..j], i);
    assert log[..j][..i] == log[..i];
    ModApart(Flows(log[..i]).admitted, Flows(log[..j]).admitted);
  }

  lemma ModApart(x: nat, y: nat)
    requires 0 < y - x < MAX_U32
    ensures x % MAX_U32 != y % MAX_U32
  {
    var p, q := x / MAX_U32, y / MAX_U32;
    assert x == MAX_U32 * p + x % MAX_U32 && y == MAX_U32 * q + y % MAX_U32;
  }

  // ----- Conserved counters -----

  /** What happened since the last binding, without saturation. */
  datatype Books = Books(admitted: nat, succeeded: nat, failed: nat, cancelled: nat,
                         called: nat, ok: nat, bad: nat, nacks: nat, unstarted: nat)

  const NO_BOOKS := Books(0, 0, 0, 0, 0, 0, 0, 0, 0)

  function EnterResult(b: Books, r: Result): Books {
    match r.outcome
    case Succeeded => b.(succeeded := b.succeeded + 1)
    case NoData => b.(succeeded := b.succeeded + 1)
    case OutcomeCancelled => b.(cancelled := b.cancelled + 1)
    case _ => b.(failed := b.failed + 1)
  }

  function EnterCall(b: Books, c: Call): Books {
    var b1 := b.(called := b.called + 1);
    if ExpectedNack(c.intent, c.norm) then b1.(nacks := b1.nacks + 1)
    else if c.norm.code == CodeOk && c.norm.disposition == Complete then b1.(ok := b1.ok + 1)
    else if c.norm.disposition == NotStarted then b1.(unstarted := b1.unstarted + 1)
    else b1.(bad := b1.bad + 1)
  }

  function Enter(b: Books, e: Event): Books {
    match e
    case Bound(_) => NO_BOOKS
    case Admitted(_, _, _, _) => b.(admitted := b.admitted + 1)
    case Called(c) => EnterCall(b, c)
    case Finished(r) => EnterResult(b, r)
    case _ => b
  }

  function Since(log: seq<Event>): Books {
    if log == [] then NO_BOOKS else Enter(Since(log[..|log| - 1]), log[|log| - 1])
  }

  /** A counter that saturates at 2^32 - 1. */
  function Capped(n: nat): nat { if n < MAX_U32 then n else MAX_U32 }

  predicate Shows(h: Health, b: Books) {
    h.succeeded == Capped(b.succeeded) && h.failed == Capped(b.failed) && h.cancelled == Capped(b.cancelled) &&
    h.transferOk == Capped(b.ok) && h.transferFailed == Capped(b.bad) && h.expectedNacks == Capped(b.nacks)
  }

  lemma CallShows(h: Health, b: Books, threshold: nat, c: Call)
    requires Shows(h, b)
    ensures Shows(CountTransfer(h, threshold, c.norm, ExpectedNack(c.intent, c.norm)), EnterCall(b, c))
  {
  }

  lemma ResultShows(h: Health, b: Books, r: Result)
    requires Shows(h, b)
    ensures Shows(CountOutcome(h, r), EnterResult(b, r))
  {
  }

  lemma ProtocolShows(h: Health, b: Books, err: Err, at: nat)
    requires Shows(h, b)
    ensures Shows(CountProtocol(h, err, at), b)
  {
  }

  lemma CountShows(m: Meter, b: Books, e: Event)
    requires Shows(m.health, b)
    ensures Shows(Count(m, e).health, Enter(b, e))
  {
    hide CountTransfer, CountProtocol, CountOutcome, EnterCall, EnterResult;
    match e
    case Called(c) =>
      ProtocolShows(m.health, b, I2cError, c.norm.doneMs);
      CallShows(if c.norm.malformed then CountProtocol(m.health, I2cError, c.norm.doneMs) else m.health, b, m.threshold,
                c);
    case ProtocolError(err, at) => ProtocolShows(m.health, b, err, at);
    case Finished(r) => ResultShows(m.health, b, r);
    case _ =>
  }

  /** The health counters are the saturated books. */
  lemma {:induction false} SummaryShows(log: seq<Event>)
    ensures Shows(Summary(log).health, Since(log))
  {
    hide Count, Enter;
    if log != [] {
      SummaryShows(log[..|log| - 1]);
      CountShows(Summary(log[..|log| - 1]), Since(log[..|log| - 1]), log[|log| - 1]);
    }
  }

  /** Every callback is counted once, and every admission is working or counted once. */
  lemma {:induction false} BooksBalance(log: seq<Event>)
    requires !Audit(log).Contradicted?
    ensures var b := Since(log);
      b.called == b.ok + b.bad + b.nacks + b.unstarted &&
      b.admitted == b.succeeded + b.failed + b.cancelled + (if Audit(log).Working? then 1 else 0)
  {
    if log != [] {
      Prefixes(log, |log| - 1);
      BooksBalance(log[..|log| - 1]);
    }
  }

  /** The published counters add up over any run, until one of them saturates. */
  lemma CountersConserve(ops: seq<Op>, c: Clock, bus: nat -> Reply)
    ensures var s := Run(ops, c, bus);
      var h, b := Summary(s.log).health, Since(s.log);
      (b.admitted <= MAX_U32 ==>
       b.admitted == h.succeeded + h.failed + h.cancelled + (if s.activeValid then 1 else 0)) &&
      (b.called <= MAX_U32 ==> b.called == h.transferOk + h.transferFailed + h.expectedNacks + b.unstarted)
  {
    hide Run, Audit, Since, Summary;
    var s := Run(ops, c, bus);
    AlwaysBalanced(ops, c, bus);
    BooksBalance(s.log);
    SummaryShows(s.log);
  }
}
