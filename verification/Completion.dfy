/**
  Bounded liveness of whole workflows: what `Liveness` says of one operation,
  `Workflow` of the sequence and `Session` of admission, put together.
 */
module Completion {
  import opened Clocks
  import opened Types
  import opened Commands
  import opened Engine
  import opened Runs
  import opened Liveness
  import opened Session
  import W = Workflow

  /** A start, and at most 3 * 14 + 3 polls. */
  const TURNS_PER_STEP: nat := 46

  // ----- Prompt owners -----

  /**
    The owner serves the workflow with time that does not run back and a deadline beyond the published formula,
    polls no later than asked, and gives no commands.
   */
  predicate Prompt(x: Session, m: Move) {
    match m
    case DoServe(o) =>
      MayServe(x, o.nowMs) ==>
        WellTimed(x.driver, o) &&
        o.deadlineMs > Formula(W.Current(PlanNow(x)), o.nowMs, x.driver.settings.timeoutMs)
    case DoTick(now) => PlanNow(x).waiting ==> now <= NextPolite(x.driver)
    case _ => false
  }

  /** A start when one is possible, and a poll when it is asked for; after the end, any move. */
  predicate IsDue(x: Session, m: Move) {
    !W.IsActive(PlanNow(x)) ||
    match m
    case DoServe(o) => MayServe(x, o.nowMs)
    case DoTick(now) => PlanNow(x).waiting && now == NextPolite(x.driver)
    case _ => false
  }

  predicate AllPromptly(x: Session, moves: seq<Move>, bus: nat -> Reply) {
    moves == [] ||
    (AllPromptly(x, moves[..|moves| - 1], bus) && Prompt(Play(x, moves[..|moves| - 1], bus), moves[|moves| - 1]))
  }

  function DueMoves(x: Session, moves: seq<Move>, bus: nat -> Reply): nat {
    if moves == [] then 0
    else
      DueMoves(x, moves[..|moves| - 1], bus) +
      if IsDue(Play(x, moves[..|moves| - 1], bus), moves[|moves| - 1]) then 1 else 0
  }

  // ----- On track -----

  /** The driver has the awaited operation, on schedule. */
  predicate Awaited(s: State, id: OpId, kind: Kind, t: nat) {
    s.activeValid && s.active.id == id && s.active.request.kind == kind && s.time.ownerValid &&
    OnSchedule(s, s.time.ownerMs, t)
  }

  predicate SameSequence(p: W.Plan, q: W.Plan) { p.kind == q.kind && p.mode == q.mode && p.totalSteps == q.totalSteps }

  /** The workflow of `first`, still going or complete, with no timeout among the results after the first `from`. */
  predicate OnTrack(x: Session, first: W.Plan, from: nat, t: nat) {
    var p, b := PlanNow(x), W.BookOf(x.calls);
    Steady(x.driver) && x.driver.clock.Linear? && x.driver.settings.timeoutMs == t &&
    SameSequence(p, first) && !p.kind.NoWorkflow? && !p.stopRequested && (x.clean ==> b.startFailures == 0) &&
    NoTimeout(b.results, from) &&
    (if p.waiting then Awaited(x.driver, p.operationId, p.operation, t) else SlotOf(x.driver).SlotIdle?)
  }

  predicate NoTimeout(results: seq<Result>, from: nat) {
    forall i | from <= i < |results| :: results[i].status != Timeout
  }

  /** How many due moves a workflow still needs at most. */
  function Left(x: Session): int {
    var p := PlanNow(x);
    TURNS_PER_STEP * (p.totalSteps - p.stepsCompleted) +
    if p.waiting then Rank(x.driver) + 1 - TURNS_PER_STEP else 0
  }

  predicate Moved(x: Session, z: Session, due: bool) {
    (z.clean ==> x.clean) &&
    (W.IsActive(PlanNow(z)) ==> W.IsActive(PlanNow(x)) && Left(z) + (if due then 1 else 0) <= Left(x))
  }

  // ----- Starting -----

  lemma CallMakes(x: Session, z: Session, c: W.WorkflowCall)
    requires z.calls == x.calls + [c]
    ensures PlanNow(z) == W.Advanced(PlanNow(x), c)
    ensures W.BookOf(z.calls) == W.BookAfter(PlanNow(x), W.BookOf(x.calls), c)
    ensures W.InOrder(PlanNow(x), W.BookOf(x.calls)) && W.InOrder(PlanNow(z), W.BookOf(z.calls))
  {
    hide W.InOrder;
    W.PlanSnoc(x.calls, c);
    W.BookSnoc(x.calls, c);
    W.AlwaysInOrder(x.calls);
    W.AlwaysInOrder(z.calls);
  }

  lemma StartAwaited(s: State, r: Request, o: Options)
    requires Steady(s) && s.clock.Linear? && Start(s, r, o).1 == InProgress
    requires o.deadlineMs > Formula(r.kind, o.nowMs, s.settings.timeoutMs)
    ensures var u := Start(s, r, o).0;
      Awaited(u, u.active.id, r.kind, s.settings.timeoutMs) && Steady(u) && u.clock == s.clock &&
      u.settings == s.settings && Rank(u) + 2 <= TURNS_PER_STEP
  {
    hide Reachable, CheckStart, DesiredWord, IsEffectful, OnSchedule, Rank, Formula;
    DoSteady(s, OpStart(r, o), _ => Reply(BadCode, BadDisposition, 0, 0, []));
    Admissible(s, r, o);
    FreshSchedule(s, r, o);
    RankPositive(Start(s, r, o).0);
    LimitsSmall(r.kind);
  }

  lemma LimitsSmall(k: Kind)
    ensures LimitsOf(k).maxCallbacks <= 14
  {
  }

  lemma RefusedStart(s: State, r: Request, o: Options)
    ensures Start(s, r, o).1 != InProgress ==> Start(s, r, o).0 == s
  {
    hide CheckStart, Opened;
  }

  lemma ServeOnTrack(x: Session, o: Options, first: W.Plan, from: nat, t: nat, mode: Mode)
    requires OnTrack(x, first, from, t) && InStep(x, mode) && Prompt(x, DoServe(o))
    ensures var z := Serve(x, o); OnTrack(z, first, from, t) && Moved(x, z, IsDue(x, DoServe(o)))
  {
    hide Steady, Start, WellTimed, GateClosed, Suits, Harmless, Working, Awaited, Rank, Formula, W.PlanOf, W.BookOf,
      W.OperationAt, W.InOrder, NoTimeout;
    var p, b := PlanNow(x), W.BookOf(x.calls);
    W.AlwaysInOrder(x.calls);
    W.SomethingToDo(p, b);
    if MayServe(x, o.nowMs) {
      var r := W.NextRequest(p).value;
      var (u, status) := Start(x.driver, r, o);
      var z := Serve(x, o);
      RefusedStart(x.driver, r, o);
      if status == InProgress {
        CallMakes(x, z, W.CallStarted(u.active.id, r.kind));
        StartAwaited(x.driver, r, o);
      } else {
        CallMakes(x, z, W.CallStartFailure);
        W.SaysModes(p, b);
        if x.clean { StartAdmitted(x.driver, p, o); }
      }
    }
  }

  // ----- Polling -----

  lemma AwaitedPoll(s: State, id: OpId, kind: Kind, now: nat, bus: nat -> Reply, t: nat)
    requires Steady(s) && s.clock.Linear? && s.settings.timeoutMs == t && Awaited(s, id, kind, t) &&
      now <= NextPolite(s)
    requires AllPrompt(Poll(s, now, 1, bus).0.log, |s.log|, t)
    ensures var (u, report) := Poll(s, now, 1, bus);
      Steady(u) && u.clock.Linear? && u.settings.timeoutMs == t &&
      if u.activeValid then
        Awaited(u, id, kind, t) && !report.state.ResultPending? && Rank(u) <= Rank(s) &&
        (now == NextPolite(s) ==> Rank(u) < Rank(s))
      else
        report.state.ResultPending? && report.id == id && u.terminalValid && u.terminal.id == id &&
        u.terminal.kind == kind && u.terminal.status != Timeout && Rank(s) >= 0
  {
    hide Reachable, Poll, OnSchedule, Rank, NextPollDue, AllPrompt;
    PollSteady(s, now, 1, bus);
    ReportsSlot(s, now, bus);
    RankPositive(s);
    if s.time.ownerMs <= now { PolitePoll(s, now, 1, bus, t); } else { IdlePoll(s, now, 1, bus); }
  }

  lemma ReportsSlot(s: State, now: nat, bus: nat -> Reply)
    ensures var (u, report) := Poll(s, now, 1, bus);
      (report.state.ResultPending? <==> u.terminalValid) && (u.terminalValid ==> report.id == u.terminal.id)
  {
    hide PollTurn, Observe;
  }

  lemma TickOnTrack(x: Session, now: nat, bus: nat -> Reply, first: W.Plan, from: nat, t: nat)
    requires OnTrack(x, first, from, t) && Prompt(x, DoTick(now))
    requires AllPrompt(Tick(x, now, bus).driver.log, |x.driver.log|, t)
    ensures var z := Tick(x, now, bus); OnTrack(z, first, from, t) && Moved(x, z, IsDue(x, DoTick(now)))
  {
    hide Steady, Poll, TakeResult, Awaited, Rank, NextPolite, W.PlanOf, W.BookOf, W.InOrder, AllPrompt, NoTimeout;
    var p := PlanNow(x);
    var (u, report) := Poll(x.driver, now, 1, bus);
    W.AlwaysInOrder(x.calls);
    W.WaitsActively(p, W.BookOf(x.calls));
    if p.waiting {
      CollectLog(x.(driver := u), report.id);
      PromptPart(u.log, Tick(x, now, bus).driver.log, |x.driver.log|, |x.driver.log|, t);
      AwaitedPoll(x.driver, p.operationId, p.operation, now, bus, t);
      if !u.activeValid { CollectOnTrack(x, u, first, from, t); }
    } else {
      IdleTick(x.driver, now, bus);
    }
  }

  lemma IdleTick(s: State, now: nat, bus: nat -> Reply)
    requires Steady(s) && SlotOf(s).SlotIdle?
    ensures var (u, report) := Poll(s, now, 1, bus);
      Steady(u) && SlotOf(u).SlotIdle? && u.clock == s.clock && u.settings == s.settings && u.log == s.log &&
      !report.state.ResultPending?
  {
    hide PollTurn, Reached;
  }

  /** The awaited result is accepted. */
  lemma CollectOnTrack(x: Session, u: State, first: W.Plan, from: nat, t: nat)
    requires OnTrack(x, first, from, t) && PlanNow(x).waiting && W.IsActive(PlanNow(x)) && Rank(x.driver) >= 0
    requires Steady(u) && u.clock.Linear? && u.settings.timeoutMs == t && u.terminalValid
    requires u.terminal.id == PlanNow(x).operationId && u.terminal.kind == PlanNow(x).operation &&
      u.terminal.status != Timeout
    ensures var z := Collect(x.(driver := u), u.terminal.id); OnTrack(z, first, from, t) && Moved(x, z, true)
  {
    hide Reachable, Awaited, Rank, W.PlanOf, W.BookOf, W.InOrder, W.CyclesIn, W.MarkOf;
    CallMakes(x, Collect(x.(driver := u), u.terminal.id), W.CallResult(u.terminal));
  }

  lemma CollectLog(x: Session, id: OpId)
    ensures x.driver.log <= Collect(x, id).driver.log
  {
  }

  // ----- Whole sessions -----

  lemma MoveGrows(x: Session, m: Move, bus: nat -> Reply)
    requires Steady(x.driver) && Prompt(x, m)
    ensures var z := Proceed(x, m, bus); Steady(z.driver) && x.driver.log <= z.driver.log
  {
    hide Steady, Start, Poll, TakeResult, MayServe, W.PlanOf, W.NextRequest;
    match m
    case DoServe(o) =>
      if W.NextRequest(PlanNow(x)).Some? {
        DoSteady(x.driver, OpStart(W.NextRequest(PlanNow(x)).value, o),
                 _ => Reply(BadCode, BadDisposition, 0, 0, []));
        StartLog(x.driver, W.NextRequest(PlanNow(x)).value, o);
      }
    case DoTick(now) =>
      PollSteady(x.driver, now, 1, bus);
      PollLog(x.driver, now, 1, bus);
      var (u, report) := Poll(x.driver, now, 1, bus);
      DoSteady(u, OpTake(report.id), _ => Reply(BadCode, BadDisposition, 0, 0, []));
      CollectLog(x.(driver := u), report.id);
  }

  lemma StartLog(s: State, r: Request, o: Options)
    ensures s.log <= Start(s, r, o).0.log
  {
    hide CheckStart, Opened;
  }

  lemma {:induction false} PlaySteady(x: Session, moves: seq<Move>, bus: nat -> Reply)
    requires Steady(x.driver) && AllPromptly(x, moves, bus)
    ensures Steady(Play(x, moves, bus).driver)
  {
    hide Steady, Proceed, Prompt;
    if moves != [] {
      PlaySteady(x, moves[..|moves| - 1], bus);
      MoveGrows(Play(x, moves[..|moves| - 1], bus), moves[|moves| - 1], bus);
    }
  }

  lemma {:induction false} PlayOnTrack(x: Session, moves: seq<Move>, bus: nat -> Reply, from: nat, t: nat)
    requires Opens(x) && OnTrack(x, PlanNow(x), from, t)
    requires AllPromptly(x, moves, bus) && AllPrompt(Play(x, moves, bus).driver.log, |x.driver.log|, t)
    ensures var y := Play(x, moves, bus);
      OnTrack(y, PlanNow(x), from, t) && (W.IsActive(PlanNow(y)) ==> Left(y) + DueMoves(x, moves, bus) <= Left(x))
  {
    hide Steady, Opens, Proceed, InStep, OnTrack, Prompt, IsDue, AllPrompt, Left, PlanNow;
    if moves != [] {
      var prefix, m := moves[..|moves| - 1], moves[|moves| - 1];
      var y, z := Play(x, prefix, bus), Play(x, moves, bus);
      assert Steady(x.driver) by { OpensSteady(x); }
      PlaySteady(x, prefix, bus);
      MoveGrows(y, m, bus);
      PromptPart(y.driver.log, z.driver.log, |x.driver.log|, |x.driver.log|, t);
      PlayOnTrack(x, prefix, bus, from, t);
      PlayGrows(x, prefix, bus);
      PromptPart(z.driver.log, z.driver.log, |x.driver.log|, |y.driver.log|, t);
      PlayInStep(x, prefix, bus);
      ProceedOnTrack(y, m, bus, PlanNow(x), from, t, x.driver.know.mode);
    }
  }

  lemma OpensSteady(x: Session)
    requires Opens(x)
    ensures Steady(x.driver)
  {
    hide Steady;
  }

  lemma {:induction false} PlayGrows(x: Session, moves: seq<Move>, bus: nat -> Reply)
    requires Steady(x.driver) && AllPromptly(x, moves, bus)
    ensures x.driver.log <= Play(x, moves, bus).driver.log
  {
    hide Steady, Proceed, Prompt;
    if moves != [] {
      PlaySteady(x, moves[..|moves| - 1], bus);
      PlayGrows(x, moves[..|moves| - 1], bus);
      MoveGrows(Play(x, moves[..|moves| - 1], bus), moves[|moves| - 1], bus);
    }
  }

  lemma ProceedOnTrack(x: Session, m: Move, bus: nat -> Reply, first: W.Plan, from: nat, t: nat, mode: Mode)
    requires OnTrack(x, first, from, t) && InStep(x, mode) && Prompt(x, m)
    requires AllPrompt(Proceed(x, m, bus).driver.log, |x.driver.log|, t)
    ensures var z := Proceed(x, m, bus); OnTrack(z, first, from, t) && Moved(x, z, IsDue(x, m))
  {
    hide OnTrack, InStep, Serve, Tick, Moved, AllPrompt, IsDue, PlanNow;
    match m
    case DoServe(o) => ServeOnTrack(x, o, first, from, t, mode);
    case DoTick(now) => TickOnTrack(x, now, bus, first, from, t);
  }

  lemma SequenceKept(calls: seq<W.WorkflowCall>)
    ensures var p, results := W.PlanOf(calls), W.BookOf(calls).results;
      |results| == p.stepsCompleted &&
      forall i | 0 <= i < |results| :: results[i].kind == W.OperationAt(p.kind, p.mode, i)
  {
    hide W.PlanOf, W.BookOf, W.OperationAt, W.Tally;
    W.AlwaysInOrder(calls);
  }

  lemma AwaitedRank(x: Session)
    requires Steady(x.driver) && x.driver.activeValid
    ensures Rank(x.driver) >= 0
  {
    hide Reachable, Rank;
    RankPositive(x.driver);
  }

  /** A session of an active workflow on a driver with any past, served promptly over prompt transfers. */
  predicate Served(ops: seq<Op>, calls: seq<W.WorkflowCall>, moves: seq<Move>, bus: nat -> Reply) {
    var s := Run(ops, Linear, bus);
    var x := Session(calls, s, true);
    Opens(x) && W.IsActive(PlanNow(x)) && AllPromptly(x, moves, bus) &&
    AllPrompt(Play(x, moves, bus).driver.log, |s.log|, s.settings.timeoutMs)
  }

  lemma ServedOnTrack(ops: seq<Op>, calls: seq<W.WorkflowCall>, moves: seq<Move>, bus: nat -> Reply)
    requires Served(ops, calls, moves, bus)
    ensures var x := Session(calls, Run(ops, Linear, bus), true); var y, p := Play(x, moves, bus), PlanNow(x);
      OnTrack(y, p, p.stepsCompleted, x.driver.settings.timeoutMs) && !p.waiting &&
      (W.IsActive(PlanNow(y)) ==> Left(y) + DueMoves(x, moves, bus) <= Left(x))
  {
    hide Run, Steady, Play, AllPromptly, DueMoves, Suits, AllPrompt, W.PlanOf, W.BookOf, W.InOrder, Awaited, Left;
    var s := Run(ops, Linear, bus);
    var x := Session(calls, s, true);
    RunSteady(ops, Linear, bus);
    SameClock(ops, Linear, bus);
    W.AlwaysInOrder(calls);
    W.WaitsActively(PlanNow(x), W.BookOf(calls));
    PlayOnTrack(x, moves, bus, PlanNow(x).stepsCompleted, s.settings.timeoutMs);
  }

  /**
    A workflow served by a prompt owner, over transfers that take at most the configured timeout, ends: with
    46 due moves for each remaining step it is finished. None of the operations times out, and unless a result
    reported reconciliation every one of the `totalSteps` operations was started and its result counted.
   */
  lemma WorkflowCompletes(ops: seq<Op>, calls: seq<W.WorkflowCall>, moves: seq<Move>, bus: nat -> Reply)
    requires Served(ops, calls, moves, bus)
    ensures var x := Session(calls, Run(ops, Linear, bus), true); var y := Play(x, moves, bus);
      var p, q, results := PlanNow(x), PlanNow(y), W.BookOf(y.calls).results;
      SameSequence(q, p) && NoTimeout(results, p.stepsCompleted) &&
      (DueMoves(x, moves, bus) >= TURNS_PER_STEP * (p.totalSteps - p.stepsCompleted) ==> q.finished) &&
      (q.finished && y.clean ==>
         |results| == q.stepsCompleted == q.totalSteps == q.passed + q.warnings + q.failed &&
         forall i | 0 <= i < |results| :: results[i].kind == W.OperationAt(q.kind, q.mode, i))
  {
    hide Run, Steady, Play, Served, DueMoves, W.PlanOf, W.BookOf, W.OperationAt, W.InOrder, OnSchedule, Rank;
    ServedOnTrack(ops, calls, moves, bus);
    var y := Play(Session(calls, Run(ops, Linear, bus), true), moves, bus);
    W.AlwaysInOrder(y.calls);
    W.WaitsActively(PlanNow(y), W.BookOf(y.calls));
    SequenceKept(y.calls);
    if PlanNow(y).waiting { AwaitedRank(y); }
  }

  lemma FormulaShort(k: Kind, started: nat, t: nat)
    requires t <= 1000
    ensures started <= Formula(k, started, t) < started + HALF - 1
  {
  }

  /** Until then a prompt owner always has a due move. */
  lemma SomethingIsDue(ops: seq<Op>, calls: seq<W.WorkflowCall>, moves: seq<Move>, bus: nat -> Reply, requestId: nat)
    returns (m: Move)
    requires Served(ops, calls, moves, bus) && requestId != 0
    ensures var y := Play(Session(calls, Run(ops, Linear, bus), true), moves, bus); Prompt(y, m) && IsDue(y, m)
  {
    hide Run, Reachable, Play, Served, DueMoves, W.PlanOf, W.BookOf, W.OperationAt, OnSchedule, Left, Formula,
      NextPolite;
    ServedOnTrack(ops, calls, moves, bus);
    var y := Play(Session(calls, Run(ops, Linear, bus), true), moves, bus);
    if PlanNow(y).waiting {
      m := DoTick(NextPolite(y.driver));
    } else {
      var s := y.driver;
      var t := (if s.time.ownerValid then s.time.ownerMs else 0) + (if s.time.gateValid then s.time.gateMs else 0);
      var kind := W.Current(PlanNow(y));
      FormulaShort(kind, t, s.settings.timeoutMs);
      m := DoServe(Options(requestId, t, Formula(kind, t, s.settings.timeoutMs) + 1));
    }
  }
}
