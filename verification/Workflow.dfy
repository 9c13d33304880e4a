/** The diagnostic workflow: a bounded sequence of driver operations, one at a time. */
module Workflow {
  import opened Types

  datatype WorkflowKind = NoWorkflow | Stress | StressMix | SelfCheck

  const MAX_STRESS_CYCLES: nat := 1000

  /** The workflow's fields, as a value. */
  datatype Plan = Plan(kind: WorkflowKind, mode: Mode, operationId: OpId, operation: Kind,
                       cyclesTotal: nat, cyclesCompleted: nat, totalSteps: nat, stepsCompleted: nat,
                       passed: nat, warnings: nat, failed: nat,
                       waiting: bool, finished: bool, stopRequested: bool)

  const NO_PLAN := Plan(NoWorkflow, UnknownMode, NO_ID, NoKind, 0, 0, 0, 0, 0, 0, 0, false, false, false)

  // ----- The sequences -----

  function StepsPerCycle(kind: WorkflowKind, mode: Mode): (n: nat)
    ensures 1 <= n <= 4
  {
    if kind.SelfCheck? then 4
    else if kind.StressMix? then (if mode.Idle? then 4 else 3)
    else 1
  }

  /** Steps in a number of cycles, and whole cycles in a number of steps. */
  function StepsIn(cycles: nat, kind: WorkflowKind, mode: Mode): nat { cycles * StepsPerCycle(kind, mode) }
  function CyclesIn(steps: nat, kind: WorkflowKind, mode: Mode): nat { steps / StepsPerCycle(kind, mode) }

  function OperationAt(kind: WorkflowKind, mode: Mode, step: nat): Kind {
    match kind
    case NoWorkflow => NoKind
    case Stress => ReadDataReady
    case SelfCheck => [ReadIdentity, ReadVariant, ReadConfiguration, SelfTest][step % 4]
    case StressMix =>
      if mode.Idle? then [ReadIdentity, ReadConfiguration, ReadVariant, ReadDataReady][step % 4]
      else [ReadDataReady, FetchSample, ReadSetting(AmbientPressure)][step % 3]
  }

  function Current(p: Plan): Kind { OperationAt(p.kind, p.mode, p.stepsCompleted) }

  predicate IsActive(p: Plan) { !p.kind.NoWorkflow? && !p.finished }

  // ----- What each call does -----

  predicate MayBegin(p: Plan, kind: WorkflowKind, cycles: nat, mode: Mode) {
    !IsActive(p) && !kind.NoWorkflow? && 0 < cycles <= MAX_STRESS_CYCLES &&
    (mode.Idle? || (!kind.SelfCheck? && (mode.Periodic? || mode.LowPower?)))
  }

  function Begun(kind: WorkflowKind, cycles: nat, mode: Mode): Plan {
    var n := if kind.SelfCheck? then 1 else cycles;
    NO_PLAN.(kind := kind, mode := mode, cyclesTotal := n, totalSteps := StepsIn(n, kind, mode))
  }

  function NextRequest(p: Plan): Option<Request> {
    if !IsActive(p) || p.waiting || p.stepsCompleted >= p.totalSteps || Current(p).NoKind? then None
    else Some(NO_REQUEST.(kind := Current(p)))
  }

  predicate MayStart(p: Plan, operation: Kind) { IsActive(p) && !p.waiting && operation == Current(p) }

  function Started(p: Plan, id: OpId, operation: Kind): Plan {
    p.(operationId := id, operation := operation, waiting := true)
  }

  predicate MayAccept(p: Plan, r: Result) { p.waiting && r.id == p.operationId && r.kind == p.operation }

  datatype Mark = Passed | Warned | Broke

  /** Missing data is only a warning, and only for a sample. */
  function MarkOf(r: Result): Mark {
    if r.outcome.Succeeded? then Passed
    else if r.outcome.NoData? && r.kind.FetchSample? then Warned
    else Broke
  }

  function Accepted(p: Plan, r: Result): Plan {
    var steps := p.stepsCompleted + 1;
    p.(waiting := false,
       passed := if MarkOf(r).Passed? then p.passed + 1 else p.passed,
       warnings := if MarkOf(r).Warned? then p.warnings + 1 else p.warnings,
       failed := if MarkOf(r).Broke? then p.failed + 1 else p.failed,
       stepsCompleted := steps,
       cyclesCompleted := CyclesIn(steps, p.kind, p.mode),
       finished := p.finished || p.stopRequested || steps >= p.totalSteps)
  }

  function StartFailed(p: Plan): Plan {
    if IsActive(p) && !p.waiting then p.(failed := p.failed + 1, finished := true) else p
  }

  function Stopped(p: Plan): Plan {
    if !IsActive(p) then p else p.(stopRequested := true, finished := p.finished || !p.waiting)
  }

  // ----- Runs -----

  datatype WorkflowCall =
    | CallBegin(kind: WorkflowKind, cycles: nat, mode: Mode)
    | CallStarted(id: OpId, operation: Kind)
    | CallResult(result: Result)
    | CallStartFailure
    | CallStop
    | CallClear

  function Advanced(p: Plan, c: WorkflowCall): Plan {
    match c
    case CallBegin(kind, cycles, mode) => if MayBegin(p, kind, cycles, mode) then Begun(kind, cycles, mode) else p
    case CallStarted(id, operation) => if MayStart(p, operation) then Started(p, id, operation) else p
    case CallResult(r) => if MayAccept(p, r) then Accepted(p, r) else p
    case CallStartFailure => StartFailed(p)
    case CallStop => Stopped(p)
    case CallClear => NO_PLAN
  }

  function PlanOf(calls: seq<WorkflowCall>): Plan {
    if calls == [] then NO_PLAN else Advanced(PlanOf(calls[..|calls| - 1]), calls[|calls| - 1])
  }

  lemma PlanSnoc(calls: seq<WorkflowCall>, c: WorkflowCall)
    ensures PlanOf(calls + [c]) == Advanced(PlanOf(calls), c)
  {
    assert (calls + [c])[..|calls|] == calls;
  }

  /** What happened since the workflow began: the results it took, in order, and its failed starts. */
  datatype Book = Book(results: seq<Result>, startFailures: nat)

  function BookAfter(p: Plan, b: Book, c: WorkflowCall): Book {
    match c
    case CallBegin(kind, cycles, mode) => if MayBegin(p, kind, cycles, mode) then Book([], 0) else b
    case CallResult(r) => if MayAccept(p, r) then b.(results := b.results + [r]) else b
    case CallStartFailure => if IsActive(p) && !p.waiting then b.(startFailures := b.startFailures + 1) else b
    case CallClear => Book([], 0)
    case _ => b
  }

  function BookOf(calls: seq<WorkflowCall>): Book {
    if calls == [] then Book([], 0)
    else BookAfter(PlanOf(calls[..|calls| - 1]), BookOf(calls[..|calls| - 1]), calls[|calls| - 1])
  }

  lemma BookSnoc(calls: seq<WorkflowCall>, c: WorkflowCall)
    ensures BookOf(calls + [c]) == BookAfter(PlanOf(calls), BookOf(calls), c)
  {
    assert (calls + [c])[..|calls|] == calls;
  }

  function Tally(results: seq<Result>, m: Mark): (n: nat) {
    if results == [] then 0
    else Tally(results[..|results| - 1], m) + if MarkOf(results[|results| - 1]) == m then 1 else 0
  }

  lemma {:induction false} CountAll(results: seq<Result>)
    ensures Tally(results, Passed) + Tally(results, Warned) + Tally(results, Broke) == |results|
  {
    if results != [] { CountAll(results[..|results| - 1]); }
  }

  lemma CountSnoc(results: seq<Result>, r: Result, m: Mark)
    ensures Tally(results + [r], m) == Tally(results, m) + if MarkOf(r) == m then 1 else 0
  {
    assert (results + [r])[..|results|] == results;
  }

  /** The counters are what happened, and the results came in the order of the sequence. */
  predicate Booked(p: Plan, b: Book) {
    p.stepsCompleted == |b.results| &&
    p.passed == Tally(b.results, Passed) && p.warnings == Tally(b.results, Warned) &&
    p.failed == Tally(b.results, Broke) + b.startFailures &&
    (forall i | 0 <= i < |b.results| :: b.results[i].kind == OperationAt(p.kind, p.mode, i))
  }

  predicate Bounded(p: Plan, b: Book) {
    p.stepsCompleted <= p.totalSteps && b.startFailures <= 1 &&
    p.totalSteps == StepsIn(p.cyclesTotal, p.kind, p.mode) &&
    p.cyclesCompleted == CyclesIn(p.stepsCompleted, p.kind, p.mode)
  }

  /** It ends with the last step, with a failed start, or when stopped between operations. */
  predicate EndsRightly(p: Plan, b: Book) {
    (p.waiting ==> IsActive(p) && p.operation == Current(p)) &&
    (!p.kind.NoWorkflow? ==>
      (p.finished <==> b.startFailures == 1 || p.stepsCompleted == p.totalSteps || (p.stopRequested && !p.waiting))) &&
    (p.kind.NoWorkflow? ==> p == NO_PLAN && b == Book([], 0))
  }

  predicate InModes(p: Plan) {
    p.kind.NoWorkflow? || p.mode.Idle? || (!p.kind.SelfCheck? && (p.mode.Periodic? || p.mode.LowPower?))
  }

  predicate InOrder(p: Plan, b: Book) { Booked(p, b) && Bounded(p, b) && EndsRightly(p, b) && InModes(p) }

  lemma AcceptedInOrder(p: Plan, b: Book, r: Result)
    requires InOrder(p, b) && MayAccept(p, r)
    ensures InOrder(Accepted(p, r), b.(results := b.results + [r]))
  {
    hide OperationAt, Tally, StepsIn, CyclesIn, MarkOf;
    CountSnoc(b.results, r, Passed);
    CountSnoc(b.results, r, Warned);
    CountSnoc(b.results, r, Broke);
  }

  lemma BegunInOrder(kind: WorkflowKind, cycles: nat, mode: Mode)
    requires MayBegin(NO_PLAN, kind, cycles, mode)
    ensures InOrder(Begun(kind, cycles, mode), Book([], 0))
  {
    hide OperationAt, StepsIn, CyclesIn;
    StepsPositive(if kind.SelfCheck? then 1 else cycles, kind, mode);
  }

  lemma StepsPositive(cycles: nat, kind: WorkflowKind, mode: Mode)
    requires cycles > 0
    ensures StepsIn(cycles, kind, mode) >= cycles && CyclesIn(0, kind, mode) == 0
  {
    if StepsPerCycle(kind, mode) == 3 {} else if StepsPerCycle(kind, mode) == 4 {} else {}
  }

  /**
    Whatever is called, results are counted once each and in sequence, at most `totalSteps` of them, and
    passed + warnings + failed is the number of results, plus one exactly when a start failure ended the workflow.
   */
  lemma {:induction false} AlwaysInOrder(calls: seq<WorkflowCall>)
    ensures InOrder(PlanOf(calls), BookOf(calls))
    ensures var p, b := PlanOf(calls), BookOf(calls);
      p.passed + p.warnings + p.failed == p.stepsCompleted + b.startFailures &&
      |b.results| == p.stepsCompleted <= p.totalSteps && b.startFailures <= 1 && (b.startFailures == 1 ==> p.finished)
  {
    hide InOrder, Accepted, Begun, OperationAt, Tally, MayAccept;
    if calls == [] {
      EmptyInOrder();
    } else {
      var rest, c := calls[..|calls| - 1], calls[|calls| - 1];
      AlwaysInOrder(rest);
      CallInOrder(PlanOf(rest), BookOf(rest), c);
    }
    CountAll(BookOf(calls).results);
    InOrderSays(PlanOf(calls), BookOf(calls));
  }

  lemma CallInOrder(p: Plan, b: Book, c: WorkflowCall)
    requires InOrder(p, b)
    ensures InOrder(Advanced(p, c), BookAfter(p, b, c))
  {
    hide OperationAt, StepsIn, CyclesIn, Tally, Accepted, Begun, MarkOf;
    match c
    case CallBegin(kind, cycles, mode) => if MayBegin(p, kind, cycles, mode) { BegunInOrder(kind, cycles, mode); }
    case CallResult(r) => if MayAccept(p, r) { AcceptedInOrder(p, b, r); }
    case CallClear => EmptyInOrder();
    case _ =>
  }

  lemma EmptyInOrder()
    ensures InOrder(NO_PLAN, Book([], 0))
  {
  }

  lemma InOrderSays(p: Plan, b: Book)
    requires InOrder(p, b)
    ensures p.stepsCompleted == |b.results| <= p.totalSteps && b.startFailures <= 1 &&
      (b.startFailures == 1 ==> p.finished)
    ensures p.passed == Tally(b.results, Passed) && p.warnings == Tally(b.results, Warned) &&
      p.failed == Tally(b.results, Broke) + b.startFailures
  {
    hide OperationAt, Tally;
  }

  lemma WaitsActively(p: Plan, b: Book)
    requires InOrder(p, b)
    ensures p.waiting ==> IsActive(p) && p.operation == Current(p)
    ensures IsActive(p) && !p.waiting ==> !p.stopRequested && b.startFailures == 0 && p.stepsCompleted < p.totalSteps
    ensures p.finished && !p.stopRequested && b.startFailures == 0 && !p.kind.NoWorkflow? ==>
      p.stepsCompleted == p.totalSteps
    ensures p.waiting ==> b.startFailures == 0 && p.stepsCompleted < p.totalSteps
    ensures p.kind.NoWorkflow? ==> p == NO_PLAN
  {
    hide OperationAt, Tally;
  }

  lemma SaysModes(p: Plan, b: Book)
    requires InOrder(p, b)
    ensures InModes(p)
  {
    hide OperationAt, Tally;
  }

  // ----- The object -----

  class DiagnosticWorkflow {
    var kind: WorkflowKind
    var mode: Mode
    var operationId: OpId
    var operation: Kind
    var cyclesTotal: nat
    var cyclesCompleted: nat
    var totalSteps: nat
    var stepsCompleted: nat
    var passed: nat
    var warnings: nat
    var failed: nat
    var waiting: bool
    var finished: bool
    var stopRequested: bool
    ghost var history: seq<WorkflowCall>

    ghost function View(): Plan
      reads this
    {
      Plan(kind, mode, operationId, operation, cyclesTotal, cyclesCompleted, totalSteps, stepsCompleted,
           passed, warnings, failed, waiting, finished, stopRequested)
    }

    ghost predicate Valid()
      reads this
    {
      View() == PlanOf(history)
    }

    constructor ()
      ensures Valid() && history == [] && View() == NO_PLAN
    {
      kind, mode, operationId, operation := NoWorkflow, UnknownMode, NO_ID, NoKind;
      cyclesTotal, cyclesCompleted, totalSteps, stepsCompleted := 0, 0, 0, 0;
      passed, warnings, failed := 0, 0, 0;
      waiting, finished, stopRequested := false, false, false;
      history := [];
    }

    predicate Active()
      reads this
    {
      !kind.NoWorkflow? && !finished
    }

    method Clear()
      requires Valid()
      modifies this
      ensures Valid() && history == old(history) + [CallClear] && View() == NO_PLAN
    {
      Reset();
      hide PlanOf;
      history := history + [CallClear];
      PlanSnoc(old(history), CallClear);
    }

    method Reset()
      modifies this
      ensures View() == NO_PLAN && history == old(history)
    {
      ResetCounters();
      kind, mode, operationId, operation := NoWorkflow, UnknownMode, NO_ID, NoKind;
      waiting, finished, stopRequested := false, false, false;
    }

    method ResetCounters()
      modifies `cyclesTotal, `cyclesCompleted, `totalSteps, `stepsCompleted, `passed, `warnings, `failed
      ensures cyclesTotal == cyclesCompleted == totalSteps == stepsCompleted == passed == warnings == failed == 0
    {
      cyclesTotal, cyclesCompleted, totalSteps, stepsCompleted := 0, 0, 0, 0;
      passed, warnings, failed := 0, 0, 0;
    }

    method Begin(newKind: WorkflowKind, cycles: nat, operatingMode: Mode) returns (ok: bool)
      requires Valid()
      modifies this
      ensures Valid() && history == old(history) + [CallBegin(newKind, cycles, operatingMode)]
      ensures ok == MayBegin(old(View()), newKind, cycles, operatingMode)
      ensures View() == if ok then Begun(newKind, cycles, operatingMode) else old(View())
    {
      hide PlanOf, OperationAt;
      history := history + [CallBegin(newKind, cycles, operatingMode)];
      PlanSnoc(old(history), CallBegin(newKind, cycles, operatingMode));
      if Active() || newKind.NoWorkflow? || cycles == 0 || cycles > MAX_STRESS_CYCLES {
        return false;
      }
      if operatingMode != Idle && operatingMode != Periodic && operatingMode != LowPower {
        return false;
      }
      if newKind.SelfCheck? && operatingMode != Idle {
        return false;
      }
      Reset();
      kind := newKind;
      mode := operatingMode;
      cyclesTotal := if kind.SelfCheck? then 1 else cycles;
      totalSteps := cyclesTotal * StepsPerCycle(kind, mode);
      return true;
    }

    /** The request to start next; nothing is started here. */
    method Next() returns (request: Option<Request>)
      requires Valid()
      ensures request == NextRequest(View())
      ensures request.Some? <==> IsActive(View()) && !waiting
    {
      AlwaysInOrder(history);
      SomethingToDo(View(), BookOf(history));
      if !Active() || waiting || stepsCompleted >= totalSteps {
        return None;
      }
      var r := NO_REQUEST.(kind := OperationAt(kind, mode, stepsCompleted));
      request := if r.kind != NoKind then Some(r) else None;
    }

    method MarkStarted(id: OpId, started: Kind) returns (ok: bool)
      requires Valid()
      modifies this
      ensures Valid() && history == old(history) + [CallStarted(id, started)]
      ensures ok == MayStart(old(View()), started)
      ensures View() == if ok then Started(old(View()), id, started) else old(View())
    {
      hide PlanOf, OperationAt;
      history := history + [CallStarted(id, started)];
      PlanSnoc(old(history), CallStarted(id, started));
      if !Active() || waiting || started != OperationAt(kind, mode, stepsCompleted) {
        return false;
      }
      operationId := id;
      operation := started;
      waiting := true;
      return true;
    }

    method AcceptResult(result: Result) returns (ok: bool)
      requires Valid()
      modifies this
      ensures Valid() && history == old(history) + [CallResult(result)]
      ensures ok == MayAccept(old(View()), result)
      ensures View() == if ok then Accepted(old(View()), result) else old(View())
    {
      hide PlanOf, OperationAt, CyclesIn, IsActive;
      history := history + [CallResult(result)];
      PlanSnoc(old(history), CallResult(result));
      if !waiting || result.id != operationId || result.kind != operation {
        return false;
      }
      waiting := false;
      CountResult(result);
      CompleteStep();
      return true;
    }

    method CountResult(result: Result)
      modifies `passed, `warnings, `failed
      ensures passed == old(passed) + if MarkOf(result).Passed? then 1 else 0
      ensures warnings == old(warnings) + if MarkOf(result).Warned? then 1 else 0
      ensures failed == old(failed) + if MarkOf(result).Broke? then 1 else 0
    {
      if result.outcome.Succeeded? {
        passed := passed + 1;
      } else if result.outcome.NoData? && result.kind.FetchSample? {
        warnings := warnings + 1;
      } else {
        failed := failed + 1;
      }
    }

    method CompleteStep()
      modifies `stepsCompleted, `cyclesCompleted, `finished
      ensures stepsCompleted == old(stepsCompleted) + 1 && cyclesCompleted == CyclesIn(stepsCompleted, kind, mode)
      ensures finished == (old(finished) || stopRequested || stepsCompleted >= totalSteps)
    {
      stepsCompleted := stepsCompleted + 1;
      cyclesCompleted := stepsCompleted / StepsPerCycle(kind, mode);
      if stopRequested || stepsCompleted >= totalSteps {
        finished := true;
      }
    }

    method MarkStartFailure()
      requires Valid()
      modifies this
      ensures Valid() && history == old(history) + [CallStartFailure] && View() == StartFailed(old(View()))
    {
      hide PlanOf, OperationAt;
      history := history + [CallStartFailure];
      PlanSnoc(old(history), CallStartFailure);
      if !Active() || waiting {
        return;
      }
      failed := failed + 1;
      finished := true;
    }

    method RequestStop()
      requires Valid()
      modifies this
      ensures Valid() && history == old(history) + [CallStop] && View() == Stopped(old(View()))
    {
      hide PlanOf, OperationAt;
      history := history + [CallStop];
      PlanSnoc(old(history), CallStop);
      if !Active() {
        return;
      }
      stopRequested := true;
      if !waiting {
        finished := true;
      }
    }
  }

  /** An active workflow that is not waiting always has a next request. */
  lemma SomethingToDo(p: Plan, b: Book)
    requires InOrder(p, b)
    ensures NextRequest(p).Some? <==> IsActive(p) && !p.waiting
  {
    hide Tally;
  }
}
