/** The command line as it serves a workflow: a driver object and a workflow object, and no state of its own but ids. */
module Console {
  import opened Clocks
  import opened Types
  import opened Commands
  import opened Driver
  import opened Runs
  import opened Telemetry
  import opened Session
  import E = Engine
  import W = Workflow

  /** What the command line allows an operation beyond the published formula. */
  const SCHEDULING_MARGIN_MS: nat := 1000

  function BudgetOf(k: Kind, timeoutMs: nat): nat {
    LimitsOf(k).maxWaitMs + LimitsOf(k).maxCallbacks * timeoutMs + SCHEDULING_MARGIN_MS
  }

  function NextId(id: nat): nat { if (id + 1) % WRAP == 0 then 1 else (id + 1) % WRAP }

  class Console {
    const driver: Driver
    const workflow: W.DiagnosticWorkflow
    var nextRequestId: nat
    /** Whether no accepted result has reported reconciliation. */
    ghost var clean: bool
    /** The session as it was found, and what was done to it since. */
    ghost const first: Session
    ghost var moves: seq<Move>

    ghost function View(): Session
      reads this, driver, driver.bus, workflow
    {
      Session(workflow.history, driver.View(), clean)
    }

    /** The session has been played by these calls, and a finished workflow is cleared at once. */
    ghost predicate Valid()
      reads this, driver, driver.bus, workflow
    {
      driver.Stable() && workflow.Valid() && !workflow.finished && 0 < nextRequestId < WRAP &&
      View() == Play(first, moves, driver.bus.Answer)
    }

    constructor (driver: Driver, workflow: W.DiagnosticWorkflow)
      requires driver.Stable() && workflow.Valid() && !workflow.finished
      ensures Valid() && this.driver == driver && this.workflow == workflow && moves == []
      ensures first == View() == Session(workflow.history, driver.View(), true)
    {
      this.driver, this.workflow := driver, workflow;
      nextRequestId := 1;
      clean, moves := true, [];
      first := Session(workflow.history, driver.View(), true);
    }

    /** The options of the next start. */
    function NextOptions(k: Kind, nowMs: nat): Options
      reads this, driver
    {
      Options(nextRequestId, nowMs, (nowMs + BudgetOf(k, driver.settings.timeoutMs)) % WRAP)
    }

    /** The summary of a finished workflow is printed once, and the workflow cleared. */
    method PrintWorkflowUpdate()
      requires driver.Stable() && workflow.Valid()
      modifies workflow
      ensures workflow.Valid() && !workflow.finished && View() == Dismiss(old(View()))
    {
      hide W.PlanOf, Run, Summary, Requests, E.Reachable;
      if workflow.kind.NoWorkflow? {
        NothingFinished(workflow.history);
        return;
      }
      if workflow.finished {
        workflow.Clear();
      }
    }

    method TakeAndPrint(id: OpId)
      requires driver.Stable() && workflow.Valid() && !workflow.finished
      modifies `clean, driver, workflow
      ensures driver.Stable() && workflow.Valid() && !workflow.finished && View() == Dismiss(Collect(old(View()), id))
    {
      hide W.PlanOf, E.TakeResult, Run, Summary, Requests, E.Reachable, W.MarkOf, W.CyclesIn;
      var status, result := driver.TakeResult(id);
      TakenIff(old(driver.View()), id);
      if status == Ok {
        var accepted := workflow.AcceptResult(result.value);
        clean := clean && !(accepted && result.value.reconcile);
        if accepted {
          PrintWorkflowUpdate();
        }
      }
    }

    /** One poll of the loop, with a budget of one callback. */
    method PollDriver(nowMs: nat)
      requires Valid()
      modifies this, driver, driver.bus, workflow
      ensures Valid() && moves == old(moves) + [DoTick(nowMs), DoDismiss]
      ensures View() == Dismiss(Tick(old(View()), nowMs, driver.bus.Answer)) && nextRequestId == old(nextRequestId)
    {
      hide W.PlanOf, E.TakeResult, E.Poll, Play, Run, Summary, Requests, E.Reachable;
      var poll := driver.Poll(nowMs, 1);
      if poll.state == ResultPending {
        TakeAndPrint(poll.id);
      }
      moves := moves + [DoTick(nowMs), DoDismiss];
      PlayTwice(first, old(moves), DoTick(nowMs), driver.bus.Answer);
    }

    /** Starts the next operation of the workflow, and marks it started or the workflow failed. */
    method StartStep(request: Request, nowMs: nat)
      requires driver.Stable() && workflow.Valid() && !workflow.finished && 0 < nextRequestId < WRAP
      requires MayServe(View(), nowMs) && W.NextRequest(workflow.View()) == Some(request)
      modifies `nextRequestId, driver, workflow
      ensures driver.Stable() && workflow.Valid() && !workflow.finished && 0 < nextRequestId < WRAP
      ensures View() == Dismiss(Serve(old(View()), old(NextOptions(W.Current(workflow.View()), nowMs))))
      ensures nextRequestId == NextId(old(nextRequestId))
    {
      hide W.PlanOf, E.Start, W.OperationAt, Run, Summary, Requests, E.Reachable;
      var options := NextOptions(request.kind, nowMs);
      nextRequestId := NextId(nextRequestId);
      StartWorking(driver.View(), request, options, Idle);
      var status, id := driver.Start(request, options);
      if status == InProgress {
        var started := workflow.MarkStarted(id, request.kind);
      } else {
        workflow.MarkStartFailure();
        PrintWorkflowUpdate();
      }
    }

    /** Whether a step may start: the slot is idle and the safety gate has opened. */
    method Ready(nowMs: nat) returns (ready: bool)
      requires driver.Stable() && workflow.Valid()
      ensures ready == MayServe(View(), nowMs) && (ready ==> W.IsActive(workflow.View()) && !workflow.waiting)
    {
      hide W.PlanOf, Run, Summary, Requests, E.Reachable;
      if !workflow.Active() || workflow.waiting {
        return false;
      }
      var state := driver.OperationState();
      return state == SlotIdle && (!driver.time.gateValid || Reached(Wrapped, nowMs, driver.time.gateMs));
    }

    /** Serves the workflow when a step may start. */
    method ServiceWorkflow(nowMs: nat)
      requires Valid()
      modifies this, driver, workflow
      ensures Valid()
      ensures var o := old(NextOptions(W.Current(workflow.View()), nowMs));
        View() == Dismiss(Serve(old(View()), o)) && moves == old(moves) + [DoServe(o), DoDismiss]
      ensures nextRequestId == old(if MayServe(View(), nowMs) then NextId(nextRequestId) else nextRequestId)
    {
      hide W.PlanOf, Play, W.OperationAt, Run, Summary, Requests, E.Reachable, MayServe, Serve, Dismiss;
      ghost var o := NextOptions(W.Current(workflow.View()), nowMs);
      moves := moves + [DoServe(o), DoDismiss];
      PlayTwice(first, old(moves), DoServe(o), driver.bus.Answer);
      var ready := Ready(nowMs);
      if !ready {
        NothingServed(View(), o);
        return;
      }
      var request := workflow.Next();
      if request.Some? {
        StartStep(request.value, nowMs);
      }
    }

    /** A workflow begins on an idle slot in the mode the driver believes in, and is served at once. */
    method StartWorkflow(kind: W.WorkflowKind, cycles: nat, nowMs: nat)
      requires Valid()
      modifies this, driver, workflow
      ensures Valid()
      ensures var x := Begin(old(View()), kind, cycles);
        var begun := old(E.SlotOf(driver.View()).SlotIdle? &&
                         W.MayBegin(workflow.View(), kind, cycles, driver.know.mode));
        View() == (if begun
                   then Dismiss(Serve(x, old(NextOptions(W.OperationAt(kind, driver.know.mode, 0), nowMs)))) else x) &&
        nextRequestId == (if begun && MayServe(x, nowMs) then NextId(old(nextRequestId)) else old(nextRequestId))
    {
      hide W.PlanOf, W.StepsIn, Play, W.OperationAt, Run, Summary, Requests, E.Reachable, Serve, Dismiss, MayServe,
        NextId;
      var state := driver.OperationState();
      if state != SlotIdle {
        return;
      }
      PlaySnoc(first, moves, DoBegin(kind, cycles), driver.bus.Answer);
      moves := moves + [DoBegin(kind, cycles)];
      var begun := workflow.Begin(kind, cycles, driver.know.mode);
      if begun {
        ServiceWorkflow(nowMs);
      }
    }

    method CancelOperation(nowMs: nat)
      requires driver.Stable() && workflow.Valid() && !workflow.finished
      modifies `clean, driver, workflow
      ensures driver.Stable() && workflow.Valid() && !workflow.finished
      ensures View() == Dismiss(Abort(old(View()), nowMs))
    {
      hide W.PlanOf, E.Cancel, Run, Summary, Requests, E.Reachable, Collect;
      var id := if driver.activeValid then driver.active.id else driver.terminal.id;
      RefusedCancel(driver.View(), id, nowMs);
      var status := driver.Cancel(id, nowMs);
      if status == Ok {
        TakeAndPrint(id);
      }
    }

    /** Between operations a cancel only stops the workflow. */
    method CancelCommand(nowMs: nat)
      requires Valid()
      modifies this, driver, workflow
      ensures Valid() && moves == old(moves) + [DoHalt(nowMs), DoDismiss]
      ensures View() == Dismiss(Halt(old(View()), nowMs)) && nextRequestId == old(nextRequestId)
    {
      hide W.PlanOf, Play, Run, Summary, Requests, E.Reachable, Abort;
      moves := moves + [DoHalt(nowMs), DoDismiss];
      PlayTwice(first, old(moves), DoHalt(nowMs), driver.bus.Answer);
      var active := workflow.Active();
      if active {
        workflow.RequestStop();
      }
      if active && !workflow.waiting {
        PrintWorkflowUpdate();
      } else {
        CancelOperation(nowMs);
      }
    }
  }

  lemma NothingFinished(calls: seq<W.WorkflowCall>)
    ensures W.PlanOf(calls).kind.NoWorkflow? ==> !W.PlanOf(calls).finished
  {
    hide W.PlanOf, W.BookOf, W.InOrder;
    W.AlwaysInOrder(calls);
    W.WaitsActively(W.PlanOf(calls), W.BookOf(calls));
  }

  lemma NothingServed(x: Session, o: Options)
    requires !MayServe(x, o.nowMs) && !PlanNow(x).finished
    ensures Dismiss(Serve(x, o)) == x
  {
  }

  lemma TakenIff(s: E.State, id: OpId)
    ensures var (t, status, result) := E.TakeResult(s, id); status == Ok <==> result.Some?
  {
  }

  lemma RefusedCancel(s: E.State, id: OpId, now: nat)
    ensures var (t, status) := E.Cancel(s, id, now); status != Ok ==> t == s
  {
    hide E.Finish, E.CancelEffect, E.CancelTime, E.BlockedIf, E.ForgetIf;
  }

  lemma PlaySnoc(x: Session, moves: seq<Move>, m: Move, bus: nat -> Reply)
    ensures Play(x, moves + [m], bus) == Proceed(Play(x, moves, bus), m, bus)
  {
    assert (moves + [m])[..|moves|] == moves;
  }

  lemma PlayTwice(x: Session, moves: seq<Move>, m: Move, bus: nat -> Reply)
    ensures Play(x, moves + [m, DoDismiss], bus) == Dismiss(Proceed(Play(x, moves, bus), m, bus))
  {
    var all := moves + [m, DoDismiss];
    assert all[..|all| - 1] == moves + [m] && (moves + [m])[..|moves|] == moves;
  }

  // ----- What the composition theorem says of the objects -----

  /**
    A command line opened over an attached, idle driver never fails a start: while no result has reported
    reconciliation and time does not run back, whatever it did before and whatever the transport does, the driver
    admits the workflow's next request under the options the command line gives it.
   */
  lemma StartsSucceed(c: Console, nowMs: nat)
    requires c.Valid() && Opens(c.first) && c.clean && MayServe(c.View(), nowMs)
    requires c.driver.time.ownerValid ==> Reached(Wrapped, nowMs, c.driver.time.ownerMs)
    ensures c.driver.know.mode == c.first.driver.know.mode
    ensures var r := W.NextRequest(c.workflow.View());
      r.Some? && E.Start(c.driver.View(), r.value, c.NextOptions(r.value.kind, nowMs)).1 == InProgress
  {
    hide W.PlanOf, W.BookOf, W.InOrder, W.OperationAt, Play, Opens, Run, Summary, Requests, E.Reachable, E.Start,
      E.Admission, BudgetOf;
    var calls := c.workflow.history;
    W.AlwaysInOrder(calls);
    W.SomethingToDo(W.PlanOf(calls), W.BookOf(calls));
    var kind := W.Current(W.PlanOf(calls));
    RunSteady(c.driver.history, Wrapped, c.driver.bus.Answer);
    assert c.driver.View().settings.timeoutMs <= 1000;
    BudgetShort(kind, c.driver.settings.timeoutMs, nowMs);
    RequestsAreAdmissible(c.first, c.moves, c.driver.bus.Answer, c.NextOptions(kind, nowMs));
  }

  lemma BudgetShort(k: Kind, timeoutMs: nat, nowMs: nat)
    requires timeoutMs <= 1000
    ensures DeadlineValid(Wrapped, nowMs, (nowMs + BudgetOf(k, timeoutMs)) % WRAP)
  {
    var b := BudgetOf(k, timeoutMs);
    assert 0 < b < HALF;
    assert ((nowMs + b) % WRAP - nowMs) % WRAP == b;
  }
}
