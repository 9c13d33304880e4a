/**
  The log as a ledger: every admission gets exactly one result, which is taken at
  most once, and every callback is charged to the operation it served.
 */
module Ledger {
  import opened Clocks
  import opened Types
  import opened Commands
  import opened Codec
  import opened Engine
  import opened Control
  import opened Runs

  // ----- What the log says about the one slot -----

  /** The slot according to the log: free, working with its callbacks so far, holding a result, or contradicted. */
  datatype Account =
    | Free
    | Working(id: OpId, request: Request, startedMs: nat, deadlineMs: nat, calls: seq<Call>)
    | Holding(result: Result)
    | Contradicted

  /** Charges are kept in eight bits. */
  function Charge(calls: seq<Call>): nat { if |calls| < 255 then |calls| else 255 }

  predicate Settles(a: Account, r: Result) {
    a.Working? && r.id == a.id && r.kind == a.request.kind && r.startedMs == a.startedMs &&
    r.deadlineMs == a.deadlineMs &&
    r.callbacks == Charge(a.calls)
  }

  /** One event posted to the account. */
  function Post(a: Account, e: Event): Account {
    match e
    case Bound(_) => if a.Free? then Free else Contradicted
    case Unbound => if a.Working? then Contradicted else a
    case Admitted(id, request, started, deadline) => if a.Free? then Working(id, request, started, deadline, [])
      else Contradicted
    case Called(c) => if a.Working? && c.id == a.id && c.kind == a.request.kind && c.deadlineMs == a.deadlineMs
                      then a.(calls := a.calls + [c]) else Contradicted
    case ProtocolError(_, _) => if a.Working? then a else Contradicted
    case Finished(r) => if Settles(a, r) then Holding(r) else Contradicted
    case Taken(id) => if a.Holding? && a.result.id == id then Free else Contradicted
  }

  function Audit(log: seq<Event>): Account {
    if log == [] then Free else Post(Audit(log[..|log| - 1]), log[|log| - 1])
  }

  lemma AuditSnoc(log: seq<Event>, e: Event)
    ensures Audit(log + [e]) == Post(Audit(log), e)
  {
    assert (log + [e])[..|log|] == log;
  }

  /** The driver's slot is what the log says it is. */
  predicate Balanced(s: State) {
    var a := Audit(s.log);
    if s.activeValid then
      a.Working? && a.id == s.active.id && a.request == s.active.request && a.startedMs == s.active.startedMs &&
      a.deadlineMs == s.active.deadlineMs && s.active.callbacks == Charge(a.calls)
    else if s.terminalValid then a == Holding(s.terminal)
    else a == Free
  }

  // ----- How operations end -----

  /** `t` is `y` with its operation closed by exactly one result. */
  predicate Closes(y: State, t: State) {
    && !t.activeValid && t.terminalValid
    && t.log == y.log + [Finished(t.terminal)]
    && t.terminal.id == y.active.id && t.terminal.kind == y.active.request.kind
    && t.terminal.startedMs == y.active.startedMs && t.terminal.deadlineMs == y.active.deadlineMs
    && t.terminal.callbacks == y.active.callbacks && t.terminal.finalPhase == y.active.phase
    && t.calls == y.calls
  }

  lemma FinishCloses(y: State, outcome: Outcome, effect: Effect, status: Err, at: nat)
    requires y.activeValid && !y.terminalValid
    ensures var t := Finish(y, outcome, effect, status, at);
      Closes(y, t) && t.terminal.outcome == outcome && t.terminal.effect == effect && t.terminal.status == status &&
      t.terminal.completedMs == at && t.time == y.time
  {
    hide Discarded, Published;
  }

  lemma FailureCloses(y: State, status: Err, at: nat)
    requires y.activeValid && !y.terminalValid
    ensures var t := FinishFailure(y, status, at); var f := Classify(y, status);
      Closes(y, t) && t.terminal.outcome == PartialOutcome(y.active, f.outcome) && t.terminal.effect == f.effect &&
      t.terminal.status == status && t.terminal.completedMs == at && t.time == y.time
  {
    hide Finish, Classify, ForgetIf, BlockedIf, EepromUncertain, PartialWork, PartialOutcome;
    var f := Classify(y, status);
    FinishCloses(Failing(y, status, f), PartialOutcome(y.active, f.outcome), f.effect, status, at);
  }

  lemma ClosedBalanced(y: State, t: State)
    requires y.activeValid && Balanced(y) && Closes(y, t)
    ensures Balanced(t)
  {
    hide Audit;
    AuditSnoc(y.log, Finished(t.terminal));
  }

  /** A protocol error says nothing about the slot. */
  lemma NotedBalanced(y: State, t: State, p: seq<Event>)
    requires y.activeValid && Balanced(y) && t.activeValid && !t.terminalValid
    requires t.log == y.log + p && (p == [] || (|p| == 1 && p[0].ProtocolError?))
    requires t.active.id == y.active.id && t.active.request == y.active.request &&
      t.active.callbacks == y.active.callbacks
    requires t.active.startedMs == y.active.startedMs && t.active.deadlineMs == y.active.deadlineMs
    ensures Balanced(t)
  {
    hide Audit;
    if p == [] {
      assert t.log == y.log;
    } else {
      assert p == [p[0]];
      AuditSnoc(y.log, p[0]);
    }
  }

  lemma TransferredBalanced(s: State, send: Send, now: nat, reply: Reply)
    requires s.activeValid && !s.terminalValid && Balanced(s)
    ensures Balanced(Transferred(s, send, now, reply))
    ensures var x := Transferred(s, send, now, reply);
      Audit(x.log).Working? && Audit(x.log).calls == Audit(s.log).calls + [CallOf(s, send, now, reply)]
  {
    hide Audit, NormOf, Settle;
    AuditSnoc(s.log, Called(CallOf(s, send, now, reply)));
  }

  lemma WriteEndBalanced(x: State, k: Knowledge, status: Err, at: nat)
    requires x.activeValid && !x.terminalValid && Balanced(x)
    ensures Balanced(WriteEnd(x, k, status, at))
  {
    hide Finish, FinishFailure, Audit, EffectAfterWrite, IndexAfterWrite, PhaseAfterWrite, WaitAfter, After;
    var y := x.(know := k, active := Written(x.active, x.disposition, x.clock, at));
    if status != Ok {
      FailureCloses(x.(know := k), status, at);
      ClosedBalanced(x.(know := k), WriteEnd(x, k, status, at));
    } else if EndsAfterWrite(x.active.request.kind) {
      FinishCloses(y, Succeeded, Acknowledged, Ok, at);
      ClosedBalanced(y, WriteEnd(x, k, status, at));
    }
  }

  /** A judged response keeps the operation's identity and its charge. */
  predicate SameTicket(a: Active, b: Active) {
    a.request == b.request && a.id == b.id && a.callbacks == b.callbacks && a.startedMs == b.startedMs &&
    a.deadlineMs == b.deadlineMs && a.desired == b.desired && a.wrote == b.wrote && a.effect == b.effect
  }

  lemma JudgedTicket(s: State, words: seq<u16>, now: nat)
    requires |words| == ResponseWords(s.active) && |words| >= 1
    ensures SameTicket(s.active, Judge(s, words, now).active)
  {
    hide CacheResult, FieldWordValid, VariantOf, WithIdentity, WithSerial, DataReady, DecodeField, TemperatureMilliC,
      HumidityMilliPct, SerialOf, FieldAt, CacheField, Unverify, Disowned, DisownedVariant, ResetKnowledge, Attached,
      Identified, StoreSample, Rebased, StrictlyUnsupported, OtherSensor, SameSensor, Selected;
  }

  lemma ReadEndBalanced(x: State, j: Judged, at: nat)
    requires x.activeValid && !x.terminalValid && Balanced(x) && SameTicket(x.active, j.active)
    ensures Balanced(ReadEnd(x, j, at))
  {
    hide Finish, FinishFailure, Audit;
    var p := if j.protocol.Some? then [ProtocolError(j.protocol.value, at)] else [];
    var y := x.(active := j.active, know := j.know, work := j.work,
                log := if j.protocol.Some? then x.log + [ProtocolError(j.protocol.value, at)] else x.log);
    NotedBalanced(x, y, p);
    match j.verdict
    case Continue =>
    case Done(outcome, effect, status) =>
      FinishCloses(y, outcome, effect, status, at);
      ClosedBalanced(y, ReadEnd(x, j, at));
    case Reject(status) =>
      FailureCloses(y, status, at);
      ClosedBalanced(y, ReadEnd(x, j, at));
  }

  lemma MissEndBalanced(x: State, status: Err, p: seq<Event>, at: nat)
    requires x.activeValid && !x.terminalValid && Balanced(x) && (p == [] || (|p| == 1 && p[0].ProtocolError?))
    ensures Balanced(MissEnd(x, status, p, at))
  {
    hide Finish, FinishFailure, Audit, IsPartial;
    var y := x.(log := x.log + p);
    NotedBalanced(x, y, p);
    if IsPartial(x.active) {
      var z := y.(work := y.work.(configuration := y.know.configuration));
      FinishCloses(z, Partial, NoEffectWrite, status, at);
      ClosedBalanced(z, MissEnd(x, status, p, at));
    } else {
      FailureCloses(y, status, at);
      ClosedBalanced(y, MissEnd(x, status, p, at));
    }
  }

  lemma TurnBalanced(s: State, now: nat, budget: nat, reply: Reply)
    requires Live(s) && Balanced(s)
    ensures Balanced(Iterate(s, now, budget, reply).s)
  {
    hide Iterate, Reachable, Finish, FinishFailure, Transferred, NormOf, Judge, TransferStatus, ReadEnd, WriteEnd,
      MissEnd, Wakes, ResponseWords, KnowAfterSend, Audit, SendFor;
    var c := Shape(s, now, budget, reply);
    match c
    case Held(_) =>
    case Roused(_) =>
    case Quiet(k, w, outcome, effect, status) =>
      FinishCloses(s.(know := k, work := w), outcome, effect, status, now);
      ClosedBalanced(s.(know := k, work := w), Leads(s, now, reply, c));
    case Expired =>
      FailureCloses(s, Timeout, now);
      ClosedBalanced(s, FinishFailure(s, Timeout, now));
    case Wrote(send, k) =>
      var n := NormOf(s, send, now, reply);
      TransferredBalanced(s, send, now, reply);
      TransferredFrame(s, send, now, reply);
      WriteEndBalanced(Transferred(s, send, now, reply), k,
                       TransferStatus(s.clock, s.active.deadlineMs, send.intent, n), n.doneMs);
    case Fetched(send, words) =>
      var n := NormOf(s, send, now, reply);
      var x := Transferred(s, send, now, reply);
      TransferredBalanced(s, send, now, reply);
      TransferredFrame(s, send, now, reply);
      JudgedTicket(x, words, n.doneMs);
      ReadEndBalanced(x, Judge(x, words, n.doneMs), n.doneMs);
    case Missed(send, status, p) =>
      TransferredBalanced(s, send, now, reply);
      TransferredFrame(s, send, now, reply);
      MissEndBalanced(Transferred(s, send, now, reply), status, p, NormOf(s, send, now, reply).doneMs);
  }

  lemma OtherBalanced(s: State, op: Op)
    requires Steady(s) && Balanced(s) && !op.OpPoll?
    ensures Balanced(Apply(s, Other(op)))
  {
    hide Reachable, Finish, Forget, CheckStart, CancelEffect, CancelTime, Reached, Audit, BlockedIf, ForgetIf;
    match op
    case OpBegin(c) => AuditSnoc(s.log, Bound(c.offlineThreshold));
    case OpStart(r, o) =>
      AuditSnoc(s.log, Admitted(OpId(o.requestId, s.generation), r, o.nowMs, o.deadlineMs));
      if CheckStart(s, r, o) == Ok { AdmittedFree(s, r, o); }
    case OpCancel(id, now) =>
      if s.activeValid && s.active.id == id {
        var know := BlockedIf(ForgetIf(s.know, s.active.callbacks != 0 && s.active.wrote), s.active, s.active.wrote);
        var t := CancelTime(s, now);
        var y := s.(time := s.time.(ownerMs := t, ownerValid := true), know := know);
        FinishCloses(y, OutcomeCancelled, CancelEffect(s.active), Cancelled, t);
        ClosedBalanced(y, Cancel(s, id, now).0);
      }
    case OpTake(id) => AuditSnoc(s.log, Taken(id));
    case OpEnd =>
      EndActiveBalanced(s);
      AuditSnoc(EndActive(s).log, Unbound);
  }

  lemma EndActiveBalanced(s: State)
    requires Steady(s) && Balanced(s)
    ensures Balanced(EndActive(s)) && !EndActive(s).activeValid
  {
    hide Finish, Audit, BlockedIf, ForgetIf;
    if s.activeValid {
      var t := if s.time.ownerValid then s.time.ownerMs else s.active.startedMs;
      var know := BlockedIf(ForgetIf(s.know, s.active.callbacks > 0), s.active, s.active.wrote);
      FinishCloses(s.(know := know), OutcomeCancelled, s.active.effect, Cancelled, t);
      ClosedBalanced(s.(know := know), EndActive(s));
    }
  }

  lemma AdmittedFree(s: State, r: Request, o: Options)
    requires CheckStart(s, r, o) == Ok
    ensures !s.activeValid && !s.terminalValid && s.bound && !r.kind.NoKind?
    ensures CheckRequest(r) == Ok && Admission(s.know, r.kind) == Ok
    ensures DeadlineValid(s.clock, o.nowMs, o.deadlineMs) && !GateClosed(s, o.nowMs)
    ensures s.time.ownerValid ==> Reached(s.clock, o.nowMs, s.time.ownerMs)
  {
  }

  lemma SmallBalanced(s: State, m: Small)
    requires Steady(s) && Balanced(s) && Allowed(s, m)
    ensures Balanced(Apply(s, m))
  {
    hide Reachable, Iterate, FinishFailure, Reached, Do, MayRun, Audit;
    match m
    case Watch(_) =>
    case Expiry(now) =>
      FailureCloses(s, Timeout, now);
      ClosedBalanced(s, FinishFailure(s, Timeout, now));
    case Turns(now, budget, reply) => TurnBalanced(s, now, budget, reply);
    case Other(op) => OtherBalanced(s, op);
  }

  /** In every reachable state the log accounts for the slot, and was never contradicted. */
  lemma AlwaysBalanced(ops: seq<Op>, c: Clock, bus: nat -> Reply)
    ensures Steady(Run(ops, c, bus)) && Balanced(Run(ops, c, bus))
  {
    hide Balanced, Steady, Apply, Allowed, Run;
    assert Preserved(Balanced) by {
      forall s: State, m: Small | Steady(s) && Balanced(s) && Allowed(s, m) ensures Balanced(Apply(s, m)) {
        SmallBalanced(s, m);
      }
    }
    assert Balanced(Initial(c)) by { InitialBalanced(c); }
    Lift(Balanced, ops, c, bus);
  }

  lemma InitialBalanced(c: Clock)
    ensures Balanced(Initial(c))
  {
  }

  /** Calls other than polls make no callback, and end work only as cancelled; only a start admits. */
  predicate CallAdds(s: State, op: Op, t: State) {
    s.log <= t.log &&
    forall i | |s.log| <= i < |t.log| ::
      !t.log[i].Called? && (t.log[i].Admitted? ==> op.OpStart?) &&
      (t.log[i].Finished? ==> t.log[i].result.outcome == OutcomeCancelled)
  }

  lemma CancelAdds(s: State, id: OpId, now: nat)
    requires Steady(s)
    ensures CallAdds(s, OpCancel(id, now), Cancel(s, id, now).0) && Cancel(s, id, now).0.generation == s.generation
  {
    hide Reachable, Finish, CancelEffect, CancelTime, BlockedIf, ForgetIf;
    if s.activeValid && s.active.id == id {
      var know := BlockedIf(ForgetIf(s.know, s.active.callbacks != 0 && s.active.wrote), s.active, s.active.wrote);
      var t := CancelTime(s, now);
      var y := s.(time := s.time.(ownerMs := t, ownerValid := true), know := know);
      FinishCloses(y, OutcomeCancelled, CancelEffect(s.active), Cancelled, t);
      FinishOwner(y, OutcomeCancelled, CancelEffect(s.active), Cancelled, t);
    }
  }

  lemma EndAdds(s: State)
    requires Steady(s)
    ensures CallAdds(s, OpEnd, End(s)) && End(s).generation == s.generation
  {
    hide Reachable, Finish, BlockedIf, ForgetIf;
    if s.activeValid {
      var t := if s.time.ownerValid then s.time.ownerMs else s.active.startedMs;
      var y := s.(know := BlockedIf(ForgetIf(s.know, s.active.callbacks > 0), s.active, s.active.wrote));
      FinishCloses(y, OutcomeCancelled, s.active.effect, Cancelled, t);
      FinishOwner(y, OutcomeCancelled, s.active.effect, Cancelled, t);
    }
  }

  lemma OtherAdds(s: State, op: Op)
    requires Steady(s) && !op.OpPoll?
    ensures CallAdds(s, op, Apply(s, Other(op))) && (!op.OpStart? ==> Apply(s, Other(op)).generation == s.generation)
  {
    hide Reachable, CheckStart, Cancel, End, Opened, NextGeneration;
    match op
    case OpCancel(id, now) => CancelAdds(s, id, now);
    case OpEnd => EndAdds(s);
    case _ =>
  }
}
