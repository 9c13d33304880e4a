/** What the run theorems say about driver objects. */
module Guarantees {
  import opened Clocks
  import opened Types
  import opened Commands
  import opened Engine
  import opened Runs
  import opened Telemetry
  import opened Lens
  import opened Refinement
  import opened Passivity
  import opened Driver
  import Coherence
  import Ledger
  import Accounts
  import Evidence
  import Pace
  import Windows
  import Spacing
  import Liveness
  import Sensors
  import Belief
  import Promises
  import Attention

  /** A driver object between calls is coherent, balanced, faithful and disciplined, and its counters are the log's. */
  lemma ObjectIsSound(d: Driver)
    requires d.Stable()
    ensures Coherence.Coherent(d.View()) && Ledger.Balanced(d.View()) && !Ledger.Audit(d.log).Contradicted?
    ensures Evidence.AllFaithful(Wrapped, d.log) && Pace.AllFit(Wrapped, d.log)
    ensures d.meter == Summary(d.log) && d.bus.seen == Requests(d.log)
    ensures var b, h := Accounts.Since(d.log), d.meter.health;
      (b.admitted <= MAX_U32 ==>
       b.admitted == h.succeeded + h.failed + h.cancelled + (if d.activeValid then 1 else 0)) &&
      (b.called <= MAX_U32 ==> b.called == h.transferOk + h.transferFailed + h.expectedNacks + b.unstarted)
  {
    hide Run, Ledger.Audit, Evidence.AllFaithful, Pace.AllFit, Accounts.Since, Summary, Requests, Coherence.Coherent,
      Reachable;
    Coherence.AlwaysCoherent(d.history, Wrapped, d.bus.Answer);
    Ledger.AlwaysBalanced(d.history, Wrapped, d.bus.Answer);
    Evidence.AlwaysFaithful(d.history, Wrapped, d.bus.Answer);
    Pace.AlwaysFit(d.history, Wrapped, d.bus.Answer);
    Accounts.CountersConserve(d.history, Wrapped, d.bus.Answer);
  }

  /** The object, which keeps 32-bit times, is the linear driver seen modulo 2^32. */
  lemma ObjectRefinesLinear(d: Driver, ops: seq<Op>)
    requires d.Stable() && d.history == OnOps(MODULO, ops) && AllPunctual(ops, d.bus.script)
    ensures d.View() == On(MODULO, Run(ops, Linear, d.bus.script))
  {
    hide Run, AllPunctual, Reachable;
    WrappedRefinesLinear(ops, d.bus.script);
    forall n: nat ensures d.bus.Answer(n) == OnBus(MODULO, d.bus.script)(n) { BusSeen(d.bus, n); }
    RunByAnswers(d.history, Wrapped, d.bus.Answer, OnBus(MODULO, d.bus.script));
  }

  lemma BusSeen(bus: Bus, n: nat)
    ensures bus.Answer(n) == OnBus(MODULO, bus.script)(n)
  {
    assert OnBus(MODULO, bus.script)(n) == OnReply(MODULO, bus.script(n - MODULO.earlier));
  }

  /**
    So the object's callbacks are spaced: at 32 bits they are the linear driver's, whose callbacks start only
    after every earlier settle, and after the execution of every earlier managed command.
   */
  lemma ObjectNeverBusy(d: Driver, ops: seq<Op>, i: nat, j: nat)
    requires d.Stable() && d.history == OnOps(MODULO, ops) && AllPunctual(ops, d.bus.script)
    requires i < j < |d.log| && d.log[i].Called? && d.log[j].Called?
    ensures var log := Run(ops, Linear, d.bus.script).log;
      |log| == |d.log| && log[i].Called? && log[j].Called? &&
      d.log[i].call == OnCall(MODULO, log[i].call) && d.log[j].call == OnCall(MODULO, log[j].call) &&
      (Evidence.Began(d.log[i].call) ==> log[j].call.startMs >= Spacing.FreeAt(log[i].call)) &&
      (Pace.MayHaveEffect(d.log[i].call) && !IsDiagnostic(d.log[i].call.kind) ==>
         log[j].call.startMs >= log[i].call.norm.doneMs + Pace.CommandTime(d.log[i].call.wire))
  {
    hide Run, AllPunctual, Reachable, Summary, Requests, OnOps, OnCall, OnEvent, OnLog, Evidence.Began,
      Pace.MayHaveEffect, Pace.CommandTime, Spacing.FreeAt;
    ObjectRefinesLinear(d, ops);
    var log := Run(ops, Linear, d.bus.script).log;
    assert d.log == OnEvents(MODULO, log) by { NoPast(log); }
    EventSeen(log[i]);
    EventSeen(log[j]);
    Spacing.NeverBusy(ops, d.bus.script, i, j);
  }

  lemma EventSeen(e: Event)
    ensures OnEvent(MODULO, e).Called? == e.Called?
    ensures e.Called? ==> OnEvent(MODULO, e).call == OnCall(MODULO, e.call)
    ensures e.Called? ==>
      (var c, d := e.call, OnCall(MODULO, e.call);
       Evidence.Began(d) == Evidence.Began(c) && Pace.MayHaveEffect(d) == Pace.MayHaveEffect(c) && d.kind == c.kind &&
       d.wire == c.wire)
  {
  }

  lemma NoPast(log: seq<Event>)
    ensures OnLog(MODULO, log) == OnEvents(MODULO, log)
  {
  }

  // ----- What the integer driver keeps, the object keeps -----

  /** A success of the object is at 32 bits one that lasted its mandatory waits. */
  lemma ObjectSuccessLasts(d: Driver, ops: seq<Op>, i: nat)
    requires d.Stable() && d.history == OnOps(MODULO, ops) && AllPunctual(ops, d.bus.script)
    requires i < |d.log| && d.log[i].Finished? && d.log[i].result.outcome == Succeeded
    ensures var log := Run(ops, Linear, d.bus.script).log;
      i < |log| && log[i].Finished? && d.log[i].result == OnResult(MODULO, log[i].result) &&
      log[i].result.completedMs >=
      log[i].result.startedMs + Spacing.MinimumWait(d.log[i].result.kind, d.log[i].result.callbacks)
  {
    hide Run, AllPunctual, Reachable, Summary, Requests, OnOps, OnEvent, OnLog, Spacing.MinimumWait;
    ObjectRefinesLinear(d, ops);
    var log := Run(ops, Linear, d.bus.script).log;
    assert d.log == OnEvents(MODULO, log) by { NoPast(log); }
    ResultSeen(log[i]);
    Spacing.SuccessLasts(ops, d.bus.script, i);
  }

  lemma ResultSeen(e: Event)
    ensures OnEvent(MODULO, e).Finished? == e.Finished?
    ensures e.Finished? ==>
      (var r, q := e.result, OnEvent(MODULO, e).result;
       q == OnResult(MODULO, r) && q.outcome == r.outcome && q.kind == r.kind && q.callbacks == r.callbacks)
  {
  }

  /** Polled before the due time, the object only records the owner's time. */
  lemma ObjectEarlyPollIsQuiet(d: Driver, ops: seq<Op>, now: nat, budget: nat)
    requires d.Stable() && d.history == OnOps(MODULO, ops) && AllPunctual(ops + [OpPoll(now, budget)], d.bus.script)
    requires var s := Run(ops, Linear, d.bus.script); s.activeValid && now < NextPollDue(s)
    ensures Poll(d.View(), Wrap(now), budget, d.bus.Answer).0 == Observe(d.View(), Wrap(now))
  {
    hide Run, Poll, Observe, Punctual, Windows.Between, Steady, OnOps, Summary, Requests;
    var all, bus := ops + [OpPoll(now, budget)], d.bus.script;
    assert all[..|ops|] == ops;
    var s := Run(ops, Linear, bus);
    ObjectRefinesLinear(d, ops);
    RunSteady(ops, Linear, bus);
    RunBetween(ops, bus);
    PunctualPoll(s, LastOf(ops, bus), now, budget, bus);
    PollSeen(MODULO, s, LastOf(ops, bus), now, budget, bus);
    ObserveSeen(MODULO, s, LastOf(ops, bus), now);
    Spacing.EarlyPollIsQuiet(ops, bus, now, budget);
    forall n: nat ensures d.bus.Answer(n) == OnBus(MODULO, bus)(n) { BusSeen(d.bus, n); }
    DoByAnswers(d.View(), OpPoll(Wrap(now), budget), d.bus.Answer, OnBus(MODULO, bus));
  }

  lemma PunctualPoll(s: State, last: nat, now: nat, budget: nat, bus: nat -> Reply)
    requires Punctual(s, last, OpPoll(now, budget), bus)
    ensures OwnerPunctual(s, last, now)
  {
  }

  /**
    An object served in good time after any history ends its operation: the result it holds is at 32 bits one
    completed by the published formula, and is not a timeout.
   */
  lemma ObjectOperationEnds(d: Driver, before: seq<Op>, r: Request, o: Options, polls: seq<Op>)
    requires var all := before + [OpStart(r, o)] + polls;
      d.Stable() && d.history == OnOps(MODULO, all) && AllPunctual(all, d.bus.script)
    requires Liveness.WellServed(before, d.bus.script, r, o, polls)
    ensures var s := Run(before, Linear, d.bus.script);
      var end := Liveness.Formula(r.kind, o.nowMs, s.settings.timeoutMs);
      (Liveness.Asked(Start(s, r, o).0, polls, d.bus.script) >= 3 * LimitsOf(r.kind).maxCallbacks + 3 ==>
         !d.activeValid) &&
      (!d.activeValid ==>
         d.terminalValid && d.terminal.id == OpId(o.requestId, s.generation) && d.terminal.kind == r.kind &&
         d.terminal.status != Timeout && exists at: nat :: at <= end && d.terminal.completedMs == Wrap(at))
  {
    hide Run, AllPunctual, Reachable, Summary, Requests, OnOps, Resume, Start, Liveness.WellServed, Liveness.Formula,
      Liveness.Asked, LimitsOf;
    var all, bus := before + [OpStart(r, o)] + polls, d.bus.script;
    ObjectRefinesLinear(d, all);
    RunSnoc(before, OpStart(r, o), Linear, bus);
    RunResumes(before + [OpStart(r, o)], polls, Linear, bus);
    Liveness.EveryOperationEnds(before, bus, r, o, polls);
    assert d.terminal.completedMs == Wrap(Run(all, Linear, bus).terminal.completedMs);
  }

  /** The object's beliefs, traffic and results are as good, for a sensor that is deaf while it executes. */
  lemma ObjectBelieves(d: Driver, ops: seq<Op>, body: nat -> Attention.Body)
    requires d.Stable() && d.history == OnOps(MODULO, ops) && AllPunctual(ops, d.bus.script)
    requires Attention.Attends(Run(ops, Linear, d.bus.script).log, body)
    ensures Belief.Sound(d.View(), body(|d.log|).sensor)
    ensures Promises.AllPermitted(d.log, Attention.SensorOf(body)) && Promises.AllMean(d.log, Attention.SensorOf(body))
  {
    hide Run, AllPunctual, Reachable, Summary, Requests, OnOps, OnLog, Attention.Attends, Sensors.Follows, Belief.Sound,
      Promises.AllPermitted, Promises.AllMean;
    ObjectRefinesLinear(d, ops);
    var log, sens := Run(ops, Linear, d.bus.script).log, Attention.SensorOf(body);
    assert d.log == OnEvents(MODULO, log) by { NoPast(log); }
    Attention.AlwaysHeard(ops, d.bus.script, body);
    FollowsSeen(log, sens);
    Belief.AlwaysSound(d.history, Wrapped, d.bus.Answer, sens);
    Promises.AlwaysKeeps(d.history, Wrapped, d.bus.Answer, sens);
  }

  /** The sensor's rules know no times. */
  lemma FollowsSeen(log: seq<Event>, sens: nat -> Sensors.Sensor)
    requires Sensors.Follows(log, sens)
    ensures Sensors.Follows(OnEvents(MODULO, log), sens)
  {
    hide Sensors.Moves, OnCall;
    forall i | 0 <= i < |log| && log[i].Called?
      ensures Sensors.Moves(sens(i), OnCall(MODULO, log[i].call), sens(i + 1)) == Sensors.Moves(sens(i), log[i].call,
        sens(i + 1))
    {
      MovesSeen(sens(i), log[i].call, sens(i + 1));
    }
  }

  lemma MovesSeen(a: Sensors.Sensor, call: Call, b: Sensors.Sensor)
    ensures Sensors.Moves(a, OnCall(MODULO, call), b) == Sensors.Moves(a, call, b)
  {
  }

  // ----- Health is passive -----

  lemma {:induction false} RequestsJoin(a: seq<Event>, b: seq<Event>)
    ensures Requests(a + b) == Requests(a) + Requests(b)
    decreases |b|
  {
    if b == [] {
      assert a + b == a;
    } else {
      var init := b[..|b| - 1];
      assert a + b == a + init + [b[|b| - 1]] && b == init + [b[|b| - 1]];
      RequestsJoin(a, init);
      Logged(a + init, b[|b| - 1]);
      Logged(init, b[|b| - 1]);
    }
  }

  lemma {:induction false} RequestsUnmetered(log: seq<Event>)
    ensures Requests(Unmetered(log)) == Requests(log)
  {
    if log != [] {
      RequestsUnmetered(log[..|log| - 1]);
      assert Unmetered(log)[..|log| - 1] == Unmetered(log[..|log| - 1]);
    }
  }

  /** The requests since some time depend on the events since then alone. */
  lemma RequestsSince(past: seq<Event>, log: seq<Event>)
    requires past <= log
    ensures Requests(log) == Requests(past) + Requests(Unmetered(Tail(log, |past|)))
  {
    hide Unmetered, Requests;
    assert log == past + Tail(log, |past|);
    RequestsJoin(past, Tail(log, |past|));
    RequestsUnmetered(Tail(log, |past|));
  }

  /**
    Take two driver objects that at some time, after the calls `ha` and `hb`, agreed in everything but their
    histories: their counters, offline thresholds and health could then be anything. If the calls since,
    `la` and `lb`, differ at most in thresholds and are answered alike, then the objects still agree in
    every belief, operation and result, have made identical transport requests since, and tell their owners
    the same at the next call, whichever it is.
   */
  lemma HealthIsPassive(a: Driver, b: Driver, ha: seq<Op>, la: seq<Op>, hb: seq<Op>, lb: seq<Op>)
    requires a.Stable() && b.Stable() && a.history == ha + la && b.history == hb + lb
    requires OnOps(BLIND, la) == OnOps(BLIND, lb)
    requires var s, t := Run(ha, Wrapped, a.bus.Answer), Run(hb, Wrapped, b.bus.Answer);
      Bare(s) == Bare(t) && AlikeAhead(a.bus.Answer, s.calls, b.bus.Answer, t.calls)
    ensures Bare(a.View()) == Bare(b.View())
    ensures var s, t := Run(ha, Wrapped, a.bus.Answer), Run(hb, Wrapped, b.bus.Answer);
      Requests(s.log) <= a.bus.seen && Requests(t.log) <= b.bus.seen &&
      a.bus.seen[|Requests(s.log)|..] == b.bus.seen[|Requests(t.log)|..]
    ensures forall op :: Answered(a.View(), op, a.bus.Answer) == Answered(b.View(), op, b.bus.Answer)
  {
    hide Run, Requests, Summary, Reachable, Bare, AlikeAhead, OnOps, Answered, Tail, Unmetered, Resume, Steady;
    var s, t := Run(ha, Wrapped, a.bus.Answer), Run(hb, Wrapped, b.bus.Answer);
    RunSteady(ha, Wrapped, a.bus.Answer);
    RunSteady(hb, Wrapped, b.bus.Answer);
    RunResumes(ha, la, Wrapped, a.bus.Answer);
    RunResumes(hb, lb, Wrapped, b.bus.Answer);
    PastIsPassive(s, t, la, lb, a.bus.Answer, b.bus.Answer);
    RequestsSince(s.log, a.log);
    RequestsSince(t.log, b.log);
  }
}
