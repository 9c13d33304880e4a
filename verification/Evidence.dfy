/**
  What a result says about the wire is true: its callbacks, its deadline, and
  whether its effectful command began, completed, or is in doubt.
 */
module Evidence {
  import opened Clocks
  import opened Types
  import opened Commands
  import opened Codec
  import opened Engine
  import opened Exchanges
  import opened Control
  import opened Runs
  import opened Ledger
  import opened Effort

  /** The transfer began on the bus. */
  predicate Began(c: Call) { !c.norm.disposition.NotStarted? }

  /** The effectful callbacks among `calls`. */
  function Acts(calls: seq<Call>): seq<Call> {
    if calls == [] then []
    else
      var rest := Acts(calls[..|calls| - 1]);
      if calls[|calls| - 1].effectful then rest + [calls[|calls| - 1]] else rest
  }

  lemma ActsSnoc(calls: seq<Call>, c: Call)
    ensures Acts(calls + [c]) == if c.effectful then Acts(calls) + [c] else Acts(calls)
  {
    assert (calls + [c])[..|calls|] == calls;
  }

  lemma {:induction false} ActsAre(calls: seq<Call>)
    ensures forall i | 0 <= i < |Acts(calls)| :: Acts(calls)[i] in calls && Acts(calls)[i].effectful
    ensures forall i | 0 <= i < |calls| && calls[i].effectful :: calls[i] in Acts(calls)
  {
    if calls != [] {
      ActsAre(calls[..|calls| - 1]);
      forall i | 0 <= i < |calls| && calls[i].effectful ensures calls[i] in Acts(calls) {
        if i < |calls| - 1 { assert calls[i] == calls[..|calls| - 1][i]; }
      }
    }
  }

  /**
    What a terminal effect claims: NONE and NOT_ATTEMPTED, that no effectful transfer began;
    ACKNOWLEDGED (except for ATTACH), that one was transferred completely; and an indeterminate
    one is never reported as anything but UNKNOWN, or VERIFIED for a successful wake.
   */
  predicate EvidenceSound(k: Kind, calls: seq<Call>, outcome: Outcome, effect: Effect) {
    && (effect in {NoEffectWrite, NotAttempted} ==> forall c | c in calls && c.effectful :: !Began(c))
    && (!k.Attach? && effect == Acknowledged ==>
        exists c :: c in calls && c.effectful && c.norm.disposition == Complete)
    && (!k.Attach? && (exists c :: c in calls && c.effectful && c.norm.disposition == Unproven) ==>
          effect == UnknownEffect || (k.WakeUp? && outcome == Succeeded && effect == Verified))
  }

  /** A result is faithful to its callbacks. */
  predicate Faithful(c: Clock, calls: seq<Call>, r: Result) {
    && |calls| <= LimitsOf(r.kind).maxCallbacks
    && r.callbacks == |calls|
    && (r.outcome == Succeeded ==> ExactCallbacks(r.kind, |calls|))
    && (r.outcome in {Succeeded, NoData} ==> !Reached(c, r.completedMs, r.deadlineMs))
    && EvidenceSound(r.kind, calls, r.outcome, r.effect)
  }

  function CallsOf(a: Account): seq<Call> { if a.Working? then a.calls else [] }

  /** Every result in the log is faithful to the callbacks since its admission. */
  predicate AllFaithful(c: Clock, log: seq<Event>) {
    forall i | 0 <= i < |log| && log[i].Finished? :: Faithful(c, CallsOf(Audit(log[..i])), log[i].result)
  }

  // ----- Evidence while an operation works -----

  /** What the operation's place and effect say about its effectful callbacks. */
  predicate OwnEvidence(a: Active, acts: seq<Call>) {
    if !PastCommand(a) then
      acts == [] && !a.wrote && a.effect == (if IsEffectful(a.request.kind) then NotAttempted else NoEffectWrite)
    else
      a.wrote && acts != [] && a.effect != NoEffectWrite && a.effect != NotAttempted &&
      (a.request.kind.Attach? ||
       (|acts| == 1 &&
        (if a.request.kind.WakeUp? then a.effect == WakeEffect(acts[0].norm.disposition)
         else a.effect == Acknowledged && acts[0].norm.disposition == Complete)))
  }

  /** The remembered last transfer is the last callback. */
  predicate LastTransfer(s: State, calls: seq<Call>) {
    if calls == [] then !s.effectful
    else
      s.effectful == calls[|calls| - 1].effectful && s.disposition == calls[|calls| - 1].norm.disposition &&
      s.disposition != BadDisposition
  }

  predicate Tracked(s: State) {
    Balanced(s) && AllFaithful(s.clock, s.log) &&
    (s.activeValid ==>
      var calls := CallsOf(Audit(s.log));
      |calls| == Spent(s.active) && OwnEvidence(s.active, Acts(calls)) && LastTransfer(s, calls))
  }

  // ----- Endings -----

  /** An effect that the operation's own evidence supports. */
  predicate Supported(k: Kind, acts: seq<Call>, outcome: Outcome, effect: Effect) {
    && (effect in {NoEffectWrite, NotAttempted} ==> forall i | 0 <= i < |acts| :: !Began(acts[i]))
    && (!k.Attach? && effect == Acknowledged ==> |acts| > 0 && acts[|acts| - 1].norm.disposition == Complete)
    && (!k.Attach? && (exists i | 0 <= i < |acts| :: acts[i].norm.disposition == Unproven) ==>
          effect == UnknownEffect || (k.WakeUp? && outcome == Succeeded && effect == Verified))
  }

  lemma SupportedSound(k: Kind, calls: seq<Call>, outcome: Outcome, effect: Effect)
    requires Supported(k, Acts(calls), outcome, effect)
    ensures EvidenceSound(k, calls, outcome, effect)
  {
    hide Acts;
    ActsAre(calls);
    var acts := Acts(calls);
    forall c | c in calls && c.effectful && c.norm.disposition == Unproven
      ensures exists i | 0 <= i < |acts| :: acts[i].norm.disposition == Unproven
    {
      var j :| 0 <= j < |calls| && calls[j] == c;
      assert calls[j] in acts;
      var i :| 0 <= i < |acts| && acts[i] == c;
    }
    forall c | c in calls && c.effectful && effect in {NoEffectWrite, NotAttempted} ensures !Began(c) {
      var j :| 0 <= j < |calls| && calls[j] == c;
      assert calls[j] in acts;
      var i :| 0 <= i < |acts| && acts[i] == c;
    }
  }

  /** The operation's own effect is always supported. */
  lemma OwnSupported(a: Active, acts: seq<Call>, outcome: Outcome)
    requires OwnEvidence(a, acts)
    ensures Supported(a.request.kind, acts, outcome, a.effect)
    ensures !PastCommand(a) ==>
      forall effect :: effect != Acknowledged ==> Supported(a.request.kind, acts, outcome, effect)
    ensures PastCommand(a) && !a.request.kind.Attach? && !a.request.kind.WakeUp? ==>
      forall effect :: effect != NoEffectWrite && effect != NotAttempted ==>
        Supported(a.request.kind, acts, outcome, effect)
    ensures Supported(a.request.kind, acts, outcome, UnknownEffect)
    ensures a.request.kind.WakeUp? && outcome == Succeeded ==> Supported(a.request.kind, acts, outcome, Verified)
  {
  }

  /** Closing an operation whose result is faithful keeps the whole log faithful. */
  lemma ClosedFaithful(y: State, t: State)
    requires y.activeValid && Balanced(y) && AllFaithful(y.clock, y.log) && Closes(y, t) && t.clock == y.clock
    requires Faithful(y.clock, CallsOf(Audit(y.log)), t.terminal)
    ensures Tracked(t)
  {
    hide Audit, Faithful;
    ClosedBalanced(y, t);
    forall i | 0 <= i < |t.log| && t.log[i].Finished?
      ensures Faithful(t.clock, CallsOf(Audit(t.log[..i])), t.log[i].result)
    {
      if i < |y.log| { assert t.log[..i] == y.log[..i]; } else { assert t.log[..i] == y.log; }
    }
  }

  /** Events other than results keep the log faithful. */
  lemma GrownFaithful(c: Clock, log: seq<Event>, e: Event)
    requires AllFaithful(c, log) && !e.Finished?
    ensures AllFaithful(c, log + [e])
  {
    hide Audit, Faithful;
    var l := log + [e];
    forall i | 0 <= i < |l| && l[i].Finished? ensures Faithful(c, CallsOf(Audit(l[..i])), l[i].result) {
      assert l[..i] == log[..i];
    }
  }

  // ----- Failures -----

  /** Enough evidence to classify a failure. */
  predicate Backed(s: State, acts: seq<Call>) {
    var a := s.active;
    && (s.effectful ==>
        acts != [] && acts[|acts| - 1].norm.disposition == s.disposition && s.disposition != BadDisposition)
    && (!a.wrote ==> forall i | 0 <= i < |acts| :: !Began(acts[i]))
    && (a.wrote ==> a.effect != NoEffectWrite && a.effect != NotAttempted)
    && (!a.request.kind.Attach? ==> |acts| <= 1)
    && (!a.request.kind.Attach? && a.effect == Acknowledged ==> acts != [] && acts[0].norm.disposition == Complete)
    && (!a.request.kind.Attach? && !s.effectful && acts != [] && acts[0].norm.disposition == Unproven ==>
        a.effect == UnknownEffect)
  }

  lemma FailureSupported(s: State, status: Err, acts: seq<Call>)
    requires Backed(s, acts)
    ensures var f := Classify(s, status);
      f.outcome in {Failed, TimedOut, OutcomeIndeterminate} &&
      forall outcome :: outcome != Succeeded ==> Supported(s.active.request.kind, acts, outcome, f.effect)
  {
  }

  lemma OwnBacked(s: State, calls: seq<Call>)
    requires OwnEvidence(s.active, Acts(calls)) && LastTransfer(s, calls)
    ensures Backed(s, Acts(calls))
  {
    if calls != [] {
      ActsSnoc(calls[..|calls| - 1], calls[|calls| - 1]);
      assert calls == calls[..|calls| - 1] + [calls[|calls| - 1]];
    }
  }

  /** A callback that is not the operation's command adds no act; one that is, is its only act so far. */
  lemma TransferEvidence(s: State, send: Send, now: nat, reply: Reply, calls: seq<Call>)
    requires s.activeValid && Reachable(s.active) && SendFor(s.active) == Some(send)
    requires OwnEvidence(s.active, Acts(calls)) && LastTransfer(s, calls)
    ensures var x := Transferred(s, send, now, reply);
      var calls' := calls + [CallOf(s, send, now, reply)];
      Backed(x, Acts(calls')) && LastTransfer(x, calls') &&
      (!send.effectful ==> Acts(calls') == Acts(calls) && x.active == s.active.(callbacks := x.active.callbacks)) &&
      (send.effectful ==> Acts(calls') == Acts(calls) + [CallOf(s, send, now, reply)])
  {
    hide Normalize, Settle, SendFor, Reachable;
    NormalDisposition(s.clock, now, WireLength(send.wire), send.effectful, reply);
    var call := CallOf(s, send, now, reply);
    ActsSnoc(calls, call);
    if !send.effectful {
      OwnBacked(s, calls);
    } else {
      CommandOnce(s.active);
    }
  }

  lemma NormalDisposition(c: Clock, start: nat, expected: nat, effectful: bool, r: Reply)
    ensures Normalize(c, start, expected, effectful, r).disposition != BadDisposition
  {
  }

  /** Only ATTACH sends a second effectful command. */
  lemma CommandOnce(a: Active)
    requires Reachable(a) && SendFor(a).Some? && SendFor(a).value.effectful
    ensures a.request.kind.Attach? || !PastCommand(a)
    ensures IsEffectful(a.request.kind)
  {
  }

  /** A successful own command leaves the evidence of its place. */
  lemma WrittenEvidence(s: State, send: Send, now: nat, reply: Reply, calls: seq<Call>)
    requires s.activeValid && Reachable(s.active) && SendFor(s.active) == Some(send) && !send.wire.Read?
    requires OwnEvidence(s.active, Acts(calls))
    requires TransferStatus(s.clock, s.active.deadlineMs, send.intent, NormOf(s, send, now, reply)) == Ok
    ensures var x := Transferred(s, send, now, reply); var n := NormOf(s, send, now, reply);
      EndsAfterWrite(s.active.request.kind) ||
      OwnEvidence(Written(x.active, x.disposition, x.clock, n.doneMs), Acts(calls + [CallOf(s, send, now, reply)]))
  {
    hide Settle, SendFor, Reachable, Normalize, Reached, CodeStatus, After, WaitAfter, PastCommand, EffectAfterWrite,
      IndexAfterWrite, PhaseAfterWrite, TransferStatus, CallOf, Gated, Acts;
    var call := CallOf(s, send, now, reply);
    var x, n := Transferred(s, send, now, reply), NormOf(s, send, now, reply);
    var a, d := x.active, x.disposition;
    SameStep(s.active, a);
    SamePast(s.active, a);
    ActsSnoc(calls, call);
    assert call.norm == n && call.effectful == send.effectful by { CallFacts(s, send, now, reply); }
    SuccessComplete(s.clock, s.active.deadlineMs, send, now, reply);
    if !EndsAfterWrite(a.request.kind) {
      WrittenSpent(a, d, x.clock, n.doneMs);
      if send.effectful { CommandEffect(a, d); CommandOnce(a); } else { SelectingEffect(a, d, x.know); }
    }
  }

  lemma CallFacts(s: State, send: Send, now: nat, reply: Reply)
    ensures var call := CallOf(s, send, now, reply);
      call.norm == NormOf(s, send, now, reply) && call.effectful == send.effectful
  {
  }

  lemma SamePast(a: Active, b: Active)
    requires a.request == b.request && a.phase == b.phase && a.index == b.index
    ensures PastCommand(a) == PastCommand(b) && Spent(a) == Spent(b)
  {
  }

  lemma SelectingEffect(a: Active, d: Disposition, k: Knowledge)
    requires Reachable(a) && SendFor(a).Some? && !SendFor(a).value.wire.Read? && !SendFor(a).value.effectful
    ensures EffectAfterWrite(a, d) == a.effect && (a.request.kind.Attach? ==> PastCommand(a))
  {
  }

  /** The effect that the operation's own command leaves. */
  lemma CommandEffect(a: Active, d: Disposition)
    requires Reachable(a) && SendFor(a).Some? && !SendFor(a).value.wire.Read? && SendFor(a).value.effectful
    ensures a.request.kind.Attach? ==>
      SendFor(a).value.intent == ExpectNack &&
      EffectAfterWrite(a, d) == (if PastCommand(a) then a.effect else WakeEffect(d))
    ensures !a.request.kind.Attach? ==>
      EffectAfterWrite(a, d) == (if a.request.kind.WakeUp? then WakeEffect(d) else Acknowledged) &&
      SendFor(a).value.intent == (if a.request.kind.WakeUp? then ExpectNack else Normal)
  {
  }

  /** A successful transfer completed, or drew the expected NACK. */
  lemma SuccessComplete(c: Clock, deadlineMs: nat, send: Send, now: nat, reply: Reply)
    ensures var n := Normalize(c, now, WireLength(send.wire), send.effectful, reply);
      TransferStatus(c, deadlineMs, send.intent, n) == Ok ==>
        !Reached(c, n.doneMs, deadlineMs) &&
        (n.disposition == Complete ||
         (send.intent == ExpectNack && (n.disposition == Unproven || n.disposition == NoEffect)))
  {
  }

  // ----- Preservation -----

  /** A failure's result is faithful to the callbacks so far. */
  lemma FailedFaithful(y: State, status: Err, at: nat, calls: seq<Call>)
    requires y.activeValid && !y.terminalValid && Balanced(y) && AllFaithful(y.clock, y.log)
    requires calls == CallsOf(Audit(y.log)) && |calls| <= LimitsOf(y.active.request.kind).maxCallbacks <= 14
    requires Backed(y, Acts(calls))
    ensures Tracked(FinishFailure(y, status, at))
  {
    hide Finish, FinishFailure, Classify, Audit, Acts, Backed, AllFaithful, LimitsOf;
    FailureCloses(y, status, at);
    FailureOwner(y, status, at);
    FailureSupported(y, status, Acts(calls));
    var r := FinishFailure(y, status, at).terminal;
    assert Supported(y.active.request.kind, Acts(calls), r.outcome, r.effect);
    SupportedSound(y.active.request.kind, calls, r.outcome, r.effect);
    ClosedFaithful(y, FinishFailure(y, status, at));
  }

  /** An ending whose effect is supported is faithful. */
  lemma EndedFaithful(y: State, outcome: Outcome, effect: Effect, status: Err, at: nat, calls: seq<Call>)
    requires y.activeValid && !y.terminalValid && Balanced(y) && AllFaithful(y.clock, y.log)
    requires calls == CallsOf(Audit(y.log)) && |calls| <= LimitsOf(y.active.request.kind).maxCallbacks <= 14
    requires Supported(y.active.request.kind, Acts(calls), outcome, effect)
    requires outcome == Succeeded ==> ExactCallbacks(y.active.request.kind, |calls|)
    requires outcome in {Succeeded, NoData} ==> !Reached(y.clock, at, y.active.deadlineMs)
    ensures Tracked(Finish(y, outcome, effect, status, at))
  {
    hide Finish, Audit, Acts, AllFaithful, LimitsOf, Supported, Reached, ExactCallbacks;
    FinishCloses(y, outcome, effect, status, at);
    FinishOwner(y, outcome, effect, status, at);
    SupportedSound(y.active.request.kind, calls, outcome, effect);
    ClosedFaithful(y, Finish(y, outcome, effect, status, at));
  }

  lemma WriteTracked(s: State, send: Send, k: Knowledge, now: nat, budget: nat, reply: Reply)
    requires Live(s) && Tracked(s) && MayTransfer(s, now, budget, send) && !send.wire.Read?
    ensures Tracked(Leads(s, now, reply, Wrote(send, k)))
  {
    hide Live, Audit, Acts, AllFaithful, LimitsOf, Supported, Reached, SendFor, Reachable, Finish, FinishFailure,
      Written, OwnEvidence, Backed, Transferred, NormOf, TransferStatus, CallOf, Spent, ExactCallbacks, PersistBlocked,
      PersistNotNeeded, Timed, LastTransfer;
    assert s.activeValid && !s.terminalValid && Reachable(s.active) by { LiveSlot(s); }
    var x, n := Transferred(s, send, now, reply), NormOf(s, send, now, reply);
    var st := TransferStatus(s.clock, s.active.deadlineMs, send.intent, n);
    var calls := CallsOf(Audit(s.log));
    var calls' := calls + [CallOf(s, send, now, reply)];
    TransferredBalanced(s, send, now, reply);
    TransferredFrame(s, send, now, reply);
    GrownFaithful(s.clock, s.log, Called(CallOf(s, send, now, reply)));
    TransferEvidence(s, send, now, reply, calls);
    SendingBound(s.active);
    SamePast(s.active, x.active);
    SameStep(s.active, x.active);
    if st != Ok {
      BackedKnow(x, k, Acts(calls'));
      FailedFaithful(x.(know := k), st, n.doneMs, calls');
    } else {
      var y := x.(know := k, active := Written(x.active, x.disposition, x.clock, n.doneMs));
      WrittenKeeps(x.active, x.disposition, x.clock, n.doneMs);
      NotedBalanced(x, y, []);
      if EndsAfterWrite(x.active.request.kind) {
        DiagnosticEnd(s, send, now, reply);
        SuccessBefore(s, send, now, reply);
        DiagnosticActs(s, send, now, reply, calls);
        EndedFaithful(y, Succeeded, Acknowledged, Ok, n.doneMs, calls');
      } else {
        WrittenEvidence(s, send, now, reply, calls);
        WrittenSpent(x.active, x.disposition, x.clock, n.doneMs);
        LastTransferSame(x, y, calls');
      }
    }
  }

  lemma LastTransferSame(x: State, y: State, calls: seq<Call>)
    requires LastTransfer(x, calls) && x.effectful == y.effectful && x.disposition == y.disposition
    ensures LastTransfer(y, calls)
  {
  }

  lemma BackedKnow(x: State, k: Knowledge, acts: seq<Call>)
    requires Backed(x, acts)
    ensures Backed(x.(know := k), acts)
  {
  }

  lemma WrittenKeeps(a: Active, d: Disposition, c: Clock, now: nat)
    ensures var b := Written(a, d, c, now);
      b.request == a.request && b.id == a.id && b.callbacks == a.callbacks && b.startedMs == a.startedMs &&
      b.deadlineMs == a.deadlineMs && b.desired == a.desired && b.wrote == a.wrote
  {
  }

  /** One more callback still fits. */
  lemma SendingBound(a: Active)
    requires Reachable(a) && SendFor(a).Some?
    ensures Spent(a) + 1 <= LimitsOf(a.request.kind).maxCallbacks <= 14
  {
  }

  lemma DiagnosticEnd(s: State, send: Send, now: nat, reply: Reply)
    requires Reachable(s.active) && SendFor(s.active) == Some(send) && EndsAfterWrite(s.active.request.kind)
    ensures Spent(s.active) == 0 && send.effectful && send.intent == Normal && !PastCommand(s.active) &&
      ExactCallbacks(s.active.request.kind, 1)
  {
  }

  lemma SuccessBefore(s: State, send: Send, now: nat, reply: Reply)
    requires TransferStatus(s.clock, s.active.deadlineMs, send.intent, NormOf(s, send, now, reply)) == Ok
    ensures !Reached(s.clock, NormOf(s, send, now, reply).doneMs, s.active.deadlineMs)
  {
  }

  lemma DiagnosticActs(s: State, send: Send, now: nat, reply: Reply, calls: seq<Call>)
    requires send.effectful && send.intent == Normal && !PastCommand(s.active) && OwnEvidence(s.active, Acts(calls))
    requires TransferStatus(s.clock, s.active.deadlineMs, send.intent, NormOf(s, send, now, reply)) == Ok
    ensures Supported(s.active.request.kind, Acts(calls + [CallOf(s, send, now, reply)]), Succeeded, Acknowledged)
  {
    hide Acts, PastCommand, TransferStatus, Normalize, Settle;
    ActsSnoc(calls, CallOf(s, send, now, reply));
    SuccessComplete(s.clock, s.active.deadlineMs, send, now, reply);
  }

  lemma VerdictSupported(a: Active, acts: seq<Call>, outcome: Outcome, effect: Effect)
    requires Reachable(a) && OwnEvidence(a, acts) && VerdictFits(a, outcome, effect)
    requires SendFor(a).Some? && SendFor(a).value.wire.Read?
    ensures Supported(a.request.kind, acts, outcome, effect)
  {
    hide SendFor, Spent, ExactCallbacks;
    PastBeforeReading(a);
  }

  /** ATTACH, WAKE_UP and setting writes read only before any write or after their own. */
  lemma PastBeforeReading(a: Active)
    requires Reachable(a) && SendFor(a).Some? && SendFor(a).value.wire.Read?
    ensures a.request.kind.WriteSetting? ==> (PastCommand(a) <==> a.index != 0)
    ensures IsEffectful(a.request.kind) && !a.request.kind.WriteSetting? ==> PastCommand(a)
  {
  }

  lemma ReadTracked(s: State, send: Send, words: seq<u16>, now: nat, budget: nat, reply: Reply)
    requires Live(s) && Tracked(s) && MayTransfer(s, now, budget, send) && send == Send(Read(|words|), Normal, false)
    requires TransferStatus(s.clock, s.active.deadlineMs, send.intent, NormOf(s, send, now, reply)) == Ok
    requires |words| == ResponseWords(s.active) && |words| >= 1
    ensures Tracked(Leads(s, now, reply, Fetched(send, words)))
  {
    hide Live, Audit, Acts, AllFaithful, LimitsOf, Supported, Reached, SendFor, Reachable, Finish, FinishFailure,
      ResponseWords, OwnEvidence, Backed, Transferred, NormOf, TransferStatus, CallOf, Spent, ExactCallbacks,
      PersistBlocked, PersistNotNeeded, Timed, LastTransfer, Judge, VerdictFits, PastCommand;
    assert s.activeValid && !s.terminalValid && Reachable(s.active) by { LiveSlot(s); }
    var x, n := Transferred(s, send, now, reply), NormOf(s, send, now, reply);
    var calls := CallsOf(Audit(s.log));
    var calls' := calls + [CallOf(s, send, now, reply)];
    TransferredBalanced(s, send, now, reply);
    TransferredFrame(s, send, now, reply);
    GrownFaithful(s.clock, s.log, Called(CallOf(s, send, now, reply)));
    TransferEvidence(s, send, now, reply, calls);
    SendingBound(s.active);
    SamePast(s.active, x.active);
    SameStep(s.active, x.active);
    SuccessBefore(s, send, now, reply);
    var j := Judge(x, words, n.doneMs);
    JudgedTicket(x, words, n.doneMs);
    JudgedVerdict(x, words, n.doneMs);
    JudgedSpent(x, words, n.doneMs);
    var p := if j.protocol.Some? then [ProtocolError(j.protocol.value, n.doneMs)] else [];
    var y := x.(active := j.active, know := j.know, work := j.work,
                log := if j.protocol.Some? then x.log + [ProtocolError(j.protocol.value, n.doneMs)] else x.log);
    NotedBalanced(x, y, p);
    NotedCalls(x, y, p);
    SameOwnEvidence(s.active, x.active, Acts(calls'));
    match j.verdict
    case Continue =>
      SameOwnEvidence(x.active, y.active, Acts(calls'));
      LastTransferSame(x, y, calls');
    case Done(outcome, effect, status) =>
      VerdictSupported(x.active, Acts(calls'), outcome, effect);
      VerdictExact(x.active, outcome, effect);
      EndedFaithful(y, outcome, effect, status, n.doneMs, calls');
    case Reject(status) =>
      BackedSame(x, y, Acts(calls'));
      FailedFaithful(y, status, n.doneMs, calls');
  }

  lemma VerdictExact(a: Active, outcome: Outcome, effect: Effect)
    requires VerdictFits(a, outcome, effect)
    ensures outcome == Succeeded ==> ExactCallbacks(a.request.kind, Spent(a) + 1)
  {
  }

  /** A protocol error changes neither the callbacks nor the faithful results. */
  lemma NotedCalls(x: State, y: State, p: seq<Event>)
    requires x.activeValid && Balanced(x) && y.log == x.log + p && (p == [] || (|p| == 1 && p[0].ProtocolError?))
    requires AllFaithful(x.clock, x.log)
    ensures CallsOf(Audit(y.log)) == CallsOf(Audit(x.log)) && AllFaithful(x.clock, y.log)
  {
    hide Audit, Faithful, AllFaithful;
    if p == [] {
      assert y.log == x.log;
    } else {
      assert p == [p[0]];
      AuditSnoc(x.log, p[0]);
      GrownFaithful(x.clock, x.log, p[0]);
    }
  }

  lemma SameOwnEvidence(a: Active, b: Active, acts: seq<Call>)
    requires OwnEvidence(a, acts) && b.request == a.request && b.wrote == a.wrote && b.effect == a.effect
    requires PastCommand(a) == PastCommand(b)
    ensures OwnEvidence(b, acts)
  {
  }

  lemma BackedSame(x: State, y: State, acts: seq<Call>)
    requires Backed(x, acts) && y.effectful == x.effectful && y.disposition == x.disposition
    requires y.active.request == x.active.request && y.active.wrote == x.active.wrote &&
      y.active.effect == x.active.effect
    ensures Backed(y, acts)
  {
  }

  lemma MissTracked(s: State, send: Send, status: Err, p: seq<Event>, now: nat, budget: nat, reply: Reply)
    requires Live(s) && Tracked(s) && MayTransfer(s, now, budget, send) && send.wire.Read?
    requires p == [] || (|p| == 1 && p[0].ProtocolError?)
    ensures Tracked(Leads(s, now, reply, Missed(send, status, p)))
  {
    hide Live, Audit, Acts, AllFaithful, LimitsOf, Supported, Reached, SendFor, Reachable, Finish, FinishFailure,
      OwnEvidence, Backed, Transferred, NormOf, TransferStatus, CallOf, Spent, ExactCallbacks, PersistBlocked,
      PersistNotNeeded, Timed, LastTransfer;
    assert s.activeValid && !s.terminalValid && Reachable(s.active) by { LiveSlot(s); }
    var x, n := Transferred(s, send, now, reply), NormOf(s, send, now, reply);
    var calls := CallsOf(Audit(s.log));
    var calls' := calls + [CallOf(s, send, now, reply)];
    ReadsAreNormal(s.active);
    TransferredBalanced(s, send, now, reply);
    TransferredFrame(s, send, now, reply);
    GrownFaithful(s.clock, s.log, Called(CallOf(s, send, now, reply)));
    TransferEvidence(s, send, now, reply, calls);
    SendingBound(s.active);
    SameOwnEvidence(s.active, x.active, Acts(calls'));
    MissEndTracked(x, status, p, n.doneMs, calls');
  }

  lemma MissEndTracked(x: State, status: Err, p: seq<Event>, at: nat, calls: seq<Call>)
    requires x.activeValid && !x.terminalValid && Balanced(x) && AllFaithful(x.clock, x.log)
    requires calls == CallsOf(Audit(x.log)) && |calls| <= LimitsOf(x.active.request.kind).maxCallbacks <= 14
    requires Backed(x, Acts(calls)) && OwnEvidence(x.active, Acts(calls))
    requires p == [] || (|p| == 1 && p[0].ProtocolError?)
    ensures Tracked(MissEnd(x, status, p, at))
  {
    hide Audit, Acts, AllFaithful, LimitsOf, Supported, Reached, Finish, FinishFailure, OwnEvidence, Backed,
      ExactCallbacks;
    var y := x.(log := x.log + p);
    NotedBalanced(x, y, p);
    NotedCalls(x, y, p);
    BackedSame(x, y, Acts(calls));
    if IsPartial(x.active) {
      PartialSupported(x.active, Acts(calls));
      EndedFaithful(y.(work := y.work.(configuration := y.know.configuration)), Partial, NoEffectWrite, status, at,
                    calls);
    } else {
      FailedFaithful(y, status, at, calls);
    }
  }

  lemma PartialSupported(a: Active, acts: seq<Call>)
    requires OwnEvidence(a, acts)
    ensures a.request.kind.ReadConfiguration? ==> Supported(a.request.kind, acts, Partial, NoEffectWrite)
  {
  }

  /** An end without a callback: a finished wait after the operation's own command, or no command at all. */
  lemma QuietTracked(s: State, now: nat, budget: nat, reply: Reply, c: Case)
    requires Live(s) && Tracked(s) && c.Quiet? && Fits(s, now, budget, reply, c)
    ensures Tracked(Leads(s, now, reply, c))
  {
    hide Audit, Acts, AllFaithful, LimitsOf, Supported, Reached, Finish, Backed, GateClosed, SetMode, ExactCallbacks,
      OwnEvidence, Reachable, Spent;
    var calls := CallsOf(Audit(s.log));
    QuietPlace(s.active);
    SpentBounded(s.active);
    OwnSupported(s.active, Acts(calls), c.outcome);
    EndedFaithful(s.(know := c.k, work := c.w), c.outcome, c.effect, c.status, now, calls);
  }

  lemma QuietPlace(a: Active)
    requires Reachable(a)
    ensures EndsAfterWait(a.request.kind) && Resting(a) ==>
      PastCommand(a) && !a.request.kind.Attach? && !a.request.kind.WakeUp? && ExactCallbacks(a.request.kind, Spent(a))
    ensures a.request.kind.PersistSettings? && a.phase == SendCommand ==>
      !PastCommand(a) && !Resting(a) && ExactCallbacks(a.request.kind, Spent(a))
  {
  }

  lemma TurnTracked(s: State, now: nat, budget: nat, reply: Reply)
    requires Live(s) && Tracked(s)
    ensures Tracked(Iterate(s, now, budget, reply).s)
  {
    hide Iterate, Finish, FinishFailure, Transferred, NormOf, Judge, TransferStatus, Wakes, Audit, AllFaithful, Reached,
      ResponseWords, KnowAfterSend, SendFor, Acts, OwnEvidence, Reachable, Words, AllWordsOk, WriteEnd, ReadEnd,
      MissEnd, PastCommand, EndsAfterWait, Spent;
    var c := Shape(s, now, budget, reply);
    var calls := CallsOf(Audit(s.log));
    match c
    case Held(due) =>
      SamePast(s.active, s.active.(nextDueMs := due));
      SameOwnEvidence(s.active, s.active.(nextDueMs := due), Acts(calls));
    case Roused(_) =>
      RousedSpent(s.active);
      SameOwnEvidence(s.active, s.active.(phase := Wakes(s.active)), Acts(calls));
    case Quiet(_, _, _, _, _) => QuietTracked(s, now, budget, reply, c);
    case Expired =>
      OwnBacked(s, calls);
      SpentBounded(s.active);
      FailedFaithful(s, Timeout, now, calls);
    case Wrote(send, k) => WriteTracked(s, send, k, now, budget, reply);
    case Fetched(send, words) =>
      ReadsAreNormal(s.active);
      ReadTracked(s, send, words, now, budget, reply);
    case Missed(send, status, p) => MissTracked(s, send, status, p, now, budget, reply);
  }

  lemma StartTracked(s: State, r: Request, o: Options)
    requires Steady(s) && Tracked(s) && CheckStart(s, r, o) == Ok
    ensures Tracked(Start(s, r, o).0)
  {
    hide CheckStart, Audit, AllFaithful, After, DesiredWord, Reachable;
    AdmittedFree(s, r, o);
    var e := Admitted(OpId(o.requestId, s.generation), r, o.nowMs, o.deadlineMs);
    AuditSnoc(s.log, e);
    GrownFaithful(s.clock, s.log, e);
    FreshPlace(Opened(s, r, o, OpId(o.requestId, s.generation)));
  }

  lemma FreshPlace(a: Active)
    requires a.phase == FirstPhase(a.request.kind) && a.index == 0 && !a.request.kind.NoKind?
    ensures Spent(a) == 0 && !PastCommand(a)
  {
  }

  lemma OtherTracked(s: State, op: Op)
    requires Steady(s) && Tracked(s) && !op.OpPoll?
    ensures Tracked(Apply(s, Other(op)))
  {
    hide Reachable, Finish, Forget, CheckStart, CancelEffect, CancelTime, Reached, Audit, BlockedIf, ForgetIf,
      AllFaithful, Acts, OwnEvidence, Spent, Start;
    OtherBalanced(s, op);
    match op
    case OpBegin(c) => GrownFaithful(s.clock, s.log, Bound(c.offlineThreshold));
    case OpStart(r, o) => if CheckStart(s, r, o) == Ok { StartTracked(s, r, o); } else { StartRefused(s, r, o); }
    case OpCancel(id, now) =>
      if s.activeValid && s.active.id == id {
        var know := BlockedIf(ForgetIf(s.know, s.active.callbacks != 0 && s.active.wrote), s.active, s.active.wrote);
        var t := CancelTime(s, now);
        CancelSupported(s);
        StoppedFaithful(s, s.(time := s.time.(ownerMs := t, ownerValid := true), know := know), CancelEffect(s.active),
                        t);
      }
    case OpTake(id) => GrownFaithful(s.clock, s.log, Taken(id));
    case OpEnd => EndTracked(s);
  }

  lemma EndTracked(s: State)
    requires Steady(s) && Tracked(s)
    ensures Tracked(End(s))
  {
    hide Reachable, Finish, Audit, BlockedIf, ForgetIf, AllFaithful, Acts, OwnEvidence, Spent, LastTransfer, Supported;
    OtherBalanced(s, OpEnd);
    if s.activeValid {
      var t := if s.time.ownerValid then s.time.ownerMs else s.active.startedMs;
      var know := BlockedIf(ForgetIf(s.know, s.active.callbacks > 0), s.active, s.active.wrote);
      OwnSupported(s.active, Acts(CallsOf(Audit(s.log))), OutcomeCancelled);
      StoppedFaithful(s, s.(know := know), s.active.effect, t);
      assert EndActive(s) == Finish(s.(know := know), OutcomeCancelled, s.active.effect, Cancelled, t);
    }
    EndOwner(s);
    EndSteady(s);
    GrownFaithful(s.clock, EndActive(s).log, Unbound);
  }

  lemma EndOwner(s: State)
    ensures EndActive(s).clock == s.clock
  {
    hide BlockedIf, ForgetIf, Discarded, Published, ResultOf;
  }

  lemma StartRefused(s: State, r: Request, o: Options)
    requires CheckStart(s, r, o) != Ok
    ensures Start(s, r, o).0 == s
  {
    hide CheckStart;
  }

  /** Cancellation reports the operation's own effect. */
  lemma CancelSupported(s: State)
    requires s.activeValid && Tracked(s) && Steady(s)
    ensures Supported(s.active.request.kind, Acts(CallsOf(Audit(s.log))), OutcomeCancelled, CancelEffect(s.active))
  {
    hide Audit, AllFaithful, Reachable, Spent;
    var calls := CallsOf(Audit(s.log));
    OwnSupported(s.active, Acts(calls), OutcomeCancelled);
    if s.active.callbacks == 0 { assert calls == []; }
  }

  lemma StoppedFaithful(s: State, y: State, effect: Effect, at: nat)
    requires Steady(s) && s.activeValid && Tracked(s) && y == s.(time := y.time, know := y.know)
    requires Supported(s.active.request.kind, Acts(CallsOf(Audit(s.log))), OutcomeCancelled, effect)
    ensures Tracked(Finish(y, OutcomeCancelled, effect, Cancelled, at))
  {
    hide Audit, AllFaithful, Reachable, Spent, Finish, Acts, Supported;
    SpentBounded(s.active);
    EndedFaithful(y, OutcomeCancelled, effect, Cancelled, at, CallsOf(Audit(s.log)));
  }

  lemma SmallTracked(s: State, m: Small)
    requires Steady(s) && Tracked(s) && Allowed(s, m)
    ensures Tracked(Apply(s, m))
  {
    hide Reachable, Iterate, FinishFailure, Reached, Do, MayRun, Audit, AllFaithful, Spent, Acts, OwnEvidence;
    match m
    case Watch(_) =>
    case Expiry(now) =>
      OwnBacked(s, CallsOf(Audit(s.log)));
      SpentBounded(s.active);
      FailedFaithful(s, Timeout, now, CallsOf(Audit(s.log)));
    case Turns(now, budget, reply) => TurnTracked(s, now, budget, reply);
    case Other(op) => OtherTracked(s, op);
  }

  /**
    Over any run against any transport: every result lists exactly its operation's callbacks, at most the
    published number and exactly it on success; a success ends before its deadline; and the reported
    effect is sound.
   */
  lemma AlwaysFaithful(ops: seq<Op>, c: Clock, bus: nat -> Reply)
    ensures var s := Run(ops, c, bus); s.clock == c && Tracked(s) && AllFaithful(c, s.log)
  {
    hide Tracked, Steady, Apply, Allowed, Run;
    assert Preserved(Tracked) by {
      forall s: State, m: Small | Steady(s) && Tracked(s) && Allowed(s, m) ensures Tracked(Apply(s, m)) {
        SmallTracked(s, m);
      }
    }
    assert Tracked(Initial(c)) by { InitialTracked(c); }
    Lift(Tracked, ops, c, bus);
    SameClock(ops, c, bus);
    assert AllFaithful(Run(ops, c, bus).clock, Run(ops, c, bus).log) by { TrackedFaithful(Run(ops, c, bus)); }
  }

  lemma TrackedFaithful(s: State)
    requires Tracked(s)
    ensures AllFaithful(s.clock, s.log)
  {
  }

  lemma InitialTracked(c: Clock)
    ensures Tracked(Initial(c))
  {
  }
}
