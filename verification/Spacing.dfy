/**
  Runs on the linear clock: the physical settle gate outlives operations,
  cancellation, timeout and rebinding, and a success lasts at least its waits.
 */
module Spacing {
  import opened Clocks
  import opened Types
  import opened Commands
  import opened Codec
  import opened Engine
  import opened Exchanges
  import opened Control
  import opened Runs
  import opened Ledger
  import opened Effort
  import opened Evidence
  import opened Pace

  /** When the sensor may be addressed again after a callback. */
  function FreeAt(c: Call): nat { c.norm.doneMs + c.settleMs }

  /** By the time of the next callback `x` has passed: the owner is past it, or the gate guards it. */
  predicate Due(t: Timing, x: nat) {
    t.ownerValid && (x <= t.ownerMs || (t.gateValid && x <= t.gateMs))
  }

  /** Whatever is due has passed when a callback starts. */
  lemma DuePassed(s: State, now: nat, x: nat)
    requires s.clock.Linear? && OnTime(s, now) && !GateClosed(s, now) && Due(s.time, x)
    ensures x <= now
  {
  }

  /** Every begun callback is followed by its full settle before the next one starts. */
  predicate Spaced(log: seq<Event>) {
    forall i, j | 0 <= i < j < |log| && log[i].Called? && log[j].Called? ::
      Began(log[i].call) ==> log[j].call.startMs >= FreeAt(log[i].call)
  }

  predicate CallsDue(t: Timing, log: seq<Event>) {
    forall i | 0 <= i < |log| && log[i].Called? :: Began(log[i].call) ==> Due(t, FreeAt(log[i].call))
  }

  /** The least time from start to a place: every callback so far was followed by its settle. */
  function Waited(a: Active): nat {
    Spent(a) +
    (if a.request.kind.Attach? then
       (if a.phase == WaitPowerUp then 0 else POWER_UP_MS) +
       (if Spent(a) >= 1 then POWER_UP_MS - 1 else 0) + (if Spent(a) >= 2 then STOP_MS - 1 else 0)
     else if PastCommand(a) then ExecutionWait(a.request.kind) - 1
     else 0)
  }

  /** The least duration of a success. */
  function MinimumWait(k: Kind, callbacks: nat): nat {
    if k.Attach? then POWER_UP_MS + POWER_UP_MS + STOP_MS + 3
    else if k.WriteSetting? && callbacks == 2 then SHORT_MS
    else if (k.PersistSettings? && callbacks == 0) || EndsAfterWrite(k) then 0
    else LimitsOf(k).maxWaitMs
  }

  predicate Timely(r: Result) {
    r.outcome == Succeeded ==> r.completedMs >= r.startedMs + MinimumWait(r.kind, r.callbacks)
  }

  predicate AllTimely(log: seq<Event>) { forall i | 0 <= i < |log| && log[i].Finished? :: Timely(log[i].result) }

  /** Work in progress is paced by the gate and the owner's clock. */
  predicate OpPaced(s: State) {
    var a := s.active;
    && Due(s.time, a.startedMs + Waited(a))
    && (Timed(a) || Due(s.time, a.nextDueMs))
    && (a.phase == WaitPowerUp ==>
          a.nextDueMs >= a.startedMs + POWER_UP_MS && (s.time.gateValid ==> s.time.gateMs <= s.time.ownerMs))
  }

  predicate Paced(s: State) {
    s.clock.Linear? ==>
      && Spaced(s.log) && CallsDue(s.time, s.log) && AllTimely(s.log)
      && s.settings.powerUpMs >= POWER_UP_MS
      && (s.activeValid ==> OpPaced(s))
  }

  // ----- Time moves forward -----

  /** What was due stays due. */
  predicate Later(t: Timing, u: Timing) {
    t.ownerValid ==>
      u.ownerValid && u.ownerMs >= t.ownerMs &&
      (t.gateValid ==> t.gateMs <= u.ownerMs || (u.gateValid && u.gateMs >= t.gateMs))
  }

  lemma DueLater(t: Timing, u: Timing, x: nat)
    requires Later(t, u) && Due(t, x)
    ensures Due(u, x)
  {
  }

  lemma CallsDueLater(t: Timing, u: Timing, log: seq<Event>, more: seq<Event>)
    requires Later(t, u) && CallsDue(t, log) && log <= more && forall i | |log| <= i < |more| :: !more[i].Called?
    ensures CallsDue(u, more) && (Spaced(log) ==> Spaced(more))
  {
    hide Due;
    forall i | 0 <= i < |more| && more[i].Called? && Began(more[i].call) ensures Due(u, FreeAt(more[i].call)) {
      assert more[i] == log[i];
      DueLater(t, u, FreeAt(log[i].call));
    }
    if Spaced(log) {
      forall i, j | 0 <= i < j < |more| && more[i].Called? && more[j].Called? && Began(more[i].call)
        ensures more[j].call.startMs >= FreeAt(more[i].call)
      {
        assert more[i] == log[i] && more[j] == log[j];
      }
    }
  }

  // ----- One callback -----

  lemma TransferredTime(s: State, send: Send, now: nat, reply: Reply)
    ensures var x := Transferred(s, send, now, reply); var n := NormOf(s, send, now, reply);
      var call := CallOf(s, send, now, reply);
      x.time == (if n.disposition == NotStarted then s.time
                 else s.time.(gateMs := After(s.clock, n.doneMs, call.settleMs), gateValid := true)) &&
      call.norm == n && call.startMs == now && call.settleMs == Settle(s.active, send, n) &&
      x.log == s.log + [Called(call)] &&
      x.clock == s.clock && x.settings == s.settings
  {
    hide NormOf, Settle, After, TransferTimeout;
  }

  /** A callback starts after every earlier settle, and its own settle is due. */
  lemma TransferredPaced(s: State, send: Send, now: nat, budget: nat, reply: Reply)
    requires s.clock.Linear? && MayTransfer(s, now, budget, send) && OnTime(s, now)
    requires Spaced(s.log) && CallsDue(s.time, s.log)
    ensures var x := Transferred(s, send, now, reply);
      Spaced(x.log) && CallsDue(x.time, x.log) && Later(s.time, x.time) && x.clock.Linear?
    ensures var x := Transferred(s, send, now, reply); var n := NormOf(s, send, now, reply);
      n.doneMs >= now &&
      (n.disposition != NotStarted ==> x.time.gateValid && x.time.gateMs == n.doneMs + Settle(s.active, send, n))
  {
    hide NormOf, Settle, Transferred, CallOf, SendFor, Timed, PersistBlocked, PersistNotNeeded, Due, GateClosed;
    var x := Transferred(s, send, now, reply);
    var call := CallOf(s, send, now, reply);
    TransferredTime(s, send, now, reply);
    DoneAfter(s, send, now, reply);
    assert Later(s.time, x.time) by { GatePassed(s, now); }
    forall i | 0 <= i < |x.log| && x.log[i].Called? && Began(x.log[i].call) ensures Due(x.time, FreeAt(x.log[i].call)) {
      if i < |s.log| {
        assert x.log[i] == s.log[i];
        DueLater(s.time, x.time, FreeAt(s.log[i].call));
      } else {
        assert Due(x.time, FreeAt(call)) by { GateDue(x.time, FreeAt(call)); }
      }
    }
    forall i, j | 0 <= i < j < |x.log| && x.log[i].Called? && x.log[j].Called? && Began(x.log[i].call)
      ensures x.log[j].call.startMs >= FreeAt(x.log[i].call)
    {
      assert x.log[i] == s.log[i];
      if j < |s.log| { assert x.log[j] == s.log[j]; } else { DuePassed(s, now, FreeAt(s.log[i].call)); }
    }
  }

  lemma GateDue(t: Timing, x: nat)
    requires t.ownerValid && t.gateValid && x <= t.gateMs
    ensures Due(t, x)
  {
  }

  lemma GatePassed(s: State, now: nat)
    requires s.clock.Linear? && OnTime(s, now) && !GateClosed(s, now)
    ensures s.time.ownerValid && s.time.ownerMs <= now && (s.time.gateValid ==> s.time.gateMs <= now)
  {
  }

  // ----- The table of waits follows the settles -----

  lemma WaitedWritten(a: Active, d: Disposition, c: Clock, at: nat, n: Norm)
    requires Reachable(a) && SendFor(a).Some? && !SendFor(a).value.wire.Read? && !EndsAfterWrite(a.request.kind)
    requires n.disposition == Complete || n.disposition == Unproven || ExpectedNack(SendFor(a).value.intent, n)
    ensures var b := Written(a, d, c, at);
      Waited(b) == Waited(a) + Settle(a, SendFor(a).value, n) && Timed(b) && b.phase != WaitPowerUp
  {
    hide EffectAfterWrite, WaitAfter, After, ExpectedNack, Spent, PastCommand;
    WrittenSpent(a, d, c, at);
    WaitPlaces(a, d, c, at);
  }

  /** Where the constant parts of the waits change. */
  lemma WaitPlaces(a: Active, d: Disposition, c: Clock, at: nat)
    requires Reachable(a) && SendFor(a).Some? && !SendFor(a).value.wire.Read? && !EndsAfterWrite(a.request.kind)
    ensures a.request.kind.Attach? ==>
      a.phase != WaitPowerUp && (SendFor(a).value.effectful <==> Spent(a) <= 1) &&
      (SendFor(a).value.effectful ==> (a.phase == SendWake <==> Spent(a) == 0))
    ensures !a.request.kind.Attach? ==> (SendFor(a).value.effectful ==> !PastCommand(a))
    ensures var b := Written(a, d, c, at); Timed(b) && b.phase != WaitPowerUp && b.request == a.request
  {
    hide EffectAfterWrite, WaitAfter, After, IndexAfterWrite;
  }

  lemma WaitedSame(a: Active, b: Active)
    requires a.request == b.request && a.phase == b.phase && a.index == b.index
    ensures Waited(a) == Waited(b) && Timed(a) == Timed(b)
  {
    hide Spent, PastCommand;
    SamePast(a, b);
  }

  lemma WaitedRoused(a: Active)
    requires Reachable(a) && Resting(a) && !EndsAfterWait(a.request.kind)
    ensures var b := a.(phase := Wakes(a));
      Waited(b) == (if a.phase == WaitPowerUp then POWER_UP_MS else Waited(a)) && b.phase != WaitPowerUp
  {
    hide PastCommand;
    RousedSpent(a);
    PowerUpPlace(a);
  }

  lemma PowerUpPlace(a: Active)
    requires Reachable(a) && Resting(a) && !EndsAfterWait(a.request.kind)
    ensures Wakes(a) != WaitPowerUp && (a.phase == WaitPowerUp ==> a.request.kind.Attach?)
  {
  }

  /** A judged response that goes on waited one settle more; one that succeeds has waited its minimum. */
  lemma WaitedJudged(s: State, words: seq<u16>, now: nat)
    requires Reachable(s.active) && SendFor(s.active) == Some(Send(Read(|words|), Normal, false))
    requires |words| == ResponseWords(s.active) && |words| >= 1
    ensures var j := Judge(s, words, now);
      (j.verdict.Continue? ==>
         Waited(j.active) == Waited(s.active) + SHORT_MS && j.active.phase != WaitPowerUp &&
         (j.active.nextDueMs == now || j.active.nextDueMs == s.active.nextDueMs)) &&
      (j.verdict.Done? && j.verdict.outcome == Succeeded ==>
         MinimumWait(s.active.request.kind, Spent(s.active) + 1) <= Waited(s.active))
  {
    hide Judge, Spent, PastCommand, Reachable, SendFor, ResponseWords, VerdictFits;
    JudgedSpent(s, words, now);
    JudgedVerdict(s, words, now);
    JudgedTicket(s, words, now);
    JudgedPhase(s, words, now);
    ReadingWaits(s.active);
    var v := Judge(s, words, now).verdict;
    if v.Done? { VerdictExact(s.active, v.outcome, v.effect); }
  }

  lemma JudgedPhase(s: State, words: seq<u16>, now: nat)
    requires Reachable(s.active) && SendFor(s.active) == Some(Send(Read(|words|), Normal, false))
    requires |words| == ResponseWords(s.active) && |words| >= 1
    ensures var j := Judge(s, words, now);
      j.verdict.Continue? ==>
        j.active.phase != WaitPowerUp && (j.active.nextDueMs == now || j.active.nextDueMs == s.active.nextDueMs)
  {
    hide CacheField, CacheResult, Unverify, FieldWordValid, Disowned, Identified, Attached, VariantOf, SameSensor,
      OtherSensor, Rebased, ResetKnowledge, DisownedVariant, NextEpoch, StrictlyUnsupported, WithIdentity, WithSerial,
      StoreSample, DataReady;
  }

  /** At a reading place, the waits so far are the minimum of a success that needs no more callbacks. */
  lemma ReadingWaits(a: Active)
    requires Reachable(a) && SendFor(a).Some? && SendFor(a).value.wire.Read?
    ensures a.phase != WaitPowerUp && !EndsAfterWrite(a.request.kind) && !a.request.kind.PersistSettings?
    ensures a.request.kind.Attach? ==> Spent(a) >= 2
    ensures ExactCallbacks(a.request.kind, Spent(a) + 1) ==>
      MinimumWait(a.request.kind, Spent(a) + 1) <=
      Spent(a) + (if a.request.kind.Attach? then 2 * POWER_UP_MS - 1 + STOP_MS - 1
                  else if PastCommand(a) then ExecutionWait(a.request.kind) - 1 else 0)
  {
  }

  lemma QuietWaits(a: Active)
    requires Reachable(a)
    ensures EndsAfterWait(a.request.kind) && Resting(a) ==> MinimumWait(a.request.kind, Spent(a)) <= Waited(a)
    ensures a.request.kind.PersistSettings? && a.phase == SendCommand ==> MinimumWait(a.request.kind, Spent(a)) == 0
  {
  }

  // ----- Preservation -----

  /** The log part of the invariant, between callbacks. */
  predicate LogPaced(s: State) {
    Spaced(s.log) && CallsDue(s.time, s.log) && AllTimely(s.log) && s.settings.powerUpMs >= POWER_UP_MS
  }

  lemma ClosedPaced(y: State, t: State)
    requires LogPaced(y) && Closes(y, t) && t.time == y.time && SameOwner(y, t) && Timely(t.terminal)
    ensures Paced(t)
  {
    hide Timely, Due;
    CallsDueLater(y.time, t.time, y.log, t.log);
    forall i | 0 <= i < |t.log| && t.log[i].Finished? ensures Timely(t.log[i].result) {
      if i < |y.log| { assert t.log[i] == y.log[i]; }
    }
  }

  lemma FailedPaced(y: State, status: Err, at: nat)
    requires y.activeValid && !y.terminalValid && LogPaced(y)
    ensures Paced(FinishFailure(y, status, at))
  {
    hide FinishFailure, Classify, LogPaced;
    FailureCloses(y, status, at);
    FailureOwner(y, status, at);
    ClassifyFails(y, status);
    ClosedPaced(y, FinishFailure(y, status, at));
  }

  lemma ClassifyFails(s: State, status: Err)
    ensures Classify(s, status).outcome in {Failed, TimedOut, OutcomeIndeterminate}
  {
  }

  lemma EndedPaced(y: State, outcome: Outcome, effect: Effect, status: Err, at: nat)
    requires y.activeValid && !y.terminalValid && LogPaced(y)
    requires outcome == Succeeded ==> at >= y.active.startedMs + MinimumWait(y.active.request.kind, y.active.callbacks)
    ensures Paced(Finish(y, outcome, effect, status, at))
  {
    hide Finish, LogPaced, MinimumWait;
    FinishCloses(y, outcome, effect, status, at);
    FinishOwner(y, outcome, effect, status, at);
    ClosedPaced(y, Finish(y, outcome, effect, status, at));
  }

  lemma NotedPaced(x: State, y: State)
    requires LogPaced(x) && y.time == x.time && y.settings == x.settings && Adds(x, y)
    requires forall i | |x.log| <= i < |y.log| :: !y.log[i].Finished?
    ensures LogPaced(y)
  {
    hide Timely, Due;
    CallsDueLater(x.time, y.time, x.log, y.log);
    forall i | 0 <= i < |y.log| && y.log[i].Finished? ensures Timely(y.log[i].result) {
      assert y.log[i] == x.log[i];
    }
  }

  /** The charge of work in progress is its table entry. */
  lemma ChargeIsSpent(s: State)
    requires Tracked(s) && s.activeValid && Reachable(s.active)
    ensures s.active.callbacks == Spent(s.active) <= 14
  {
    hide Audit, AllFaithful, Acts, OwnEvidence, LastTransfer, Reachable, Spent;
    SpentBounded(s.active);
  }

  lemma TransferredCharge(s: State, send: Send, now: nat, reply: Reply)
    requires s.active.callbacks <= 14
    ensures Transferred(s, send, now, reply).active.callbacks == s.active.callbacks + 1
  {
    hide NormOf, CallOf, Settle;
  }

  lemma LogPacedTransfer(s: State, send: Send, now: nat, budget: nat, reply: Reply)
    requires s.clock.Linear? && MayTransfer(s, now, budget, send) && OnTime(s, now) && LogPaced(s)
    ensures LogPaced(Transferred(s, send, now, reply))
  {
    hide Transferred, CallOf, MayTransfer, OnTime, Spaced, CallsDue, NormOf;
    TransferredPaced(s, send, now, budget, reply);
    TransferredTime(s, send, now, reply);
  }

  lemma WritePaced(s: State, send: Send, k: Knowledge, now: nat, budget: nat, reply: Reply)
    requires Live(s) && Tracked(s) && Paced(s) && s.clock.Linear? && OnTime(s, now)
    requires MayTransfer(s, now, budget, send) && !send.wire.Read?
    ensures Paced(Leads(s, now, reply, Wrote(send, k)))
  {
    hide Live, Tracked, Reached, SendFor, Reachable, Finish, FinishFailure, Written, Transferred, NormOf,
      TransferStatus, CallOf, Spent, Timed, PersistBlocked, PersistNotNeeded, Waited, Settle, OnTime, GateClosed,
      MinimumWait, LogPaced;
    LiveSlot(s);
    ChargeIsSpent(s);
    var x, n := Transferred(s, send, now, reply), NormOf(s, send, now, reply);
    var st := TransferStatus(s.clock, s.active.deadlineMs, send.intent, n);
    assert LogPaced(s) by { LogPart(s); }
    LogPacedTransfer(s, send, now, budget, reply);
    TransferredPaced(s, send, now, budget, reply);
    TransferredFrame(s, send, now, reply);
    TransferredCharge(s, send, now, reply);
    SamePast(s.active, x.active);
    SameStep(s.active, x.active);
    WaitedSame(s.active, x.active);
    DuePassed(s, now, s.active.startedMs + Waited(s.active));
    if st != Ok {
      NotedPaced(x, x.(know := k));
      FailedPaced(x.(know := k), st, n.doneMs);
    } else {
      var y := x.(know := k, active := Written(x.active, x.disposition, x.clock, n.doneMs));
      WrittenKeeps(x.active, x.disposition, x.clock, n.doneMs);
      NotedPaced(x, y);
      if EndsAfterWrite(x.active.request.kind) {
        DiagnosticWait(x.active.request.kind, x.active.callbacks);
        EndedPaced(y, Succeeded, Acknowledged, Ok, n.doneMs);
      } else {
        SuccessStarted(s, send, now, reply);
        SuccessNorm(s, send, now, reply);
        WaitedWritten(x.active, x.disposition, x.clock, n.doneMs, n);
        SettleSame(s.active, x.active, send, n);
        GateDue(x.time, s.active.startedMs + Waited(y.active));
        assert Paced(y) by { LogWhole(y); }
      }
    }
  }

  lemma LogPart(s: State)
    requires Paced(s) && s.clock.Linear?
    ensures LogPaced(s)
  {
  }

  lemma LogWhole(s: State)
    requires LogPaced(s) && (s.activeValid ==> OpPaced(s))
    ensures Paced(s)
  {
  }

  lemma DiagnosticWait(k: Kind, callbacks: nat)
    requires EndsAfterWrite(k)
    ensures MinimumWait(k, callbacks) == 0
  {
  }

  lemma ReadPaced(s: State, send: Send, words: seq<u16>, now: nat, budget: nat, reply: Reply)
    requires Live(s) && Tracked(s) && Paced(s) && s.clock.Linear? && OnTime(s, now)
    requires MayTransfer(s, now, budget, send) && send == Send(Read(|words|), Normal, false)
    requires TransferStatus(s.clock, s.active.deadlineMs, send.intent, NormOf(s, send, now, reply)) == Ok
    requires |words| == ResponseWords(s.active) && |words| >= 1
    ensures Paced(Leads(s, now, reply, Fetched(send, words)))
  {
    hide Live, Tracked, Reached, SendFor, Reachable, Finish, FinishFailure, Transferred, NormOf, TransferStatus, CallOf,
      Judge, Spent, Timed, PersistBlocked, PersistNotNeeded, Waited, Settle, OnTime, GateClosed, MinimumWait, LogPaced,
      ResponseWords, Due;
    LiveSlot(s);
    ChargeIsSpent(s);
    var x, n := Transferred(s, send, now, reply), NormOf(s, send, now, reply);
    assert LogPaced(s) by { LogPart(s); }
    LogPacedTransfer(s, send, now, budget, reply);
    TransferredPaced(s, send, now, budget, reply);
    TransferredFrame(s, send, now, reply);
    TransferredCharge(s, send, now, reply);
    SamePast(s.active, x.active);
    SameStep(s.active, x.active);
    WaitedSame(s.active, x.active);
    DuePassed(s, now, s.active.startedMs + Waited(s.active));
    SuccessStarted(s, send, now, reply);
    ReadSettles(s.active, send, n);
    var j := Judge(x, words, n.doneMs);
    JudgedTicket(x, words, n.doneMs);
    WaitedJudged(x, words, n.doneMs);
    var y := x.(active := j.active, know := j.know, work := j.work,
                log := if j.protocol.Some? then x.log + [ProtocolError(j.protocol.value, n.doneMs)] else x.log);
    NotedPaced(x, y);
    match j.verdict
    case Continue =>
      assert y.time.ownerValid by { GatePassed(s, now); }
      GateDue(y.time, y.active.startedMs + Waited(y.active));
      if j.active.nextDueMs == n.doneMs { GateDue(y.time, n.doneMs); } else { DueBefore(s, y, now); }
      assert Paced(y) by { LogWhole(y); }
    case Done(outcome, effect, status) => EndedPaced(y, outcome, effect, status, n.doneMs);
    case Reject(status) => FailedPaced(y, status, n.doneMs);
  }

  lemma ReadSettles(a: Active, send: Send, n: Norm)
    requires !send.effectful
    ensures Settle(a, send, n) == SHORT_MS
  {
  }

  /** A due time that has already passed stays due. */
  lemma DueBefore(s: State, y: State, now: nat)
    requires s.clock.Linear? && OpPaced(s) && OnTime(s, now) && !GateClosed(s, now)
    requires Timed(s.active) ==> Reached(s.clock, now, s.active.nextDueMs)
    requires y.time.ownerValid && y.time.gateValid && y.time.gateMs >= now
    ensures Due(y.time, s.active.nextDueMs)
  {
    hide Timed;
    if !Timed(s.active) { DuePassed(s, now, s.active.nextDueMs); }
  }

  lemma MissPaced(s: State, send: Send, status: Err, p: seq<Event>, now: nat, budget: nat, reply: Reply)
    requires Live(s) && Paced(s) && s.clock.Linear? && OnTime(s, now) && MayTransfer(s, now, budget, send)
    requires forall i | 0 <= i < |p| :: p[i].ProtocolError?
    ensures Paced(Leads(s, now, reply, Missed(send, status, p)))
  {
    hide Live, Reached, SendFor, Reachable, Finish, FinishFailure, Transferred, NormOf, CallOf, MayTransfer, Timed,
      Settle, OnTime, MinimumWait, LogPaced, Due, IsPartial;
    LiveSlot(s);
    var x, n := Transferred(s, send, now, reply), NormOf(s, send, now, reply);
    assert LogPaced(s) by { LogPart(s); }
    LogPacedTransfer(s, send, now, budget, reply);
    TransferredFrame(s, send, now, reply);
    var y := x.(log := x.log + p);
    NotedPaced(x, y);
    if IsPartial(x.active) {
      var z := y.(work := y.work.(configuration := y.know.configuration));
      NotedPaced(y, z);
      EndedPaced(z, Partial, NoEffectWrite, status, n.doneMs);
    } else {
      FailedPaced(y, status, n.doneMs);
    }
  }

  lemma QuietPaced(s: State, now: nat, budget: nat, reply: Reply, c: Case)
    requires Live(s) && Tracked(s) && Paced(s) && s.clock.Linear? && OnTime(s, now)
    requires c.Quiet? && Fits(s, now, budget, reply, c)
    ensures Paced(Leads(s, now, reply, c))
  {
    hide Tracked, Reached, Finish, GateClosed, SetMode, Reachable, Spent, MinimumWait, LogPaced, OnTime, Waited, Due,
      Resting;
    LiveSlot(s);
    ChargeIsSpent(s);
    QuietWaits(s.active);
    assert LogPaced(s) by { LogPart(s); }
    DuePassed(s, now, s.active.startedMs + Waited(s.active));
    var y := s.(know := c.k, work := c.w);
    NotedPaced(s, y);
    EndedPaced(y, c.outcome, c.effect, c.status, now);
  }

  lemma HeldPaced(s: State, due: nat, now: nat)
    requires Live(s) && Paced(s) && s.clock.Linear? && OnTime(s, now)
    requires due == s.active.nextDueMs || (GateClosed(s, now) && due == s.time.gateMs)
    ensures Paced(s.(active := s.active.(nextDueMs := due)))
  {
    hide Reachable, Waited, Timed;
    WaitedSame(s.active, s.active.(nextDueMs := due));
  }

  /** A wait only passes at the owner's own time: the gate is open. */
  lemma RousedPaced(s: State, k: Knowledge, now: nat)
    requires Live(s) && Paced(s) && s.clock.Linear? && OnTime(s, now)
    requires RestDone(s, now) && !EndsAfterWait(s.active.request.kind)
    ensures Paced(s.(active := s.active.(phase := Wakes(s.active)), know := k))
  {
    hide Reachable, Waited, Timed, Resting, Wakes, EndsAfterWait, Spaced, CallsDue, AllTimely;
    LiveSlot(s);
    WaitedRoused(s.active);
  }

  lemma TurnPaced(s: State, now: nat, budget: nat, reply: Reply)
    requires Live(s) && Tracked(s) && Paced(s) && s.clock.Linear? && OnTime(s, now)
    ensures Paced(Iterate(s, now, budget, reply).s)
  {
    hide Iterate, Live, Finish, FinishFailure, Transferred, NormOf, Judge, TransferStatus, Wakes, Tracked, Reached,
      Resting, ResponseWords, KnowAfterSend, SendFor, Reachable, Words, AllWordsOk, WriteEnd, ReadEnd, MissEnd, Paced,
      OnTime, EndsAfterWait, Timed, PersistBlocked, PersistNotNeeded, GateClosed;
    LiveSlot(s);
    var c := Shape(s, now, budget, reply);
    match c
    case Held(due) => HeldPaced(s, due, now);
    case Roused(k) => RousedPaced(s, k, now);
    case Quiet(_, _, _, _, _) => QuietPaced(s, now, budget, reply, c);
    case Expired =>
      assert LogPaced(s) by { LogPart(s); }
      FailedPaced(s, Timeout, now);
    case Wrote(send, k) => WritePaced(s, send, k, now, budget, reply);
    case Fetched(send, words) =>
      ReadsAreNormal(s.active);
      ReadPaced(s, send, words, now, budget, reply);
    case Missed(send, status, p) => MissPaced(s, send, status, p, now, budget, reply);
  }

  lemma OtherPaced(s: State, op: Op)
    requires Steady(s) && Paced(s) && s.clock.Linear? && !op.OpPoll?
    ensures Paced(Apply(s, Other(op)))
  {
    hide Reachable, Finish, CheckStart, CancelEffect, Reached, BlockedIf, ForgetIf, Start, LogPaced, OpPaced, Spaced,
      CallsDue, AllTimely, EndActive;
    assert LogPaced(s) by { LogPart(s); }
    match op
    case OpBegin(c) =>
      if ConfigValid(c) && !s.activeValid && !s.terminalValid {
        EventPaced(s, Begin(s, c).0, Bound(c.offlineThreshold));
      }
    case OpStart(r, o) => if CheckStart(s, r, o) == Ok { StartPaced(s, r, o); } else { StartRefused(s, r, o); }
    case OpCancel(id, now) => if s.activeValid && s.active.id == id { CancelPaced(s, id, now); }
    case OpTake(id) =>
      if s.terminalValid && s.terminal.id == id { EventPaced(s, TakeResult(s, id).0, Taken(id)); }
    case OpEnd => EndPaced(s);
  }

  lemma EventPaced(s: State, t: State, e: Event)
    requires LogPaced(s) && t.log == s.log + [e] && !e.Called? && !e.Finished? && Later(s.time, t.time)
    requires t.settings.powerUpMs >= POWER_UP_MS
    ensures LogPaced(t) && (!t.activeValid ==> Paced(t))
  {
    hide Timely, Due;
    CallsDueLater(s.time, t.time, s.log, t.log);
    forall i | 0 <= i < |t.log| && t.log[i].Finished? ensures Timely(t.log[i].result) {
      assert t.log[i] == s.log[i];
    }
  }

  lemma StartPaced(s: State, r: Request, o: Options)
    requires Steady(s) && LogPaced(s) && s.clock.Linear? && CheckStart(s, r, o) == Ok
    ensures Paced(Start(s, r, o).0)
  {
    hide CheckStart, Spaced, CallsDue, AllTimely, DesiredWord, Reachable, LimitsOf, Admission;
    AdmittedFree(s, r, o);
    var t := Start(s, r, o).0;
    FreshPlace(t.active);
    assert Later(s.time, t.time) by { OwnerLater(s, o.nowMs); }
    EventPaced(s, t, Admitted(OpId(o.requestId, s.generation), r, o.nowMs, o.deadlineMs));
    assert OpPaced(t) by { FreshPaced(s, t, r, o); }
    LogWhole(t);
  }

  lemma OwnerLater(s: State, now: nat)
    requires s.clock.Linear? && (s.time.ownerValid ==> Reached(s.clock, now, s.time.ownerMs))
    ensures Later(s.time, s.time.(ownerMs := now, ownerValid := true))
  {
  }

  lemma FreshPaced(s: State, t: State, r: Request, o: Options)
    requires s.clock.Linear? && !GateClosed(s, o.nowMs) && s.settings.powerUpMs >= POWER_UP_MS && !r.kind.NoKind?
    requires t.time == s.time.(ownerMs := o.nowMs, ownerValid := true)
    requires exists id :: t.active == Opened(s, r, o, id)
    ensures OpPaced(t)
  {
    hide DesiredWord, IsEffectful;
    FreshPlace(t.active);
  }

  lemma CancelPaced(s: State, id: OpId, now: nat)
    requires Steady(s) && LogPaced(s) && s.clock.Linear? && s.activeValid && s.active.id == id
    ensures Paced(Cancel(s, id, now).0)
  {
    hide Spaced, CallsDue, AllTimely, Reachable, Finish, BlockedIf, ForgetIf, CancelEffect, MinimumWait;
    var t := CancelTime(s, now);
    var know := BlockedIf(ForgetIf(s.know, s.active.callbacks != 0 && s.active.wrote), s.active, s.active.wrote);
    var y := s.(time := s.time.(ownerMs := t, ownerValid := true), know := know);
    OwnerLater(s, t);
    SamePaced(s, y);
    EndedPaced(y, OutcomeCancelled, CancelEffect(s.active), Cancelled, t);
  }

  lemma SamePaced(s: State, y: State)
    requires LogPaced(s) && y.log == s.log && Later(s.time, y.time) && y.settings.powerUpMs >= POWER_UP_MS
    ensures LogPaced(y)
  {
    hide Timely, Due, Spaced;
    CallsDueLater(s.time, y.time, s.log, y.log);
  }

  lemma EndPaced(s: State)
    requires Steady(s) && LogPaced(s) && s.clock.Linear?
    ensures Paced(End(s))
  {
    hide Spaced, CallsDue, AllTimely, Reachable, Finish, BlockedIf, ForgetIf, MinimumWait;
    if s.activeValid {
      var t := if s.time.ownerValid then s.time.ownerMs else s.active.startedMs;
      var know := BlockedIf(ForgetIf(s.know, s.active.callbacks > 0), s.active, s.active.wrote);
      var y := s.(know := know);
      SamePaced(s, y);
      EndedPaced(y, OutcomeCancelled, s.active.effect, Cancelled, t);
      FinishOwner(y, OutcomeCancelled, s.active.effect, Cancelled, t);
      LogPart(EndActive(s));
    }
    EndSteady(s);
    EventPaced(EndActive(s), End(s), Unbound);
  }

  lemma WatchPaced(s: State, now: nat)
    requires Steady(s) && Paced(s) && s.clock.Linear?
    ensures Paced(Observe(s, now))
  {
    hide Spaced, CallsDue, AllTimely, Reachable, Timed, Waited;
    var t := Observe(s, now);
    assert LogPaced(s) by { LogPart(s); }
    SamePaced(s, t);
    if s.activeValid {
      DueLater(s.time, t.time, s.active.startedMs + Waited(s.active));
      if !Timed(s.active) { DueLater(s.time, t.time, s.active.nextDueMs); }
    }
    LogWhole(t);
  }

  lemma SmallPaced(s: State, m: Small)
    requires Steady(s) && Tracked(s) && Paced(s) && s.clock.Linear? && Allowed(s, m)
    ensures Paced(Apply(s, m))
  {
    hide Reachable, Iterate, FinishFailure, Reached, MayRun, Tracked, Paced, OnTime, Do, Observe;
    match m
    case Watch(now) => WatchPaced(s, now);
    case Expiry(now) =>
      assert LogPaced(s) by { LogPart(s); }
      FailedPaced(s, Timeout, now);
    case Turns(now, budget, reply) => TurnPaced(s, now, budget, reply);
    case Other(op) => OtherPaced(s, op);
  }

  /** On the linear clock every run is spaced, and every success lasted its minimum. */
  lemma AlwaysPaced(ops: seq<Op>, bus: nat -> Reply)
    ensures var s := Run(ops, Linear, bus); Steady(s) && Tracked(s) && Paced(s) && s.clock.Linear?
  {
    hide Tracked, Paced, Steady, Apply, Allowed, Run;
    var inv := (s: State) => s.clock.Linear? && Tracked(s) && Paced(s);
    assert Preserved(inv) by {
      forall s: State, m: Small | Steady(s) && inv(s) && Allowed(s, m) ensures inv(Apply(s, m)) {
        SmallClock(s, m);
        SmallTracked(s, m);
        SmallPaced(s, m);
      }
    }
    assert inv(Initial(Linear)) by { InitialTracked(Linear); InitialPaced(); }
    Lift(inv, ops, Linear, bus);
  }

  lemma InitialPaced()
    ensures Initial(Linear).clock.Linear? && Paced(Initial(Linear))
  {
  }

  /**
    Sensor-busy safety over whole runs: no callback starts before an earlier one's full settle has passed,
    and so no managed command reaches a sensor that is still executing one, across operation boundaries,
    cancellation, timeout, unbinding and rebinding.
   */
  lemma NeverBusy(ops: seq<Op>, bus: nat -> Reply, i: nat, j: nat)
    requires var log := Run(ops, Linear, bus).log; i < j < |log| && log[i].Called? && log[j].Called?
    ensures var log := Run(ops, Linear, bus).log; var c := log[i].call;
      (Began(c) ==> log[j].call.startMs >= FreeAt(c) >= c.norm.doneMs + 1) &&
      (MayHaveEffect(c) && !IsDiagnostic(c.kind) ==> log[j].call.startMs >= c.norm.doneMs + CommandTime(c.wire))
  {
    hide Run, Steady, Tracked, CommandTime, Disciplined;
    AlwaysPaced(ops, bus);
    AlwaysFit(ops, Linear, bus);
    assert Fit(Linear, Run(ops, Linear, bus).log[i].call);
  }

  /** A success took at least its operation's mandatory waits. */
  lemma SuccessLasts(ops: seq<Op>, bus: nat -> Reply, i: nat)
    requires var log := Run(ops, Linear, bus).log;
      i < |log| && log[i].Finished? && log[i].result.outcome == Succeeded
    ensures var r := Run(ops, Linear, bus).log[i].result;
      r.completedMs >= r.startedMs + MinimumWait(r.kind, r.callbacks)
  {
    hide Run, Steady, Tracked, MinimumWait;
    AlwaysPaced(ops, bus);
    assert Timely(Run(ops, Linear, bus).log[i].result);
  }

  // ----- Polls that come too early or too late -----

  /** Before its due time an operation is untouched by an iteration, or not reached by the loop at all. */
  lemma EarlyIteration(s: State, now: nat, budget: nat, bus: nat -> Reply)
    requires Live(s) && s.clock.Linear? && now < s.active.nextDueMs && now < s.active.deadlineMs
    requires Timed(s.active) || GateClosed(s, now)
    ensures Loop(s, now, budget, 0, bus).s == s
  {
    hide Timed, Reachable, Exchange, GateClosed, Rested;
    if MayRun(s, now) {
      EarlyStep(s, now, budget, bus(s.calls));
    }
  }

  /**
    A poll strictly before the due time that the driver published changes nothing but the owner's recorded
    time: no callback, no phase, no effect, no cache.
   */
  lemma EarlyPollIsQuiet(ops: seq<Op>, bus: nat -> Reply, now: nat, budget: nat)
    requires var s := Run(ops, Linear, bus); s.activeValid && now < NextPollDue(s)
    ensures var s := Run(ops, Linear, bus); Poll(s, now, budget, bus).0 == Observe(s, now)
  {
    hide Run, Tracked, Loop, Reachable, Timed, Spaced, CallsDue, AllTimely;
    var s := Run(ops, Linear, bus);
    AlwaysPaced(ops, bus);
    if OwnerClockOk(s, now) {
      var s1 := Observe(s, now);
      EarlyIteration(s1, now, budget, bus);
    }
  }

  /**
    An accepted poll at or after the deadline always leaves a failing result, without a callback, whatever its
    budget.
   */
  lemma LatePollEnds(s: State, now: nat, budget: nat, bus: nat -> Reply)
    requires Steady(s) && s.activeValid && OwnerClockOk(s, now) && Reached(s.clock, now, s.active.deadlineMs)
    ensures var t := Poll(s, now, budget, bus).0;
      t.terminalValid && !t.activeValid && t.calls == s.calls && t.terminal.id == s.active.id &&
      t.terminal.status == Timeout && t.terminal.outcome in {TimedOut, OutcomeIndeterminate, Partial}
  {
    hide Reached, FinishFailure, Reachable, Loop;
    var s1 := Observe(s, now);
    FailureCloses(s1, Timeout, now);
    TimeoutOutcome(s1);
    OverLoop(FinishFailure(s1, Timeout, now), now, budget, bus);
  }

  lemma TimeoutOutcome(s: State)
    ensures PartialOutcome(s.active, Classify(s, Timeout).outcome) in {TimedOut, OutcomeIndeterminate, Partial}
  {
  }

  lemma OverLoop(s: State, now: nat, budget: nat, bus: nat -> Reply)
    requires !s.activeValid
    ensures Loop(s, now, budget, 0, bus).s == s
  {
  }
}
