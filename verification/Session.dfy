/** The workflow composed with the driver, as the command line runs them. */
module Session {
  import opened Clocks
  import opened Types
  import opened Commands
  import opened Codec
  import opened Engine
  import opened Exchanges
  import opened Control
  import opened Runs
  import Evidence
  import W = Workflow

  /** The workflow's calls so far, the driver, and whether no accepted result has reported reconciliation. */
  datatype Session = Session(calls: seq<W.WorkflowCall>, driver: State, clean: bool)

  function PlanNow(x: Session): W.Plan { W.PlanOf(x.calls) }

  /** The next step is started once the slot is idle and the safety gate has opened. */
  predicate MayServe(x: Session, now: nat) {
    W.IsActive(PlanNow(x)) && !PlanNow(x).waiting && SlotOf(x.driver).SlotIdle? && !GateClosed(x.driver, now)
  }

  function Serve(x: Session, o: Options): Session {
    if !MayServe(x, o.nowMs) || W.NextRequest(PlanNow(x)).None? then x
    else
      var r := W.NextRequest(PlanNow(x)).value;
      var (t, status) := Start(x.driver, r, o);
      x.(driver := t,
         calls := x.calls + [if status == InProgress then W.CallStarted(t.active.id, r.kind) else W.CallStartFailure])
  }

  function Collect(x: Session, id: OpId): Session {
    var (t, status, result) := TakeResult(x.driver, id);
    if result.None? then x.(driver := t)
    else
      Session(x.calls + [W.CallResult(result.value)], t,
              x.clean && !(W.MayAccept(PlanNow(x), result.value) && result.value.reconcile))
  }

  function Tick(x: Session, now: nat, bus: nat -> Reply): Session {
    var (t, report) := Poll(x.driver, now, 1, bus);
    if report.state.ResultPending? then Collect(x.(driver := t), report.id) else x.(driver := t)
  }

  /** Cancels the operation, and collects its result. */
  function Abort(x: Session, now: nat): Session {
    var id := if x.driver.activeValid then x.driver.active.id else x.driver.terminal.id;
    var (t, status) := Cancel(x.driver, id, now);
    if status == Ok then Collect(x.(driver := t), id) else x
  }

  /** The user's cancel: between operations it only stops the workflow. */
  function Halt(x: Session, now: nat): Session {
    var y := if W.IsActive(PlanNow(x)) then x.(calls := x.calls + [W.CallStop]) else x;
    if W.IsActive(PlanNow(x)) && !PlanNow(x).waiting then y else Abort(y, now)
  }

  /** A workflow begins only on an idle slot, in the mode the driver believes in. */
  function Begin(x: Session, kind: W.WorkflowKind, cycles: nat): Session {
    if !SlotOf(x.driver).SlotIdle? then x else x.(calls := x.calls + [W.CallBegin(kind, cycles, x.driver.know.mode)])
  }

  /** A finished workflow is cleared once its summary is out. */
  function Dismiss(x: Session): Session {
    if !PlanNow(x).finished then x else x.(calls := x.calls + [W.CallClear])
  }

  datatype Move =
    | DoBegin(kind: W.WorkflowKind, cycles: nat)
    | DoServe(options: Options)
    | DoTick(now: nat)
    | DoHalt(now: nat)
    | DoDismiss

  function Proceed(x: Session, m: Move, bus: nat -> Reply): Session {
    match m
    case DoBegin(kind, cycles) => Begin(x, kind, cycles)
    case DoServe(o) => Serve(x, o)
    case DoTick(now) => Tick(x, now, bus)
    case DoHalt(now) => Halt(x, now)
    case DoDismiss => Dismiss(x)
  }

  function Play(x: Session, moves: seq<Move>, bus: nat -> Reply): Session {
    if moves == [] then x else Proceed(Play(x, moves[..|moves| - 1], bus), moves[|moves| - 1], bus)
  }

  // ----- What a workflow needs of the driver -----

  /** The driver knows the sensor, its mode is the workflow's, and the sensor offers every operation. */
  predicate Suits(k: Knowledge, mode: Mode) {
    k.attached && !k.reconcile && k.mode == mode && k.identity.valid && k.identity.variant in {Scd41, Scd43}
  }

  /** The operations of the sequences: none of them commands a mode. */
  predicate Harmless(k: Kind) {
    k.ReadIdentity? || k.ReadVariant? || k.ReadDataReady? || k.ReadSetting? || k.ReadConfiguration? || k.FetchSample? ||
    k.SelfTest?
  }

  predicate KeepsSuited(k: Knowledge, l: Knowledge, mode: Mode) { Suits(k, mode) ==> Suits(l, mode) || l.reconcile }

  lemma SameKeepsSuited(k: Knowledge, mode: Mode)
    ensures KeepsSuited(k, k, mode)
  {
  }

  /**
    The driver is busy with the workflow's operation, or holds its result, which reports reconciliation as the driver
    does.
   */
  predicate Working(s: State, id: OpId, kind: Kind, mode: Mode) {
    s.bound &&
    if s.activeValid then !s.terminalValid && s.active.id == id && s.active.request.kind == kind && Suits(s.know, mode)
    else
      s.terminalValid && s.terminal.id == id && s.terminal.kind == kind && s.terminal.reconcile == s.know.reconcile &&
      (s.know.reconcile || Suits(s.know, mode))
  }

  // ----- One iteration -----

  lemma FinishWorking(y: State, outcome: Outcome, effect: Effect, status: Err, at: nat, mode: Mode)
    requires y.bound && y.activeValid && !y.terminalValid && Harmless(y.active.request.kind) &&
      (Suits(y.know, mode) || y.know.reconcile)
    ensures var t := Finish(y, outcome, effect, status, at);
      !t.activeValid && Working(t, y.active.id, y.active.request.kind, mode)
  {
    hide Published;
  }

  lemma FailureWorking(y: State, status: Err, at: nat, mode: Mode)
    requires y.bound && y.activeValid && !y.terminalValid && Harmless(y.active.request.kind) &&
      (Suits(y.know, mode) || y.know.reconcile)
    ensures var t := FinishFailure(y, status, at);
      !t.activeValid && Working(t, y.active.id, y.active.request.kind, mode)
  {
    hide Finish, Classify, EepromUncertain, PartialWork, PartialOutcome, Working;
    var f := Classify(y, status);
    FinishWorking(Failing(y, status, f), PartialOutcome(y.active, f.outcome), f.effect, status, at, mode);
  }

  lemma KnowKeepsSuited(k: Knowledge, f: Field, word: u16, n: nat, mode: Mode)
    ensures KeepsSuited(k, CacheField(k, f, word), mode) && KeepsSuited(k, Unverify(k, f), mode)
    ensures Disowned(k, n, word).reconcile && DisownedVariant(k, word).reconcile
  {
    hide DecodeField, VariantOf;
  }

  lemma SettingKeepsSuited(s: State, f: Field, word: u16, mode: Mode)
    ensures KeepsSuited(s.know, JudgeSettingRead(s, f, word).know, mode)
  {
    hide FieldWordValid, CacheField, Unverify, CacheResult;
    KnowKeepsSuited(s.know, f, word, 0, mode);
  }

  lemma IdentityKeepsSuited(s: State, word: u16, mode: Mode)
    requires IsReadLike(s.active.request.kind)
    ensures KeepsSuited(s.know, JudgeIdentity(s, word).know, mode)
  {
    hide VariantOf, StrictlyUnsupported, Disowned;
    KnowKeepsSuited(s.know, TemperatureOffset, word, s.work.identity.serial, mode);
  }

  lemma VariantKeepsSuited(s: State, word: u16, mode: Mode)
    ensures KeepsSuited(s.know, JudgeVariant(s, word).know, mode)
  {
    hide VariantOf, StrictlyUnsupported, DisownedVariant;
    KnowKeepsSuited(s.know, TemperatureOffset, word, 0, mode);
  }

  lemma SampleKeepsSuited(s: State, words: seq<u16>, now: nat, mode: Mode)
    requires |words| == 3
    ensures KeepsSuited(s.know, JudgeSample(s, words, now).know, mode)
  {
  }

  /** The end of reconciliation is in the verdict: knowledge is lost only by a response that ends the operation. */
  lemma JudgeKeepsSuited(s: State, words: seq<u16>, now: nat, mode: Mode)
    requires Reachable(s.active) && Harmless(s.active.request.kind) && |words| == ResponseWords(s.active) &&
      |words| >= 1
    ensures var j := Judge(s, words, now);
      KeepsSuited(s.know, j.know, mode) && j.active.id == s.active.id && j.active.request == s.active.request &&
      (j.verdict.Continue? ==> Suits(s.know, mode) ==> Suits(j.know, mode))
  {
    hide JudgeIdentity, JudgeVariant, JudgeSettingRead, JudgeSample, Reachable, IsSerialResponse, ResponseWords,
      DataReady, SerialOf, WithSerial, Suits;
    var a, k := s.active, s.active.request.kind;
    SameKeepsSuited(s.know, mode);
    ReadPlace(a);
    SettingKeepsSuited(s, if k.ReadSetting? then k.field else FieldAt(a.index), words[0], mode);
    SettingContinues(s, if k.ReadSetting? then k.field else FieldAt(a.index), words[0], mode);
    VariantKeepsSuited(s, words[0], mode);
    if a.phase == ReadVerify { IdentityKeepsSuited(s, words[0], mode); }
    if |words| == 3 { SampleKeepsSuited(s, words, now, mode); }
    IdentityEnds(s, words[0]);
  }

  lemma SettingContinues(s: State, f: Field, word: u16, mode: Mode)
    ensures var j := JudgeSettingRead(s, f, word);
      !j.verdict.Continue? && j.active == s.active && (Suits(s.know, mode) ==> Suits(j.know, mode))
  {
    hide FieldWordValid, CacheResult, DecodeField;
  }

  lemma IdentityEnds(s: State, word: u16)
    ensures JudgeIdentity(s, word).verdict.Done? && JudgeIdentity(s, word).active == s.active
    ensures JudgeVariant(s, word).verdict.Done? && JudgeVariant(s, word).active == s.active
    ensures forall words: seq<u16>, now | |words| == 3 ::
      JudgeSample(s, words, now).verdict.Done? && JudgeSample(s, words, now).active == s.active
  {
    hide Disowned, Identified, Attached, StrictlyUnsupported, OtherSensor, VariantOf, ResetKnowledge, DisownedVariant,
      StoreSample;
  }

  lemma ReadPlace(a: Active)
    requires Reachable(a) && Harmless(a.request.kind)
    ensures a.phase == ReadVerify ==> a.request.kind.ReadIdentity?
    ensures ResponseWords(a) == 3 <==> IsSerialResponse(a) || (IsMeasurement(a.request.kind) && a.phase == ReadResponse)
  {
  }

  lemma ReadWorking(x: State, words: seq<u16>, at: nat, mode: Mode)
    requires x.bound && Live(x) && Harmless(x.active.request.kind) && Suits(x.know, mode) &&
      |words| == ResponseWords(x.active) && |words| >= 1
    ensures Working(ReadEnd(x, Judge(x, words, at), at), x.active.id, x.active.request.kind, mode)
  {
    hide Finish, FinishFailure, Judge, ResponseWords, Reachable, Suits;
    JudgeKeepsSuited(x, words, at, mode);
    var j := Judge(x, words, at);
    var y := x.(active := j.active, know := j.know, work := j.work,
                log := if j.protocol.Some? then x.log + [ProtocolError(j.protocol.value, at)] else x.log);
    match j.verdict
    case Continue =>
    case Done(outcome, effect, status) => FinishWorking(y, outcome, effect, status, at, mode);
    case Reject(status) => FailureWorking(y, status, at, mode);
  }

  lemma SendKeepsSuited(s: State, d: Disposition, status: Err)
    requires Harmless(s.active.request.kind)
    ensures KnowAfterSend(s, d, status) == s.know && !EndsAfterWrite(s.active.request.kind)
  {
  }

  lemma NeverQuiet(s: State)
    requires Harmless(s.active.request.kind)
    ensures !EndsAfterWait(s.active.request.kind) && !PersistBlocked(s) && !PersistNotNeeded(s) &&
      !IsReset(s.active.request.kind)
  {
  }

  /**
    An operation of the workflow keeps the mode and the sensor known, or ends with a result that reports
    reconciliation.
   */
  lemma TurnWorking(s: State, now: nat, budget: nat, reply: Reply, id: OpId, kind: Kind, mode: Mode)
    requires Live(s) && Harmless(kind) && Working(s, id, kind, mode)
    ensures Working(Iterate(s, now, budget, reply).s, id, kind, mode)
  {
    hide Iterate, Finish, FinishFailure, Transferred, NormOf, Judge, TransferStatus, Wakes, Resting, ResponseWords,
      KnowAfterSend, Reachable, Words, AllWordsOk, Written, SendFor, Timed, GateClosed, Reached, IsPartial, Suits;
    var c := Shape(s, now, budget, reply);
    LiveSlot(s);
    NeverQuiet(s);
    match c
    case Held(_) =>
    case Roused(_) =>
    case Quiet(_, _, _, _, _) =>
    case Expired => FailureWorking(s, Timeout, now, mode);
    case Wrote(send, k) =>
      var x, n := Transferred(s, send, now, reply), NormOf(s, send, now, reply);
      var st := TransferStatus(s.clock, s.active.deadlineMs, send.intent, n);
      TransferredFrame(s, send, now, reply);
      SendKeepsSuited(s, n.disposition, st);
      Evidence.WrittenKeeps(x.active, x.disposition, x.clock, n.doneMs);
      FailureWorking(x.(know := k), st, n.doneMs, mode);
    case Fetched(send, words) =>
      var x, n := Transferred(s, send, now, reply), NormOf(s, send, now, reply);
      TransferredFrame(s, send, now, reply);
      SameStep(s.active, x.active);
      FetchedLive(s, send, now, reply);
      ReadWorking(x, words, n.doneMs, mode);
    case Missed(send, status, p) =>
      var x, n := Transferred(s, send, now, reply), NormOf(s, send, now, reply);
      TransferredFrame(s, send, now, reply);
      var y := x.(log := x.log + p);
      FailureWorking(y, status, n.doneMs, mode);
      FinishWorking(y.(work := y.work.(configuration := y.know.configuration)), Partial, NoEffectWrite, status,
                    n.doneMs, mode);
  }

  lemma FetchedLive(s: State, send: Send, now: nat, reply: Reply)
    requires Live(s)
    ensures Live(Transferred(s, send, now, reply))
  {
    hide NormOf, CallOf, Settle, Reachable;
    var x := Transferred(s, send, now, reply);
    SameStep(s.active, x.active);
  }

  lemma {:induction false} LoopWorking(s: State, now: nat, budget: nat, transitions: nat, bus: nat -> Reply, id: OpId,
                                       kind: Kind, mode: Mode)
    requires Steady(s) && Harmless(kind) && Working(s, id, kind, mode) && (s.activeValid ==> OnTime(s, now))
    ensures var t := Loop(s, now, budget, transitions, bus).s; Steady(t) && Working(t, id, kind, mode)
    decreases MAX_TRANSITIONS - transitions
  {
    hide Iterate, Reachable, GateClosed, Suits, Harmless, Reached;
    if transitions < MAX_TRANSITIONS && MayRun(s, now) {
      var m := Turns(now, budget, bus(s.calls));
      assert Apply(s, m) == Iterate(s, now, budget, bus(s.calls)).s;
      SmallSteady(s, m);
      IterateOnTime(s, now, budget, bus(s.calls));
      TurnWorking(s, now, budget, bus(s.calls), id, kind, mode);
      var t := Iterate(s, now, budget, bus(s.calls));
      if t.more { LoopWorking(t.s, t.now, t.budget, transitions + 1, bus, id, kind, mode); }
    }
  }

  lemma ExpireWorking(s: State, now: nat, id: OpId, kind: Kind, mode: Mode)
    requires Steady(s) && Harmless(kind) && Working(s, id, kind, mode) && (s.activeValid ==> OnTime(s, now))
    ensures var t := if s.activeValid then Expire(s, now) else s;
      Steady(t) && Working(t, id, kind, mode) && (t.activeValid ==> OnTime(t, now))
  {
    hide Reachable, FinishFailure, Suits, Harmless, Reached;
    if s.activeValid && Reached(s.clock, now, s.active.deadlineMs) {
      FailureSteady(s, Timeout, now);
      FailureWorking(s, Timeout, now, mode);
    }
  }

  lemma WatchWorking(s: State, now: nat, id: OpId, kind: Kind, mode: Mode)
    requires Steady(s) && Working(s, id, kind, mode)
    ensures var t := Observe(s, now);
      Steady(t) && Working(t, id, kind, mode) && t.activeValid == s.activeValid && t.terminalValid == s.terminalValid &&
      (OwnerClockOk(s, now) ==> OnTime(t, now))
  {
    hide Reachable, Suits, Reached, GateClosed;
    var t := Observe(s, now);
    assert t == s.(time := t.time);
  }

  lemma PollWorking(s: State, now: nat, budget: nat, bus: nat -> Reply, id: OpId, kind: Kind, mode: Mode)
    requires Steady(s) && Harmless(kind) && Working(s, id, kind, mode)
    ensures var (t, report) := Poll(s, now, budget, bus);
      Steady(t) && Working(t, id, kind, mode) && (t.terminalValid ==> report.state.ResultPending? && report.id == id) &&
      (report.state.ResultPending? ==> t.terminalValid)
  {
    hide Loop, Expire, Observe, OwnerClockOk, OnTime, Steady, Suits, Harmless;
    WatchWorking(s, now, id, kind, mode);
    var s1 := Observe(s, now);
    if s1.activeValid && OwnerClockOk(s, now) {
      ExpireWorking(s1, now, id, kind, mode);
      LoopWorking(Expire(s1, now), now, budget, 0, bus, id, kind, mode);
    }
  }

  lemma CancelWorking(s: State, now: nat, id: OpId, kind: Kind, mode: Mode)
    requires Steady(s) && Harmless(kind) && Working(s, id, kind, mode)
    ensures var (t, status) := Cancel(s, id, now);
      Steady(t) && Working(t, id, kind, mode) && (status == Ok <==> s.activeValid) && (status == Ok ==> t.terminalValid)
  {
    hide Reachable, Finish, ForgetIf, CancelEffect, Suits, Reached;
    if s.activeValid {
      CancelSteady(s, id, now);
      var t := CancelTime(s, now);
      var a := s.active;
      var know := BlockedIf(ForgetIf(s.know, a.callbacks != 0 && a.wrote), a, a.wrote);
      NeverQuiet(s);
      ForgetSays(s.know, a.callbacks != 0 && a.wrote);
      FinishWorking(s.(time := s.time.(ownerMs := t, ownerValid := true), know := know), OutcomeCancelled,
                    CancelEffect(a), Cancelled, t,
                    mode);
    }
  }

  lemma ForgetSays(k: Knowledge, forget: bool)
    ensures ForgetIf(k, forget) == k || ForgetIf(k, forget).reconcile
  {
  }

  // ----- Admission -----

  lemma SequenceIsHarmless(kind: W.WorkflowKind, mode: Mode, step: nat)
    requires !kind.NoWorkflow?
    ensures Harmless(W.OperationAt(kind, mode, step))
  {
  }

  /** Every operation of a sequence is admissible in the workflow's mode. */
  lemma SequenceAdmissible(k: Knowledge, p: W.Plan)
    requires Suits(k, p.mode) && W.InModes(p) && W.NextRequest(p).Some?
    ensures var r := W.NextRequest(p).value; Admission(k, r.kind) == Ok && CheckRequest(r) == Ok
  {
  }

  /** Only the configuration read depends on the variant: with an unsuitable one it is refused, and nothing else is. */
  lemma AdmissionNeedsVariant(k: Knowledge, p: W.Plan)
    requires k.attached && !k.reconcile && k.mode == p.mode && W.InModes(p) && W.NextRequest(p).Some?
    ensures var kind := W.NextRequest(p).value.kind;
      Admission(k, kind) == Ok <==>
        !kind.ReadConfiguration? || !k.identity.valid || k.identity.variant in {Scd41, Scd43}
  {
  }

  /**
    What the owner must see to with each start: a request id, a valid deadline, time that does not go back, an open
    gate.
   */
  predicate WellTimed(s: State, o: Options) {
    o.requestId != 0 && DeadlineValid(s.clock, o.nowMs, o.deadlineMs) &&
    (s.time.ownerValid ==> Reached(s.clock, o.nowMs, s.time.ownerMs)) && !GateClosed(s, o.nowMs)
  }

  predicate Vacant(s: State) { s.bound && !s.activeValid && !s.terminalValid }

  lemma StartAdmitted(s: State, p: W.Plan, o: Options)
    requires Vacant(s) && Suits(s.know, p.mode) && W.InModes(p) && W.NextRequest(p).Some? && WellTimed(s, o)
    ensures Start(s, W.NextRequest(p).value, o).1 == InProgress
  {
    hide Suits, Admission, CheckRequest, DeadlineValid, Reached, GateClosed, Opened;
    SequenceAdmissible(s.know, p);
    SequenceLimits(p);
  }

  lemma SequenceLimits(p: W.Plan)
    requires W.NextRequest(p).Some?
    ensures var k := W.NextRequest(p).value.kind; !k.NoKind? && LimitsOf(k).maxCallbacks != 0
  {
  }

  // ----- Sessions -----

  /**
    While no result reported reconciliation, the driver stays in its mode, workflows are in that mode, an idle
    driver suits them, and a waiting one has its operation in the driver.
   */
  predicate InStep(x: Session, mode: Mode) {
    x.clean ==>
      Steady(x.driver) && (W.IsActive(PlanNow(x)) ==> PlanNow(x).mode == mode) &&
      (if PlanNow(x).waiting then Harmless(PlanNow(x).operation) &&
       Working(x.driver, PlanNow(x).operationId, PlanNow(x).operation, mode)
      else Vacant(x.driver) && Suits(x.driver.know, mode))
  }

  lemma ServeInStep(x: Session, o: Options, mode: Mode)
    requires InStep(x, mode)
    ensures InStep(Serve(x, o), mode)
  {
    hide Steady, Suits, Start, Harmless, GateClosed, W.PlanOf, W.OperationAt;
    var p := PlanNow(x);
    if MayServe(x, o.nowMs) && W.NextRequest(p).Some? {
      var r := W.NextRequest(p).value;
      var (t, status) := Start(x.driver, r, o);
      if x.clean { DoSteady(x.driver, OpStart(r, o), _ => Reply(BadCode, BadDisposition, 0, 0, [])); }
      W.PlanSnoc(x.calls, if status == InProgress then W.CallStarted(t.active.id, r.kind) else W.CallStartFailure);
      SequenceIsHarmless(p.kind, p.mode, p.stepsCompleted);
      StartWorking(x.driver, r, o, mode);
    }
  }

  lemma BeginInStep(x: Session, kind: W.WorkflowKind, cycles: nat, mode: Mode)
    requires InStep(x, mode)
    ensures InStep(Begin(x, kind, cycles), mode)
  {
    hide Steady, Harmless, W.PlanOf, W.StepsIn;
    W.PlanSnoc(x.calls, W.CallBegin(kind, cycles, x.driver.know.mode));
  }

  lemma DismissInStep(x: Session, mode: Mode)
    requires InStep(x, mode)
    ensures InStep(Dismiss(x), mode)
  {
    hide Steady, Suits, Harmless, Working, W.PlanOf;
    W.PlanSnoc(x.calls, W.CallClear);
    W.AlwaysInOrder(x.calls);
    W.WaitsActively(PlanNow(x), W.BookOf(x.calls));
  }

  lemma StartWorking(s: State, r: Request, o: Options, mode: Mode)
    ensures var (t, status) := Start(s, r, o);
      t.bound == s.bound && t.know == s.know && t.activeValid == (s.activeValid || status == InProgress) &&
      t.terminalValid == s.terminalValid
    ensures var (t, status) := Start(s, r, o);
      status == InProgress && Vacant(s) && Suits(s.know, mode) ==> Working(t, t.active.id, r.kind, mode)
  {
    hide CheckStart, Suits, DesiredWord, IsEffectful;
    CheckedStatus(s, r, o);
  }

  lemma CheckedStatus(s: State, r: Request, o: Options)
    ensures CheckStart(s, r, o) != InProgress
  {
    hide GateClosed, Reached, DeadlineValid, LimitsOf;
  }

  lemma CollectInStep(x: Session, id: OpId, mode: Mode)
    requires InStep(x, mode) && (x.clean ==> PlanNow(x).waiting && x.driver.terminalValid && x.driver.terminal.id == id)
    ensures InStep(Collect(x, id), mode)
  {
    hide Reachable, Suits, Harmless, W.PlanOf;
    var (t, status, result) := TakeResult(x.driver, id);
    if result.Some? { W.PlanSnoc(x.calls, W.CallResult(result.value)); }
  }

  lemma TickInStep(x: Session, now: nat, bus: nat -> Reply, mode: Mode)
    requires InStep(x, mode)
    ensures InStep(Tick(x, now, bus), mode)
  {
    hide Steady, Poll, Suits, Harmless, W.PlanOf, Working, TakeResult;
    var (t, report) := Poll(x.driver, now, 1, bus);
    if x.clean {
      if PlanNow(x).waiting {
        PollWorking(x.driver, now, 1, bus, PlanNow(x).operationId, PlanNow(x).operation, mode);
        WorkingResult(t, PlanNow(x).operationId, PlanNow(x).operation, mode);
      } else {
        VacantPoll(x.driver, now, bus);
      }
    }
    if report.state.ResultPending? { CollectInStep(x.(driver := t), report.id, mode); }
  }

  lemma WorkingResult(s: State, id: OpId, kind: Kind, mode: Mode)
    requires Working(s, id, kind, mode)
    ensures s.terminalValid ==> s.terminal.id == id
    ensures s.activeValid ==> s.active.id == id
    ensures s.activeValid || s.terminalValid
  {
  }

  lemma VacantPoll(s: State, now: nat, bus: nat -> Reply)
    requires Steady(s) && Vacant(s)
    ensures var (t, report) := Poll(s, now, 1, bus);
      Steady(t) && Vacant(t) && t.know == s.know && !report.state.ResultPending?
  {
    hide Reached, Loop, Expire;
  }

  lemma HaltInStep(x: Session, now: nat, mode: Mode)
    requires InStep(x, mode)
    ensures InStep(Halt(x, now), mode)
  {
    hide Steady, Cancel, Suits, Harmless, W.PlanOf, Working, TakeResult;
    var p := PlanNow(x);
    W.PlanSnoc(x.calls, W.CallStop);
    var y := if W.IsActive(p) then x.(calls := x.calls + [W.CallStop]) else x;
    var id := if x.driver.activeValid then x.driver.active.id else x.driver.terminal.id;
    var (t, status) := Cancel(x.driver, id, now);
    if x.clean {
      if p.waiting {
        WorkingResult(x.driver, p.operationId, p.operation, mode);
        CancelWorking(x.driver, now, id, p.operation, mode);
        WorkingResult(t, id, p.operation, mode);
      } else {
        VacantCancel(x.driver, id, now);
      }
    }
    if !(W.IsActive(p) && !p.waiting) && status == Ok { CollectInStep(y.(driver := t), id, mode); }
  }

  lemma VacantCancel(s: State, id: OpId, now: nat)
    requires Vacant(s)
    ensures Cancel(s, id, now) == (s, ResultNotReady)
  {
  }

  /** A session with a free workflow on an idle, attached driver: a new one, or one between operations. */
  predicate Opens(x: Session) {
    x.clean && Steady(x.driver) && Vacant(x.driver) && Suits(x.driver.know, x.driver.know.mode) &&
    !PlanNow(x).waiting && (W.IsActive(PlanNow(x)) ==> PlanNow(x).mode == x.driver.know.mode)
  }

  lemma {:induction false} PlayInStep(x: Session, moves: seq<Move>, bus: nat -> Reply)
    requires Opens(x)
    ensures InStep(Play(x, moves, bus), x.driver.know.mode)
  {
    hide InStep, Serve, Tick, Halt, Begin, Dismiss, PlanNow;
    if moves == [] {
      OpensInStep(x);
    } else {
      var y, m, mode := Play(x, moves[..|moves| - 1], bus), moves[|moves| - 1], x.driver.know.mode;
      PlayInStep(x, moves[..|moves| - 1], bus);
      match m
      case DoBegin(kind, cycles) => BeginInStep(y, kind, cycles, mode);
      case DoServe(o) => ServeInStep(y, o, mode);
      case DoTick(now) => TickInStep(y, now, bus, mode);
      case DoHalt(now) => HaltInStep(y, now, mode);
      case DoDismiss => DismissInStep(y, mode);
    }
  }

  lemma OpensInStep(x: Session)
    requires Opens(x)
    ensures InStep(x, x.driver.know.mode)
  {
    hide Steady, Suits;
  }

  /**
    However a session is played, through any number of workflows, and whatever the transport does: until a
    result reports reconciliation the driver stays in its mode, and every request a workflow issues is
    admissible and is started when the owner keeps time.
   */
  lemma RequestsAreAdmissible(x: Session, moves: seq<Move>, bus: nat -> Reply, o: Options)
    requires Opens(x)
    ensures var y := Play(x, moves, bus);
      y.clean && !PlanNow(y).waiting ==>
        y.driver.know.mode == x.driver.know.mode && Vacant(y.driver) &&
        (W.NextRequest(PlanNow(y)).Some? ==>
          Admission(y.driver.know, W.NextRequest(PlanNow(y)).value.kind) == Ok &&
          (WellTimed(y.driver, o) ==> Start(y.driver, W.NextRequest(PlanNow(y)).value, o).1 == InProgress))
  {
    hide Start, Admission, WellTimed, Opens, Play, W.PlanOf, Steady;
    PlayInStep(x, moves, bus);
    var y := Play(x, moves, bus);
    W.AlwaysInOrder(y.calls);
    W.SaysModes(PlanNow(y), W.BookOf(y.calls));
    if y.clean && !PlanNow(y).waiting && W.NextRequest(PlanNow(y)).Some? {
      SequenceAdmissible(y.driver.know, PlanNow(y));
      if WellTimed(y.driver, o) { StartAdmitted(y.driver, PlanNow(y), o); }
    }
  }
}
