/**
  The driver's beliefs are true of the sensor it cannot see: its mode, its cached
  registers, its pressure source and its identity, over every run against a
  truthful adapter.
 */
module Belief {
  import opened Clocks
  import opened Types
  import opened Commands
  import opened Codec
  import opened Engine
  import opened Exchanges
  import opened Control
  import opened Runs
  import opened Ledger
  import opened Effort
  import opened Evidence
  import opened Coherence
  import opened Sensors
  import Refinement

  // ----- What is believed -----

  /** Verified fields decode the sensor's registers; the believed source and identity are the sensor's. */
  predicate Facts(k: Knowledge, v: Sensor) {
    && (forall f | f in k.configuration.verified ::
          FieldWordValid(f, Get(v.runtime, f)) && Cached(k.configuration, f) == DecodeField(f, Get(v.runtime, f)))
    && (k.source.Some? ==> v.source == k.source)
    && (k.identity.valid ==> k.identity.serial == v.serial && k.identity.variant == VariantOf(v.variant))
  }

  predicate ModeFact(k: Knowledge, v: Sensor) { k.mode != UnknownMode ==> k.mode == v.mode }

  predicate Switches(k: Kind) { IsModeCommand(k) && !k.WakeUp? }

  /** A mode command that has been accepted, and is not acknowledged to the owner yet. */
  predicate InFlight(a: Active) { Switches(a.request.kind) && PastCommand(a) }

  // ----- What an operation knows on its way -----

  /** The command whose response the operation is about to read. */
  function Expected(a: Active): Option<u16> {
    var k := a.request.kind;
    if k.Attach? then
      (if a.phase == ReadResponse || (a.phase == WaitExecution && a.index == 0) then Some(CMD_GET_SERIAL)
       else if a.phase == ReadVerify || (a.phase == WaitExecution && a.index == 1) then Some(CMD_GET_VARIANT)
       else None)
    else if k.ReadIdentity? then
      (if a.phase == ReadResponse || (a.phase == WaitExecution && a.index == 0) then Some(CMD_GET_SERIAL)
       else if a.phase == ReadVerify || (a.phase == WaitExecution && a.index == 1) then Some(CMD_GET_VARIANT)
       else None)
    else if k.ReadVariant? || k.ReadSetting? || k.ReadConfiguration? then
      (if a.phase == WaitExecution || a.phase == ReadResponse then Some(ReadCommand(ReadKind(a))) else None)
    else if k.WriteSetting? then
      (if (a.index == 0 || a.index == 3) && (a.phase == WaitExecution || a.phase == ReadResponse)
       then Some(GetCommand(k.field)) else None)
    else if k.WakeUp? then
      (if a.phase == ReadResponse || (a.phase == WaitExecution && a.index == 1) then Some(CMD_GET_SERIAL)
       else if a.phase == ReadVerify || (a.phase == WaitExecution && a.index == 2) then Some(CMD_GET_VARIANT)
       else None)
    else if IsReset(k) && a.phase == ReadVerify then Some(if a.index == 0 then CMD_GET_SERIAL else CMD_GET_VARIANT)
    else None
  }

  /** The serial number has been read. */
  predicate HasSerial(a: Active) {
    var k := a.request.kind;
    if k.Attach? || k.ReadIdentity? || IsReset(k) then a.index == 1
    else k.WakeUp? && (a.index == 2 || (a.index == 1 && a.phase == SendVerify))
  }

  /** The admission rule, kept for the operation's whole life. */
  predicate ModeAdmits(m: Mode, k: Kind) {
    m != UnknownMode && (Measuring(m) ==> PeriodicAllowed(k)) && (m == Asleep ==> k.WakeUp?) &&
    (m == Idle ==> !k.FetchSample? && !k.StopPeriodic?)
  }

  predicate SettingFacts(a: Active, v: Sensor)
    requires a.request.kind.WriteSetting?
  {
    var f := a.request.kind.field;
    (a.index == 1 ==> a.changed == (Get(v.runtime, f) != a.desired)) &&
    (a.index >= 2 ==> Get(v.runtime, f) == a.desired && (IsCompensation(f) ==> v.source == Some(f)))
  }

  predicate OpFacts(a: Active, w: Value, k: Knowledge, v: Sensor) {
    var kind := a.request.kind;
    && a.desired == DesiredWord(a.request) && CheckRequest(a.request) == Ok
    && (Expected(a).Some? ==> v.pending == Expected(a))
    && (HasSerial(a) ==> w.identity.serial == v.serial)
    && (kind.WriteSetting? ==> SettingFacts(a, v))
    && (IsReset(kind) && PastCommand(a) ==> v.mode.Idle? && Agrees(v))
    && (kind.PersistSettings? && PastCommand(a) ==> Agrees(v))
    && (!kind.Attach? && !PastCommand(a) ==> k.attached)
    && (kind.Attach? && PastCommand(a) ==> !k.attached)
    && (!kind.Attach? && k.attached ==> ModeAdmits(k.mode, kind))
    && (InFlight(a) ==> v.mode == TargetMode(kind))
  }

  predicate Sound(s: State, v: Sensor) {
    && Facts(s.know, v)
    && ((s.activeValid && InFlight(s.active)) || ModeFact(s.know, v))
    && (s.activeValid ==> OpFacts(s.active, s.work, s.know, v))
  }

  // ----- Harmless changes -----

  /** Knowing less is as true. */
  predicate Less(k: Knowledge, l: Knowledge) {
    && l.configuration.verified <= k.configuration.verified
    && (forall f | f in l.configuration.verified :: Cached(l.configuration, f) == Cached(k.configuration, f))
    && (l.source == None || l.source == k.source)
    && (l.identity == k.identity || !l.identity.valid)
    && (l.mode == UnknownMode || l.mode == k.mode)
  }

  lemma LessFacts(k: Knowledge, l: Knowledge, v: Sensor)
    requires Less(k, l) && Facts(k, v)
    ensures Facts(l, v) && (ModeFact(k, v) ==> ModeFact(l, v))
  {
    forall f | f in l.configuration.verified
      ensures FieldWordValid(f, Get(v.runtime, f)) && Cached(l.configuration, f) == DecodeField(f, Get(v.runtime, f))
    {
      assert f in k.configuration.verified;
    }
  }

  lemma ForgetLess(k: Knowledge)
    ensures Less(k, Forget(k)) && Forget(k).mode == UnknownMode && !Forget(k).attached && Less(k, k)
  {
  }

  /** A change of the selected response alone touches no belief. */
  lemma SameButFacts(k: Knowledge, v: Sensor, w: Sensor)
    requires SameBut(v, w)
    ensures Facts(k, v) == Facts(k, w) && ModeFact(k, v) == ModeFact(k, w) && Agrees(v) == Agrees(w)
  {
    hide FieldWordValid, DecodeField;
  }

  lemma DiscardedLess(k: Knowledge, c: Clock, a: Active, at: nat)
    ensures Less(k, Discarded(k, c, a, at))
  {
    hide ResetSettled;
  }

  /** Ending an operation tells the truth if its last knowledge does. */
  lemma FinishSound(y: State, outcome: Outcome, effect: Effect, status: Err, at: nat, v: Sensor)
    requires y.activeValid && !y.terminalValid && Facts(y.know, v) && ModeFact(y.know, v)
    ensures Sound(Finish(y, outcome, effect, status, at), v)
  {
    hide Facts, ModeFact, Discarded, Published, ResultOf, OpFacts, Less;
    DiscardedLess(y.know, y.clock, y.active, at);
    LessFacts(y.know, Discarded(y.know, y.clock, y.active, at), v);
  }

  /** A failure that forgets is always true; one that does not must have known the truth. */
  lemma FailureSound(y: State, status: Err, at: nat, v: Sensor)
    requires y.activeValid && !y.terminalValid
    requires Facts(y.know, v) || Classify(y, status).forget
    requires y.know.identity.valid ==>
      y.know.identity.serial == v.serial && y.know.identity.variant == VariantOf(v.variant)
    requires ModeFact(y.know, v) || Classify(y, status).forget
    ensures Sound(FinishFailure(y, status, at), v)
  {
    hide Finish, Classify, EepromUncertain, PartialOutcome, Facts, Less;
    var f := Classify(y, status);
    var z := Failing(y, status, f);
    assert Facts(z.know, v) && ModeFact(z.know, v) by { FailingTrue(y, status, f, v); }
    FinishSound(z, PartialOutcome(y.active, f.outcome), f.effect, status, at, v);
  }

  lemma FailingTrue(y: State, status: Err, f: Failure, v: Sensor)
    requires (Facts(y.know, v) && ModeFact(y.know, v)) || f.forget
    requires y.know.identity.valid ==>
      y.know.identity.serial == v.serial && y.know.identity.variant == VariantOf(v.variant)
    ensures Facts(Failing(y, status, f).know, v) && ModeFact(Failing(y, status, f).know, v)
  {
    hide EepromUncertain, FieldWordValid, DecodeField, PartialWork;
  }

  // ----- Traffic -----

  /** Kinds whose wire traffic must respect the sensor's mode. */
  predicate Regulated(k: Kind) { !k.Attach? && !k.WakeUp? && !IsDiagnostic(k) }

  lemma PeriodicWires(a: Active, send: Send)
    requires Reachable(a) && SendFor(a) == Some(send) && PeriodicAllowed(a.request.kind)
    ensures Permits(Periodic, send.wire) && Permits(LowPower, send.wire)
  {
  }

  lemma InFlightSilent(a: Active)
    requires Reachable(a) && InFlight(a)
    ensures SendFor(a).None? && a.phase == WaitExecution && Resting(a)
  {
  }

  /** What an operation puts on the wire is permitted by the sensor's real mode. */
  lemma MaySend(s: State, send: Send, v: Sensor)
    requires s.activeValid && Reachable(s.active) && SendFor(s.active) == Some(send) && Coherent(s) && Sound(s, v)
    requires Regulated(s.active.request.kind)
    ensures Permits(v.mode, send.wire)
    ensures !(IsReset(s.active.request.kind) && PastCommand(s.active)) ==>
      s.know.mode == v.mode && s.know.mode != UnknownMode && ModeAdmits(s.know.mode, s.active.request.kind)
  {
    hide SendFor, Reachable, PastCommand, Facts, Permits, PeriodicAllowed, Expected, HasSerial, SettingFacts,
      DesiredWord, CheckRequest, Agrees;
    if InFlight(s.active) { InFlightSilent(s.active); }
    PermitsIdle(send.wire);
    if Measuring(v.mode) && PeriodicAllowed(s.active.request.kind) { PeriodicWires(s.active, send); }
  }

  lemma PermitsIdle(w: Wire)
    ensures Permits(Idle, w)
  {
  }

  // ----- Writes -----

  lemma SelectingWire(a: Active, send: Send)
    requires Reachable(a) && SendFor(a) == Some(send) && !send.wire.Read? && !send.effectful
    ensures send.intent == Normal && send.wire.Write? && Selects(send.wire.command) && !IsSettingWrite(a) &&
      !EndsAfterWrite(a.request.kind)
  {
  }

  /** A command that selects a response moves nothing else, whatever became of it. */
  lemma SelectingMoves(s: State, send: Send, now: nat, reply: Reply, v: Sensor, w: Sensor)
    requires Reachable(s.active) && SendFor(s.active) == Some(send) && !send.wire.Read? && !send.effectful
    requires Moves(v, CallOf(s, send, now, reply), w)
    ensures SameBut(v, w)
    ensures TransferStatus(s.clock, s.active.deadlineMs, send.intent, NormOf(s, send, now, reply)) == Ok ==>
      w == v.(pending := Some(send.wire.command))
  {
    hide SendFor, Reachable, Normalize, Settle, TransferTimeout, TransferStatus, Selects;
    SelectingWire(s.active, send);
    SuccessComplete(s.clock, s.active.deadlineMs, send, now, reply);
    SelectsOnly(send.wire.command);
  }

  lemma SelectsOnly(c: u16)
    ensures Selects(c) ==> c != CMD_WAKE_UP
  {
  }

  /** The response selected is the one the operation will read. */
  lemma SelectedExpected(a: Active, send: Send, d: Disposition, c: Clock, at: nat)
    requires Reachable(a) && SendFor(a) == Some(send) && !send.wire.Read? && !send.effectful
    ensures var b := Written(a, d, c, at);
      (Expected(b).Some? ==> Expected(b) == Some(send.wire.command)) && HasSerial(b) == HasSerial(a) &&
      b.request == a.request &&
      b.desired == a.desired && b.changed == a.changed && PastCommand(b) == PastCommand(a) &&
      (a.request.kind.WriteSetting? ==> b.index != 1 && (b.index >= 2 <==> a.index >= 2))
  {
    hide EffectAfterWrite, WaitAfter, After;
  }

  lemma SelectedFacts(x: State, send: Send, at: nat, v: Sensor, w: Sensor)
    requires Reachable(x.active) && SendFor(x.active) == Some(send) && !send.wire.Read? && !send.effectful
    requires x.activeValid && OpFacts(x.active, x.work, x.know, v) && w == v.(pending := Some(send.wire.command))
    ensures OpFacts(Written(x.active, x.disposition, x.clock, at), x.work, x.know, w)
  {
    hide SendFor, Reachable, Written, Expected, HasSerial, PastCommand, ModeAdmits, CheckRequest, DesiredWord, Switches;
    SelectedExpected(x.active, send, x.disposition, x.clock, at);
    SameButFacts(x.know, v, w);
  }

  /** What the sensor has done once an operation's own command was accepted. */
  predicate CommandDone(k: Kind, v: Sensor, w: Sensor) {
    w.serial == v.serial && w.variant == v.variant &&
    if Switches(k) then SameBut(v.(mode := TargetMode(k)), w)
    else if k.PersistSettings? then SameBut(v.(eeprom := w.eeprom), w) && Agrees(w)
    else if IsReset(k) then w.mode.Idle? && Agrees(w)
    else if k.SingleShot? || k.SingleShotRht? || k.SelfTest? || k.ForcedRecalibration? then SameBut(v, w)
    else true
  }

  lemma OwnCommand(a: Active, send: Send, v: Sensor, w: Sensor)
    requires Reachable(a) && SendFor(a) == Some(send) && send.effectful && Regulated(a.request.kind) &&
      !a.request.kind.WriteSetting?
    requires Executes(v, send.wire, w) && (v.mode.Idle? || (a.request.kind.StopPeriodic? && Measuring(v.mode)))
    ensures CommandDone(a.request.kind, v, w)
  {
    hide Agrees;
  }

  /** Where an operation is after its own command. */
  lemma CommandPlace(a: Active, send: Send, d: Disposition, c: Clock, at: nat)
    requires Reachable(a) && SendFor(a) == Some(send) && !send.wire.Read? && send.effectful &&
      !EndsAfterWrite(a.request.kind)
    ensures var b := Written(a, d, c, at);
      Expected(b) == None && b.request == a.request && b.desired == a.desired && HasSerial(b) == HasSerial(a) &&
      (a.request.kind.WriteSetting? ==> b.index == 2) && PastCommand(b) &&
      (!a.request.kind.Attach? ==> !PastCommand(a)) && (a.request.kind.WriteSetting? ==> IsSettingWrite(a))
  {
    hide EffectAfterWrite, WaitAfter, After;
  }

  /** Knowledge of a sensor that did the operation's own command. */
  lemma DoneFacts(k: Knowledge, kind: Kind, v: Sensor, w: Sensor)
    requires Facts(k, v) && CommandDone(kind, v, w)
    requires Switches(kind) || kind.PersistSettings? || IsReset(kind) || kind.SingleShot? || kind.SingleShotRht? ||
      kind.SelfTest? ||
             kind.ForcedRecalibration?
    ensures !IsReset(kind) ==> Facts(k, w)
    ensures Facts(Forget(k), w)
    ensures !Switches(kind) && !IsReset(kind) ==> w.mode == v.mode
  {
    hide FieldWordValid, DecodeField, Agrees;
  }

  /** The identity survives every transfer: the sensor is never swapped. */
  lemma SameIdentity(v: Sensor, call: Call, w: Sensor)
    requires Moves(v, call, w)
    ensures w.serial == v.serial && w.variant == v.variant
  {
    hide ExecutesCommand, ExecutesWord, Delivers;
  }

  lemma ForgottenFacts(k: Knowledge, v: Sensor, w: Sensor)
    requires Facts(k, v) && w.serial == v.serial && w.variant == v.variant
    ensures Facts(Forget(k), w) && ModeFact(Forget(k), w) && !Forget(k).attached
    ensures Facts(Marked(Forget(k), true), w) && ModeFact(Marked(Forget(k), true), w) &&
      !Marked(Forget(k), true).attached
  {
  }

  /** The state an accepted write leaves, before it ends or goes on. */
  function AfterSend(s: State, send: Send, k: Knowledge, now: nat, reply: Reply): State {
    var x, n := Transferred(s, send, now, reply), NormOf(s, send, now, reply);
    x.(know := k, active := Written(x.active, x.disposition, x.clock, n.doneMs))
  }

  /** Sound while the operation goes on, or ready to end soundly. */
  predicate Goes(y: State, v: Sensor) {
    Facts(y.know, v) && (InFlight(y.active) || ModeFact(y.know, v)) && OpFacts(y.active, y.work, y.know, v)
  }

  lemma SelectedSound(s: State, send: Send, k: Knowledge, now: nat, reply: Reply, v: Sensor, w: Sensor)
    requires Live(s) && Sound(s, v) && SendFor(s.active) == Some(send) && !send.wire.Read? && !send.effectful
    requires Moves(v, CallOf(s, send, now, reply), w)
    requires TransferStatus(s.clock, s.active.deadlineMs, send.intent, NormOf(s, send, now, reply)) == Ok
    requires k == KnowAfterSend(s, NormOf(s, send, now, reply).disposition, Ok)
    ensures Goes(AfterSend(s, send, k, now, reply), w)
  {
    hide SendFor, Reachable, Written, Expected, HasSerial, PastCommand, ModeAdmits, CheckRequest, DesiredWord, Switches,
      Transferred, NormOf, TransferStatus, CallOf, Moves, Facts, ModeFact, KnowAfterWrite, OpFacts;
    LiveSlot(s);
    var x := Transferred(s, send, now, reply);
    TransferredFrame(s, send, now, reply);
    SelectingMoves(s, send, now, reply, v, w);
    SelectingWire(s.active, send);
    SelectingWrite(s.active, NormOf(s, send, now, reply).disposition, s.know);
    SameButFacts(s.know, v, w);
    SameStep(s.active, x.active);
    SameOpFacts(s.active, x.active, x.work, x.know, v);
    SelectedFacts(x, send, NormOf(s, send, now, reply).doneMs, v, w);
    if InFlight(s.active) { InFlightSilent(s.active); }
  }

  lemma SamePoint(a: Active, b: Active)
    requires a.request == b.request && a.phase == b.phase && a.index == b.index
    ensures Expected(a) == Expected(b) && HasSerial(a) == HasSerial(b)
  {
  }

  lemma SameOpFacts(a: Active, b: Active, wk: Value, k: Knowledge, v: Sensor)
    requires OpFacts(a, wk, k, v)
    requires b == a.(callbacks := b.callbacks, wrote := b.wrote, effect := b.effect, nextDueMs := b.nextDueMs)
    ensures OpFacts(b, wk, k, v) && InFlight(b) == InFlight(a)
  {
    hide Agrees, DesiredWord, CheckRequest;
    SamePast(a, b);
  }

  /** A setting write that was accepted. */
  lemma SettingSound(s: State, send: Send, k: Knowledge, now: nat, reply: Reply, v: Sensor, w: Sensor)
    requires Live(s) && Coherent(s) && Sound(s, v) && SendFor(s.active) == Some(send) && IsSettingWrite(s.active)
    requires Moves(v, CallOf(s, send, now, reply), w)
    requires TransferStatus(s.clock, s.active.deadlineMs, send.intent, NormOf(s, send, now, reply)) == Ok
    requires k == KnowAfterSend(s, NormOf(s, send, now, reply).disposition, Ok)
    ensures Goes(AfterSend(s, send, k, now, reply), w)
  {
    hide Reachable, Written, Expected, HasSerial, CheckRequest, DesiredWord, Transferred, Normalize, TransferStatus,
      Settle, Facts, ModeFact, KnowAfterWrite, OpFacts, KnowAfterSettingWrite, Coherent, Permits, Agrees,
      TransferTimeout, Sound, PastCommand;
    LiveSlot(s);
    var a, f := s.active, s.active.request.kind.field;
    var x, n := Transferred(s, send, now, reply), NormOf(s, send, now, reply);
    TransferredFrame(s, send, now, reply);
    MaySend(s, send, v);
    SuccessComplete(s.clock, a.deadlineMs, send, now, reply);
    SettingCommand(f);
    SameBeforeAfter(s, v);
    SettingKnow(s.know, a, n.disposition, v, w);
    SameStep(a, x.active);
    SamePast(a, x.active);
    SamePoint(a, x.active);
    CommandPlace(x.active, send, x.disposition, x.clock, n.doneMs);
    SettingOp(a, Written(x.active, x.disposition, x.clock, n.doneMs), x.work, s.know, k, v, w);
  }

  lemma SameBeforeAfter(s: State, v: Sensor)
    requires Sound(s, v) && s.activeValid && IsSettingWrite(s.active)
    ensures Facts(s.know, v) && ModeFact(s.know, v) && OpFacts(s.active, s.work, s.know, v)
  {
  }

  lemma SettingCommand(f: Field)
    ensures SettingOf(SetCommand(f)) == Some(f)
  {
  }

  lemma SettingKnow(k: Knowledge, a: Active, d: Disposition, v: Sensor, w: Sensor)
    requires IsSettingWrite(a) && Facts(k, v) && ModeFact(k, v) && d == Complete
    requires SameBut(Stored(v, a.request.kind.field, a.desired), w)
    ensures var l := KnowAfterWrite(KnowAfterSettingWrite(k, a, d), a);
      l == KnowAfterSettingWrite(k, a, d) && Facts(l, w) && ModeFact(l, w) && l.attached == k.attached &&
      l.mode == k.mode
  {
    hide FieldWordValid, DecodeField;
    var f := a.request.kind.field;
    forall g ensures Get(w.runtime, g) == if g == f then a.desired else Get(v.runtime, g) {
      GetPut(v.runtime, f, g, a.desired);
    }
  }

  lemma SettingOp(a: Active, b: Active, wk: Value, k: Knowledge, l: Knowledge, v: Sensor, w: Sensor)
    requires IsSettingWrite(a) && OpFacts(a, wk, k, v) && l.attached == k.attached && l.mode == k.mode
    requires SameBut(Stored(v, a.request.kind.field, a.desired), w)
    requires Expected(b) == None && b.request == a.request && b.desired == a.desired && HasSerial(b) == HasSerial(a) &&
      b.index == 2
    ensures OpFacts(b, wk, l, w) && !InFlight(b)
  {
    hide Expected, HasSerial, CheckRequest, DesiredWord, Agrees, ModeAdmits;
    var f := a.request.kind.field;
    GetPut(v.runtime, f, f, a.desired);
    assert PastCommand(b) && SettingFacts(b, w);
  }

  /** Kinds whose own command the sensor's mode permits and whose effect is known. */
  predicate Managed(k: Kind) {
    Switches(k) || k.PersistSettings? || IsReset(k) || k.SingleShot? || k.SingleShotRht? || k.SelfTest? ||
      k.ForcedRecalibration?
  }

  lemma CommandSound(s: State, send: Send, k: Knowledge, now: nat, reply: Reply, v: Sensor, w: Sensor)
    requires Live(s) && Coherent(s) && Sound(s, v) && SendFor(s.active) == Some(send) && !send.wire.Read? &&
      send.effectful
    requires Managed(s.active.request.kind)
    requires Moves(v, CallOf(s, send, now, reply), w)
    requires TransferStatus(s.clock, s.active.deadlineMs, send.intent, NormOf(s, send, now, reply)) == Ok
    requires k == KnowAfterSend(s, NormOf(s, send, now, reply).disposition, Ok)
    ensures Goes(AfterSend(s, send, k, now, reply), w)
  {
    hide Reachable, Written, Expected, HasSerial, CheckRequest, DesiredWord, Transferred, Normalize, TransferStatus,
      Settle, SendFor, Facts, KnowAfterWrite, OpFacts, Coherent, Permits, Agrees, TransferTimeout, Sound, PastCommand,
      Executes, CommandDone;
    LiveSlot(s);
    var a := s.active;
    var x, n := Transferred(s, send, now, reply), NormOf(s, send, now, reply);
    TransferredFrame(s, send, now, reply);
    SameStep(a, x.active);
    SamePast(a, x.active);
    SamePoint(a, x.active);
    CommandPlace(x.active, send, x.disposition, x.clock, n.doneMs);
    MaySend(s, send, v);
    IdleCommand(s.active, send, s.know.mode, v);
    SuccessComplete(s.clock, a.deadlineMs, send, now, reply);
    ManagedIntent(a, send);
    OwnCommand(a, send, v, w);
    SoundParts(s, v);
    ManagedKnow(s.know, a, send, v, w);
    ManagedOp(a, Written(x.active, x.disposition, x.clock, n.doneMs), x.work, s.know, k, v, w);
  }

  lemma SoundParts(s: State, v: Sensor)
    requires Sound(s, v) && s.activeValid
    ensures Facts(s.know, v) && (InFlight(s.active) || ModeFact(s.know, v)) && OpFacts(s.active, s.work, s.know, v)
  {
  }

  lemma IdleCommand(a: Active, send: Send, m: Mode, v: Sensor)
    requires Reachable(a) && SendFor(a) == Some(send) && send.effectful && Managed(a.request.kind) && !PastCommand(a)
    requires m == v.mode && m != UnknownMode && ModeAdmits(m, a.request.kind)
    ensures v.mode.Idle? || (a.request.kind.StopPeriodic? && Measuring(v.mode))
  {
  }

  lemma ManagedIntent(a: Active, send: Send)
    requires Reachable(a) && SendFor(a) == Some(send) && send.effectful && Managed(a.request.kind)
    ensures send.intent == Normal && !IsSettingWrite(a) && !EndsAfterWrite(a.request.kind) && a.phase == SendCommand
  {
  }

  lemma ManagedKnow(k: Knowledge, a: Active, send: Send, v: Sensor, w: Sensor)
    requires Facts(k, v) && CommandDone(a.request.kind, v, w) && Managed(a.request.kind) && a.phase == SendCommand
    ensures var l := KnowAfterWrite(k, a);
      Facts(l, w) && (IsReset(a.request.kind) ==> ModeFact(l, w) && !l.attached) &&
      (!IsReset(a.request.kind) ==> l == k && (!Switches(a.request.kind) ==> w.mode == v.mode))
  {
    hide Facts, CommandDone, Forget;
    DoneFacts(k, a.request.kind, v, w);
    ForgottenFacts(k, v, w) by { CommandIdentity(a.request.kind, v, w); }
  }

  lemma CommandIdentity(k: Kind, v: Sensor, w: Sensor)
    requires CommandDone(k, v, w)
    ensures w.serial == v.serial && w.variant == v.variant
  {
  }

  lemma ManagedOp(a: Active, b: Active, wk: Value, k: Knowledge, l: Knowledge, v: Sensor, w: Sensor)
    requires Managed(a.request.kind) && OpFacts(a, wk, k, v) && CommandDone(a.request.kind, v, w)
    requires Expected(b) == None && b.request == a.request && b.desired == a.desired && HasSerial(b) == HasSerial(a) &&
      PastCommand(b)
    requires if IsReset(a.request.kind) then !l.attached else l == k
    ensures OpFacts(b, wk, l, w) && (Switches(a.request.kind) <==> InFlight(b))
  {
    hide Expected, HasSerial, CheckRequest, DesiredWord, Agrees, ModeAdmits, PastCommand, SettingFacts;
  }

  /** After a wake, a stop in ATTACH, or a diagnostic command nothing is known but the identity. */
  lemma ForgettingSound(s: State, send: Send, k: Knowledge, now: nat, reply: Reply, v: Sensor, w: Sensor)
    requires Live(s) && Coherent(s) && Sound(s, v) && SendFor(s.active) == Some(send) && !send.wire.Read? &&
      send.effectful
    requires s.active.request.kind.Attach? || s.active.request.kind.WakeUp? || IsDiagnostic(s.active.request.kind)
    requires Moves(v, CallOf(s, send, now, reply), w)
    requires k == KnowAfterSend(s, NormOf(s, send, now, reply).disposition, Ok)
    ensures Facts(k, w) && ModeFact(k, w)
    ensures !EndsAfterWrite(s.active.request.kind) ==> Goes(AfterSend(s, send, k, now, reply), w)
  {
    hide Reachable, Written, Expected, HasSerial, CheckRequest, DesiredWord, Transferred, NormOf, SendFor, Facts,
      ModeFact, OpFacts, Permits, Agrees, Sound, PastCommand, Moves, Forget, CallOf, Known;
    LiveSlot(s);
    var a := s.active;
    var x, n := Transferred(s, send, now, reply), NormOf(s, send, now, reply);
    TransferredFrame(s, send, now, reply);
    SameStep(a, x.active);
    SamePast(a, x.active);
    SamePoint(a, x.active);
    SoundParts(s, v);
    SameIdentity(v, CallOf(s, send, now, reply), w);
    ForgottenFacts(s.know, v, w);
    StopForgot(s, v);
    ForgettingKnow(s, send, v, w, n.disposition);
    if !EndsAfterWrite(a.request.kind) {
      CommandPlace(x.active, send, x.disposition, x.clock, n.doneMs);
      ForgettingOp(a, Written(x.active, x.disposition, x.clock, n.doneMs), x.work, s.know, k, v, w);
    }
  }

  /** ATTACH has forgotten everything before it stops the sensor. */
  lemma StopForgot(s: State, v: Sensor)
    requires s.activeValid && Coherent(s) && OpFacts(s.active, s.work, s.know, v)
    ensures s.active.request.kind.Attach? && s.active.phase == SendStop ==> s.know.mode == UnknownMode
  {
    hide Expected, HasSerial, CheckRequest, DesiredWord, Agrees, SettingFacts;
  }

  lemma ForgettingKnow(s: State, send: Send, v: Sensor, w: Sensor, d: Disposition)
    requires Reachable(s.active) && SendFor(s.active) == Some(send) && !send.wire.Read? && send.effectful && Coherent(s)
    requires s.active.request.kind.Attach? || s.active.request.kind.WakeUp? || IsDiagnostic(s.active.request.kind)
    requires s.active.request.kind.Attach? && s.active.phase == SendStop ==> s.know.mode == UnknownMode
    requires Facts(s.know, v) && Facts(Forget(s.know), w) && ModeFact(Forget(s.know), w)
    requires w.serial == v.serial && w.variant == v.variant
    ensures var k := KnowAfterSend(s, d, Ok); Facts(k, w) && ModeFact(k, w) && !k.attached
  {
    hide Forget, KnowAfterSettingWrite, FieldWordValid, DecodeField, VariantOf;
    ForgetLess(s.know);
    if s.active.request.kind.Attach? && s.active.phase == SendStop {
      assert KnowAfterSend(s, d, Ok) == s.know;
      assert s.know.configuration.verified == {};
    } else {
      assert ForgetsAfterWrite(s.active) && !IsSettingWrite(s.active);
      assert KnowAfterSend(s, d, Ok) == Forget(s.know);
      assert !Forget(s.know).attached;
    }
  }

  lemma ForgettingOp(a: Active, b: Active, wk: Value, k: Knowledge, l: Knowledge, v: Sensor, w: Sensor)
    requires a.request.kind.Attach? || a.request.kind.WakeUp? || a.request.kind.DiagReadWords?
    requires OpFacts(a, wk, k, v) && w.serial == v.serial && !l.attached
    requires Expected(b) == None && b.request == a.request && b.desired == a.desired && HasSerial(b) == HasSerial(a) &&
      PastCommand(b)
    ensures OpFacts(b, wk, l, w)
  {
    hide Expected, HasSerial, CheckRequest, DesiredWord, Agrees, ModeAdmits, PastCommand, SettingFacts;
  }

  /** A write that failed either moved nothing but a selection, or costs the driver its knowledge. */
  lemma FailedMoves(s: State, send: Send, now: nat, reply: Reply, v: Sensor, w: Sensor)
    requires Live(s) && SendFor(s.active) == Some(send) && !send.wire.Read? && CheckRequest(s.active.request) == Ok
    requires Moves(v, CallOf(s, send, now, reply), w)
    requires TransferStatus(s.clock, s.active.deadlineMs, send.intent, NormOf(s, send, now, reply)) != Ok
    ensures var x := Transferred(s, send, now, reply);
      var st := TransferStatus(s.clock, s.active.deadlineMs, send.intent, NormOf(s, send, now, reply));
      SameBut(v, w) || forall k :: Classify(x.(know := k), st).forget
  {
    hide SendFor, Reachable, Settle, TransferTimeout, Executes, Selects, Normalize, Reached, CodeStatus;
    LiveSlot(s);
    var n := NormOf(s, send, now, reply);
    NormalForm(s, send, now, reply);
    if !send.effectful {
      SelectingMoves(s, send, now, reply, v, w);
    } else if send.wire == Write(CMD_WAKE_UP) {
      WakeIntent(s.active, send);
    }
  }

  /** Normalised answers: complete means no error, and an error is never complete. */
  lemma NormalForm(s: State, send: Send, now: nat, reply: Reply)
    ensures var n := NormOf(s, send, now, reply);
      (n.disposition == Complete ==> n.code == CodeOk && n.clockValid) && n.disposition != BadDisposition &&
      (!n.clockValid ==> n.code != CodeNack)
  {
  }

  lemma WakeIntent(a: Active, send: Send)
    requires Reachable(a) && SendFor(a) == Some(send) && CheckRequest(a.request) == Ok &&
      send.wire == Write(CMD_WAKE_UP)
    ensures send.intent == ExpectNack
  {
  }

  lemma FailedSound(s: State, send: Send, k: Knowledge, now: nat, reply: Reply, v: Sensor, w: Sensor)
    requires Live(s) && Sound(s, v) && SendFor(s.active) == Some(send) && !send.wire.Read?
    requires Moves(v, CallOf(s, send, now, reply), w)
    requires TransferStatus(s.clock, s.active.deadlineMs, send.intent, NormOf(s, send, now, reply)) != Ok
    requires k == KnowAfterSend(s, NormOf(s, send, now, reply).disposition,
                                TransferStatus(s.clock, s.active.deadlineMs, send.intent, NormOf(s, send, now, reply)))
    ensures Sound(Leads(s, now, reply, Wrote(send, k)), w)
  {
    hide SendFor, Reachable, Transferred, NormOf, TransferStatus, CallOf, Moves, Facts, ModeFact, OpFacts,
      FinishFailure, Classify, Sound, KnowAfterSend, SameBut;
    LiveSlot(s);
    var x, n := Transferred(s, send, now, reply), NormOf(s, send, now, reply);
    var st := TransferStatus(s.clock, s.active.deadlineMs, send.intent, n);
    TransferredFrame(s, send, now, reply);
    SoundParts(s, v);
    assert CheckRequest(s.active.request) == Ok by { RequestChecked(s.active, s.work, s.know, v); }
    FailedMoves(s, send, now, reply, v, w);
    SameIdentity(v, CallOf(s, send, now, reply), w);
    SentLess(s, n.disposition, st);
    LessFacts(s.know, k, v);
    if InFlight(s.active) { InFlightSilent(s.active); }
    if SameBut(v, w) { SameButFacts(k, v, w); }
    IdentityPart(k, v, w);
    FailureSound(x.(know := k), st, n.doneMs, w);
  }

  lemma RequestChecked(a: Active, wk: Value, k: Knowledge, v: Sensor)
    requires OpFacts(a, wk, k, v)
    ensures CheckRequest(a.request) == Ok
  {
  }

  lemma IdentityPart(k: Knowledge, v: Sensor, w: Sensor)
    requires Facts(k, v) && w.serial == v.serial && w.variant == v.variant
    ensures k.identity.valid ==> k.identity.serial == w.serial && k.identity.variant == VariantOf(w.variant)
  {
  }

  lemma SentLess(s: State, d: Disposition, st: Err)
    requires st != Ok
    ensures Less(s.know, KnowAfterSend(s, d, st))
  {
  }

  // ----- Reads -----

  lemma ReadingExpected(a: Active)
    requires Reachable(a) && SendFor(a).Some? && SendFor(a).value.wire.Read?
    ensures IsSerialResponse(a) ==> Expected(a) == Some(CMD_GET_SERIAL)
    ensures !IsSerialResponse(a) && (a.request.kind.Attach? || a.phase == ReadVerify || a.request.kind.ReadVariant?) ==>
      Expected(a) == Some(CMD_GET_VARIANT)
    ensures !IsSerialResponse(a) && (a.request.kind.Attach? || a.phase == ReadVerify) ==> HasSerial(a)
    ensures a.request.kind.ReadSetting? ==> Expected(a) == Some(GetCommand(a.request.kind.field))
    ensures a.request.kind.ReadConfiguration? ==> Expected(a) == Some(GetCommand(FieldAt(a.index)))
    ensures a.request.kind.WriteSetting? ==>
      Expected(a) == Some(GetCommand(a.request.kind.field)) && (a.index == 0 || a.index == 3)
    ensures !InFlight(a)
  {
  }

  lemma AnswersAre(v: Sensor, words: seq<u16>)
    requires Answers(v, words)
    ensures v.pending == Some(CMD_GET_SERIAL) ==> v.mode.Idle? && |words| == 3 && SerialOf(words) == v.serial
    ensures v.pending == Some(CMD_GET_VARIANT) ==> v.mode.Idle? && words == [v.variant]
    ensures forall f: Field :: v.pending == Some(GetCommand(f)) ==> words == [Get(v.runtime, f)]
  {
  }

  /** A register word read from the sensor enters the cache truthfully, or leaves the field unverified. */
  lemma ReadFacts(k: Knowledge, f: Field, v: Sensor)
    requires Facts(k, v)
    ensures FieldWordValid(f, Get(v.runtime, f)) ==> Facts(CacheField(k, f, Get(v.runtime, f)), v)
    ensures Facts(Unverify(k, f), v)
    ensures FieldWordValid(f, Get(v.runtime, f)) && (IsCompensation(f) ==> v.source == Some(f)) ==>
      Facts(Selected(CacheField(k, f, Get(v.runtime, f)), f), v)
    ensures ModeFact(k, v) ==>
      ModeFact(CacheField(k, f, Get(v.runtime, f)), v) && ModeFact(Unverify(k, f), v) &&
        ModeFact(Selected(CacheField(k, f, Get(v.runtime, f)), f), v)
    ensures CacheField(k, f, Get(v.runtime, f)).attached == k.attached && Unverify(k, f).attached == k.attached
    ensures CacheField(k, f, Get(v.runtime, f)).mode == k.mode && Unverify(k, f).mode == k.mode
  {
    hide FieldWordValid, DecodeField;
  }

  lemma IdentifiedFacts(k: Knowledge, v: Sensor)
    requires Facts(k, v)
    ensures Facts(Identified(k, v.serial, v.variant), v) && Facts(NextEpoch(k), v) &&
      Facts(Disowned(k, v.serial, v.variant), v)
    ensures Facts(DisownedVariant(k, v.variant), v)
    ensures ModeFact(Disowned(k, v.serial, v.variant), v) && ModeFact(DisownedVariant(k, v.variant), v)
    ensures ModeFact(k, v) ==> ModeFact(Identified(k, v.serial, v.variant), v)
    ensures v.mode.Idle? ==>
      Facts(Attached(Identified(k, v.serial, v.variant)), v) &&
        ModeFact(Attached(Identified(k, v.serial, v.variant)), v) &&
      Facts(ResetKnowledge(k, v.serial, v.variant), v) && ModeFact(ResetKnowledge(k, v.serial, v.variant), v)
  {
    hide VariantOf, FieldWordValid, DecodeField;
  }

  lemma AttachTrue(s: State, v: Sensor)
    requires Facts(s.know, v) && v.mode.Idle? && s.work.identity.serial == v.serial
    ensures var j := JudgeAttach(s, v.variant); Facts(j.know, v) && ModeFact(j.know, v) && j.verdict.Done?
  {
    hide VariantOf, FieldWordValid, DecodeField, Disowned, SameSensor;
    IdentifiedFacts(s.know, v);
  }

  lemma IdentityTrue(s: State, v: Sensor)
    requires Facts(s.know, v) && ModeFact(s.know, v) && v.mode.Idle? && s.work.identity.serial == v.serial
    ensures var j := JudgeIdentity(s, v.variant); Facts(j.know, v) && ModeFact(j.know, v) && j.verdict.Done?
  {
    hide VariantOf, Facts, ModeFact, Disowned, Identified, Attached, ResetKnowledge, StrictlyUnsupported, OtherSensor;
    IdentifiedFacts(s.know, v);
  }

  lemma VariantTrue(s: State, v: Sensor)
    requires Facts(s.know, v) && ModeFact(s.know, v)
    ensures var j := JudgeVariant(s, v.variant); Facts(j.know, v) && ModeFact(j.know, v) && j.verdict.Done?
  {
    hide VariantOf, FieldWordValid, DecodeField, DisownedVariant;
    IdentifiedFacts(s.know, v);
  }

  /** A judgement that is true of the sensor, and lets the operation go on only with true progress. */
  predicate TrueJudgement(s: State, j: Judged, v: Sensor) {
    Facts(j.know, v) && ModeFact(j.know, v) &&
      (j.verdict.Continue? ==> OpFacts(j.active, j.work, j.know, v) && !InFlight(j.active))
  }

  lemma SerialTrue(s: State, words: seq<u16>, now: nat, v: Sensor)
    requires |words| == 3 && Reachable(s.active) && IsSerialResponse(s.active) && SerialOf(words) == v.serial
    requires SendFor(s.active).Some? && SendFor(s.active).value.wire.Read?
    requires Facts(s.know, v) && ModeFact(s.know, v) && OpFacts(s.active, s.work, s.know, v)
    ensures TrueJudgement(s, JudgeSerial(s, words, now), v)
  {
    hide Facts, ModeFact, SerialOf, Agrees, DesiredWord, CheckRequest, ModeAdmits;
  }

  lemma SettingTrue(s: State, f: Field, now: nat, v: Sensor)
    requires Facts(s.know, v) && ModeFact(s.know, v)
    ensures var j := JudgeSettingRead(s, f, Get(v.runtime, f));
      Facts(j.know, v) && ModeFact(j.know, v) && !j.verdict.Continue? && j.active == s.active &&
        j.know.attached == s.know.attached &&
      j.know.mode == s.know.mode && j.work.identity == s.work.identity
  {
    hide Facts, ModeFact, FieldWordValid, CacheField, Unverify, Selected;
    ReadFacts(s.know, f, v);
  }

  lemma ConfigurationTrue(s: State, now: nat, v: Sensor)
    requires Facts(s.know, v) && ModeFact(s.know, v) && OpFacts(s.active, s.work, s.know, v)
    requires s.active.request.kind.ReadConfiguration? && s.active.phase == ReadResponse
    ensures TrueJudgement(s, JudgeConfiguration(s, Get(v.runtime, FieldAt(s.active.index)), now), v)
  {
    hide Facts, ModeFact, JudgeSettingRead, FieldAt, Agrees, DesiredWord, CheckRequest;
    SettingTrue(s, FieldAt(s.active.index), now, v);
  }

  lemma BeforeTrue(s: State, now: nat, v: Sensor)
    requires Facts(s.know, v) && ModeFact(s.know, v) && OpFacts(s.active, s.work, s.know, v)
    requires s.active.request.kind.WriteSetting? && s.active.phase == ReadResponse && s.active.index == 0
    ensures TrueJudgement(s,
                          JudgeBefore(s, s.active.request.kind.field, Get(v.runtime, s.active.request.kind.field), now),
                            v)
  {
    hide Facts, ModeFact, FieldWordValid, CacheField, Unverify, Selected, CacheResult, Agrees, DesiredWord,
      CheckRequest;
    ReadFacts(s.know, s.active.request.kind.field, v);
  }

  lemma BackTrue(s: State, v: Sensor)
    requires Facts(s.know, v) && ModeFact(s.know, v) && OpFacts(s.active, s.work, s.know, v)
    requires s.active.request.kind.WriteSetting? && s.active.index == 3
    ensures var j := JudgeBack(s, s.active.request.kind.field, Get(v.runtime, s.active.request.kind.field));
      Facts(j.know, v) && ModeFact(j.know, v) && j.verdict.Done?
  {
    hide Facts, ModeFact, FieldWordValid, CacheField, Unverify, Selected, CacheResult, Agrees, DesiredWord,
      CheckRequest;
    ReadFacts(s.know, s.active.request.kind.field, v);
  }

  lemma MeasuredTrue(s: State, words: seq<u16>, now: nat, v: Sensor)
    requires Facts(s.know, v) && ModeFact(s.know, v) && OpFacts(s.active, s.work, s.know, v) && |words| >= 1
    requires IsMeasurement(s.active.request.kind) || s.active.request.kind.SelfTest? ||
      s.active.request.kind.ForcedRecalibration?
    ensures IsMeasurement(s.active.request.kind) && s.active.phase == ReadReady ==>
      TrueJudgement(s, JudgeReady(s, words[0]), v)
    ensures |words| == 3 ==> TrueJudgement(s, JudgeSample(s, words, now), v)
    ensures TrueJudgement(s, JudgeDeferred(s, words[0]), v)
  {
    hide FieldWordValid, DecodeField, VariantOf, Agrees, DesiredWord, CheckRequest, TemperatureMilliC, HumidityMilliPct,
      DataReady;
  }

  lemma JudgeTrue(s: State, words: seq<u16>, now: nat, v: Sensor)
    requires Reachable(s.active) && SendFor(s.active) == Some(Send(Read(|words|), Normal, false))
    requires |words| == ResponseWords(s.active) && |words| >= 1 && Answers(v, words)
    requires Facts(s.know, v) && ModeFact(s.know, v) && OpFacts(s.active, s.work, s.know, v)
    ensures TrueJudgement(s, Judge(s, words, now), v)
  {
    hide SendFor, Reachable, Facts, ModeFact, OpFacts, JudgeSerial, JudgeAttach, JudgeIdentity, JudgeVariant,
      JudgeSettingRead, JudgeConfiguration, JudgeBefore, JudgeBack, JudgeReady, JudgeSample, JudgeDeferred, DataReady,
      Answers, SerialOf, InFlight, IsSerialResponse, ResponseWords, Expected, HasSerial;
    var a, k := s.active, s.active.request.kind;
    ReadingExpected(a);
    Fetches(a, |words|);
    AnswersAre(v, words);
    PendingPart(a, s.work, s.know, v);
    ReadingPlaces(a);
    SerialWordCount(a);
    if IsSerialResponse(a) {
      SerialTrue(s, words, now, v);
    } else if IsDiagnostic(k) {
    } else if k.Attach? {
      AttachTrue(s, v);
    } else if a.phase == ReadVerify {
      IdentityTrue(s, v);
    } else if k.ReadVariant? {
      VariantTrue(s, v);
    } else if k.ReadDataReady? {
    } else if k.ReadSetting? {
      SettingTrue(s, k.field, now, v);
    } else if k.ReadConfiguration? {
      ConfigurationTrue(s, now, v);
    } else if k.WriteSetting? {
      if a.index == 0 { BeforeTrue(s, now, v); } else { BackTrue(s, v); }
    } else {
      MeasuredTrue(s, words, now, v);
    }
  }

  lemma SerialWordCount(a: Active)
    ensures IsSerialResponse(a) ==> ResponseWords(a) == 3
    ensures IsMeasurement(a.request.kind) && a.phase == ReadResponse ==> ResponseWords(a) == 3
  {
  }

  lemma PendingPart(a: Active, wk: Value, k: Knowledge, v: Sensor)
    requires OpFacts(a, wk, k, v)
    ensures (Expected(a).Some? ==> v.pending == Expected(a)) && (HasSerial(a) ==> wk.identity.serial == v.serial)
  {
  }

  lemma ReadingPlaces(a: Active)
    requires Reachable(a) && SendFor(a).Some? && SendFor(a).value.wire.Read?
    ensures a.request.kind.ReadConfiguration? || a.request.kind.WriteSetting? ==> a.phase == ReadResponse
    ensures IsMeasurement(a.request.kind) ==> (a.phase == ReadReady || a.phase == ReadResponse) && !IsSerialResponse(a)
    ensures
      IsSerialResponse(a) || IsDiagnostic(a.request.kind) || a.request.kind.Attach? || a.phase == ReadVerify ||
      a.request.kind.ReadVariant? || a.request.kind.ReadDataReady? || a.request.kind.ReadSetting? ||
      a.request.kind.ReadConfiguration? || a.request.kind.WriteSetting? || IsMeasurement(a.request.kind) ||
      a.request.kind.SelfTest? || a.request.kind.ForcedRecalibration?
  {
  }

  lemma ReadSound(s: State, send: Send, words: seq<u16>, now: nat, budget: nat, reply: Reply, v: Sensor, w: Sensor)
    requires Live(s) && Sound(s, v) && Moves(v, CallOf(s, send, now, reply), w)
    requires Fits(s, now, budget, reply, Fetched(send, words)) && send == Send(Read(|words|), Normal, false)
    ensures Sound(Leads(s, now, reply, Fetched(send, words)), w)
  {
    hide SendFor, Reachable, Transferred, NormOf, TransferStatus, Facts, ModeFact, OpFacts, FinishFailure, Finish,
      Sound, Judge, Answers, SameBut, ResponseWords, TrueJudgement, InFlight, Settle, TransferTimeout, Classify, Less;
    LiveSlot(s);
    var x, n := Transferred(s, send, now, reply), NormOf(s, send, now, reply);
    TransferredFrame(s, send, now, reply);
    SameStep(s.active, x.active);
    SoundParts(s, v);
    ReadingExpected(s.active);
    StatusOk(s, send, now, reply);
    SameButFacts(s.know, v, w);
    SameOpFacts(s.active, x.active, x.work, x.know, v);
    JudgeTrue(x, words, n.doneMs, v);
    var j := Judge(x, words, n.doneMs);
    var y := x.(active := j.active, know := j.know, work := j.work,
                log := if j.protocol.Some? then x.log + [ProtocolError(j.protocol.value, n.doneMs)] else x.log);
    JudgedGone(x, j, v, w);
    JudgedWaits(x, words, n.doneMs);
    match j.verdict
    case Continue => assert Sound(y, w) by { GoesSound(y, w); }
    case Done(outcome, effect, status) => FinishSound(y, outcome, effect, status, n.doneMs, w);
    case Reject(status) => IdentityFact(y.know, w); FailureSound(y, status, n.doneMs, w);
  }

  lemma IdentityFact(k: Knowledge, v: Sensor)
    requires Facts(k, v)
    ensures k.identity.valid ==> k.identity.serial == v.serial && k.identity.variant == VariantOf(v.variant)
  {
  }

  lemma StatusOk(s: State, send: Send, now: nat, reply: Reply)
    requires send.intent == Normal &&
      TransferStatus(s.clock, s.active.deadlineMs, send.intent, NormOf(s, send, now, reply)) == Ok
    ensures CallOf(s, send, now, reply).norm.code == CodeOk && CallOf(s, send, now, reply).wire == send.wire &&
      CallOf(s, send, now, reply).raw == reply
  {
    hide Normalize, Reached;
  }

  lemma GoesSound(y: State, v: Sensor)
    requires y.activeValid
    requires Facts(y.know, v) && (InFlight(y.active) || ModeFact(y.know, v)) && OpFacts(y.active, y.work, y.know, v)
    ensures Sound(y, v)
  {
    hide Facts, ModeFact, OpFacts, InFlight;
  }

  /** Nothing that the next phase of a read waits for is selected yet. */
  lemma JudgedWaits(s: State, words: seq<u16>, now: nat)
    requires Reachable(s.active) && SendFor(s.active) == Some(Send(Read(|words|), Normal, false))
    requires |words| == ResponseWords(s.active) && |words| >= 1
    ensures var j := Judge(s, words, now); j.verdict.Continue? ==> Expected(j.active) == None
  {
    hide CacheField, CacheResult, Unverify, FieldWordValid, Disowned, Identified, Attached, VariantOf, SameSensor,
      OtherSensor, Rebased, ResetKnowledge, DisownedVariant, NextEpoch, StrictlyUnsupported, WithIdentity, WithSerial,
      StoreSample, DataReady;
  }

  lemma JudgedGone(s: State, j: Judged, v: Sensor, w: Sensor)
    requires TrueJudgement(s, j, v) && SameBut(v, w)
    ensures Facts(j.know, w) && ModeFact(j.know, w)
    ensures j.verdict.Continue? && Expected(j.active) == None ==> OpFacts(j.active, j.work, j.know, w)
  {
    hide Facts, ModeFact, Expected, HasSerial, ModeAdmits, CheckRequest, DesiredWord, Agrees, InFlight, PastCommand;
    SameButFacts(j.know, v, w);
    if j.verdict.Continue? && Expected(j.active) == None {
      assert OpFacts(j.active, j.work, j.know, v);
      assert w.mode == v.mode && w.runtime == v.runtime && w.source == v.source && w.serial == v.serial;
    }
  }

  lemma MissSound(s: State, send: Send, status: Err, p: seq<Event>, now: nat, reply: Reply, v: Sensor, w: Sensor)
    requires Live(s) && Sound(s, v) && Moves(v, CallOf(s, send, now, reply), w) && SendFor(s.active) == Some(send) &&
      send.wire.Read?
    ensures Sound(Leads(s, now, reply, Missed(send, status, p)), w)
  {
    hide SendFor, Reachable, Transferred, NormOf, Facts, ModeFact, OpFacts, FinishFailure, Finish, Sound, Delivers,
      SameBut, InFlight, Settle, TransferTimeout, IsPartial, Classify;
    LiveSlot(s);
    var x, n := Transferred(s, send, now, reply), NormOf(s, send, now, reply);
    TransferredFrame(s, send, now, reply);
    SoundParts(s, v);
    ReadingExpected(s.active);
    SameButFacts(s.know, v, w);
    IdentityFact(s.know, w);
    var y := x.(log := x.log + p);
    FailureSound(y, status, n.doneMs, w);
    FinishSound(y.(work := y.work.(configuration := y.know.configuration)), Partial, NoEffectWrite, status, n.doneMs,
                w);
  }

  lemma WriteSound(s: State, send: Send, k: Knowledge, now: nat, budget: nat, reply: Reply, v: Sensor, w: Sensor)
    requires Live(s) && Coherent(s) && Sound(s, v) && Moves(v, CallOf(s, send, now, reply), w)
    requires Fits(s, now, budget, reply, Wrote(send, k))
    ensures Sound(Leads(s, now, reply, Wrote(send, k)), w)
  {
    hide SendFor, Reachable, Transferred, NormOf, TransferStatus, Facts, ModeFact, OpFacts, FinishFailure, Finish,
      Sound, CallOf, Coherent, Moves, KnowAfterSend, Written, InFlight, Timed, PersistBlocked, PersistNotNeeded,
      GateClosed, Reached;
    LiveSlot(s);
    var st := TransferStatus(s.clock, s.active.deadlineMs, send.intent, NormOf(s, send, now, reply));
    var x, n := Transferred(s, send, now, reply), NormOf(s, send, now, reply);
    TransferredFrame(s, send, now, reply);
    if st != Ok {
      FailedSound(s, send, k, now, reply, v, w);
    } else {
      if send.effectful { EffectfulKinds(s.active, send); }
      if !send.effectful {
        SelectingWire(s.active, send);
        SelectedSound(s, send, k, now, reply, v, w);
      } else if s.active.request.kind.WriteSetting? {
        SettingSound(s, send, k, now, reply, v, w);
      } else if Managed(s.active.request.kind) {
        CommandSound(s, send, k, now, reply, v, w);
      } else {
        ForgettingSound(s, send, k, now, reply, v, w);
      }
      var y := AfterSend(s, send, k, now, reply);
      if EndsAfterWrite(s.active.request.kind) {
        FinishSound(y, Succeeded, Acknowledged, Ok, n.doneMs, w);
      } else {
        GoesSound(y, w);
      }
    }
  }

  lemma EffectfulKinds(a: Active, send: Send)
    requires Reachable(a) && SendFor(a) == Some(send) && !send.wire.Read? && send.effectful
    ensures a.request.kind.WriteSetting? || Managed(a.request.kind) || a.request.kind.Attach? ||
      a.request.kind.WakeUp? ||
      IsDiagnostic(a.request.kind)
    ensures a.request.kind.WriteSetting? ==> IsSettingWrite(a)
    ensures EndsAfterWrite(a.request.kind) ==>
      IsDiagnostic(a.request.kind) && !Managed(a.request.kind) && !a.request.kind.WriteSetting?
  {
  }

  // ----- Waits and endings without a callback -----

  lemma RousedExpected(a: Active)
    requires Reachable(a) && Resting(a) && !EndsAfterWait(a.request.kind)
    ensures var b := a.(phase := Wakes(a));
      (Expected(b).Some? ==> Expected(b) == Expected(a)) && HasSerial(b) == HasSerial(a) && !InFlight(a) && !InFlight(b)
  {
  }

  lemma RousedSound(s: State, k: Knowledge, v: Sensor)
    requires Live(s) && Sound(s, v) && Resting(s.active) && !EndsAfterWait(s.active.request.kind)
    requires k == (if IsReset(s.active.request.kind) then Cleaned(s.know) else s.know)
    ensures Sound(s.(active := s.active.(phase := Wakes(s.active)), know := k), v)
  {
    hide Reachable, Resting, Wakes, Expected, HasSerial, PastCommand, FieldWordValid, DecodeField, Agrees, DesiredWord,
      CheckRequest, EndsAfterWait, ModeAdmits, Spent;
    LiveSlot(s);
    RousedSpent(s.active);
    RousedExpected(s.active);
  }

  lemma QuietSound(s: State, now: nat, budget: nat, reply: Reply, c: Case, v: Sensor)
    requires Live(s) && Sound(s, v) && c.Quiet? && Fits(s, now, budget, reply, c)
    ensures Sound(Leads(s, now, reply, c), v)
  {
    hide Reachable, Finish, FieldWordValid, DecodeField, Agrees, DesiredWord, CheckRequest, Expected, HasSerial,
      ModeAdmits, SettingFacts, Reached, GateClosed;
    LiveSlot(s);
    QuietInFlight(s.active);
    FinishSound(s.(know := c.k, work := c.w), c.outcome, c.effect, c.status, now, v);
  }

  lemma QuietInFlight(a: Active)
    requires Reachable(a)
    ensures EndsAfterWait(a.request.kind) && Resting(a) && !a.request.kind.PersistSettings? ==> InFlight(a)
    ensures a.request.kind.PersistSettings? ==> !InFlight(a)
  {
  }

  lemma ExpiredSound(s: State, at: nat, v: Sensor)
    requires Live(s) && Tracked(s) && Sound(s, v)
    ensures Sound(FinishFailure(s, Timeout, at), v)
  {
    hide FinishFailure, Facts, ModeFact, Sound, Reachable, AllFaithful, Audit, Acts, Spent, LastTransfer, PastCommand;
    LiveSlot(s);
    SoundParts(s, v);
    IdentityFact(s.know, v);
    WroteForgets(s);
    FailureSound(s, Timeout, at, v);
  }

  lemma WroteForgets(s: State)
    requires s.activeValid && Tracked(s)
    ensures PastCommand(s.active) ==> s.active.wrote && Classify(s, Timeout).forget && s.active.callbacks > 0
  {
    hide Audit, AllFaithful, Spent;
    assert PastCommand(s.active) ==> CallsOf(Audit(s.log)) != [];
  }

  lemma HeldSound(s: State, due: nat, v: Sensor)
    requires s.activeValid && Sound(s, v)
    ensures Sound(s.(active := s.active.(nextDueMs := due)), v)
  {
    hide Facts, ModeFact, OpFacts, InFlight;
    SameOpFacts(s.active, s.active.(nextDueMs := due), s.work, s.know, v);
  }

  // ----- Every step -----

  /** The sensor after the first new event. */
  lemma NextSensor(s: State, t: State, history: nat -> Sensor, called: bool)
    requires s.log <= t.log && Follows(t.log, history)
    requires forall i | |s.log| < i < |t.log| :: !t.log[i].Called?
    requires called ==> |t.log| > |s.log| && t.log[|s.log|].Called?
    requires !called ==> |t.log| == |s.log| || !t.log[|s.log|].Called?
    ensures Follows(s.log, history)
    ensures !called ==> history(|t.log|) == history(|s.log|)
    ensures called ==>
      history(|t.log|) == history(|s.log| + 1) && Moves(history(|s.log|), t.log[|s.log|].call, history(|s.log| + 1))
  {
    hide Moves;
    FollowsPrefix(s.log, t.log, history);
    if called {
      QuietSensor(t.log, |s.log| + 1, history);
      assert t.log[|s.log|].Called?;
    } else {
      QuietSensor(t.log, |s.log|, history);
    }
  }

  /** Which first event an iteration of each case adds. */
  lemma CaseCalls(s: State, now: nat, budget: nat, reply: Reply, c: Case)
    requires Live(s) && Fits(s, now, budget, reply, c) && Iterate(s, now, budget, reply).s == Leads(s, now, reply, c)
    ensures var t := Leads(s, now, reply, c);
      Transfers(c) ==>
        |t.log| > |s.log| && t.log[|s.log|] == Called(CallOf(s, c.send, now, reply)) &&
        SendFor(s.active) == Some(c.send)
    ensures var t := Leads(s, now, reply, c);
      !Transfers(c) ==> |t.log| == |s.log| || !t.log[|s.log|].Called?
  {
    hide Iterate, Live, Finish, FinishFailure, Transferred, NormOf, Judge, TransferStatus, Wakes, Resting, Leads,
      CallOf, ResponseWords, KnowAfterSend, Reachable, Words, AllWordsOk, SetMode, EndsAfterWait, SendFor,
      PersistBlocked, PersistNotNeeded, Timed, GateClosed, Reached;
    if Transfers(c) {
      Refinement.TransferHappens(s, now, budget, reply);
    } else {
      QuietCase(s, now, budget, reply, c);
    }
  }

  lemma QuietCase(s: State, now: nat, budget: nat, reply: Reply, c: Case)
    requires Live(s) && !Transfers(c) && Fits(s, now, budget, reply, c)
    ensures var t := Leads(s, now, reply, c); |t.log| == |s.log| || !t.log[|s.log|].Called?
  {
    hide Live, Finish, FinishFailure, Wakes, Resting, Reachable, SetMode, EndsAfterWait, PersistBlocked,
      PersistNotNeeded, GateClosed, Reached, SendFor, Fits;
    match c
    case Quiet(k, w, outcome, effect, status) => FinishOwner(s.(know := k, work := w), outcome, effect, status, now);
    case Expired => FailureOwner(s, Timeout, now);
    case _ =>
  }

  lemma TurnSound(s: State, now: nat, budget: nat, reply: Reply, history: nat -> Sensor)
    requires Live(s) && Coherent(s) && Tracked(s)
    requires var t := Iterate(s, now, budget, reply).s; Follows(t.log, history)
    requires Sound(s, history(|s.log|))
    ensures var t := Iterate(s, now, budget, reply).s; Sound(t, history(|t.log|))
  {
    hide Iterate, Live, Finish, FinishFailure, Transferred, NormOf, Judge, TransferStatus, Wakes, Resting, Leads,
      Coherent, Tracked, ResponseWords, KnowAfterSend, Reachable, Words, AllWordsOk, SetMode, EndsAfterWait, Sound,
      Moves, CallOf, SendFor, PersistBlocked, PersistNotNeeded, Timed, GateClosed, Reached, Follows;
    LiveSlot(s);
    var c := Shape(s, now, budget, reply);
    var t := Iterate(s, now, budget, reply).s;
    IterateOwner(s, now, budget, reply);
    CaseCalls(s, now, budget, reply, c);
    NextSensor(s, t, history, Transfers(c));
    var v, w := history(|s.log|), history(|t.log|);
    match c
    case Held(due) => HeldSound(s, due, v); LeadsHeld(s, now, reply, c);
    case Roused(k) => RousedSound(s, k, v); LeadsHeld(s, now, reply, c);
    case Quiet(_, _, _, _, _) => QuietSound(s, now, budget, reply, c, v);
    case Expired => ExpiredSound(s, now, v); LeadsHeld(s, now, reply, c);
    case Wrote(send, k) => WriteSound(s, send, k, now, budget, reply, v, w);
    case Fetched(send, words) =>
      ReadsAreNormal(s.active);
      ReadSound(s, send, words, now, budget, reply, v, w);
    case Missed(send, status, p) => MissSound(s, send, status, p, now, reply, v, w);
  }

  lemma LeadsHeld(s: State, now: nat, reply: Reply, c: Case)
    ensures c.Held? ==> Leads(s, now, reply, c) == s.(active := s.active.(nextDueMs := c.due))
    ensures c.Roused? ==> Leads(s, now, reply, c) == s.(active := s.active.(phase := Wakes(s.active)), know := c.k)
    ensures c.Expired? ==> Leads(s, now, reply, c) == FinishFailure(s, Timeout, now)
  {
    hide Finish, FinishFailure, Transferred, NormOf, Judge, TransferStatus, WriteEnd, ReadEnd, MissEnd, Wakes;
  }

  // ----- Calls other than polls -----

  lemma StartSound(s: State, r: Request, o: Options, v: Sensor)
    requires Steady(s) && Coherent(s) && Sound(s, v) && CheckStart(s, r, o) == Ok
    ensures Sound(Start(s, r, o).0, v)
  {
    hide CheckStart, Facts, DesiredWord, CheckRequest, After, Reachable, Agrees, IsEffectful, Admission;
    AdmittedFree(s, r, o);
    var a := Opened(s, r, o, OpId(o.requestId, s.generation));
    FreshPlace(a);
    FreshPoint(a);
    if !r.kind.Attach? { AdmissionMode(s, r.kind); }
  }

  lemma FreshPoint(a: Active)
    requires a.phase == FirstPhase(a.request.kind) && a.index == 0 && !a.request.kind.NoKind?
    ensures Expected(a) == None && !HasSerial(a)
  {
  }

  lemma AdmissionMode(s: State, k: Kind)
    requires Coherent(s) && Admission(s.know, k) == Ok && !k.Attach?
    ensures s.know.attached && ModeAdmits(s.know.mode, k)
  {
    hide NeedsSingleShotVariant, PeriodicAllowed;
  }

  /** Cancelling or unbinding forgets whatever an accepted command may have changed. */
  lemma StopSound(s: State, y: State, effect: Effect, at: nat, v: Sensor)
    requires Steady(s) && s.activeValid && Tracked(s) && Sound(s, v)
    requires y == s.(time := y.time, know := y.know)
    requires exists forget, possible ::
      y.know == BlockedIf(ForgetIf(s.know, forget), s.active, possible) &&
      (s.active.wrote && s.active.callbacks != 0 ==> forget)
    ensures Sound(Finish(y, OutcomeCancelled, effect, Cancelled, at), v)
  {
    hide Finish, Reachable, Sound, Facts, Tracked, Less;
    SoundParts(s, v);
    WroteForgets(s);
    var forget, possible :|
      y.know == BlockedIf(ForgetIf(s.know, forget), s.active, possible) &&
      (s.active.wrote && s.active.callbacks != 0 ==> forget);
    StopLess(s.know, s.active, forget, possible);
    LessFacts(s.know, y.know, v);
    FinishSound(y, OutcomeCancelled, effect, Cancelled, at, v);
  }

  lemma StopLess(k: Knowledge, a: Active, forget: bool, possible: bool)
    ensures var l := BlockedIf(ForgetIf(k, forget), a, possible); Less(k, l) && (forget ==> l.mode == UnknownMode)
  {
  }

  lemma OtherSound(s: State, op: Op, v: Sensor)
    requires Steady(s) && Coherent(s) && Tracked(s) && Sound(s, v) && !op.OpPoll?
    ensures Sound(Apply(s, Other(op)), v)
  {
    hide Reachable, Finish, CheckStart, CancelEffect, CancelTime, Reached, Start, Tracked, Coherent, Sound, End;
    match op
    case OpBegin(c) => BeginSound(s, c, v);
    case OpStart(r, o) => if CheckStart(s, r, o) == Ok { StartSound(s, r, o, v); } else { StartRefused(s, r, o); }
    case OpCancel(id, now) =>
      if s.activeValid && s.active.id == id {
        var t := CancelTime(s, now);
        var a := s.active;
        var know := BlockedIf(ForgetIf(s.know, a.callbacks != 0 && a.wrote), a, a.wrote);
        StopSound(s, s.(time := s.time.(ownerMs := t, ownerValid := true), know := know), CancelEffect(a), t, v);
      }
    case OpTake(id) => TakeSound(s, id, v);
    case OpEnd => EndSound(s, v);
  }

  lemma BeginSound(s: State, c: Config, v: Sensor)
    requires Sound(s, v)
    ensures Sound(Begin(s, c).0, v)
  {
    hide OpFacts;
  }

  lemma TakeSound(s: State, id: OpId, v: Sensor)
    requires Sound(s, v)
    ensures Sound(TakeResult(s, id).0, v)
  {
    hide OpFacts, Facts;
  }

  lemma EndSound(s: State, v: Sensor)
    requires Steady(s) && Tracked(s) && Sound(s, v)
    ensures Sound(End(s), v)
  {
    hide Reachable, Finish, Tracked, OpFacts, BlockedIf, ForgetIf, FieldWordValid, DecodeField;
    if s.activeValid {
      var t := if s.time.ownerValid then s.time.ownerMs else s.active.startedMs;
      var know := BlockedIf(ForgetIf(s.know, s.active.callbacks > 0), s.active, s.active.wrote);
      StopSound(s, s.(know := know), s.active.effect, t, v);
    }
    EndSteady(s);
  }

  // ----- Every reachable state -----

  /** Sound with respect to a history that its log follows. */
  predicate Believes(s: State, history: nat -> Sensor) {
    Follows(s.log, history) ==> Sound(s, history(|s.log|))
  }

  lemma SmallSound(s: State, m: Small, history: nat -> Sensor)
    requires Steady(s) && Coherent(s) && Tracked(s) && Believes(s, history) && Allowed(s, m)
    ensures Believes(Apply(s, m), history)
  {
    hide Reachable, Iterate, FinishFailure, Reached, MayRun, Do, Observe, Sound, Coherent, Tracked, Moves, Follows;
    var t := Apply(s, m);
    if Follows(t.log, history) {
      match m
      case Watch(now) => WatchSound(s, now, history);
      case Expiry(now) =>
        FailureOwner(s, Timeout, now);
        NextSensor(s, t, history, false);
        ExpiredSound(s, now, history(|s.log|));
      case Turns(now, budget, reply) =>
        IterateOwner(s, now, budget, reply);
        FollowsPrefix(s.log, t.log, history);
        TurnSound(s, now, budget, reply, history);
      case Other(op) =>
        OtherAdds(s, op);
        NextSensor(s, t, history, false);
        OtherSound(s, op, history(|s.log|));
    }
  }

  lemma WatchSound(s: State, now: nat, history: nat -> Sensor)
    requires Believes(s, history)
    ensures Believes(Observe(s, now), history)
  {
    hide Facts, OpFacts, ModeFact, Reached, Follows;
  }

  /**
    The driver's beliefs are never wrong: over every run against a truthful adapter, with any failures,
    cancellations, timeouts, diagnostics and rebindings, its mode is unknown or the sensor's own, its verified
    fields decode the sensor's registers, and its pressure source and identity are the sensor's.
   */
  lemma AlwaysSound(ops: seq<Op>, c: Clock, bus: nat -> Reply, history: nat -> Sensor)
    requires Follows(Run(ops, c, bus).log, history)
    ensures var s := Run(ops, c, bus); Steady(s) && Coherent(s) && Tracked(s) && Sound(s, history(|s.log|))
  {
    hide Coherent, Tracked, Sound, Steady, Apply, Allowed, Run, Follows;
    var inv := (s: State) => Coherent(s) && Tracked(s) && Believes(s, history);
    assert Preserved(inv) by {
      forall s: State, m: Small | Steady(s) && inv(s) && Allowed(s, m) ensures inv(Apply(s, m)) {
        SmallCoherent(s, m);
        SmallTracked(s, m);
        SmallSound(s, m, history);
      }
    }
    assert inv(Initial(c)) by { InitialCoherent(c); InitialTracked(c); InitialSound(c, history); }
    Lift(inv, ops, c, bus);
  }

  lemma InitialSound(c: Clock, history: nat -> Sensor)
    ensures Believes(Initial(c), history)
  {
  }

  /** Between operations the believed mode is unknown or the sensor's. */
  lemma ModeNeverWrong(ops: seq<Op>, c: Clock, bus: nat -> Reply, history: nat -> Sensor)
    requires Follows(Run(ops, c, bus).log, history)
    ensures var s := Run(ops, c, bus);
      !s.activeValid ==> s.know.mode == UnknownMode || s.know.mode == history(|s.log|).mode
  {
    hide Coherent, Tracked, Facts, OpFacts, Steady, Run, Follows;
    AlwaysSound(ops, c, bus, history);
  }

  /** Every verified field decodes the register, and a believed pressure source is the active one, at any time. */
  lemma CacheIsTrue(ops: seq<Op>, c: Clock, bus: nat -> Reply, history: nat -> Sensor, f: Field)
    requires Follows(Run(ops, c, bus).log, history)
    ensures var s := Run(ops, c, bus); var v := history(|s.log|);
      (f in s.know.configuration.verified ==> Cached(s.know.configuration, f) == DecodeField(f, Get(v.runtime, f))) &&
      (s.know.source.Some? ==> v.source == s.know.source)
  {
    hide Coherent, Tracked, OpFacts, Steady, Run, Follows, DecodeField, FieldWordValid;
    AlwaysSound(ops, c, bus, history);
  }
}
