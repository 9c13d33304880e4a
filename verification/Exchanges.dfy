/**
  What the steps of module Engine come to, case by case, in the form the proofs
  about them use.
 */
module Exchanges {
  import opened Clocks
  import opened Types
  import opened Commands
  import opened Codec
  import opened Engine

  /** Kinds whose own command is followed by an execution wait. */
  predicate HasExecution(k: Kind) {
    k.SingleShot? || k.SingleShotRht? || IsMaintenance(k) || IsModeCommand(k) || k.DiagReadWords?
  }

  /** The progress of an operation that enters a phase due `waitMs` from now. */
  function Waiting(a: Active, phase: Phase, index: nat, c: Clock, now: nat, waitMs: nat): Active {
    a.(phase := phase, index := index, nextDueMs := After(c, now, waitMs))
  }

  /** A callback never moves the operation: only its charge and evidence change. */
  lemma AttemptFrame(s: State, send: Send, now: nat, budget: nat, reply: Reply)
    ensures var io := Attempt(s, send, now, budget, reply);
      io.s.active == s.active.(callbacks := io.s.active.callbacks, wrote := io.s.active.wrote,
                               effect := io.s.active.effect) &&
      io.s == s.(active := io.s.active, time := io.s.time, disposition := io.s.disposition,
                 effectful := io.s.effectful, calls := io.s.calls, log := io.s.log)
  {
    hide NormOf, CallOf, TransferStatus, Reached, TransferTimeout, Gated;
  }

  /** Which judgement a single-word response of a simple kind gets. */
  lemma ReadOfKind(s: State, words: seq<u16>, now: nat)
    requires |words| == 1 && s.active.phase in {ReadResponse, ReadDeferred}
    requires var k := s.active.request.kind;
      k.ReadVariant? || k.ReadConfiguration? || k.SelfTest? || k.ForcedRecalibration? || k.WriteSetting?
    ensures |words| == ResponseWords(s.active)
    ensures s.active.request.kind.ReadVariant? ==>
      AfterRead(s, words, now) == Enacted(s, JudgeVariant(s, words[0]), now)
    ensures s.active.request.kind.ReadConfiguration? ==>
      AfterRead(s, words, now) == Enacted(s, JudgeConfiguration(s, words[0], now), now)
    ensures s.active.request.kind.SelfTest? || s.active.request.kind.ForcedRecalibration? ==>
      AfterRead(s, words, now) == Enacted(s, JudgeDeferred(s, words[0]), now)
    ensures s.active.request.kind.WriteSetting? && s.active.index == 0 ==>
      AfterRead(s, words, now) == Enacted(s, JudgeBefore(s, s.active.request.kind.field, words[0], now), now)
    ensures s.active.request.kind.WriteSetting? && s.active.index != 0 ==>
      AfterRead(s, words, now) == Enacted(s, JudgeBack(s, s.active.request.kind.field, words[0]), now)
  {
    hide JudgeSerial, JudgeAttach, JudgeIdentity, JudgeVariant, JudgeSettingRead, JudgeConfiguration, JudgeBefore,
      JudgeBack, JudgeReady, JudgeSample, JudgeDeferred, Enacted;
  }

  /** A variant the driver cannot go on with, or one it keeps. */
  lemma VariantRead(s: State, words: seq<u16>, now: nat)
    requires |words| == 1 && s.active.phase == ReadResponse && s.active.request.kind.ReadVariant?
    ensures |words| == ResponseWords(s.active)
    ensures var v, word := VariantOf(words[0]), words[0];
      var unsupported := StrictlyUnsupported(s.settings, word);
      AfterRead(s, words, now) ==
      if unsupported || (s.know.identity.valid && s.know.identity.variant != v) then
        var k := DisownedVariant(s.know, word);
        Io(Ok, Finish(s.(know := k, work := WithIdentity(s.work, k).(value := word)), Failed, NoEffectWrite,
                      if unsupported then Unsupported else ReconciliationRequired, now), now, 0)
      else
        var k := s.know.(identity := s.know.identity.(variant := v, word := word, epoch := s.know.epoch));
        Io(Ok, Finish(s.(know := k, work := WithIdentity(s.work, k).(value := word)), Succeeded, NoEffectWrite, Ok,
                      now), now, 0)
  {
    hide Finish, VariantOf, DisownedVariant, StrictlyUnsupported, AfterRead, ResponseWords;
    ReadOfKind(s, words, now);
  }

  /** The verdicts of a completed identity: not to go on with, read again, awake again, or reset. */
  lemma IdentityRead(s: State, words: seq<u16>, now: nat)
    requires |words| == 1 && s.active.phase == ReadVerify && !IsSerialResponse(s.active)
    requires IsReadLike(s.active.request.kind) || s.active.request.kind.WakeUp? || IsReset(s.active.request.kind)
    ensures |words| == ResponseWords(s.active)
    ensures var kind, serial, word := s.active.request.kind, s.work.identity.serial, words[0];
      var unsupported := StrictlyUnsupported(s.settings, word);
      AfterRead(s, words, now) ==
      if unsupported || OtherSensor(s.know.identity, serial, VariantOf(word)) then
        var k := Disowned(s.know, serial, word);
        Io(Ok, Finish(s.(know := k, work := WithIdentity(s.work, k)), if IsReset(kind) then OutcomeIndeterminate
                      else Failed,
                      if IsReadLike(kind) then NoEffectWrite else UnknownEffect,
                      if unsupported then Unsupported else ReconciliationRequired, now), now, 0)
      else if IsReadLike(kind) then
        var k := Identified(s.know, serial, word);
        Io(Ok, Finish(s.(know := k, work := WithIdentity(s.work, k)), Succeeded, NoEffectWrite, Ok, now), now, 0)
      else if kind.WakeUp? then
        var k := Attached(Identified(s.know, serial, word));
        Io(Ok, Finish(s.(know := k, work := WithIdentity(s.work, k)), Succeeded, Verified, Ok, now), now, 0)
      else
        var k := ResetKnowledge(s.know, serial, word);
        Io(Ok, Finish(s.(know := k, work := WithIdentity(s.work, k).(configuration := k.configuration)), Succeeded,
                      Acknowledged,
                      Ok, now), now, 0)
  {
    hide Finish, VariantOf, Disowned, Identified, Attached, ResetKnowledge, StrictlyUnsupported, OtherSensor,
      IsSerialResponse, JudgeSerial, JudgeAttach, JudgeVariant, JudgeSettingRead, JudgeConfiguration, JudgeBefore,
      JudgeBack, JudgeReady, JudgeSample, JudgeDeferred;
  }

  lemma CacheKeepsSource(k: Knowledge, f: Field, word: u16)
    ensures CacheField(k, f, word).source == k.source && Unverify(k, f).source == k.source
  {
  }

  /** The first response of a setting write, as a cache update followed by a decision. */
  lemma BeforeRead(s: State, words: seq<u16>, now: nat)
    requires s.active.request.kind.WriteSetting? && s.active.phase == ReadResponse && s.active.index == 0
    requires |words| == 1
    ensures var f := s.active.request.kind.field;
      var c := CachedOrRejected(s, f, words[0], now);
      var a := s.active.(changed := words[0] != s.active.desired);
      c.active == s.active && c.know.source == s.know.source &&
      AfterRead(s, words, now) ==
      if a.changed || (IsCompensation(f) && s.know.source != Some(f)) then
        Io(InProgress, c.(active := NextRead(a, SendCommand, 1, now)), now, 0)
      else if FieldWordValid(f, words[0]) then
        Io(Ok, Finish(c.(active := a), Succeeded, Verified, Ok, now), now, 0)
      else Io(CommandFailed, c.(active := a), now, 0)
  {
    hide Finish, FieldWordValid, CacheField, CacheResult, Unverify, AfterRead, ResponseWords;
    ReadOfKind(s, words, now);
    CacheKeepsSource(s.know, s.active.request.kind.field, words[0]);
  }

  /** One response of a configuration read, as a cache update followed by a decision. */
  lemma ConfigurationRead(s: State, words: seq<u16>, now: nat)
    requires s.active.request.kind.ReadConfiguration? && s.active.phase == ReadResponse && |words| == 1
    ensures |words| == ResponseWords(s.active)
    ensures var f := FieldAt(s.active.index);
      var c := CachedOrRejected(s, f, words[0], now);
      var a := s.active.(completed := s.active.completed + {f});
      c.active == s.active &&
      AfterRead(s, words, now) ==
      if !FieldWordValid(f, words[0]) then
        (if s.active.completed == {} then Io(CommandFailed, c, now, 0)
         else Io(Ok,
                 Finish(c.(work := c.work.(configuration := c.know.configuration)), Partial, NoEffectWrite,
                        CommandFailed, now),
                 now, 0))
      else if s.active.index >= 6 then Io(Ok, Finish(c.(active := a), Succeeded, NoEffectWrite, Ok, now), now, 0)
      else Io(InProgress, c.(active := NextRead(a, SendCommand, s.active.index + 1, now)), now, 0)
  {
    hide Finish, FieldWordValid, CacheField, CacheResult, Unverify, AfterRead, ResponseWords, FieldAt;
    ReadOfKind(s, words, now);
  }

  /** A command that only selects a response changes neither effect evidence nor knowledge. */
  lemma SelectingWrite(a: Active, d: Disposition, k: Knowledge)
    requires SendFor(a).Some? && SendFor(a).value.wire.Write? && !SendFor(a).value.effectful
    ensures !IsSettingWrite(a) && !EndsAfterWrite(a.request.kind)
    ensures EffectAfterWrite(a, d) == a.effect && KnowAfterWrite(k, a) == k && WaitAfter(a) == SHORT_MS
  {
  }

  lemma SelectingExchange(s: State, command: u16, now: nat, budget: nat, reply: Reply)
    requires SendFor(s.active) == Some(Send(Write(command), Normal, false))
    ensures var io := Attempt(s, Send(Write(command), Normal, false), now, budget, reply);
      Exchange(s, now, budget, reply) ==
      if io.status != Ok then io
      else Io(InProgress, io.s.(active := Waiting(io.s.active, PhaseAfterWrite(s.active), IndexAfterWrite(s.active),
                                                  s.clock, io.now, SHORT_MS)),
              io.now, io.budget)
  {
    hide Attempt;
    var io := Attempt(s, Send(Write(command), Normal, false), now, budget, reply);
    AttemptFrame(s, Send(Write(command), Normal, false), now, budget, reply);
    SelectingWrite(s.active, io.s.disposition, io.s.know);
    assert Written(io.s.active, io.s.disposition, s.clock, io.now) ==
      Waiting(io.s.active, PhaseAfterWrite(s.active), IndexAfterWrite(s.active), s.clock, io.now, SHORT_MS);
  }

  /** A response phase never moves before its words arrive, and fetches as many as it will judge. */
  lemma ReceivingExchange(s: State, count: nat, now: nat, budget: nat, reply: Reply)
    requires Reachable(s.active) && SendFor(s.active) == Some(Send(Read(count), Normal, false))
    ensures 1 <= count <= 3 && count == ResponseWords(s.active)
    ensures var io := Decoded(Attempt(s, Send(Read(count), Normal, false), now, budget, reply), count, reply);
      Reachable(io.s.active) && SendFor(io.s.active) == SendFor(s.active) &&
      ResponseWords(io.s.active) == count &&
      Exchange(s, now, budget, reply) ==
      if io.status == InProgress then io
      else if io.status != Ok then ReadFailed(io.s, io.status, io.now, io.budget)
      else AfterRead(io.s, Words(Buffer(reply.data, 3 * count), count), io.now).(budget := io.budget)
  {
    hide Attempt, AllWordsOk, Words, Buffer, SendFor, Reachable, ResponseWords, AfterRead, ReadFailed;
    AttemptFrame(s, Send(Read(count), Normal, false), now, budget, reply);
    var io := Attempt(s, Send(Read(count), Normal, false), now, budget, reply);
    SameStep(s.active, io.s.active);
    Fetches(s.active, count);
  }

  /** What an operation puts on the wire depends on its request, its place and its target word alone. */
  lemma SameStep(a: Active, b: Active)
    requires a.request == b.request && a.phase == b.phase && a.index == b.index && a.desired == b.desired
    ensures SendFor(a) == SendFor(b) && Reachable(a) == Reachable(b) && ResponseWords(a) == ResponseWords(b)
  {
  }

  lemma Fetches(a: Active, count: nat)
    requires Reachable(a) && SendFor(a) == Some(Send(Read(count), Normal, false))
    ensures 1 <= count <= 3 && count == ResponseWords(a)
  {
  }

  /** An effectful write other than a setting's: the transfer, then its consequences. */
  lemma EffectExchange(s: State, send: Send, now: nat, budget: nat, reply: Reply)
    requires SendFor(s.active) == Some(send) && !send.wire.Read? && !IsSettingWrite(s.active)
    ensures var io := Attempt(s, send, now, budget, reply);
      Exchange(s, now, budget, reply) ==
      if io.status != Ok then io else AfterWrite(io.s, io.now).(budget := io.budget)
  {
    hide Attempt, AfterWrite, SendFor;
  }

  /** The operation's own command: its effect, what must be forgotten, and the execution wait. */
  lemma CommandExchange(s: State, send: Send, now: nat, budget: nat, reply: Reply)
    requires SendFor(s.active) == Some(send) && !send.wire.Read?
    requires s.active.phase == SendCommand && HasExecution(s.active.request.kind)
    ensures var io := Attempt(s, send, now, budget, reply);
      Exchange(s, now, budget, reply) ==
      if io.status != Ok then io
      else
        Io(InProgress,
           io.s.(know := KnowAfterWrite(s.know, s.active),
                 active := Waiting(io.s.active.(effect := EffectAfterWrite(s.active, io.s.disposition)), WaitExecution,
                                   s.active.index, s.clock, io.now, ExecutionWait(s.active.request.kind))),
           io.now, io.budget)
  {
    hide Attempt, AfterWrite, SendFor, KnowAfterWrite, EffectAfterWrite, ExecutionWait, Exchange;
    EffectExchange(s, send, now, budget, reply);
    AttemptFrame(s, send, now, budget, reply);
    CommandWrite(Attempt(s, send, now, budget, reply).s, s.active, Attempt(s, send, now, budget, reply).now);
  }

  /** Kinds whose own command is acknowledged by its completion. */
  lemma CommandFacts(a: Active, d: Disposition, k: Knowledge)
    requires a.phase == SendCommand && HasExecution(a.request.kind) && !a.request.kind.WakeUp?
    ensures EffectAfterWrite(a, d) == Acknowledged
    ensures var kind := a.request.kind;
      (!IsReset(kind) && !kind.DiagReadWords? ==> KnowAfterWrite(k, a) == k) &&
      (kind.DiagReadWords? ==> KnowAfterWrite(k, a) == Forget(k) && ExecutionWait(kind) == SHORT_MS) &&
      (kind.ForcedRecalibration? ==> ExecutionWait(kind) == FRC_MS)
    ensures a.request.kind.ForcedRecalibration? ==>
      SendFor(a) == Some(Send(WriteWord(CMD_FORCED_RECALIBRATION, a.request.value % 0x10000), Normal, true))
    ensures a.request.kind.DiagReadWords? ==> SendFor(a) == Some(Send(Write(a.request.command), Normal, true))
  {
    hide Forget;
  }

  lemma CommandWrite(s: State, a: Active, now: nat)
    requires a.phase == SendCommand && HasExecution(a.request.kind)
    requires s.active == a.(callbacks := s.active.callbacks, wrote := s.active.wrote, effect := s.active.effect)
    ensures AfterWrite(s, now) ==
      Io(InProgress,
         s.(know := KnowAfterWrite(s.know, a),
            active := Waiting(s.active.(effect := EffectAfterWrite(a, s.disposition)), WaitExecution, a.index, s.clock,
                              now,
                              ExecutionWait(a.request.kind))), now, 0)
  {
    hide Finish, Forget, After, WakeEffect;
    assert EffectAfterWrite(a, s.disposition) == EffectAfterWrite(s.active, s.disposition);
    assert Written(s.active, s.disposition, s.clock, now) ==
      Waiting(s.active.(effect := EffectAfterWrite(a, s.disposition)), WaitExecution, a.index, s.clock, now,
              ExecutionWait(a.request.kind));
  }

  /** The write of a setting: what it may have changed is forgotten whatever its status. */
  lemma SettingExchange(s: State, send: Send, now: nat, budget: nat, reply: Reply)
    requires SendFor(s.active) == Some(send) && !send.wire.Read? && IsSettingWrite(s.active)
    ensures var io := Attempt(s, send, now, budget, reply);
      Exchange(s, now, budget, reply) ==
      if io.status == InProgress then io
      else
        var s1 := io.s.(know := KnowAfterSettingWrite(io.s.know, s.active, io.s.disposition));
        if io.status != Ok then io.(s := s1) else AfterWrite(s1, io.now).(budget := io.budget)
  {
    hide Attempt, AfterWrite, SendFor, KnowAfterSettingWrite;
  }

  /** The callback itself leaves the setting, its change flag and its place alone. */
  lemma SameSettingWrite(s: State, send: Send, now: nat, budget: nat, reply: Reply)
    requires s.active.request.kind.WriteSetting?
    ensures var io := Attempt(s, send, now, budget, reply);
      KnowAfterSettingWrite(io.s.know, io.s.active, io.s.disposition) ==
      KnowAfterSettingWrite(io.s.know, s.active, io.s.disposition)
  {
    hide Attempt;
    AttemptFrame(s, send, now, budget, reply);
  }

  /** A phase that may act now does its exchange. */
  lemma ExchangeStep(s: State, now: nat, budget: nat, reply: Reply)
    requires !Resting(s.active) && (!Timed(s.active) || Reached(s.clock, now, s.active.nextDueMs))
    requires !(s.active.request.kind.PersistSettings? && s.active.phase == SendCommand)
    ensures PhaseStep(s, now, budget, reply) == Exchange(s, now, budget, reply)
  {
    hide Exchange, Resting, Timed;
  }

  /** A response or a wait that is not due yet leaves everything as it is. */
  lemma EarlyStep(s: State, now: nat, budget: nat, reply: Reply)
    requires Timed(s.active) && !Reached(s.clock, now, s.active.nextDueMs)
    ensures PhaseStep(s, now, budget, reply) == Io(InProgress, s, now, budget)
  {
    hide Exchange, Timed, Rested, PersistAnswer;
  }
}
