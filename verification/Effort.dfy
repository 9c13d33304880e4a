/**
  How much an operation does: its callbacks, and the least time it takes. Both are
  tables over the operation's place in its own sequence.
 */
module Effort {
  import opened Clocks
  import opened Types
  import opened Commands
  import opened Codec
  import opened Engine

  /** Callbacks made before an operation reaches its place. */
  function Spent(a: Active): nat {
    match a.request.kind
    case Attach =>
      (match a.phase
       case WaitPowerUp => 0
       case SendWake => 0
       case WaitWake => 1
       case SendStop => 1
       case WaitStop => 2
       case SendRead => 2
       case SendVerify => 4
       case _ => if a.index == 0 then 3 else 5)
    case ReadIdentity =>
      if a.phase == SendCommand then 0 else if a.index == 0 then 1 else if a.phase == SendVerify then 2 else 3
    case ReadConfiguration => 2 * a.index + (if a.phase == SendCommand then 0 else 1)
    case WriteSetting(_) =>
      if a.index == 0 then (if a.phase == SendCommand then 0 else 1)
      else if a.index == 1 then 2
      else if a.index == 2 then 3
      else 4
    case WakeUp =>
      if a.index == 0 then (if a.phase == SendCommand then 0 else 1)
      else if a.index == 1 then (if a.phase == SendVerify then 3 else 2)
      else 4
    case FetchSample => if a.phase == SendReady then 0 else if a.phase == ReadReady then 1
      else if a.phase == SendRead then 2 else 3
    case SingleShot => SpentOnShot(a.phase)
    case SingleShotRht => SpentOnShot(a.phase)
    case Reinit => SpentOnReset(a)
    case FactoryReset => SpentOnReset(a)
    case _ => if a.phase == SendCommand then 0 else 1
  }

  function SpentOnShot(p: Phase): nat {
    match p
    case SendCommand => 0
    case WaitExecution => 1
    case SendReady => 1
    case ReadReady => 2
    case SendRead => 3
    case _ => 4
  }

  function SpentOnReset(a: Active): nat {
    if a.phase == SendCommand then 0
    else if a.phase == WaitExecution then 1
    else (if a.index == 0 then 1 else 3) + (if a.phase == ReadVerify then 1 else 0)
  }

  /** The operation's own effectful command is behind it. */
  predicate PastCommand(a: Active) {
    if a.request.kind.Attach? then a.phase != WaitPowerUp && a.phase != SendWake
    else if a.request.kind.WriteSetting? then a.index >= 2
    else a.phase != SendCommand && IsEffectful(a.request.kind)
  }

  lemma RousedSpent(a: Active)
    requires Reachable(a) && Resting(a) && !EndsAfterWait(a.request.kind)
    ensures var b := a.(phase := Wakes(a)); Spent(b) == Spent(a) && PastCommand(b) == PastCommand(a)
  {
  }

  /** A completed write is one more callback, and the effectful one moves the operation past its command. */
  lemma WrittenSpent(a: Active, d: Disposition, c: Clock, now: nat)
    requires Reachable(a) && SendFor(a).Some? && !SendFor(a).value.wire.Read? && !EndsAfterWrite(a.request.kind)
    ensures var b := Written(a, d, c, now);
      Spent(b) == Spent(a) + 1 &&
      (a.request.kind.Attach? || PastCommand(b) == (PastCommand(a) || SendFor(a).value.effectful)) &&
      (a.request.kind.Attach? ==> PastCommand(b))
  {
    hide EffectAfterWrite, WaitAfter, After;
  }

  /** So is a judged response. */
  lemma JudgedSpent(s: State, words: seq<u16>, now: nat)
    requires Reachable(s.active) && SendFor(s.active) == Some(Send(Read(|words|), Normal, false))
    requires |words| == ResponseWords(s.active) && |words| >= 1
    ensures var b := Judge(s, words, now).active;
      Judge(s, words, now).verdict.Continue? ==>
        Spent(b) == Spent(s.active) + 1 && PastCommand(b) == PastCommand(s.active)
  {
    hide CacheField, CacheResult, Unverify, FieldWordValid, Disowned, Identified, Attached, VariantOf, SameSensor,
      OtherSensor, Rebased, ResetKnowledge, DisownedVariant, NextEpoch, StrictlyUnsupported, WithIdentity, WithSerial,
      StoreSample, DataReady, JudgeAttach, JudgeIdentity, JudgeVariant, JudgeBack, JudgeSample, JudgeDeferred;
    OnlySomeContinue(s, words, now);
  }

  lemma OnlySomeContinue(s: State, words: seq<u16>, now: nat)
    requires |words| == ResponseWords(s.active) && |words| >= 1
    ensures !JudgeAttach(s, words[0]).verdict.Continue? && !JudgeIdentity(s, words[0]).verdict.Continue?
    ensures !JudgeVariant(s, words[0]).verdict.Continue? && !JudgeDeferred(s, words[0]).verdict.Continue?
    ensures s.active.request.kind.WriteSetting? ==>
      !JudgeBack(s, s.active.request.kind.field, words[0]).verdict.Continue?
    ensures |words| == 3 ==> !JudgeSample(s, words, now).verdict.Continue?
  {
    hide CacheField, CacheResult, Unverify, FieldWordValid, Disowned, Identified, Attached, VariantOf, SameSensor,
      OtherSensor, Rebased, ResetKnowledge, DisownedVariant, NextEpoch, StrictlyUnsupported, WithIdentity, StoreSample;
  }

  /** No operation outruns its published number of callbacks. */
  lemma SpentBounded(a: Active)
    requires Reachable(a)
    ensures Spent(a) <= LimitsOf(a.request.kind).maxCallbacks <= 14
    ensures SendFor(a).Some? && !Resting(a) ==> Spent(a) + 1 <= LimitsOf(a.request.kind).maxCallbacks
  {
  }

  /** Callbacks of a successful operation: the published number, except for shortcuts. */
  predicate ExactCallbacks(k: Kind, callbacks: nat) {
    callbacks == LimitsOf(k).maxCallbacks || (k.WriteSetting? && callbacks == 2) ||
    (k.PersistSettings? && callbacks == 0)
  }

  /** What a judged response can end an operation with. */
  predicate VerdictFits(a: Active, outcome: Outcome, effect: Effect) {
    var k := a.request.kind;
    (outcome == Succeeded ==> ExactCallbacks(k, Spent(a) + 1)) &&
    (outcome in {Succeeded, NoData, Failed, Partial, OutcomeIndeterminate}) &&
    (outcome == Partial ==> k.ReadConfiguration?) &&
    if k.Attach? then effect == Acknowledged || effect == Verified
    else if !IsEffectful(k) then effect == NoEffectWrite || effect == a.effect
    else if k.WriteSetting? && a.index == 0 then effect == Verified && outcome == Succeeded
    else if k.WakeUp? then (effect == Verified && outcome == Succeeded) || effect == UnknownEffect
    else PastCommand(a) && effect in {Acknowledged, Verified, UnknownEffect, a.effect}
  }

  lemma JudgedVerdict(s: State, words: seq<u16>, now: nat)
    requires Reachable(s.active) && SendFor(s.active) == Some(Send(Read(|words|), Normal, false))
    requires |words| == ResponseWords(s.active) && |words| >= 1
    ensures var v := Judge(s, words, now).verdict;
      v.Done? ==> VerdictFits(s.active, v.outcome, v.effect)
  {
    hide CacheField, CacheResult, Unverify, FieldWordValid, Disowned, Identified, Attached, VariantOf, SameSensor,
      OtherSensor, Rebased, ResetKnowledge, DisownedVariant, NextEpoch, StrictlyUnsupported, WithIdentity, WithSerial,
      StoreSample, DataReady;
  }
}
