/**
  The owner's millisecond clock.

  The driver keeps 32-bit times and compares them by wrapped subtraction. Every
  function of the model takes the clock as a parameter, so that one text
  describes both the 32-bit driver (`Wrapped`) and the same driver on
  mathematical integers (`Linear`).
 */
module Clocks {

  datatype Clock = Wrapped | Linear

  const WRAP: nat := 0x1_0000_0000
  const HALF: nat := 0x8000_0000

  type u32 = x: nat | x < 0x1_0000_0000

  /** `t + d`, as a 32-bit sum on the wrapped clock. */
  function After(c: Clock, t: nat, d: nat): nat {
    if c.Wrapped? then (t + d) % WRAP else t + d
  }

  /** `to - from`, as a 32-bit difference on the wrapped clock. */
  function Span(c: Clock, from: nat, to: nat): int {
    if c.Wrapped? then (to - from) % WRAP else to - from
  }

  /** The sign of the 32-bit difference decides; a plain comparison on the linear clock. */
  predicate Reached(c: Clock, now: nat, target: nat) {
    if c.Wrapped? then (now - target) % WRAP < HALF else now >= target
  }

  /** A deadline is strictly ahead, by less than half the clock. */
  predicate DeadlineValid(c: Clock, now: nat, deadline: nat) {
    0 < Span(c, now, deadline) < HALF
  }

  /** A callback must not complete before it started. */
  predicate CompletionValid(c: Clock, start: nat, completed: nat) {
    0 <= Span(c, start, completed) < HALF
  }

  /** The wrapped span is never negative, and an unreached target is strictly ahead. */
  lemma SpanPositive(now: nat, target: nat)
    ensures 0 <= Span(Wrapped, now, target) < WRAP
    ensures !Reached(Wrapped, now, target) ==> Span(Wrapped, now, target) > 0
  {
  }

  function Wrap(t: nat): u32 { t % WRAP }

  lemma WrapAfter(t: nat, d: nat)
    ensures After(Wrapped, Wrap(t), d) == Wrap(After(Linear, t, d))
  {
  }

  /** Inside half a clock of the target, wrapped comparison is comparison. */
  lemma WrapReached(now: nat, target: nat)
    requires -(HALF as int) <= now - target < HALF
    ensures Reached(Wrapped, Wrap(now), Wrap(target)) <==> Reached(Linear, now, target)
  {
    var d := (Wrap(now) - Wrap(target)) % WRAP;
    assert d == (now - target) % WRAP;
  }

  lemma WrapSpan(from: nat, to: nat)
    requires 0 <= to - from < WRAP
    ensures Span(Wrapped, Wrap(from), Wrap(to)) == Span(Linear, from, to)
  {
    assert (Wrap(to) - Wrap(from)) % WRAP == (to - from) % WRAP;
  }
}
