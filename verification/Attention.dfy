/**
  A sensor that does not listen while it executes: whatever reaches it then may do
  anything to it. The spacing of callbacks makes it as good as one that always listens.
 */
module Attention {
  import opened Clocks
  import opened Types
  import opened Commands
  import opened Engine
  import opened Runs
  import opened Evidence
  import opened Pace
  import opened Sensors
  import opened Belief
  import opened Promises
  import Spacing

  /** A sensor, and the time until which it executes what it last accepted. */
  datatype Body = Body(sensor: Sensor, busyUntil: int)

  /** How long the sensor executes what it accepted; unmanaged commands are taken to be short. */
  function Execution(call: Call): nat { if IsDiagnostic(call.kind) then SHORT_MS else CommandTime(call.wire) }

  function Larger(a: int, b: int): int { if a < b then b else a }

  /**
    A callback that starts while the sensor executes may change all of it but who it is, and be answered anyhow;
    otherwise the rules hold. Whatever the sensor may have accepted can keep it busy.
   */
  predicate Hears(a: Body, call: Call, b: Body) {
    b.sensor.serial == a.sensor.serial && b.sensor.variant == a.sensor.variant &&
    (call.startMs >= a.busyUntil ==> Moves(a.sensor, call, b.sensor)) &&
    b.busyUntil <= (if MayHaveEffect(call) then Larger(a.busyUntil, call.norm.doneMs + Execution(call))
                    else a.busyUntil)
  }

  /** A history of such a sensor, which is not busy at first. */
  predicate Attends(log: seq<Event>, body: nat -> Body) {
    body(0).busyUntil <= 0 &&
    forall i | 0 <= i < |log| :: if log[i].Called? then Hears(body(i), log[i].call, body(i + 1))
      else body(i + 1) == body(i)
  }

  function SensorOf(body: nat -> Body): nat -> Sensor { (i: nat) => body(i).sensor }

  /** A callback that the sensor may have accepted, and that it may still be executing at event `i`. */
  predicate Occupies(log: seq<Event>, body: nat -> Body, k: nat, i: nat) {
    k < i <= |log| && log[k].Called? && MayHaveEffect(log[k].call) &&
    body(i).busyUntil <= log[k].call.norm.doneMs + Execution(log[k].call)
  }

  lemma {:induction false} BusyWith(log: seq<Event>, body: nat -> Body, i: nat) returns (k: nat)
    requires Attends(log, body) && i <= |log|
    ensures body(i).busyUntil <= 0 || Occupies(log, body, k, i)
  {
    hide MayHaveEffect, Execution, Moves;
    k := 0;
    if i > 0 {
      k := BusyWith(log, body, i - 1);
      if log[i - 1].Called? {
        assert Hears(body(i - 1), log[i - 1].call, body(i));
        if MayHaveEffect(log[i - 1].call) &&
          body(i - 1).busyUntil < log[i - 1].call.norm.doneMs + Execution(log[i - 1].call) {
          k := i - 1;
        }
      }
    }
  }

  lemma AcceptedBegan(call: Call)
    requires MayHaveEffect(call)
    ensures Began(call)
  {
  }

  /** No callback of a run ever starts while the sensor executes, so it hears every one. */
  lemma AlwaysHeard(ops: seq<Op>, bus: nat -> Reply, body: nat -> Body)
    requires Attends(Run(ops, Linear, bus).log, body)
    ensures Follows(Run(ops, Linear, bus).log, SensorOf(body))
  {
    hide Run, Moves, MayHaveEffect, Began, Attends, CommandTime, Spacing.FreeAt;
    var log := Run(ops, Linear, bus).log;
    forall i | 0 <= i < |log|
      ensures if log[i].Called? then Moves(SensorOf(body)(i), log[i].call, SensorOf(body)(i + 1))
              else SensorOf(body)(i + 1) == SensorOf(body)(i)
    {
      AttendsAt(log, body, i);
      if log[i].Called? {
        var k := BusyWith(log, body, i);
        if body(i).busyUntil > 0 {
          AcceptedBegan(log[k].call);
          Spacing.NeverBusy(ops, bus, k, i);
        }
      }
    }
  }

  lemma AttendsAt(log: seq<Event>, body: nat -> Body, i: nat)
    requires Attends(log, body) && i < |log|
    ensures if log[i].Called? then Hears(body(i), log[i].call, body(i + 1)) else body(i + 1) == body(i)
  {
  }

  /**
    So the driver's beliefs are true, its traffic is permitted and its results mean what they say for a sensor
    that may do anything with what reaches it while it executes.
   */
  lemma SoundThoughDeaf(ops: seq<Op>, bus: nat -> Reply, body: nat -> Body)
    requires Attends(Run(ops, Linear, bus).log, body)
    ensures var s := Run(ops, Linear, bus); Sound(s, body(|s.log|).sensor)
    ensures var s := Run(ops, Linear, bus); AllPermitted(s.log, SensorOf(body)) && AllMean(s.log, SensorOf(body))
  {
    hide Run, Attends, Follows, Sound, AllPermitted, AllMean;
    AlwaysHeard(ops, bus, body);
    AlwaysSound(ops, Linear, bus, SensorOf(body));
    AlwaysKeeps(ops, Linear, bus, SensorOf(body));
  }
}
