/**
  The wrapper returned by `throttle(func, wait)` as an object: the closure
  variables `previous` and `timeout` are fields that its two entry points
  reassign in place, the call of the wrapper (`Call`) and the timer callback
  it hands to setTimeout (`Fire`).  The host's timer table and the log of
  executions of `func` are fields too, so that every effect of a step is
  visible in the new state.  `Call` and `Fire` are each proved to take
  exactly the step of the state machine in ThrottleSpec; `SetTimeout` and
  `ClearTimeout` stand for the host.
*/
module Throttle {
  import opened ThrottleSpec

  class Throttled<A> {
    const wait: int
    // the closure variables
    var previous: int
    var timeout: Option<nat>
    // the host: live timers, the next handle setTimeout gives out
    var timers: map<nat, Timer<A>>
    var nextHandle: nat
    // every execution of func so far, in order
    var log: seq<Execution<A>>

    function Snapshot(): (s: State<A>)
      reads this
      ensures s.previous == previous && s.timeout == timeout && s.timers == timers
    {
      State(previous, timeout, timers, nextHandle)
    }

    /** The state invariant, and `previous` is the time of the last logged
        execution once there is one. */
    ghost predicate Valid()
      reads this
    {
      Consistent(wait, Snapshot()) &&
      (log != [] ==> log[|log| - 1].at == previous)
    }

    /** `throttle(func, wait)`: no timer, `previous = 0`, nothing executed. */
    constructor (wait: int)
      ensures Valid()
      ensures this.wait == wait && Snapshot() == Init() && log == []
    {
      this.wait := wait;
      previous, timeout := 0, None;
      timers, nextHandle := map[], 1;
      log := [];
    }

    /** setTimeout: the host accepts a timer due `delay` after `now` and
        returns a fresh handle for it. */
    method SetTimeout(now: int, delay: int, args: A) returns (h: nat)
      requires forall k | k in timers :: k < nextHandle
      modifies this`timers, this`nextHandle
      ensures h !in old(timers)
      ensures h == old(nextHandle) && nextHandle == h + 1
      ensures forall k | k in timers :: k < nextHandle
      ensures timers == old(timers)[h := Timer(now + delay, args)]
    {
      h := nextHandle;
      nextHandle := nextHandle + 1;
      timers := timers[h := Timer(now + delay, args)];
    }

    /** clearTimeout: the host forgets the timer, if it is still live. */
    method ClearTimeout(h: nat)
      modifies this`timers
      ensures timers == old(timers) - {h}
    {
      timers := timers - {h};
    }

    /** The wrapper, called at time `now` with receiver and arguments `args`;
        returns the executions of func it performs (none or one). */
    method Call(now: int, args: A) returns (runs: seq<Execution<A>>)
      requires Valid()
      modifies this
      ensures Valid()
      ensures Step(Snapshot(), runs) == CallStep(wait, old(Snapshot()), now, args)
      ensures log == old(log) + runs
    {
      var remaining := wait - (now - previous);
      if remaining <= 0 || remaining > wait {
        if timeout.Some? {
          ClearTimeout(timeout.value);
          timeout := None;
        }
        previous := now;
        runs := [Execution(now, args, false)];
      } else if timeout.None? {
        var h := SetTimeout(now, remaining, args);
        timeout := Some(h);
        runs := [];
      } else {
        runs := [];
      }
      log := log + runs;
      CallPreservesConsistent(wait, old(Snapshot()), now, args);
    }

    /** The callback of timer `h`, run by the host at time `now`; the host
        only runs timers that are still live. */
    method Fire(h: nat, now: int) returns (runs: seq<Execution<A>>)
      requires Valid()
      requires h in timers
      modifies this
      ensures Valid()
      ensures Step(Snapshot(), runs) == FireStep(old(Snapshot()), h, now)
      ensures log == old(log) + runs
    {
      var captured := timers[h].args;
      timers := timers - {h};
      previous := now;
      timeout := None;
      runs := [Execution(now, captured, true)];
      log := log + runs;
      FirePreservesConsistent(wait, old(Snapshot()), h, now);
    }
  }

  /** A client: `wait = 100` and a clock in milliseconds.  A call at 1000
      runs at once; one at 1030 schedules the deferred run for 1100 with its
      own argument 2; the call at 1060 is dropped, so its argument 3 is never
      used; the timer runs at 1100 with 2.  A call at 1150 schedules a run for
      1200 with 4, but the host is late and a call at 1250 arrives first: the
      timer is cancelled, 4 is never used, and 5 runs at once. */
  method Scenario() returns (runs: seq<Execution<int>>, pending: nat)
    ensures runs == [Execution(1000, 1, false), Execution(1100, 2, true), Execution(1250, 5, false)]
    ensures pending == 0
  {
    var t := new Throttled<int>(100);
    var r := t.Call(1000, 1);
    assert r == [Execution(1000, 1, false)];
    r := t.Call(1030, 2);
    assert r == [] && t.timeout == Some(1) && t.timers[1] == Timer(1100, 2);
    r := t.Call(1060, 3);
    assert r == [] && t.timers == map[1 := Timer(1100, 2)];
    r := t.Fire(1, 1100);
    assert r == [Execution(1100, 2, true)];
    r := t.Call(1150, 4);
    assert r == [] && t.timers == map[2 := Timer(1200, 4)];
    r := t.Call(1250, 5);
    assert r == [Execution(1250, 5, false)];
    runs := t.log;
    pending := |t.timers|;
  }
}
