# Throttle rate limiter of script.js

The site script defines `throttle(func, wait)`: a wrapper that runs `func` at
once when the last execution is at least `wait` milliseconds old, and otherwise
asks the host (`setTimeout`) for one deferred execution at the end of the
window. Its state lives in two closure variables: `previous`, the time of the
last execution (initially 0), and `timeout`, the handle of the pending timer
(initially null).

This project models that wrapper in two modules:

- `ThrottleSpec` (throttle_spec.dfy) is the pure state machine. A `State` holds
  the closure variables and the host's table of live timers (handle to due time
  and captured arguments). `CallStep` is a call of the wrapper at time `now`.
  `FireStep` is the host running a timer's callback. `Run` folds a trace of
  such events and returns the executions of `func` they cause, in order. The
  module proves the invariant `Consistent` of every reachable state, the three
  outcomes of a call, the callback's effect, and the rate ceiling over traces.
- `Throttle` (throttle.dfy) is the wrapper as an object. `Throttled` has the
  closure variables as fields, which `Call` and `Fire` reassign in place, as
  the JavaScript closure does. The host's timers and a log of every execution
  of `func` are fields too. `Call` and `Fire` are each proved to take exactly
  the step of `CallStep` or `FireStep`. `SetTimeout` and `ClearTimeout` stand
  for the host. `Scenario` is a client that drives one object
  through a burst, a deferred run and a cancellation.

The wall clock (`Date.now()`) is an explicit `now` argument. "The host runs
timer `h`" is an explicit event. The receiver and the argument list of a call
are one opaque value of type `A`. `func` is represented only by the executions
recorded for it.

Points where this code departs from the usual leading+trailing throttle,
all of which the model follows:

- The deferred execution uses the arguments of the call that scheduled it.
  In-window calls made while a timer is pending are dropped entirely; their
  arguments are never used.
- A pending timer is cancelled, not run, when a call arrives after the window
  is over but before the host has run the timer. That call runs at once with
  its own arguments.
- `previous` starts at 0, not "never ran". A first call at a time in
  `[0, wait)` is therefore deferred to time `wait`. With real epoch-millisecond
  clocks the first call runs at once.
- A clock that went back behind `previous` counts as an elapsed window.
- `wait` is not validated. Any `wait <= 0` makes every call run at once.

## Model

| member | source | states |
|---|---|---|
| ThrottleSpec.Init | script.js:148-149 | a new wrapper has `previous = 0`, no timer handle and no live timer |
| ThrottleSpec.WindowOver | script.js:153-155 | the wrapper's remaining-time test holds exactly when `now - previous >= wait` or the clock is behind `previous` |
| ThrottleSpec.CallStep | script.js:151-168 | a call causes at most one execution, with its own arguments and not deferred; `previous` changes only to the time of that execution |
| ThrottleSpec.FireStep | script.js:163-166 | the callback causes at most one execution, deferred, with the captured arguments of a live timer; `previous` changes only to its time |
| ThrottleSpec.Apply | script.js:151-167 | one event causes at most one execution, and `previous` becomes that execution's time |
| ThrottleSpec.Run | script.js:151-167 | a trace causes no more executions than it has events, and `previous` ends as the time of the last execution, or unchanged when there was none |
| ThrottleSpec.InitConsistent | script.js:148-149 | the state after `throttle(func, wait)` satisfies the invariant, including that every live handle is below the next one the host gives out |
| ThrottleSpec.CallPreservesConsistent | script.js:152-168 | a call keeps the invariant: the only live timer is the one `timeout` names, due `wait` after `previous`, and only when `wait > 0` |
| ThrottleSpec.FirePreservesConsistent | script.js:163-166 | the timer callback keeps the invariant |
| ThrottleSpec.RunPreservesConsistent | script.js:148-167 | every trace from a consistent state ends in a consistent state |
| ThrottleSpec.AtMostOnePending | script.js:156-165 | in a consistent state at most one timer is live, and one is live exactly when `timeout` holds a handle |
| ThrottleSpec.ReachableAtMostOnePending | script.js:148-167 | every state reachable from a new wrapper has at most one live timer |
| ThrottleSpec.CallAfterWindowRunsNow | script.js:152-161 | once the window is over a call runs `func` at once with its own arguments, sets `previous` to `now`, and leaves no timer, cancelling a pending one |
| ThrottleSpec.CallInWindowSchedules | script.js:153-167 | an in-window call with no pending timer runs nothing and schedules exactly one timer, due at `previous + wait`, capturing its arguments; `previous` is unchanged |
| ThrottleSpec.CallInWindowWhilePendingIsDropped | script.js:153-162 | an in-window call while a timer is pending changes nothing: no execution, same due time, same captured arguments, same `previous` |
| ThrottleSpec.FireRunsCapturedArgs | script.js:163-166 | the live timer is the one `timeout` names; its callback runs `func` with the arguments captured at scheduling, sets `previous` to the fire time and leaves no timer |
| ThrottleSpec.ClockBackwardsRunsNow | script.js:153-161 | a call at a time behind `previous` runs at once, resets `previous` to `now` and cancels any pending timer, exactly as after an elapsed window |
| ThrottleSpec.NoWaitRunsNow | script.js:153-161 | with `wait <= 0` every call runs at once and leaves no timer handle |
| ThrottleSpec.CallNeverLeavesIdle | script.js:155-167 | a call either runs `func` or leaves a timer pending |
| ThrottleSpec.FirstCall | script.js:149-167 | the first call is deferred to time `wait` when `0 <= now < wait`, and runs at once otherwise |
| ThrottleSpec.Unthrottled | script.js:151-161 | reference behaviour without throttling: one immediate execution per call, so no more executions than events |
| ThrottleSpec.NoWaitNeverDefers | script.js:153-161 | with `wait <= 0` a whole trace runs exactly the unthrottled executions, in order, and no timer is ever live |
| ThrottleSpec.BurstKeepsSchedulingArgs | script.js:162-166 | while a timer is pending, any burst of in-window calls leaves the whole state as it was, so the deferred run keeps the arguments of the call that scheduled it |
| ThrottleSpec.StepSpaced | script.js:153-166 | an execution caused by one event comes at least `wait` after the previous execution, on a clock that has not gone back and with timers that do not run early |
| ThrottleSpec.RunSpaced | script.js:151-167 | from any consistent state, consecutive executions of a trace are at least `wait` apart, and the first is at least `wait` after an earlier one |
| ThrottleSpec.RateCeiling | script.js:147-170 | from a new wrapper, with non-decreasing event times and no early timer, any two consecutive executions are at least `wait` apart |
| Throttle.Throttled.constructor | script.js:147-149 | a new wrapper is the state machine's initial state, with an empty execution log |
| Throttle.Throttled.SetTimeout | script.js:163-167 | the host records a timer due `delay` after `now` with the captured arguments, under a handle that is not already live, and keeps every live handle below the next one |
| Throttle.Throttled.ClearTimeout | script.js:156-158 | the host forgets the cancelled timer |
| Throttle.Throttled.Call | script.js:151-168 | the in-place call takes exactly the step `CallStep`, keeps the invariant, and appends its executions to the log |
| Throttle.Throttled.Fire | script.js:163-166 | the in-place callback takes exactly the step `FireStep`, keeps the invariant, and appends its execution to the log |
| Throttle.Scenario | script.js:147-170 | a burst, a deferred run and a late timer: only the arguments 1, 2 and 5 are ever executed, at 1000, 1100 and 1250, and no timer is left |

## Left out

- All page wiring in script.js: the navigation class toggle, the mobile menu,
  smooth anchor scrolling, the reveal observer, the form button state, the
  style injection, the cursor glow and the visibility handler. They are
  one-shot reactions to browser events, with no state machine. `throttle` is
  not applied to any of them.
- The pixel and coordinate arithmetic of that wiring is floating-point layout
  and is left out with it.
- `Date.now`, `setTimeout` and `clearTimeout` as real APIs. The clock is the
  `now` argument. The host is a table of live timers. A timer's run is an
  explicit event.
- Throttle.Throttled.Fire: requires the timer to be live. The host runs only
  timers that were neither cleared nor already run. `FireStep` treats any
  other handle as a no-op, for traces.
- The receiver semantics of `func.apply(this, args)`. The receiver and the
  arguments are one opaque captured value.
- Exceptions thrown by `func`. Execution is modelled as always completing.
- Non-integer, `NaN` or non-numeric `wait` and clock values. Times and `wait`
  are integers in milliseconds.
- ThrottleSpec.RateCeiling: is stated for consecutive executions only, under
  the two timing assumptions it names. These are a clock that never goes back
  and a host that never runs a timer early. Without them the code gives no
  ceiling; `ClockBackwardsRunsNow` shows why.
- Validation of `wait`. The code does not check it, so the model takes any
  integer.
