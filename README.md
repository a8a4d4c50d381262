# retry_call, modelled in Dafny

This project models `retry_call` from the Python package `retry` (retry.py).
`retry_call` calls an operation again and again. It stops when:

- the operation returns a value;
- the operation raises a failure that the `exceptions` filter does not catch;
- the `tries` budget is used up.

A negative `tries` means there is no limit. Between attempts it logs a warning and sleeps.
The wait starts at `interval`. After each sleep it is multiplied by `multiplier`, then `addend` is added,
and then it is clamped to `max_interval` when that is set.

How the model is built:

- The operation is a finite script of outcomes, `seq<Outcome<V, K>>`. The i-th call produces `script[i]`.
  Each outcome is `Ok(value)` or `Err(kind)`.
- The `exceptions` filter is a set of failure kinds, `Policy.retryable`.
- The two side effects are not performed. They are recorded, together with every call of the operation,
  in one trace of events: `Called`, `Warned(kind, wait)` and `Slept(wait)`. The events appear in the
  order the source performs them.

Files:

- `retry_spec.dfy` (module `RetrySpec`): the data model and the run as functions. `Next` is one update of
  the interval. `Interval(p, n)` is the recurrence. `ExecuteFrom` and `Execute` give the whole run.
  `Rounds(p, script, n)` is the trace of n caught failures. `Calls`, `Sleeps` and `Logged` read a trace.
- `retry.dfy` (module `Retry`): `RetryCall`, the `while tries != 0` loop of the source. It updates
  `tries` and `interval` in place. It is proved to produce exactly the result and trace of `Execute`.
- `retry_properties.dfy` (module `RetryProperties`): the properties the source promises, proved about `Execute`.
- `retry_scenarios.dfy` (module `RetryScenarios`): the scenarios of the project's unit tests, as lemmas.

A run ends in one of four results. `Returned(v)` is the operation's value. `Raised(k)` is the operation's
own failure, propagated unchanged. `NoneReturned` is the implicit `None` Python returns when the loop is
never entered, that is when `tries == 0`. `ScriptExhausted` means the run wanted more attempts than the
script holds. It replaces the non-termination of an unbounded run whose operation always fails with a
caught failure. `ScriptExhaustedIff` states exactly when it happens.

With `tries == 0` the loop at retry.py:35 is never entered: the operation is never called and Python
returns `None` (`ZeroBudget`).

## Model

| member | source | states |
|---|---|---|
| Retry.RetryCall | retry.py:35-48 | The loop's result (value returned, failure re-raised, or None) and its sequence of calls, warnings and sleeps are exactly those of the run `Execute(p, script)`. |
| RetryProperties.Unroll | retry.py:35-48 | After n caught failures within the budget, the run is n rounds of call, warning and sleep, followed by the run from attempt n. At that point n tries are spent and the interval has been updated n times. |
| RetryProperties.Success | retry.py:35-37 | If attempt n is the first success, after n caught failures within the budget, its value is returned. The operation is called n + 1 times, there are n sleeps, and nothing follows the last call. |
| RetryProperties.NotRetryable | retry.py:36-38 | A failure the filter does not catch is raised unchanged at the attempt where it occurs. The call is the last event, with no warning or sleep after it. |
| RetryProperties.Exhausted | retry.py:38-41 | With tries = N > 0 and N caught failures, the operation is called exactly N times. The N-th failure itself is raised. There are N - 1 sleeps and none after the last failure. |
| RetryProperties.ZeroBudget | retry.py:35 | With tries = 0 the operation is never called, nothing is logged or slept, and None is returned. |
| RetryProperties.Unbounded | retry.py:35-41 | With negative tries, the run never returns None. Any failure it raises is one the filter does not catch. If the script holds a success or an uncaught failure, the run ends on it. |
| RetryProperties.EndsSomewhere | retry.py:35-48 | From any point reached by caught failures within the budget, the run either ends at a later attempt (as `EndsAt` describes) or runs past the script after retrying all of it. |
| RetryProperties.Shape | retry.py:35-48 | Every run takes one of three forms. Either the budget is zero and nothing happens; or attempts 0..n-1 are caught failures within the budget and attempt n ends the run (success, uncaught failure, or last try); or the script runs out. |
| RetryProperties.ScriptExhaustedIff | retry.py:35-41 | The run needs more attempts than the script holds if and only if the budget is non-zero and every scripted outcome is a caught failure that leaves budget. |
| RetryProperties.EndsAtViews | retry.py:36-44 | A run ending at attempt n makes n + 1 calls, logs n warnings and sleeps n times. It starts and ends with a call. The k-th sleep and the k-th warning carry Interval(p, k), and the warning also carries the k-th failure. |
| RetryProperties.Trace | retry.py:35-48 | In any run the first event is a call, so the first attempt never sleeps. Warnings and sleeps pair one to one. The k-th sleep is Interval(p, k). The k-th warning carries the k-th caught failure and that interval. Calls = sleeps + 1 when the run returns or raises, and a call is then the last event. |
| RetryProperties.RoundViews | retry.py:37-44 | One retried failure produces one call, one warning with the failure and the current interval, and one sleep of that interval. |
| RetryProperties.RoundsCalls | retry.py:35-39 | n retried failures give n calls, starting with a call. |
| RetryProperties.RoundsSleeps | retry.py:44-48 | n retried failures give n sleeps. The i-th sleep is the i-th term of the interval recurrence. |
| RetryProperties.RoundsLogged | retry.py:42 | n retried failures log n warnings. The i-th warning carries the i-th failure and the i-th interval. |
| RetryProperties.IntervalClamped | retry.py:47-48 | With max_interval set, every interval after the initial one is at most max_interval. |
| RetryProperties.IntervalConstant | retry.py:45-48 | With multiplier 1 and addend 0, every interval equals the initial one, provided that one is within max_interval when set. |
| RetryProperties.IntervalGeometric | retry.py:45-46 | With addend 0 and no cap, the n-th interval is interval * multiplier^n. |
| RetryProperties.IntervalArithmetic | retry.py:45-46 | With multiplier 1 and no cap, the n-th interval is interval + n * addend. |
| RetryProperties.IntervalMonotone | retry.py:45-48 | With multiplier at least 1 and an initial interval within the cap, intervals never decrease. |
| RetryScenarios.DefaultUnbounded | test.py:8-14 | Under the defaults, two failures and then 10 give 10, with three calls and two zero-length waits. |
| RetryScenarios.SpecificExceptions | test.py:16-27 | A failure outside the filter is raised after one call with no wait. Caught failures are retried until 10 is returned. |
| RetryScenarios.Tries | test.py:29-37 | With tries = 3 and an always failing operation, there are three calls and the third failure is raised. |
| RetryScenarios.FixedInterval | test.py:39-50 | Interval 1 without growth gives waits [1, 1]. |
| RetryScenarios.Multiplier | test.py:52-63 | Interval 1 and multiplier 2 give waits [1, 2, 4]. |
| RetryScenarios.Addend | test.py:65-76 | Interval 1 and addend 1 give waits [1, 2, 3]. |
| RetryScenarios.MaxInterval | test.py:78-89 | Interval 1, addend 1 and max_interval 3 give waits [1, 2, 3, 3]. |

## Left out

- The decorator `retry` (retry.py:51-87) is not modelled. It only passes its arguments on to `retry_call`.
- Argument forwarding through `fargs` and `fkwargs` is not modelled. The scripted operation takes no arguments.
- Python's exception-class matching is not modelled. This covers the single class versus tuple choice and the fact that the default `Exception` does not catch `BaseException`. The filter is a set of failure kinds.
- Real time and `time.sleep` are not modelled. A sleep is a `Slept(wait)` event in the trace.
- The `logging` machinery and message formatting are not modelled. A warning is a `Warned(kind, wait)` event.
- Interval, multiplier, addend and max_interval are natural numbers, following the `[int]` annotations of the docstring. Floats are not modelled.
- Negative interval, multiplier, addend and max_interval are not modelled. Python runs such a policy normally until a computed wait is negative; `sleep` then raises `ValueError`, after the warning for that attempt is logged.
- The default of `exceptions` (retry.py:13, the class `Exception`, which catches every ordinary failure) has no counterpart: `Policy.retryable` is always given as a set. The other defaults of retry.py:14-18 are the default values of the `Policy` constructor.
- An unbounded run whose operation always fails with a caught failure does not terminate in Python. The model ends it with `ScriptExhausted` when the finite script runs out.
- Failures raised by the logger or by `sleep` themselves are not modelled.
- RetryCall: returns the trace of calls, warnings and sleeps as a value. It does not perform these effects.
