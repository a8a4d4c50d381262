/**
 * The behaviour of `retry_call` (retry.py) stated as functions.
 *
 * The operation being retried is a finite script of attempt outcomes: the
 * i-th call of the operation produces `script[i]`.  The two side effects of
 * the loop, the warning logged before a retry and the sleep, are recorded
 * together with every call of the operation in one trace of events, in the
 * order in which the source performs them.
 */
module RetrySpec {

  datatype Option<T> = None | Some(value: T)

  /** What one call of the operation does: return a value or raise a failure of some kind. */
  datatype Outcome<V, K> = Ok(value: V) | Err(kind: K)

  /**
   * The parameters of `retry_call` that drive the loop.  `retryable` stands
   * for the `exceptions` filter; a negative `tries` means "retry until the
   * operation succeeds"; `maxInterval` is `None` when `max_interval` is None.
   * The default values are those of `retry_call`'s keyword arguments.
   */
  datatype Policy<K> = Policy(
    retryable: set<K>,
    tries: int := -1,
    interval: nat := 0,
    multiplier: nat := 1,
    addend: nat := 0,
    maxInterval: Option<nat> := None)

  /**
   * How a run ends.  `NoneReturned` is the implicit `None` returned when the
   * loop is never entered; `ScriptExhausted` means the run wanted to call the
   * operation more often than the script describes.
   */
  datatype Result<V, K> = Returned(value: V) | Raised(kind: K) | NoneReturned | ScriptExhausted

  /** One observable step: a call of the operation, a logged warning, a sleep. */
  datatype Event<K> = Called | Warned(kind: K, wait: nat) | Slept(wait: nat)

  datatype Execution<V, K> = Execution(result: Result<V, K>, trace: seq<Event<K>>)

  /** The update of the interval after a sleep: multiply, then add, then clamp. */
  function Next<K>(p: Policy<K>, w: nat): nat
  {
    var grown := w * p.multiplier + p.addend;
    match p.maxInterval
    case None => grown
    case Some(c) => if grown < c then grown else c
  }

  /** The interval in force before the n-th retry (0-based): w_0 = interval, w_{n+1} = Next(w_n). */
  function Interval<K>(p: Policy<K>, n: nat): nat
  {
    if n == 0 then p.interval else Next(p, Interval(p, n - 1))
  }

  /** The outcome is a failure that the `exceptions` filter catches. */
  predicate Retryable<V, K>(p: Policy<K>, o: Outcome<V, K>)
  {
    o.Err? && o.kind in p.retryable
  }

  /** What one caught failure that leaves budget produces: the call, the warning, the sleep. */
  function Round<K>(k: K, w: nat): seq<Event<K>>
  {
    [Called, Warned(k, w), Slept(w)]
  }

  /**
   * The run from a loop state: `tries` attempts left (negative: unbounded)
   * and current interval `w`, with `script` the outcomes still to come.
   */
  function ExecuteFrom<V, K>(p: Policy<K>, script: seq<Outcome<V, K>>, tries: int, w: nat): Execution<V, K>
    decreases |script|
  {
    if tries == 0 then Execution(NoneReturned, [])
    else if script == [] then Execution(ScriptExhausted, [])
    else
      match script[0]
      case Ok(v) => Execution(Returned(v), [Called])
      case Err(k) =>
        if k !in p.retryable || tries - 1 == 0 then Execution(Raised(k), [Called])
        else
          var rest := ExecuteFrom(p, script[1..], tries - 1, Next(p, w));
          Execution(rest.result, Round(k, w) + rest.trace)
  }

  /** The whole run of `retry_call` under policy `p`. */
  function Execute<V, K>(p: Policy<K>, script: seq<Outcome<V, K>>): Execution<V, K>
  {
    ExecuteFrom(p, script, p.tries, p.interval)
  }

  /** The first n outcomes of the script are caught failures. */
  predicate RetryablePrefix<V, K>(p: Policy<K>, script: seq<Outcome<V, K>>, n: nat)
  {
    n <= |script| && forall i :: 0 <= i < n ==> Retryable(p, script[i])
  }

  /** n caught failures still leave budget for another attempt. */
  predicate WithinBudget<K>(p: Policy<K>, n: nat)
  {
    p.tries < 0 || n < p.tries
  }

  /** The trace of the first n attempts when each of them is a caught failure followed by a retry. */
  function Rounds<V, K>(p: Policy<K>, script: seq<Outcome<V, K>>, n: nat): seq<Event<K>>
    requires RetryablePrefix(p, script, n)
  {
    if n == 0 then [] else Rounds(p, script, n - 1) + Round(script[n - 1].kind, Interval(p, n - 1))
  }

  /** The number of calls of the operation in a trace. */
  function Calls<K>(t: seq<Event<K>>): nat
  {
    if t == [] then 0 else (if t[0].Called? then 1 else 0) + Calls(t[1..])
  }

  /** The durations passed to `sleep`, in order. */
  function Sleeps<K>(t: seq<Event<K>>): seq<nat>
  {
    if t == [] then [] else (if t[0].Slept? then [t[0].wait] else []) + Sleeps(t[1..])
  }

  /** The warnings logged, in order. */
  function Logged<K>(t: seq<Event<K>>): seq<Event<K>>
  {
    if t == [] then [] else (if t[0].Warned? then [t[0]] else []) + Logged(t[1..])
  }

  /**
   * The run ends at attempt n (0-based): attempts 0..n-1 were caught failures
   * that left budget, and attempt n ends the run, by returning, by a failure
   * the filter does not catch, or by using up the last try.
   */
  ghost predicate EndsAt<V, K>(p: Policy<K>, script: seq<Outcome<V, K>>, n: nat, e: Execution<V, K>)
  {
    && RetryablePrefix(p, script, n)
    && WithinBudget(p, n)
    && n < |script|
    && e.trace == Rounds(p, script, n) + [Called]
    && match script[n]
       case Ok(v) => e.result == Returned(v)
       case Err(k) => e.result == Raised(k) && (k !in p.retryable || n + 1 == p.tries)
  }
}
