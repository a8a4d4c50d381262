/**
 * `retry_call` (retry.py) as the loop the source runs: `tries` and
 * `interval` are updated step by step, the warning and the sleep are
 * appended to the trace instead of being performed.
 */
module Retry {
  import opened RetrySpec
  import opened RetryProperties

  /**
   * Runs the operation described by `script` under policy `p`.  The result
   * and the trace of calls, warnings and sleeps are exactly those of the run
   * `Execute(p, script)`.
   */
  method RetryCall<V, K>(script: seq<Outcome<V, K>>, p: Policy<K>) returns (r: Result<V, K>, trace: seq<Event<K>>)
    ensures Execution(r, trace) == Execute(p, script)
  {
    var tries := p.tries;
    var interval := p.interval;
    var i := 0;
    trace := [];
    while tries != 0
      invariant 0 <= i <= |script|
      invariant tries == p.tries - i
      invariant interval == Interval(p, i)
      invariant RetryablePrefix(p, script, i)
      invariant i > 0 || tries != 0 ==> WithinBudget(p, i)
      invariant trace == Rounds(p, script, i)
      decreases |script| - i
    {
      if i == |script| {
        // the operation would be called once more than the script describes
        Unroll(p, script, i);
        assert script[i..] == [];
        r := ScriptExhausted;
        return;
      }
      trace := trace + [Called];
      match script[i] {
        case Ok(v) =>
          Success(p, script, i, v);
          r := Returned(v);
          return;
        case Err(k) =>
          if k !in p.retryable {
            NotRetryable(p, script, i, k);
            r := Raised(k);
            return;
          }
          tries := tries - 1;
          if tries == 0 {
            assert RetryablePrefix(p, script, p.tries);
            Exhausted(p, script);
            r := Raised(k);
            return;
          }
          trace := trace + [Warned(k, interval)];
      }
      // only a caught failure that leaves budget reaches the sleep
      trace := trace + [Slept(interval)];
      interval := interval * p.multiplier;
      interval := interval + p.addend;
      if p.maxInterval.Some? {
        interval := if interval < p.maxInterval.value then interval else p.maxInterval.value;
      }
      i := i + 1;
    }
    ZeroBudget(p, script);
    r := NoneReturned;
  }
}
