/**
 * The scenarios of the project's unit tests (test.py), stated as lemmas
 * about the run `Execute` on concrete scripts.
 */
module RetryScenarios {
  import opened RetrySpec
  import opened RetryProperties

  /** Failure kinds used by the tests. */
  datatype Kind = Generic | SyntaxError | ValueError | TimeoutError

  /** The sleeps of a run that succeeds after `failures` caught failures under policy p. */
  lemma SleepsOfSuccess(p: Policy<Kind>, failures: nat, s: seq<Outcome<int, Kind>>)
    requires RetryablePrefix(p, s, failures) && WithinBudget(p, failures)
    requires |s| == failures + 1 && s[failures] == Ok(10)
    ensures Execute(p, s).result == Returned(10)
    ensures Calls(Execute(p, s).trace) == failures + 1
    ensures |Sleeps(Execute(p, s).trace)| == failures
    ensures forall k :: 0 <= k < failures ==> Sleeps(Execute(p, s).trace)[k] == Interval(p, k)
  {
    Success(p, s, failures, 10);
    Trace(p, s);
  }

  /** Two failures, then 10, under the defaults (unbounded tries, interval 0, multiplier 1, addend 0, no cap): 10 is returned after three calls and two zero waits. */
  lemma DefaultUnbounded()
    ensures var e := Execute(Policy({Generic}, -1, 0, 1, 0, None), [Err(Generic), Err(Generic), Ok(10)]);
      e.result == Returned(10) && Calls(e.trace) == 3 && Sleeps(e.trace) == [0, 0]
  {
    var p, s := Policy({Generic}, -1, 0, 1, 0, None), [Err(Generic), Err(Generic), Ok(10)];
    assert p == Policy({Generic});  // the literal policy is the constructor's defaults
    assert RetryablePrefix(p, s, 2);
    SleepsOfSuccess(p, 2, s);
  }

  /** A failure outside the filter propagates at once; failures inside it are retried. */
  lemma SpecificExceptions()
    ensures var e := Execute<int, Kind>(Policy({ValueError, TimeoutError}, -1, 0, 1, 0, None), [Err(SyntaxError)]);
      e.result == Raised(SyntaxError) && Calls(e.trace) == 1 && Sleeps(e.trace) == []
    ensures var e := Execute(Policy({ValueError, TimeoutError}, -1, 0, 1, 0, None), [Err(ValueError), Err(TimeoutError), Ok(10)]);
      e.result == Returned(10)
  {
    var p := Policy({ValueError, TimeoutError}, -1, 0, 1, 0, None);
    NotRetryable<int, Kind>(p, [Err(SyntaxError)], 0, SyntaxError);
    var s := [Err(ValueError), Err(TimeoutError), Ok(10)];
    assert RetryablePrefix(p, s, 2);
    SleepsOfSuccess(p, 2, s);
  }

  /** Three tries of an always failing operation: three calls, and the third failure is raised. */
  lemma Tries()
    ensures var e := Execute<int, Kind>(Policy({TimeoutError}, 3, 0, 1, 0, None),
                                        [Err(TimeoutError), Err(TimeoutError), Err(TimeoutError), Err(TimeoutError)]);
      e.result == Raised(TimeoutError) && Calls(e.trace) == 3 && |Sleeps(e.trace)| == 2
  {
    var p := Policy({TimeoutError}, 3, 0, 1, 0, None);
    var s: seq<Outcome<int, Kind>> := [Err(TimeoutError), Err(TimeoutError), Err(TimeoutError), Err(TimeoutError)];
    assert RetryablePrefix(p, s, 3);
    Exhausted(p, s);
  }

  /** Constant interval 1: waits [1, 1]. */
  lemma FixedInterval()
    ensures var e := Execute(Policy({TimeoutError}, 3, 1, 1, 0, None), [Err(TimeoutError), Err(TimeoutError), Ok(10)]);
      e.result == Returned(10) && Sleeps(e.trace) == [1, 1]
  {
    var p, s := Policy({TimeoutError}, 3, 1, 1, 0, None), [Err(TimeoutError), Err(TimeoutError), Ok(10)];
    assert RetryablePrefix(p, s, 2);
    SleepsOfSuccess(p, 2, s);
  }

  /** Multiplier 2 from interval 1: waits [1, 2, 4]. */
  lemma Multiplier()
    ensures var e := Execute(Policy({TimeoutError}, 4, 1, 2, 0, None),
                             [Err(TimeoutError), Err(TimeoutError), Err(TimeoutError), Ok(10)]);
      e.result == Returned(10) && Sleeps(e.trace) == [1, 2, 4]
  {
    var p := Policy({TimeoutError}, 4, 1, 2, 0, None);
    var s := [Err(TimeoutError), Err(TimeoutError), Err(TimeoutError), Ok(10)];
    assert RetryablePrefix(p, s, 3);
    SleepsOfSuccess(p, 3, s);
  }

  /** Addend 1 from interval 1: waits [1, 2, 3]. */
  lemma Addend()
    ensures var e := Execute(Policy({TimeoutError}, 4, 1, 1, 1, None),
                             [Err(TimeoutError), Err(TimeoutError), Err(TimeoutError), Ok(10)]);
      e.result == Returned(10) && Sleeps(e.trace) == [1, 2, 3]
  {
    var p := Policy({TimeoutError}, 4, 1, 1, 1, None);
    var s := [Err(TimeoutError), Err(TimeoutError), Err(TimeoutError), Ok(10)];
    assert RetryablePrefix(p, s, 3);
    SleepsOfSuccess(p, 3, s);
  }

  /** Addend 1 capped at 3, unbounded tries: waits [1, 2, 3, 3]. */
  lemma MaxInterval()
    ensures var e := Execute(Policy({TimeoutError}, -1, 1, 1, 1, Some(3)),
                             [Err(TimeoutError), Err(TimeoutError), Err(TimeoutError), Err(TimeoutError), Ok(10)]);
      e.result == Returned(10) && Sleeps(e.trace) == [1, 2, 3, 3]
  {
    var p := Policy({TimeoutError}, -1, 1, 1, 1, Some(3));
    var s := [Err(TimeoutError), Err(TimeoutError), Err(TimeoutError), Err(TimeoutError), Ok(10)];
    assert RetryablePrefix(p, s, 4);
    SleepsOfSuccess(p, 4, s);
  }
}
