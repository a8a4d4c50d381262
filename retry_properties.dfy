/**
 * What `retry_call` (retry.py) promises, proved about the run `Execute`:
 * success, propagation of an uncaught failure, exhaustion of the budget,
 * the unbounded and the zero budget, the sequence of waits and the pairing
 * of every warning with one sleep.
 */
module RetryProperties {
  import opened RetrySpec

  // ---------------------------------------------------------------- traces

  /** Counting calls distributes over concatenation of traces. */
  lemma {:induction false} CallsAppend<K>(t: seq<Event<K>>, u: seq<Event<K>>)
    ensures Calls(t + u) == Calls(t) + Calls(u)
  {
    if t != [] {
      assert (t + u)[1..] == t[1..] + u;
      CallsAppend(t[1..], u);
    } else {
      assert t + u == u;
    }
  }

  /** Collecting sleeps distributes over concatenation of traces. */
  lemma {:induction false} SleepsAppend<K>(t: seq<Event<K>>, u: seq<Event<K>>)
    ensures Sleeps(t + u) == Sleeps(t) + Sleeps(u)
  {
    if t != [] {
      assert (t + u)[1..] == t[1..] + u;
      SleepsAppend(t[1..], u);
    } else {
      assert t + u == u;
    }
  }

  /** Collecting warnings distributes over concatenation of traces. */
  lemma {:induction false} LoggedAppend<K>(t: seq<Event<K>>, u: seq<Event<K>>)
    ensures Logged(t + u) == Logged(t) + Logged(u)
  {
    if t != [] {
      assert (t + u)[1..] == t[1..] + u;
      LoggedAppend(t[1..], u);
    } else {
      assert t + u == u;
    }
  }

  lemma ViewsAppend<K>(t: seq<Event<K>>, u: seq<Event<K>>)
    ensures Calls(t + u) == Calls(t) + Calls(u)
    ensures Sleeps(t + u) == Sleeps(t) + Sleeps(u)
    ensures Logged(t + u) == Logged(t) + Logged(u)
  {
    CallsAppend(t, u);
    SleepsAppend(t, u);
    LoggedAppend(t, u);
  }

  /** One round holds one call, one sleep and one warning, in that order after the call. */
  lemma RoundViews<K>(k: K, w: nat)
    ensures Calls(Round(k, w)) == 1
    ensures Sleeps(Round(k, w)) == [w]
    ensures Logged(Round(k, w)) == [Warned(k, w)]
  {
    var r := Round(k, w);
    var r1, r2: seq<Event<K>> := [Warned(k, w), Slept(w)], [Slept(w)];
    assert r[1..] == r1 && r1[1..] == r2 && r2[1..] == [];
    assert Calls(r2) == 0 && Sleeps(r2) == [w] && Logged(r2) == [];
    assert Calls(r1) == 0 && Sleeps(r1) == [w] && Logged(r1) == [Warned(k, w)];
  }

  /** n retried failures call the operation n times, and the trace of them starts with a call. */
  lemma {:induction false} RoundsCalls<V, K>(p: Policy<K>, script: seq<Outcome<V, K>>, n: nat)
    requires RetryablePrefix(p, script, n)
    ensures |Rounds(p, script, n)| == 3 * n
    ensures n > 0 ==> Rounds(p, script, n)[0] == Called
    ensures Calls(Rounds(p, script, n)) == n
  {
    if n > 0 {
      var k, w := script[n - 1].kind, Interval(p, n - 1);
      RoundsCalls(p, script, n - 1);
      CallsAppend(Rounds(p, script, n - 1), Round(k, w));
      RoundViews(k, w);
    }
  }

  /** n retried failures sleep n times, the i-th time for the i-th interval of the recurrence. */
  lemma {:induction false} RoundsSleeps<V, K>(p: Policy<K>, script: seq<Outcome<V, K>>, n: nat)
    requires RetryablePrefix(p, script, n)
    ensures |Sleeps(Rounds(p, script, n))| == n
    ensures forall i :: 0 <= i < n ==> Sleeps(Rounds(p, script, n))[i] == Interval(p, i)
  {
    if n > 0 {
      var k, w := script[n - 1].kind, Interval(p, n - 1);
      RoundsSleeps(p, script, n - 1);
      SleepsAppend(Rounds(p, script, n - 1), Round(k, w));
      RoundViews(k, w);
    }
  }

  /** n retried failures log n warnings, the i-th with the i-th failure and the i-th interval. */
  lemma {:induction false} RoundsLogged<V, K>(p: Policy<K>, script: seq<Outcome<V, K>>, n: nat)
    requires RetryablePrefix(p, script, n)
    ensures |Logged(Rounds(p, script, n))| == n
    ensures forall i :: 0 <= i < n ==> Logged(Rounds(p, script, n))[i] == Warned(script[i].kind, Interval(p, i))
  {
    if n > 0 {
      var k, w := script[n - 1].kind, Interval(p, n - 1);
      RoundsLogged(p, script, n - 1);
      LoggedAppend(Rounds(p, script, n - 1), Round(k, w));
      RoundViews(k, w);
    }
  }

  lemma RoundsViews<V, K>(p: Policy<K>, script: seq<Outcome<V, K>>, n: nat)
    requires RetryablePrefix(p, script, n)
    ensures |Rounds(p, script, n)| == 3 * n
    ensures n > 0 ==> Rounds(p, script, n)[0] == Called
    ensures Calls(Rounds(p, script, n)) == n
    ensures |Sleeps(Rounds(p, script, n))| == n && |Logged(Rounds(p, script, n))| == n
    ensures forall i :: 0 <= i < n ==> Sleeps(Rounds(p, script, n))[i] == Interval(p, i)
    ensures forall i :: 0 <= i < n ==> Logged(Rounds(p, script, n))[i] == Warned(script[i].kind, Interval(p, i))
  {
    RoundsCalls(p, script, n);
    RoundsSleeps(p, script, n);
    RoundsLogged(p, script, n);
  }

  // ---------------------------------------------------------------- the run

  /**
   * A run whose first n attempts are caught failures within the budget is
   * n rounds of call, warning and sleep followed by the run from attempt n,
   * with n tries spent and the interval advanced n times.
   */
  lemma {:induction false} Unroll<V, K>(p: Policy<K>, script: seq<Outcome<V, K>>, n: nat)
    requires RetryablePrefix(p, script, n) && WithinBudget(p, n)
    ensures Execute(p, script)
         == Execution(ExecuteFrom(p, script[n..], p.tries - n, Interval(p, n)).result,
                      Rounds(p, script, n) + ExecuteFrom(p, script[n..], p.tries - n, Interval(p, n)).trace)
  {
    if n > 0 {
      Unroll(p, script, n - 1);
      var m := n - 1;
      var k := script[m].kind;
      assert script[m..][0] == script[m] && script[m..][1..] == script[n..];
      var rest := ExecuteFrom(p, script[n..], p.tries - n, Interval(p, n));
      assert ExecuteFrom(p, script[m..], p.tries - m, Interval(p, m))
          == Execution(rest.result, Round(k, Interval(p, m)) + rest.trace);
      assert Rounds(p, script, m) + (Round(k, Interval(p, m)) + rest.trace)
          == Rounds(p, script, n) + rest.trace;
    }
  }

  /**
   * Success: when the first n attempts are caught failures within the budget
   * and attempt n returns v, the run returns v after n + 1 calls, with the
   * last call the final event.
   */
  lemma Success<V, K>(p: Policy<K>, script: seq<Outcome<V, K>>, n: nat, v: V)
    requires RetryablePrefix(p, script, n) && WithinBudget(p, n)
    requires n < |script| && script[n] == Ok(v)
    ensures Execute(p, script) == Execution(Returned(v), Rounds(p, script, n) + [Called])
    ensures Calls(Execute(p, script).trace) == n + 1
    ensures |Sleeps(Execute(p, script).trace)| == n
  {
    Unroll(p, script, n);
    assert script[n..][0] == Ok(v);
    RoundsViews(p, script, n);
    ViewsAppend(Rounds(p, script, n), [Called]);
  }

  /**
   * An uncaught failure propagates unchanged from attempt n: nothing is
   * logged, slept or attempted after it, so the call is the last event.
   */
  lemma NotRetryable<V, K>(p: Policy<K>, script: seq<Outcome<V, K>>, n: nat, k: K)
    requires RetryablePrefix(p, script, n) && WithinBudget(p, n)
    requires n < |script| && script[n] == Err(k) && k !in p.retryable
    ensures Execute(p, script) == Execution(Raised(k), Rounds(p, script, n) + [Called])
    ensures Calls(Execute(p, script).trace) == n + 1
    ensures |Sleeps(Execute(p, script).trace)| == n && |Logged(Execute(p, script).trace)| == n
  {
    Unroll(p, script, n);
    assert script[n..][0] == Err(k);
    RoundsViews(p, script, n);
    ViewsAppend(Rounds(p, script, n), [Called]);
  }

  /**
   * Exhaustion: with a budget of N > 0 tries and N caught failures, the
   * operation is called exactly N times, the N-th failure itself is raised,
   * and only N - 1 sleeps happen (none after the last failure).
   */
  lemma Exhausted<V, K>(p: Policy<K>, script: seq<Outcome<V, K>>)
    requires p.tries > 0 && RetryablePrefix(p, script, p.tries)
    ensures Execute(p, script)
         == Execution(Raised(script[p.tries - 1].kind), Rounds(p, script, p.tries - 1) + [Called])
    ensures Calls(Execute(p, script).trace) == p.tries
    ensures |Sleeps(Execute(p, script).trace)| == p.tries - 1
  {
    var n := p.tries - 1;
    assert RetryablePrefix(p, script, n);
    Unroll(p, script, n);
    assert script[n..][0] == script[n];
    RoundsViews(p, script, n);
    ViewsAppend(Rounds(p, script, n), [Called]);
  }

  /** A zero budget never calls the operation, logs and sleeps nothing, and returns None. */
  lemma ZeroBudget<V, K>(p: Policy<K>, script: seq<Outcome<V, K>>)
    requires p.tries == 0
    ensures Execute(p, script) == Execution(NoneReturned, [])
  {
  }

  /**
   * Every run with a non-zero budget ends at some attempt n, as `EndsAt`
   * describes, unless the script runs out first, in which case all its
   * outcomes were caught failures within the budget.
   */
  lemma {:induction false} EndsSomewhere<V, K>(p: Policy<K>, script: seq<Outcome<V, K>>, n: nat)
    requires p.tries != 0 && RetryablePrefix(p, script, n) && WithinBudget(p, n)
    ensures var e := Execute(p, script);
      || (exists m :: n <= m < |script| && EndsAt(p, script, m, e))
      || (RetryablePrefix(p, script, |script|) && WithinBudget(p, |script|)
          && e == Execution(ScriptExhausted, Rounds(p, script, |script|)))
    decreases |script| - n
  {
    var e := Execute(p, script);
    Unroll(p, script, n);
    if n == |script| {
      assert script[n..] == [];
    } else {
      assert script[n..][0] == script[n] && script[n..][1..] == script[n + 1..];
      match script[n]
      case Ok(v) =>
        assert EndsAt(p, script, n, e);
      case Err(k) =>
        if k !in p.retryable || p.tries - n == 1 {
          assert EndsAt(p, script, n, e);
        } else {
          assert RetryablePrefix(p, script, n + 1);
          EndsSomewhere(p, script, n + 1);
        }
    }
  }

  /** The shape of every run: no run, one ending at some attempt, or one cut off by the end of the script. */
  lemma Shape<V, K>(p: Policy<K>, script: seq<Outcome<V, K>>)
    ensures var e := Execute(p, script);
      || (p.tries == 0 && e == Execution(NoneReturned, []))
      || (exists n :: 0 <= n < |script| && EndsAt(p, script, n, e))
      || (p.tries != 0 && RetryablePrefix(p, script, |script|) && WithinBudget(p, |script|)
          && e == Execution(ScriptExhausted, Rounds(p, script, |script|)))
  {
    if p.tries != 0 {
      EndsSomewhere(p, script, 0);
    }
  }

  /**
   * The run needs more outcomes than the script holds exactly when the budget
   * is not zero and every outcome of the script is a caught failure that
   * leaves budget for another attempt.
   */
  lemma ScriptExhaustedIff<V, K>(p: Policy<K>, script: seq<Outcome<V, K>>)
    ensures Execute(p, script).result == ScriptExhausted
        <==> p.tries != 0 && RetryablePrefix(p, script, |script|) && WithinBudget(p, |script|)
  {
    var e := Execute(p, script);
    Shape(p, script);
    if p.tries != 0 && RetryablePrefix(p, script, |script|) && WithinBudget(p, |script|) {
      Unroll(p, script, |script|);
      assert script[|script|..] == [];
    } else if exists n :: 0 <= n < |script| && EndsAt(p, script, n, e) {
      var n :| 0 <= n < |script| && EndsAt(p, script, n, e);
      assert e.result != ScriptExhausted;
    }
  }

  /**
   * Unbounded budget: with negative `tries` the budget never runs out, so the
   * run never returns None and a failure it raises is always one the filter
   * does not catch; when the script holds an outcome that stops the run, it
   * is not cut off.
   */
  lemma Unbounded<V, K>(p: Policy<K>, script: seq<Outcome<V, K>>)
    requires p.tries < 0
    ensures Execute(p, script).result != NoneReturned
    ensures Execute(p, script).result.Raised? ==> Execute(p, script).result.kind !in p.retryable
    ensures (exists i :: 0 <= i < |script| && !Retryable(p, script[i]))
        ==> Execute(p, script).result != ScriptExhausted
  {
    var e := Execute(p, script);
    Shape(p, script);
    ScriptExhaustedIff(p, script);
    if exists n :: 0 <= n < |script| && EndsAt(p, script, n, e) {
      var n :| 0 <= n < |script| && EndsAt(p, script, n, e);
      assert e.result != NoneReturned;
    }
  }

  /** The views of a run that ends at attempt n: n + 1 calls, n warnings and n sleeps, a call last. */
  lemma EndsAtViews<V, K>(p: Policy<K>, script: seq<Outcome<V, K>>, n: nat, e: Execution<V, K>)
    requires EndsAt(p, script, n, e)
    ensures e.trace[0] == Called && e.trace[|e.trace| - 1] == Called
    ensures Calls(e.trace) == n + 1
    ensures |Logged(e.trace)| == |Sleeps(e.trace)| == n
    ensures forall k :: 0 <= k < n ==> Sleeps(e.trace)[k] == Interval(p, k)
    ensures forall k :: 0 <= k < n ==> Logged(e.trace)[k] == Warned(script[k].kind, Interval(p, k))
  {
    RoundsViews(p, script, n);
    ViewsAppend(Rounds(p, script, n), [Called]);
    assert Calls<K>([Called]) == 1 && Sleeps<K>([Called]) == [] && Logged<K>([Called]) == [];
  }

  /**
   * Waits and warnings of any run: the first event is a call (the first
   * attempt never sleeps); the k-th sleep lasts Interval(p, k); the k-th
   * warning carries the k-th caught failure and the same interval, so there
   * are as many warnings as sleeps; every call but a final one is followed by
   * a sleep; and a run that returns or raises ends with a call.
   */
  lemma Trace<V, K>(p: Policy<K>, script: seq<Outcome<V, K>>)
    ensures var e := Execute(p, script); var t := e.trace;
      && (t != [] ==> t[0] == Called)
      && |Logged(t)| == |Sleeps(t)| <= |script|
      && (forall k :: 0 <= k < |Sleeps(t)| ==> Sleeps(t)[k] == Interval(p, k))
      && (forall k :: 0 <= k < |Logged(t)| ==> Retryable(p, script[k]) && Logged(t)[k] == Warned(script[k].kind, Interval(p, k)))
      && Calls(t) == |Sleeps(t)| + (if e.result.Returned? || e.result.Raised? then 1 else 0)
      && (e.result.Returned? || e.result.Raised? ==> t[|t| - 1] == Called)
  {
    var e := Execute(p, script);
    Shape(p, script);
    if p.tries == 0 {
    } else if exists n :: 0 <= n < |script| && EndsAt(p, script, n, e) {
      var n :| 0 <= n < |script| && EndsAt(p, script, n, e);
      EndsAtViews(p, script, n, e);
    } else {
      RoundsViews(p, script, |script|);
    }
  }

  // ---------------------------------------------------------------- intervals

  /** With `max_interval` set, every interval after the initial one is at most `max_interval`. */
  lemma IntervalClamped<K>(p: Policy<K>, n: nat)
    requires p.maxInterval.Some? && n >= 1
    ensures Interval(p, n) <= p.maxInterval.value
  {
  }

  /**
   * With multiplier 1 and addend 0 the interval never changes, as long as the
   * initial one is within `max_interval` (if that is set).
   */
  lemma {:induction false} IntervalConstant<K>(p: Policy<K>, n: nat)
    requires p.multiplier == 1 && p.addend == 0
    requires p.maxInterval.Some? ==> p.interval <= p.maxInterval.value
    ensures Interval(p, n) == p.interval
  {
    if n > 0 {
      IntervalConstant(p, n - 1);
    }
  }

  /** b to the power e. */
  function Pow(b: nat, e: nat): nat
  {
    if e == 0 then 1 else b * Pow(b, e - 1)
  }

  /** Without addend and cap the interval grows geometrically: interval * multiplier^n. */
  lemma {:induction false} IntervalGeometric<K>(p: Policy<K>, n: nat)
    requires p.addend == 0 && p.maxInterval.None?
    ensures Interval(p, n) == p.interval * Pow(p.multiplier, n)
  {
    if n > 0 {
      IntervalGeometric(p, n - 1);
      calc {
        Interval(p, n);
        Interval(p, n - 1) * p.multiplier;
        p.interval * Pow(p.multiplier, n - 1) * p.multiplier;
        { assert Pow(p.multiplier, n) == p.multiplier * Pow(p.multiplier, n - 1); }
        p.interval * Pow(p.multiplier, n);
      }
    }
  }

  /** With multiplier 1 and no cap the interval grows arithmetically: interval + n * addend. */
  lemma {:induction false} IntervalArithmetic<K>(p: Policy<K>, n: nat)
    requires p.multiplier == 1 && p.maxInterval.None?
    ensures Interval(p, n) == p.interval + n * p.addend
  {
    if n > 0 {
      IntervalArithmetic(p, n - 1);
    }
  }

  /** With multiplier at least 1 the interval never decreases while it is below the cap. */
  lemma IntervalMonotone<K>(p: Policy<K>, n: nat)
    requires p.multiplier >= 1
    requires p.maxInterval.Some? ==> p.interval <= p.maxInterval.value
    ensures Interval(p, n) <= Interval(p, n + 1)
  {
  }
}
