/** The consecutive-fault counters of TumanakoInverter (throttle too high,
    throttle too low, direction both selected, motor stalled) all follow the
    same rule: one more on a bad reading, back to zero on a good one. Over a
    run of readings such a counter is therefore the number of bad readings at
    the end of the run, and it exceeds k exactly when the last k + 1 readings
    were all bad. */
module FaultCounters {
  import opened InverterLogic

  /** The counter after the readings `bad`, oldest first, from `count`. */
  function CountAfter(count: int, bad: seq<bool>): int
    decreases |bad|
  {
    if bad == [] then count else CountAfter(CountStep(count, bad[0]), bad[1..])
  }

  /** How many readings at the end of `bad` are bad. */
  function TrailingRun(bad: seq<bool>): (n: nat)
    ensures n <= |bad|
  {
    if bad == [] then 0
    else if bad[|bad| - 1] then TrailingRun(bad[..|bad| - 1]) + 1
    else 0
  }

  /** The last k readings of `bad` are all bad. */
  predicate LastAllBad(bad: seq<bool>, k: nat)
    requires k <= |bad|
  {
    forall i :: |bad| - k <= i < |bad| ==> bad[i]
  }

  lemma {:induction false} TrailingRunIsAll(bad: seq<bool>)
    ensures TrailingRun(bad) == |bad| <==> LastAllBad(bad, |bad|)
  {
    if bad != [] {
      var init := bad[..|bad| - 1];
      TrailingRunIsAll(init);
      if TrailingRun(bad) == |bad| {
        assert LastAllBad(init, |init|);
        forall i | 0 <= i < |bad|
          ensures bad[i]
        {
          if i < |init| { assert init[i] == bad[i]; }
        }
      }
      if LastAllBad(bad, |bad|) {
        forall i | 0 <= i < |init|
          ensures init[i]
        {
          assert init[i] == bad[i];
        }
      }
    }
  }

  /** Putting one reading in front changes the trailing run only when every
      later reading was bad. */
  lemma {:induction false} TrailingRunCons(b: bool, rest: seq<bool>)
    ensures TrailingRun([b] + rest) ==
      if TrailingRun(rest) == |rest| then (if b then |rest| + 1 else |rest|) else TrailingRun(rest)
    decreases |rest|
  {
    if rest != [] {
      var init := rest[..|rest| - 1];
      assert ([b] + rest)[..|[b] + rest| - 1] == [b] + init;
      TrailingRunCons(b, init);
    }
  }

  /** From any starting value, the counter is the trailing run of bad
      readings, plus the starting value if every reading was bad. */
  lemma {:induction false} CountAfterIsTrailingRun(count: int, bad: seq<bool>)
    ensures CountAfter(count, bad) == if TrailingRun(bad) == |bad| then count + |bad| else TrailingRun(bad)
    decreases |bad|
  {
    if bad != [] {
      CountAfterIsTrailingRun(CountStep(count, bad[0]), bad[1..]);
      assert [bad[0]] + bad[1..] == bad;
      TrailingRunCons(bad[0], bad[1..]);
    }
  }

  /** The trailing run exceeds k exactly when the last k + 1 readings were
      bad. */
  lemma {:induction false} TrailingRunExceeds(bad: seq<bool>, k: nat)
    ensures TrailingRun(bad) > k <==> |bad| > k && LastAllBad(bad, k + 1)
    decreases |bad|
  {
    if bad != [] {
      var init := bad[..|bad| - 1];
      if bad[|bad| - 1] && k > 0 {
        TrailingRunExceeds(init, k - 1);
        if |bad| > k && LastAllBad(bad, k + 1) {
          forall i | |init| - k <= i < |init|
            ensures init[i]
          {
            assert init[i] == bad[i];
          }
        }
        if TrailingRun(bad) > k {
          forall i | |bad| - (k + 1) <= i < |bad|
            ensures bad[i]
          {
            if i < |init| { assert init[i] == bad[i]; }
          }
        }
      }
    }
  }

  /** A counter that starts from zero exceeds k exactly when the last k + 1
      readings were all bad: k or fewer bad readings in a row never reach
      it. */
  lemma FaultCounterExceeds(bad: seq<bool>, k: nat)
    ensures CountAfter(0, bad) > k <==> |bad| > k && LastAllBad(bad, k + 1)
  {
    CountAfterIsTrailingRun(0, bad);
    TrailingRunExceeds(bad, k);
  }

  lemma {:induction false} CountAfterAppend(count: int, bad: seq<bool>, b: bool)
    ensures CountAfter(count, bad + [b]) == CountStep(CountAfter(count, bad), b)
    decreases |bad|
  {
    if bad != [] {
      assert (bad + [b])[1..] == bad[1..] + [b];
      CountAfterAppend(CountStep(count, bad[0]), bad[1..], b);
    }
  }

  /** The step taken on one more reading exceeds k exactly when the last
      k + 1 readings, that one included, were all bad. */
  lemma NextReadingExceeds(bad: seq<bool>, b: bool, k: nat)
    ensures CountStep(CountAfter(0, bad), b) > k <==> |bad + [b]| > k && LastAllBad(bad + [b], k + 1)
  {
    CountAfterAppend(0, bad, b);
    FaultCounterExceeds(bad + [b], k);
  }

  /** The same with an inclusive threshold: the step reaches n exactly when
      the last n readings, that one included, were all bad. */
  lemma NextReadingReaches(bad: seq<bool>, b: bool, n: nat)
    requires n > 0
    ensures CountStep(CountAfter(0, bad), b) >= n <==> |bad| + 1 >= n && LastAllBad(bad + [b], n)
  {
    NextReadingExceeds(bad, b, n - 1);
  }
}
