/** The retry runner: how often one error may repeat and how long the runner pauses. */
module Retry {
  /** An error as the runner sees it: retryable or not, and the key it is counted under. */
  datatype Failure = Failure(retryable: bool, key: string)

  datatype FnResult = Nil | Error(failure: Failure)

  /** One round of the loop as the environment decides it: whether the context is already
      cancelled, what Fn returns, and whether a cancellation arrives during the call or the pause. */
  datatype Round = Round(cancelledBefore: bool, fn: FnResult, cancelledAfter: bool, cancelledInPause: bool)

  datatype Outcome = ReturnedNil | NonRetryable | GaveUp(failures: nat) | StillRunning

  // ---- the declarative side: functions of the key history --------------------

  /** The length of the longest suffix of equal keys. */
  function SuffixRun(keys: seq<string>): (n: nat)
    ensures keys != [] ==> n >= 1
  {
    if keys == [] then 0
    else if |keys| >= 2 && keys[|keys| - 2] == keys[|keys| - 1] then 1 + SuffixRun(keys[..|keys| - 1])
    else 1
  }

  /** It is the longest one: all its keys are equal, and the key before it differs. */
  lemma {:induction false} SuffixRunIsLongest(keys: seq<string>)
    ensures SuffixRun(keys) <= |keys|
    ensures forall i :: |keys| - SuffixRun(keys) <= i < |keys| ==> keys[i] == keys[|keys| - 1]
    ensures SuffixRun(keys) < |keys| ==> keys[|keys| - SuffixRun(keys) - 1] != keys[|keys| - 1]
  {
    if |keys| >= 2 && keys[|keys| - 2] == keys[|keys| - 1] {
      SuffixRunIsLongest(keys[..|keys| - 1]);
    }
  }

  /** The number of maximal blocks of equal keys. */
  function Blocks(keys: seq<string>): (b: nat)
    ensures b <= |keys|
    ensures keys != [] ==> b >= 1
  {
    if keys == [] then 0
    else if |keys| >= 2 && keys[|keys| - 2] == keys[|keys| - 1] then Blocks(keys[..|keys| - 1])
    else 1 + Blocks(keys[..|keys| - 1])
  }

  /** The pause after a run of n equal failures. */
  function PauseFor(intervals: seq<int>, n: nat): int
    requires intervals != []
  {
    intervals[if n == 0 then 0 else if n - 1 < |intervals| then n - 1 else |intervals| - 1]
  }

  /** The run length after each key. */
  function Runs(keys: seq<string>): (r: seq<nat>)
    ensures |r| == |keys|
  {
    if keys == [] then [] else Runs(keys[..|keys| - 1]) + [SuffixRun(keys)]
  }

  lemma {:induction false} RunsAt(keys: seq<string>, i: nat)
    requires i < |keys|
    ensures Runs(keys)[i] == SuffixRun(keys[..i + 1])
  {
    var n := |keys| - 1;
    if i < n {
      RunsAt(keys[..n], i);
      assert keys[..n][..i + 1] == keys[..i + 1];
    } else {
      assert keys[..n + 1] == keys;
    }
  }

  /** None of the runs in the half-open range reached the limit. */
  ghost predicate BelowLimit(runs: seq<nat>, from: nat, to: int, max: int) {
    forall i :: from <= i < to && i < |runs| ==> runs[i] < max
  }

  lemma MulSucc(a: int, b: int)
    ensures a * (b + 1) == a * b + a
  {
  }

  /** A history that stayed below the limit until its last key has few keys per block. */
  lemma {:induction false} FewFailuresPerBlock(keys: seq<string>, max: nat)
    requires max >= 1 && keys != []
    requires BelowLimit(Runs(keys), 0, |keys| - 1, max)
    ensures SuffixRun(keys) <= max
    ensures |keys| <= (max - 1) * (Blocks(keys) - 1) + SuffixRun(keys)
  {
    var n := |keys| - 1;
    if n > 0 {
      var rest := keys[..n];
      var runs := Runs(rest);
      assert Runs(keys)[..n] == runs;
      assert runs[n - 1] == SuffixRun(rest);
      assert forall i :: 0 <= i < n ==> Runs(keys)[i] == runs[i];
      FewFailuresPerBlock(rest, max);
      MulSucc(max - 1, Blocks(rest) - 1);
    }
  }

  // ---- one run as a function of its rounds and of the history so far -----------------

  datatype RunResult = RunResult(outcome: Outcome, calls: nat, keys: seq<string>, pauses: seq<int>)

  /** The run from round n on, with the failures counted and the pauses made before. */
  function RunFrom(rounds: seq<Round>, n: nat, keys: seq<string>, pauses: seq<int>,
                   max: int, intervals: seq<int>): RunResult
    requires n <= |rounds| && intervals != []
    decreases |rounds| - n
  {
    if n == |rounds| then RunResult(StillRunning, n, keys, pauses)
    else if rounds[n].cancelledBefore then RunResult(ReturnedNil, n, keys, pauses)
    else if rounds[n].fn.Nil? || rounds[n].cancelledAfter then RunResult(ReturnedNil, n + 1, keys, pauses)
    else if !rounds[n].fn.failure.retryable then RunResult(NonRetryable, n + 1, keys, pauses)
    else
      var keys' := keys + [rounds[n].fn.failure.key];
      var run := SuffixRun(keys');
      if run >= max then RunResult(GaveUp(run), n + 1, keys', pauses)
      else
        var pauses' := pauses + [PauseFor(intervals, run)];
        if rounds[n].cancelledInPause then RunResult(ReturnedNil, n + 1, keys', pauses')
        else RunFrom(rounds, n + 1, keys', pauses', max, intervals)
  }

  lemma RunsSnoc(keys: seq<string>, key: string)
    ensures Runs(keys + [key]) == Runs(keys) + [SuffixRun(keys + [key])]
  {
    assert (keys + [key])[..|keys|] == keys;
  }

  /** The keys added to the history are those of the first rounds, each a retryable failure. */
  ghost predicate Records(rounds: seq<Round>, before: seq<string>, now: seq<string>) {
    && before <= now && |now| - |before| <= |rounds|
    && forall i :: 0 <= i < |now| - |before| ==>
         rounds[i].fn == Error(Failure(true, now[|before| + i]))
  }

  lemma RecordsGrow(rounds: seq<Round>, before: seq<string>, now: seq<string>, key: string)
    requires Records(rounds, before, now) && |now| - |before| < |rounds|
    requires rounds[|now| - |before|].fn == Error(Failure(true, key))
    ensures Records(rounds, before, now + [key])
  {
  }

  lemma {:induction false} RunRecords(rounds: seq<Round>, n: nat, before: seq<string>, keys: seq<string>,
                                      pauses: seq<int>, max: int, intervals: seq<int>)
    requires n <= |rounds| && intervals != []
    requires Records(rounds, before, keys) && |keys| == |before| + n
    ensures Records(rounds, before, RunFrom(rounds, n, keys, pauses, max, intervals).keys)
    decreases |rounds| - n
  {
    if n < |rounds| && rounds[n].fn.Error? && rounds[n].fn.failure.retryable {
      var key := rounds[n].fn.failure.key;
      var keys' := keys + [key];
      RecordsGrow(rounds, before, keys, key);
      RunRecords(rounds, n + 1, before, keys', pauses + [PauseFor(intervals, SuffixRun(keys'))], max, intervals);
    }
  }

  /** One key and one pause per failure that does not end the run, and then at most one more call. */
  lemma {:induction false} RunCounts(rounds: seq<Round>, n: nat, before: nat, keys: seq<string>,
                                     pauses: seq<int>, max: int, intervals: seq<int>)
    requires n <= |rounds| && intervals != []
    requires |keys| == before + n && |pauses| == n
    ensures var r := RunFrom(rounds, n, keys, pauses, max, intervals);
            var counted := |r.keys| - before;
            && counted <= r.calls <= counted + 1 && r.calls <= |rounds|
            && |r.pauses| == counted - (if r.outcome.GaveUp? then 1 else 0)
            && (r.outcome.GaveUp? ==> r.calls == counted > 0)
            && (r.outcome.StillRunning? ==> r.calls == |rounds| == counted)
    decreases |rounds| - n
  {
    if n < |rounds| && rounds[n].fn.Error? && rounds[n].fn.failure.retryable {
      var keys' := keys + [rounds[n].fn.failure.key];
      RunCounts(rounds, n + 1, before, keys', pauses + [PauseFor(intervals, SuffixRun(keys'))], max, intervals);
    }
  }

  /** Why a run that did not give up ended. */
  ghost predicate EndedBy(rounds: seq<Round>, counted: nat, r: RunResult)
    requires counted <= r.calls <= |rounds| && r.calls <= counted + 1
  {
    match r.outcome
    case NonRetryable =>
      && r.calls == counted + 1 && !rounds[counted].cancelledAfter
      && rounds[counted].fn.Error? && !rounds[counted].fn.failure.retryable
    case ReturnedNil =>
      if r.calls == counted + 1 then rounds[counted].fn.Nil? || rounds[counted].cancelledAfter
      else
        || (counted < |rounds| && rounds[counted].cancelledBefore)
        || (counted > 0 && rounds[counted - 1].cancelledInPause)
    case _ => true
  }

  lemma {:induction false} RunEnds(rounds: seq<Round>, n: nat, before: nat, keys: seq<string>,
                                   pauses: seq<int>, max: int, intervals: seq<int>)
    requires n <= |rounds| && intervals != []
    requires |keys| == before + n && |pauses| == n
    ensures var r := RunFrom(rounds, n, keys, pauses, max, intervals);
            && before <= |r.keys| && |r.keys| - before <= r.calls <= |rounds| && r.calls <= |r.keys| - before + 1
            && EndedBy(rounds, |r.keys| - before, r)
    decreases |rounds| - n
  {
    if n < |rounds| && rounds[n].fn.Error? && rounds[n].fn.failure.retryable {
      var keys' := keys + [rounds[n].fn.failure.key];
      RunEnds(rounds, n + 1, before, keys', pauses + [PauseFor(intervals, SuffixRun(keys'))], max, intervals);
    }
  }

  /** The run stays below the limit and gives up when, and only when, a run of equal keys reaches it. */
  lemma {:induction false} RunGivesUpAtLimit(rounds: seq<Round>, n: nat, before: nat, keys: seq<string>,
                                             pauses: seq<int>, max: int, intervals: seq<int>)
    requires n <= |rounds| && intervals != [] && before <= |keys|
    requires BelowLimit(Runs(keys), before, |keys|, max)
    ensures var r := RunFrom(rounds, n, keys, pauses, max, intervals);
            && before <= |r.keys|
            && BelowLimit(Runs(r.keys), before, |r.keys| - (if r.outcome.GaveUp? then 1 else 0), max)
            && (r.outcome.GaveUp? ==> r.keys != [] && r.outcome.failures == SuffixRun(r.keys) >= max)
    decreases |rounds| - n
  {
    if n < |rounds| && rounds[n].fn.Error? && rounds[n].fn.failure.retryable {
      var key := rounds[n].fn.failure.key;
      var keys' := keys + [key];
      RunsSnoc(keys, key);
      if SuffixRun(keys') < max {
        var pauses' := pauses + [PauseFor(intervals, SuffixRun(keys'))];
        RunGivesUpAtLimit(rounds, n + 1, before, keys', pauses', max, intervals);
      }
    }
  }

  /** After n equal failures in a row the pause is the n-th interval, or the last one if there are
      fewer. */
  ghost predicate PauseFits(intervals: seq<int>, n: nat, pause: int) {
    n >= 1 && intervals != [] && pause == if n <= |intervals| then intervals[n - 1] else intervals[|intervals| - 1]
  }

  /** The i-th pause fits the i-th run from the given one on. */
  ghost predicate PausesFit(intervals: seq<int>, runs: seq<nat>, from: nat, pauses: seq<int>) {
    && from + |pauses| <= |runs|
    && forall i :: 0 <= i < |pauses| ==> PauseFits(intervals, runs[from + i], pauses[i])
  }

  lemma PausesGrow(intervals: seq<int>, runs: seq<nat>, from: nat, pauses: seq<int>, run: nat, pause: int)
    requires PausesFit(intervals, runs, from, pauses) && |runs| == from + |pauses|
    ensures PausesFit(intervals, runs + [run], from, pauses)
    ensures PauseFits(intervals, run, pause) ==> PausesFit(intervals, runs + [run], from, pauses + [pause])
  {
    var more := runs + [run];
    forall i | 0 <= i < |pauses|
      ensures PauseFits(intervals, more[from + i], pauses[i])
    {
      assert PauseFits(intervals, runs[from + i], pauses[i]);
      assert more[from + i] == runs[from + i];
    }
    assert more[from + |pauses|] == run;
  }

  /** Every pause has the length that the run of equal keys before it asks for. */
  lemma {:induction false} RunPauses(rounds: seq<Round>, n: nat, before: nat, keys: seq<string>,
                                     pauses: seq<int>, max: int, intervals: seq<int>)
    requires n <= |rounds| && intervals != [] && |keys| == before + |pauses|
    requires PausesFit(intervals, Runs(keys), before, pauses)
    ensures var r := RunFrom(rounds, n, keys, pauses, max, intervals);
            PausesFit(intervals, Runs(r.keys), before, r.pauses)
    decreases |rounds| - n
  {
    if n < |rounds| && rounds[n].fn.Error? && rounds[n].fn.failure.retryable {
      var key := rounds[n].fn.failure.key;
      var keys' := keys + [key];
      RunsSnoc(keys, key);
      var pause := PauseFor(intervals, SuffixRun(keys'));
      PausesGrow(intervals, Runs(keys), before, pauses, SuffixRun(keys'), pause);
      RunPauses(rounds, n + 1, before, keys', pauses + [pause], max, intervals);
    }
  }

  lemma {:induction false} FewKeys(keys: seq<string>, max: nat, gaveUp: bool)
    requires max >= 1
    requires BelowLimit(Runs(keys), 0, |keys| - (if gaveUp then 1 else 0), max)
    ensures BelowLimit(Runs(keys), 0, |keys| - 1, max)
    ensures keys != [] ==> SuffixRun(keys) <= max && (!gaveUp ==> SuffixRun(keys) < max)
    ensures |keys| <= (max - 1) * Blocks(keys) + (if gaveUp then 1 else 0)
  {
    if keys != [] {
      var n := |keys| - 1;
      assert Runs(keys)[n] == SuffixRun(keys);
      FewFailuresPerBlock(keys, max);
      MulSucc(max - 1, Blocks(keys) - 1);
    }
  }

  /** A fresh runner with limit max gives up when, and only when, a run of equal keys first has
      length max, and it calls Fn at most (max-1) * blocks + 1 times. */
  lemma FreshRunBounds(rounds: seq<Round>, max: nat, intervals: seq<int>)
    requires max >= 1 && intervals != []
    ensures var r := RunFrom(rounds, 0, [], [], max, intervals);
            && (r.outcome.GaveUp? ==>
                  r.keys != [] && r.outcome.failures == SuffixRun(r.keys) == max && r.calls == |r.keys|)
            && (!r.outcome.GaveUp? && r.keys != [] ==> SuffixRun(r.keys) < max)
            && BelowLimit(Runs(r.keys), 0, |r.keys| - 1, max)
            && r.calls <= (max - 1) * Blocks(r.keys) + 1
  {
    var r := RunFrom(rounds, 0, [], [], max, intervals);
    RunCounts(rounds, 0, 0, [], [], max, intervals);
    RunGivesUpAtLimit(rounds, 0, 0, [], [], max, intervals);
    FewKeys(r.keys, max, r.outcome.GaveUp?);
  }

  // ---- the runner ----------------------------------------------------------------

  class Runner {
    const maxRetriesSameError: int
    const retryIntervals: seq<int>

    var lastErrorKey: string
    var failures: nat

    /** The keys of all retryable failures so far, over all calls of Run. */
    ghost var history: seq<string>

    constructor (maxRetriesSameError: int, retryIntervals: seq<int>)
      ensures this.maxRetriesSameError == maxRetriesSameError && this.retryIntervals == retryIntervals
      ensures Valid() && history == []
    {
      this.maxRetriesSameError := maxRetriesSameError;
      this.retryIntervals := retryIntervals;
      lastErrorKey := "";
      failures := 0;
      history := [];
    }

    /** The two fields are a function of the whole history. */
    ghost predicate Valid()
      reads this
    {
      && failures == SuffixRun(history)
      && lastErrorKey == if history == [] then "" else history[|history| - 1]
    }

    function SleepTime(): int
      requires failures >= 1 && retryIntervals != []
      reads this
    {
      if failures - 1 < |retryIntervals| then retryIntervals[failures - 1]
      else retryIntervals[|retryIntervals| - 1]
    }

    /** Counts one retryable failure. */
    method CountFailure(errorKey: string)
      requires Valid()
      modifies this
      ensures Valid() && history == old(history) + [errorKey]
    {
      if errorKey == lastErrorKey {
        failures := failures + 1;
      } else {
        lastErrorKey := errorKey;
        failures := 1;
      }
      history := history + [errorKey];
      assert history[..|history| - 1] == old(history);
    }

    /** Runs through the given rounds; StillRunning means the rounds are used up, so every
        finite part of every execution is covered. */
    method Run(rounds: seq<Round>) returns (outcome: Outcome, calls: nat, pauses: seq<int>)
      requires Valid() && retryIntervals != []
      modifies this
      ensures Valid()
      ensures RunResult(outcome, calls, history, pauses) ==
              RunFrom(rounds, 0, old(history), [], maxRetriesSameError, retryIntervals)
    {
      calls, pauses := 0, [];
      while calls < |rounds|
        invariant Valid() && calls <= |rounds|
        invariant RunFrom(rounds, calls, history, pauses, maxRetriesSameError, retryIntervals) ==
                  RunFrom(rounds, 0, old(history), [], maxRetriesSameError, retryIntervals)
        decreases |rounds| - calls
      {
        var round := rounds[calls];
        if round.cancelledBefore {
          return ReturnedNil, calls, pauses;
        }
        calls := calls + 1;
        if round.fn.Nil? {
          return ReturnedNil, calls, pauses;
        }
        if round.cancelledAfter {
          return ReturnedNil, calls, pauses;
        }
        if !round.fn.failure.retryable {
          return NonRetryable, calls, pauses;
        }
        CountFailure(round.fn.failure.key);
        if failures >= maxRetriesSameError {
          return GaveUp(failures), calls, pauses;
        }
        pauses := pauses + [SleepTime()];
        if round.cancelledInPause {
          return ReturnedNil, calls, pauses;
        }
      }
      return StillRunning, calls, pauses;
    }
  }
}
