/**
 The bounded retry policy shared by the create and finalize requests. A
 request is attempted with a retry counter, starting at 0. A failed attempt
 with a counter above 5 gives up; otherwise the counter is incremented, the
 client sleeps counter * 5 seconds and tries again. The first successful
 attempt ends the run.

 The network is an oracle: a script of outcomes, one per attempt in order;
 an attempt the script does not cover fails.
 */
module Retry {
  import opened Wrappers

  /** What one HTTP attempt yields: a 2xx response carrying a message id, or a connection or status error. */
  datatype Outcome = Delivered(id: string) | Failed

  /** The counter above which a failure is final. */
  const MaxRetryCount: nat := 5

  function OutcomeAt(outcomes: seq<Outcome>, i: nat): Outcome
  {
    if i < |outcomes| then outcomes[i] else Failed
  }

  /** The script left after one attempt has been answered. */
  function Rest(outcomes: seq<Outcome>): seq<Outcome>
  {
    if outcomes == [] then [] else outcomes[1..]
  }

  /** The script left after one attempt answers the later attempts as the whole script did. */
  lemma RestShifts(outcomes: seq<Outcome>, i: nat)
    ensures OutcomeAt(Rest(outcomes), i) == OutcomeAt(outcomes, i + 1)
  {
  }

  /** What a run did: how many requests it sent, the sleeps between them, and the id it got, if any. */
  datatype Run = Run(attempts: nat, delays: seq<nat>, delivered: Option<string>)

  /**
   The run started with counter `retryCount`, stated as the source's own
   self-recursion: each failed attempt that may retry sleeps and recurs with
   the incremented counter. Every run makes at least one attempt, and exactly
   one sleep falls between each two consecutive attempts.
   */
  function Retrying(retryCount: nat, outcomes: seq<Outcome>): (run: Run)
    ensures run.attempts >= 1 && |run.delays| == run.attempts - 1
    decreases if retryCount > MaxRetryCount then 0 else MaxRetryCount + 1 - retryCount
  {
    match OutcomeAt(outcomes, 0)
    case Delivered(id) => Run(1, [], Some(id))
    case Failed =>
      if retryCount > MaxRetryCount then Run(1, [], None)
      else
        var next := retryCount + 1;
        var rest := Retrying(next, Rest(outcomes));
        Run(1 + rest.attempts, [next * 5] + rest.delays, rest.delivered)
  }

  /**
   `run` consists of `done` attempts, which slept `slept`, followed by the run
   `rest` still to come.
   */
  ghost predicate SplitAt(run: Run, done: nat, slept: seq<nat>, rest: Run)
  {
    run == Run(done + rest.attempts, slept + rest.delays, rest.delivered)
  }

  /** When the next attempt is the last one, the run ends with it and takes no further sleep. */
  lemma SplitAtLast(run: Run, done: nat, slept: seq<nat>, retryCount: nat, outcomes: seq<Outcome>)
    requires SplitAt(run, done, slept, Retrying(retryCount, outcomes))
    requires OutcomeAt(outcomes, 0).Delivered? || retryCount > MaxRetryCount
    ensures run == Run(done + 1, slept, IdOf(OutcomeAt(outcomes, 0)))
  {
    assert slept + [] == slept;
  }

  /** When the next attempt fails and may be retried, the run continues after one more sleep. */
  lemma SplitAtRetry(run: Run, done: nat, slept: seq<nat>, retryCount: nat, outcomes: seq<Outcome>)
    requires SplitAt(run, done, slept, Retrying(retryCount, outcomes))
    requires OutcomeAt(outcomes, 0).Failed? && retryCount <= MaxRetryCount
    ensures SplitAt(run, done + 1, slept + [(retryCount + 1) * 5], Retrying(retryCount + 1, Rest(outcomes)))
  {
    var next := Retrying(retryCount + 1, Rest(outcomes));
    ConcatAssoc(slept, [(retryCount + 1) * 5], next.delays);
  }

  /** The most attempts a run started with counter `retryCount` can make. */
  function Budget(retryCount: nat): (n: nat)
    ensures n >= 1
  {
    if retryCount > MaxRetryCount then 1 else MaxRetryCount + 2 - retryCount
  }

  /** The sleeps taken before the 2nd, 3rd, ... (n+1)th attempt of a run started with counter `retryCount`. */
  function Delays(retryCount: nat, n: nat): (ds: seq<nat>)
    ensures |ds| == n
    ensures forall i :: 0 <= i < n ==> ds[i] == (retryCount + i + 1) * 5
    decreases n
  {
    if n == 0 then [] else [(retryCount + 1) * 5] + Delays(retryCount + 1, n - 1)
  }

  /** The id a single attempt yields. */
  function IdOf(outcome: Outcome): Option<string>
  {
    match outcome
    case Delivered(id) => Some(id)
    case Failed => None
  }

  /**
   A run in closed form: it makes between one and Budget attempts, every
   attempt but the last failed, the last one decides the result, a run that
   got no id used up its whole budget, and the sleeps grow linearly.
   */
  lemma {:induction false} RetryingRun(retryCount: nat, outcomes: seq<Outcome>)
    ensures 1 <= Retrying(retryCount, outcomes).attempts <= Budget(retryCount)
    ensures forall i :: 0 <= i < Retrying(retryCount, outcomes).attempts - 1 ==> OutcomeAt(outcomes, i) == Failed
    ensures Retrying(retryCount, outcomes).delivered
      == IdOf(OutcomeAt(outcomes, Retrying(retryCount, outcomes).attempts - 1))
    ensures Retrying(retryCount, outcomes).delivered.None?
      ==> Retrying(retryCount, outcomes).attempts == Budget(retryCount)
    ensures Retrying(retryCount, outcomes).delays
      == Delays(retryCount, Retrying(retryCount, outcomes).attempts - 1)
    decreases if retryCount > MaxRetryCount then 0 else MaxRetryCount + 1 - retryCount
  {
    if OutcomeAt(outcomes, 0).Failed? && retryCount <= MaxRetryCount {
      var rest := Rest(outcomes);
      var next := retryCount + 1;
      RetryingRun(next, rest);
      var r := Retrying(next, rest);
      var run := Retrying(retryCount, outcomes);
      assert run == Run(1 + r.attempts, [next * 5] + r.delays, r.delivered);
      assert Budget(next) == Budget(retryCount) - 1;
      forall i | 0 <= i < run.attempts - 1
        ensures OutcomeAt(outcomes, i) == Failed
      {
        if i > 0 {
          RestShifts(outcomes, i - 1);
        }
      }
      RestShifts(outcomes, r.attempts - 1);
      assert Delays(retryCount, r.attempts) == [next * 5] + Delays(next, r.attempts - 1);
    }
  }

  /** When every attempt within the budget fails, the run uses up the budget and gets no id. */
  lemma AllFailuresExhaustBudget(retryCount: nat, outcomes: seq<Outcome>)
    requires forall i :: 0 <= i < Budget(retryCount) ==> OutcomeAt(outcomes, i) == Failed
    ensures Retrying(retryCount, outcomes)
      == Run(Budget(retryCount), Delays(retryCount, Budget(retryCount) - 1), None)
  {
    RetryingRun(retryCount, outcomes);
  }

  /**
   From the default counter 0, a run that never succeeds makes exactly seven
   attempts, sleeping 5, 10, 15, 20, 25 and 30 seconds between them.
   */
  lemma AllFailuresFromZero(outcomes: seq<Outcome>)
    requires forall i :: 0 <= i < 7 ==> OutcomeAt(outcomes, i) == Failed
    ensures Retrying(0, outcomes) == Run(7, [5, 10, 15, 20, 25, 30], None)
  {
    AllFailuresExhaustBudget(0, outcomes);
    assert Delays(0, 6) == [5, 10, 15, 20, 25, 30];
  }

  /** The first successful attempt ends the run: nothing is attempted or slept after it. */
  lemma FirstSuccessEnds(retryCount: nat, outcomes: seq<Outcome>, j: nat, id: string)
    requires j < Budget(retryCount)
    requires forall i :: 0 <= i < j ==> OutcomeAt(outcomes, i) == Failed
    requires OutcomeAt(outcomes, j) == Delivered(id)
    ensures Retrying(retryCount, outcomes) == Run(j + 1, Delays(retryCount, j), Some(id))
  {
    RetryingRun(retryCount, outcomes);
  }

  /** A run gets an id exactly when some attempt within the budget succeeds. */
  lemma DeliveredIffSomeSuccess(retryCount: nat, outcomes: seq<Outcome>)
    ensures Retrying(retryCount, outcomes).delivered.Some?
      <==> exists j :: 0 <= j < Budget(retryCount) && OutcomeAt(outcomes, j).Delivered?
  {
    RetryingRun(retryCount, outcomes);
    var run := Retrying(retryCount, outcomes);
    if run.delivered.Some? {
      assert OutcomeAt(outcomes, run.attempts - 1).Delivered?;
    } else {
      assert forall i :: 0 <= i < Budget(retryCount) ==> OutcomeAt(outcomes, i) == Failed;
    }
  }
}
