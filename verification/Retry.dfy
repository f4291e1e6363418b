/** `send_with_retry`: a bounded number of attempts with exponential backoff. */
module Retry {

  const MAX_RETRIES: nat := 5
  const FIRST_DELAY: nat := 1000 // milliseconds
  const FACTOR: nat := 2

  /** What one attempt meets: an HTTP response, an exception of the retryable kinds, or any other. */
  datatype Attempt = Response(status: int, body: string) | RetryableError | OtherError

  predicate Retryable(a: Attempt) {
    a.RetryableError? || (a.Response? && a.status in {500, 502, 503, 504})
  }

  /** What the loop does after the given attempt: hand back the response, let the exception out, or
      sleep and try again. */
  datatype Decision = Return | Raise | SleepAndRetry

  function Decide(limit: nat, attempt: nat, a: Attempt): Decision {
    if a.Response? && !Retryable(a) then Return
    else if a.OtherError? || attempt == limit then Raise
    else SleepAndRetry
  }

  /** The k-th sleep, counted from 0. */
  function DelayAt(firstDelay: nat, factor: nat, k: nat): nat {
    if k == 0 then firstDelay else DelayAt(firstDelay, factor, k - 1) * factor
  }

  function Total(sleeps: seq<nat>): nat {
    if sleeps == [] then 0 else Total(sleeps[..|sleeps| - 1]) + sleeps[|sleeps| - 1]
  }

  /** `Empty` is Python's implicit `None`, which only a limit of 0 can produce. */
  datatype Outcome = Returned(response: Attempt) | Raised(cause: Attempt) | Empty

  /** `sends` attempts were made, all but the last asked for another one, and the last one decided. */
  ghost predicate Follows(limit: nat, target: nat -> Attempt, sends: nat, r: Outcome) {
    && sends <= limit && (sends == 0 <==> limit == 0)
    && (forall k :: 1 <= k < sends ==> Decide(limit, k, target(k)) == SleepAndRetry)
    && match r
       case Empty => limit == 0
       case Returned(a) => sends > 0 && Decide(limit, sends, a) == Return && a == target(sends)
       case Raised(a) => sends > 0 && Decide(limit, sends, a) == Raise && a == target(sends)
  }

  /** `target(k)` is what the k-th attempt meets, counted from 1. */
  method SendWithRetry(limit: nat, firstDelay: nat, factor: nat, target: nat -> Attempt)
    returns (r: Outcome, sends: nat, sleeps: seq<nat>)
    ensures Follows(limit, target, sends, r)
    ensures |sleeps| == if sends == 0 then 0 else sends - 1
    ensures forall k :: 0 <= k < |sleeps| ==> sleeps[k] == DelayAt(firstDelay, factor, k)
  {
    var delay := firstDelay;
    sends, sleeps := 0, [];
    for attempt := 1 to limit + 1
      invariant sends == attempt - 1
      invariant |sleeps| == sends && (sends == limit ==> limit == 0)
      invariant delay == DelayAt(firstDelay, factor, |sleeps|)
      invariant forall k :: 0 <= k < |sleeps| ==> sleeps[k] == DelayAt(firstDelay, factor, k)
      invariant forall k :: 1 <= k <= sends ==> Decide(limit, k, target(k)) == SleepAndRetry
    {
      var a := target(attempt);
      sends := sends + 1;
      if a.Response? && a.status !in {500, 502, 503, 504} {
        return Returned(a), sends, sleeps;
      }
      if a.OtherError? || attempt == limit {
        return Raised(a), sends, sleeps;
      }
      sleeps := sleeps + [delay];
      delay := delay * factor;
    }
    r := Empty;
  }

  function Pow2(n: nat): nat {
    if n == 0 then 1 else 2 * Pow2(n - 1)
  }

  lemma {:induction false} DelayIsDoubled(firstDelay: nat, k: nat)
    ensures DelayAt(firstDelay, 2, k) == firstDelay * Pow2(k)
  {
    if k > 0 {
      DelayIsDoubled(firstDelay, k - 1);
      assert firstDelay * (2 * Pow2(k - 1)) == firstDelay * Pow2(k - 1) * 2;
    }
  }

  lemma {:induction false} TotalAndNextDelay(firstDelay: nat, sleeps: seq<nat>)
    requires forall k :: 0 <= k < |sleeps| ==> sleeps[k] == DelayAt(firstDelay, 2, k)
    ensures Total(sleeps) + firstDelay == DelayAt(firstDelay, 2, |sleeps|)
  {
    if sleeps != [] {
      TotalAndNextDelay(firstDelay, sleeps[..|sleeps| - 1]);
    }
  }

  /** Main result on the backoff: with doubling, `n` attempts sleep `d * (2^(n-1) - 1)` in all. */
  lemma BackoffTotal(firstDelay: nat, sends: nat, sleeps: seq<nat>)
    requires sends > 0 && |sleeps| == sends - 1
    requires forall k :: 0 <= k < |sleeps| ==> sleeps[k] == DelayAt(firstDelay, FACTOR, k)
    ensures Total(sleeps) == firstDelay * (Pow2(sends - 1) - 1)
  {
    TotalAndNextDelay(firstDelay, sleeps);
    DelayIsDoubled(firstDelay, |sleeps|);
    assert firstDelay * (Pow2(sends - 1) - 1) == firstDelay * Pow2(sends - 1) - firstDelay;
  }

  /** The first attempt within the limit that succeeds with only retryable failures before it. */
  ghost predicate FirstSuccess(limit: nat, target: nat -> Attempt, k: nat) {
    && 1 <= k <= limit && target(k).Response? && !Retryable(target(k))
    && forall j :: 1 <= j < k ==> Retryable(target(j))
  }

  /** A response comes back exactly when there is a first success, and it is that attempt's. */
  lemma ReturnsExactlyOnFirstSuccess(limit: nat, target: nat -> Attempt, sends: nat, r: Outcome)
    requires Follows(limit, target, sends, r)
    ensures r.Returned? <==> exists k :: FirstSuccess(limit, target, k)
    ensures forall k :: FirstSuccess(limit, target, k) ==> sends == k && r == Returned(target(k))
  {
    assert forall j :: 1 <= j < sends ==> Retryable(target(j)) by {
      assert forall j :: 1 <= j < sends ==> Decide(limit, j, target(j)) == SleepAndRetry;
    }
    if r.Returned? {
      assert FirstSuccess(limit, target, sends);
    }
    forall k | FirstSuccess(limit, target, k) ensures sends == k && r.Returned? {
      assert Decide(limit, k, target(k)) == Return;
      assert sends <= k;
      assert sends < k ==> Retryable(target(sends)) && sends < limit;
    }
  }

  // ---------------------------------------------------------------- the same, answer by answer

  /** Which outcome the answers of the target lead to, whatever the delays: while they are failures that
      are retried the loop goes on, and the first other answer ends it. */
  lemma FirstOtherAnswerDecides(limit: nat, target: nat -> Attempt, sends: nat, r: Outcome, k: nat)
    requires Follows(limit, target, sends, r) && 1 <= k <= limit
    requires forall j :: 1 <= j < k ==>
      target(j) == RetryableError || (target(j).Response? && target(j).status in {500, 502, 503, 504})
    ensures target(k).Response? && target(k).status !in {500, 502, 503, 504} ==>
      sends == k && r == Returned(target(k))
    ensures target(k) == OtherError ==> sends == k && r == Raised(target(k))
    ensures k == limit && !(target(k).Response? && target(k).status !in {500, 502, 503, 504}) ==>
      sends == limit && r == Raised(target(limit))
  {
    assert forall j :: 1 <= j < k ==> Decide(limit, j, target(j)) == SleepAndRetry;
    assert sends >= k;
    if sends > k {
      assert Decide(limit, k, target(k)) == SleepAndRetry;
    }
  }
}
