/**
 * The shape shared by `waitForDeployment` and `waitForHealthPage`: a request is
 * repeated until one reply settles the wait, under a `Q.timeout`.
 *
 * The timeout is modelled by the finite sequence of replies: it holds the
 * replies that arrive before the deadline, and running off its end is the
 * timeout firing.
 */
module Polling {
  import opened Basics
  import opened Protocol

  /** What one reply means to the wait: ask again, or stop with this result. */
  datatype Step<+T> = Again | Settle(result: Result<T, Failure>)

  /** The end of a wait: its result and how many requests it issued. */
  datatype Waited<+T> = Waited(result: Result<T, Failure>, attempts: nat)

  /** The wait resumed at reply `i`: it times out once the replies run out. */
  function WaitFrom<R, T>(replies: seq<R>, step: R -> Step<T>, timeout: Failure, i: nat): Waited<T>
    requires i <= |replies|
    decreases |replies| - i, 1
  {
    if i == |replies| then Waited(Err(timeout), |replies|) else WaitAt(replies, step, timeout, i)
  }

  /** Reply `i` arrived in time: it settles the wait or the wait goes on. */
  function WaitAt<R, T>(replies: seq<R>, step: R -> Step<T>, timeout: Failure, i: nat): Waited<T>
    requires i < |replies|
    decreases |replies| - i, 0
  {
    match step(replies[i])
    case Settle(res) => Waited(res, i + 1)
    case Again => WaitFrom(replies, step, timeout, i + 1)
  }

  function Wait<R, T>(replies: seq<R>, step: R -> Step<T>, timeout: Failure): Waited<T>
  {
    WaitFrom(replies, step, timeout, 0)
  }

  /** Reply `k` is the first that settles the wait. */
  ghost predicate SettlesAt<R, T>(replies: seq<R>, step: R -> Step<T>, k: int) {
    0 <= k < |replies| && step(replies[k]).Settle? &&
    forall j :: 0 <= j < k ==> step(replies[j]).Again?
  }

  ghost predicate NeverSettles<R, T>(replies: seq<R>, step: R -> Step<T>) {
    forall j :: 0 <= j < |replies| ==> step(replies[j]).Again?
  }

  lemma {:induction false} WaitFromSettles<R, T>(replies: seq<R>, step: R -> Step<T>, timeout: Failure, i: nat, k: int)
    requires i <= k && SettlesAt(replies, step, k)
    ensures WaitFrom(replies, step, timeout, i) == Waited(step(replies[k]).result, k + 1)
    decreases |replies| - i
  {
    if i < k {
      WaitFromSettles(replies, step, timeout, i + 1, k);
    }
  }

  lemma {:induction false} WaitFromTimesOut<R, T>(replies: seq<R>, step: R -> Step<T>, timeout: Failure, i: nat)
    requires i <= |replies| && NeverSettles(replies, step)
    ensures WaitFrom(replies, step, timeout, i) == Waited(Err(timeout), |replies|)
    decreases |replies| - i
  {
    if i < |replies| {
      WaitFromTimesOut(replies, step, timeout, i + 1);
    }
  }

  /** Resumed at reply `i`, the wait counts at least reply `i` itself and never more than all replies. */
  lemma {:induction false} WaitFromAttempts<R, T>(replies: seq<R>, step: R -> Step<T>, timeout: Failure, i: nat)
    requires i < |replies|
    ensures i < WaitFrom(replies, step, timeout, i).attempts <= |replies|
    decreases |replies| - i
  {
    assert WaitFrom(replies, step, timeout, i) == WaitAt(replies, step, timeout, i);
    if step(replies[i]).Again? && i + 1 < |replies| {
      WaitFromAttempts(replies, step, timeout, i + 1);
    }
  }

  /**
   * The wait stops at the first reply that settles it, with that reply's
   * result, having issued exactly one request per reply up to that one; if no
   * reply settles it, it times out after every reply.
   */
  lemma WaitOutcome<R, T>(replies: seq<R>, step: R -> Step<T>, timeout: Failure)
    ensures var w := Wait(replies, step, timeout);
            && w.attempts <= |replies|
            && (NeverSettles(replies, step) ==> w == Waited(Err(timeout), |replies|))
            && (!NeverSettles(replies, step) ==>
                  SettlesAt(replies, step, w.attempts - 1) && w.result == step(replies[w.attempts - 1]).result)
  {
    if NeverSettles(replies, step) {
      WaitFromTimesOut(replies, step, timeout, 0);
    } else {
      var k := FirstSettling(replies, step);
      WaitFromSettles(replies, step, timeout, 0, k);
    }
  }

  /** A reply that settles the wait has a first one. */
  lemma FirstSettling<R, T>(replies: seq<R>, step: R -> Step<T>) returns (k: int)
    requires !NeverSettles(replies, step)
    ensures SettlesAt(replies, step, k)
  {
    k := 0;
    while step(replies[k]).Again?
      invariant 0 <= k < |replies|
      invariant forall j :: 0 <= j < k ==> step(replies[j]).Again?
      invariant exists j :: k <= j < |replies| && step(replies[j]).Settle?
      decreases |replies| - k
    {
      k := k + 1;
    }
  }

  /** Two reply sequences that every step reads alike end their waits alike. */
  lemma {:induction false} WaitRespectsSteps<R, S, T>(a: seq<R>, sa: R -> Step<T>, b: seq<S>, sb: S -> Step<T>,
                                                      timeout: Failure, i: nat)
    requires |a| == |b| && i <= |a|
    requires forall j :: 0 <= j < |a| ==> sa(a[j]) == sb(b[j])
    ensures WaitFrom(a, sa, timeout, i) == WaitFrom(b, sb, timeout, i)
    decreases |a| - i
  {
    if i < |a| {
      WaitRespectsSteps(a, sa, b, sb, timeout, i + 1);
    }
  }
}
