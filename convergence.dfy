/**
 * `waitForDeployment`: poll `describeEnvironments` for one environment until
 * its first reported element runs the expected version and is Ready and Green.
 */
module Convergence {
  import opened Basics
  import opened Protocol
  import opened Environments
  import opened Polling

  const ReadyStatus := "Ready"
  const GreenHealth := "Green"

  /** The snapshot shows the update applied and the environment fully up. */
  predicate IsReady(e: Environment, versionLabel: string) {
    e.versionLabel == versionLabel && e.status == ReadyStatus && e.health == GreenHealth
  }

  /** The request each poll sends. */
  function PollRequest(applicationName: string, environmentName: string): Action {
    DescribeEnvironments(applicationName, [environmentName])
  }

  /**
   * What one `describeEnvironments` reply means: a rejection ends the wait, an
   * empty list or a first element that is not ready asks again, and a ready
   * first element is the converged snapshot. Elements after the first are not read.
   */
  function PollStep(applicationName: string, environmentName: string, versionLabel: string,
                    reply: Reply<seq<Environment>>): Step<Environment>
  {
    match reply
    case Rejected => Settle(Err(CallFailed(PollRequest(applicationName, environmentName))))
    case Replied(envs) =>
      if |envs| == 0 then Again
      else
        var current := envs[0];
        if current.versionLabel != versionLabel then Again
        else if current.status != ReadyStatus then Again
        else if current.health != GreenHealth then Again
        else Settle(Ok(current))
  }

  lemma PollStepMeaning(applicationName: string, environmentName: string, versionLabel: string,
                         reply: Reply<seq<Environment>>)
    ensures var s := PollStep(applicationName, environmentName, versionLabel, reply);
            && (s.Settle? && s.result.Ok? <==> reply.Replied? && |reply.value| > 0 && IsReady(reply.value[0], versionLabel))
            && (s.Settle? && s.result.Ok? ==> s.result.value == reply.value[0])
            && (s.Settle? && s.result.Err? <==> reply.Rejected?)
            && (s.Settle? && s.result.Err? ==> s.result.error == CallFailed(PollRequest(applicationName, environmentName)))
  {
  }

  function PollStepOf(applicationName: string, environmentName: string, versionLabel: string)
    : Reply<seq<Environment>> -> Step<Environment>
  {
    reply => PollStep(applicationName, environmentName, versionLabel, reply)
  }

  /** The outcome of the whole wait over the replies that arrive before the deadline. */
  function DeploymentWait(applicationName: string, environmentName: string, versionLabel: string,
                          polls: seq<Reply<seq<Environment>>>): Waited<Environment>
  {
    Wait(polls, PollStepOf(applicationName, environmentName, versionLabel), DeploymentTimedOut(environmentName))
  }

  /** Poll `k` neither fails nor finds the environment ready. */
  ghost predicate NotYet(polls: seq<Reply<seq<Environment>>>, versionLabel: string, k: int)
    requires 0 <= k < |polls|
  {
    polls[k].Replied? && (|polls[k].value| == 0 || !IsReady(polls[k].value[0], versionLabel))
  }

  /**
   * The wait converges on the first element of the first reply that shows the
   * environment ready, after exactly as many polls as that reply's position;
   * every earlier reply was a non-ready answer; and it never polls beyond the deadline.
   */
  lemma DeploymentWaitConverged(applicationName: string, environmentName: string, versionLabel: string,
                                polls: seq<Reply<seq<Environment>>>)
    ensures var w := DeploymentWait(applicationName, environmentName, versionLabel, polls);
            && w.attempts <= |polls|
            && (w.result.Ok? ==>
                  && 1 <= w.attempts
                  && polls[w.attempts - 1].Replied? && |polls[w.attempts - 1].value| > 0
                  && w.result.value == polls[w.attempts - 1].value[0]
                  && IsReady(w.result.value, versionLabel)
                  && forall j :: 0 <= j < w.attempts - 1 ==> NotYet(polls, versionLabel, j))
  {
    var step := PollStepOf(applicationName, environmentName, versionLabel);
    WaitOutcome(polls, step, DeploymentTimedOut(environmentName));
    var w := DeploymentWait(applicationName, environmentName, versionLabel, polls);
    if w.result.Ok? {
      assert !NeverSettles(polls, step);
      assert step(polls[w.attempts - 1]) == PollStep(applicationName, environmentName, versionLabel, polls[w.attempts - 1]);
      PollStepMeaning(applicationName, environmentName, versionLabel, polls[w.attempts - 1]);
      forall j | 0 <= j < w.attempts - 1 ensures NotYet(polls, versionLabel, j) {
        assert step(polls[j]).Again?;
      }
    }
  }

  /**
   * Conversely, when reply `k` is the first that is ready or rejected, the
   * wait issues exactly `k + 1` polls and ends with that reply's verdict; and
   * when every reply is a non-ready answer it times out after all of them.
   */
  lemma DeploymentWaitStopsAt(applicationName: string, environmentName: string, versionLabel: string,
                              polls: seq<Reply<seq<Environment>>>, k: int)
    requires 0 <= k < |polls| && !NotYet(polls, versionLabel, k)
    requires forall j :: 0 <= j < k ==> NotYet(polls, versionLabel, j)
    ensures var w := DeploymentWait(applicationName, environmentName, versionLabel, polls);
            && w.attempts == k + 1
            && (polls[k].Rejected? ==> w.result == Err(CallFailed(PollRequest(applicationName, environmentName))))
            && (polls[k].Replied? ==> w.result == Ok(polls[k].value[0]))
  {
    var step := PollStepOf(applicationName, environmentName, versionLabel);
    forall j | 0 <= j < k ensures step(polls[j]).Again? {
      assert NotYet(polls, versionLabel, j);
    }
    assert step(polls[k]).Settle?;
    WaitFromSettles(polls, step, DeploymentTimedOut(environmentName), 0, k);
  }

  lemma DeploymentWaitTimesOut(applicationName: string, environmentName: string, versionLabel: string,
                               polls: seq<Reply<seq<Environment>>>)
    requires forall j :: 0 <= j < |polls| ==> NotYet(polls, versionLabel, j)
    ensures DeploymentWait(applicationName, environmentName, versionLabel, polls)
            == Waited(Err(DeploymentTimedOut(environmentName)), |polls|)
  {
    var step := PollStepOf(applicationName, environmentName, versionLabel);
    forall j | 0 <= j < |polls| ensures step(polls[j]).Again? {
      assert NotYet(polls, versionLabel, j);
    }
    WaitFromTimesOut(polls, step, DeploymentTimedOut(environmentName), 0);
  }

  /** What a poll reply shows of the environment: only its first element, if any. */
  function Head(reply: Reply<seq<Environment>>): Reply<Option<Environment>> {
    match reply
    case Rejected => Rejected
    case Replied(envs) => Replied(if |envs| == 0 then None else Some(envs[0]))
  }

  /** Only element 0 of each reply matters: replies that agree on it give the same wait. */
  lemma OnlyFirstElementRead(applicationName: string, environmentName: string, versionLabel: string,
                             a: seq<Reply<seq<Environment>>>, b: seq<Reply<seq<Environment>>>)
    requires |a| == |b| && forall j :: 0 <= j < |a| ==> Head(a[j]) == Head(b[j])
    ensures DeploymentWait(applicationName, environmentName, versionLabel, a)
            == DeploymentWait(applicationName, environmentName, versionLabel, b)
  {
    var step := PollStepOf(applicationName, environmentName, versionLabel);
    forall j | 0 <= j < |a| ensures step(a[j]) == step(b[j]) {
      assert Head(a[j]) == Head(b[j]);
      if a[j].Replied? && |a[j].value| > 0 {
        assert a[j].value[0] == b[j].value[0];
      }
    }
    WaitRespectsSteps(a, step, b, step, DeploymentTimedOut(environmentName), 0);
  }
}
