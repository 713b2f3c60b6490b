/**
 * `waitForHealthPage`: GET the health page until it answers 200 and, when
 * `healthPageContents` is configured, its body matches; any other answer
 * starts the whole check again from the status request.
 *
 * A retry after a wrong status is written so that the outer contents check
 * later receives `undefined`: with contents configured, such a check can no
 * longer pass. `HealthWait` is the check as written, `IntendedHealthWait` the
 * retry the code sets out to perform.
 */
module HealthCheck {
  import opened Basics
  import opened Protocol
  import opened TaskOptions
  import opened Polling

  const StatusOK := 200

  /** A health page response: its status code and the `data` chunks of its body. */
  datatype HttpResponse = HttpResponse(statusCode: int, chunks: seq<string>)

  /** The chunks joined in order. */
  function Concat(chunks: seq<string>): string
  {
    if chunks == [] then "" else Concat(chunks[..|chunks| - 1]) + chunks[|chunks| - 1]
  }

  /** The body the `data` handler accumulates: `undefined` (`None`) when no chunk arrived. */
  function Body(chunks: seq<string>): Option<string>
  {
    if chunks == [] then None else Some(Concat(chunks))
  }

  /** `if (!body) body = chunk; else body += chunk;` over the chunks as they arrive. */
  method ReadBody(chunks: seq<string>) returns (body: Option<string>)
    ensures body == Body(chunks)
    ensures body.Some? ==> |body.value| == |Concat(chunks)|
  {
    body := None;
    for i := 0 to |chunks|
      invariant body == Body(chunks[..i])
    {
      assert chunks[..i + 1][..i] == chunks[..i];
      assert Concat(chunks[..i + 1]) == Concat(chunks[..i]) + chunks[i];
      if body.None? || body.value == "" {
        assert Concat(chunks[..i]) == "";
        assert Concat(chunks[..i]) + chunks[i] == chunks[i];
        body := Some(chunks[i]);
      } else {
        body := Some(body.value + chunks[i]);
      }
    }
    assert chunks[..|chunks|] == chunks;
  }

  /**
   * The `healthPageContents` test on a complete body: a string must equal it;
   * a RegExp is tested by `regexTest` (an abstraction of the JavaScript
   * engine) on the body coerced to a string, which is `"undefined"` for no body.
   */
  function BodyMatches(contents: Contents, body: Option<string>, regexTest: (string, string) -> bool): bool
  {
    match contents
    case NoContents => true
    case Literal(text) => body == Some(text)
    case Pattern(source) => regexTest(source, if body.None? then "undefined" else body.value)
  }

  /** The request each probe sends. */
  function ProbeRequest(scheme: string, hostname: string, path: string): Action {
    GetHealthPage(scheme, hostname, path)
  }

  /** How one probe ends. */
  datatype ProbeOutcome = RequestFailed | WrongStatus | WrongBody | Healthy

  /**
   * The status callback, then the contents check: a status other than 200
   * retries; a 200 passes outright when no contents are configured, and
   * otherwise passes exactly when the body matches them.
   */
  function ClassifyProbe(contents: Contents, regexTest: (string, string) -> bool, reply: Reply<HttpResponse>)
    : ProbeOutcome
  {
    match reply
    case Rejected => RequestFailed
    case Replied(res) =>
      if res.statusCode != StatusOK then WrongStatus
      else if !ContentsConfigured(contents) then Healthy
      else if BodyMatches(contents, Body(res.chunks), regexTest) then Healthy
      else WrongBody
  }

  /** Each outcome of a probe, characterised by the reply. */
  lemma ClassifyProbeMeaning(contents: Contents, regexTest: (string, string) -> bool, reply: Reply<HttpResponse>)
    ensures var o := ClassifyProbe(contents, regexTest, reply);
            && (o == RequestFailed <==> reply.Rejected?)
            && (o == WrongStatus <==> reply.Replied? && reply.value.statusCode != StatusOK)
            && (o == WrongBody <==>
                  reply.Replied? && reply.value.statusCode == StatusOK && ContentsConfigured(contents) &&
                  !BodyMatches(contents, Body(reply.value.chunks), regexTest))
            && (o == Healthy <==>
                  reply.Replied? && reply.value.statusCode == StatusOK &&
                  (ContentsConfigured(contents) ==> BodyMatches(contents, Body(reply.value.chunks), regexTest)))
  {
  }

  /** Probe `k` is answered but does not pass. */
  ghost predicate Unhealthy(contents: Contents, regexTest: (string, string) -> bool,
                            probes: seq<Reply<HttpResponse>>, k: int)
    requires 0 <= k < |probes|
  {
    probes[k].Replied? &&
    (probes[k].value.statusCode != StatusOK ||
     (ContentsConfigured(contents) && !BodyMatches(contents, Body(probes[k].value.chunks), regexTest)))
  }

  /** Some probe in `[i, n)` answered with a status other than 200. */
  ghost predicate WrongStatusIn(probes: seq<Reply<HttpResponse>>, i: int, n: int) {
    exists j :: i <= j < n && j < |probes| && 0 <= j && probes[j].Replied? && probes[j].value.statusCode != StatusOK
  }

  // ---------------------------------------------------------------- the check as written

  /**
   * What a retry after a wrong status finally hands to the contents check
   * still waiting on it: the nested check resolves with `undefined`, so with
   * contents configured a pass turns into the TypeError of `res.setEncoding`;
   * without contents the pass stands. A failure passes through unchanged.
   */
  function AfterStatusRetry(contents: Contents, hostname: string, w: Waited<()>): Waited<()>
  {
    if w.result.Ok? && ContentsConfigured(contents) then Waited(Err(UndefinedResponse(hostname)), w.attempts) else w
  }

  /**
   * `checkHealthPage` from probe `i` on: a wrong body retries in place of the
   * contents check; a wrong status resolves the status promise with the
   * nested check, whose outcome then passes through `AfterStatusRetry`.
   */
  function CheckFrom(scheme: string, hostname: string, path: string, contents: Contents,
                     regexTest: (string, string) -> bool, probes: seq<Reply<HttpResponse>>, i: nat): Waited<()>
    requires i <= |probes|
    decreases |probes| - i
  {
    if i == |probes| then Waited(Err(HealthPageTimedOut(hostname)), |probes|)
    else
      match ClassifyProbe(contents, regexTest, probes[i])
      case RequestFailed => Waited(Err(CallFailed(ProbeRequest(scheme, hostname, path))), i + 1)
      case Healthy => Waited(Ok(()), i + 1)
      case WrongBody => CheckFrom(scheme, hostname, path, contents, regexTest, probes, i + 1)
      case WrongStatus => AfterStatusRetry(contents, hostname, CheckFrom(scheme, hostname, path, contents, regexTest, probes, i + 1))
  }

  /** The check as the task runs it; with no `healthPage` it passes without any request. */
  function HealthWait(path: string, scheme: string, contents: Contents, regexTest: (string, string) -> bool,
                      hostname: string, probes: seq<Reply<HttpResponse>>): Waited<()>
  {
    if path == "" then Waited(Ok(()), 0) else CheckFrom(scheme, hostname, path, contents, regexTest, probes, 0)
  }

  // ---------------------------------------------------------------- the check as intended

  /** One probe of the intended retry: a failed request ends the check, a pass ends it well, anything else asks again. */
  function ProbeStep(scheme: string, hostname: string, path: string, contents: Contents,
                     regexTest: (string, string) -> bool, reply: Reply<HttpResponse>): Step<()>
  {
    match ClassifyProbe(contents, regexTest, reply)
    case RequestFailed => Settle(Err(CallFailed(ProbeRequest(scheme, hostname, path))))
    case Healthy => Settle(Ok(()))
    case WrongStatus => Again
    case WrongBody => Again
  }

  function ProbeStepOf(scheme: string, hostname: string, path: string, contents: Contents,
                       regexTest: (string, string) -> bool): Reply<HttpResponse> -> Step<()>
  {
    reply => ProbeStep(scheme, hostname, path, contents, regexTest, reply)
  }

  /** Every wrong answer, of either kind, starts the check again from the status request. */
  function IntendedHealthWait(path: string, scheme: string, contents: Contents, regexTest: (string, string) -> bool,
                              hostname: string, probes: seq<Reply<HttpResponse>>): Waited<()>
  {
    if path == "" then Waited(Ok(()), 0)
    else Wait(probes, ProbeStepOf(scheme, hostname, path, contents, regexTest), HealthPageTimedOut(hostname))
  }

  /**
   * An intended check that passes with a health page configured ended on a
   * probe that answered 200 with a matching body (when contents are
   * configured), after only unhealthy answers; it never probes beyond the deadline.
   */
  lemma IntendedHealthWaitPassed(path: string, scheme: string, contents: Contents, regexTest: (string, string) -> bool,
                                 hostname: string, probes: seq<Reply<HttpResponse>>)
    requires path != ""
    ensures var w := IntendedHealthWait(path, scheme, contents, regexTest, hostname, probes);
            && w.attempts <= |probes|
            && (w.result.Ok? ==>
                  && 1 <= w.attempts
                  && probes[w.attempts - 1].Replied?
                  && probes[w.attempts - 1].value.statusCode == StatusOK
                  && (ContentsConfigured(contents) ==>
                        BodyMatches(contents, Body(probes[w.attempts - 1].value.chunks), regexTest))
                  && forall j :: 0 <= j < w.attempts - 1 ==> Unhealthy(contents, regexTest, probes, j))
  {
    var step := ProbeStepOf(scheme, hostname, path, contents, regexTest);
    WaitOutcome(probes, step, HealthPageTimedOut(hostname));
    var w := IntendedHealthWait(path, scheme, contents, regexTest, hostname, probes);
    if w.result.Ok? {
      assert !NeverSettles(probes, step);
      assert step(probes[w.attempts - 1]) == ProbeStep(scheme, hostname, path, contents, regexTest, probes[w.attempts - 1]);
      ClassifyProbeMeaning(contents, regexTest, probes[w.attempts - 1]);
      forall j | 0 <= j < w.attempts - 1 ensures Unhealthy(contents, regexTest, probes, j) {
        assert step(probes[j]).Again?;
        ClassifyProbeMeaning(contents, regexTest, probes[j]);
      }
    }
  }

  /**
   * When probe `k` is the first that fails or passes, the intended check
   * issues exactly `k + 1` requests and ends with that probe's verdict.
   */
  lemma IntendedHealthWaitStopsAt(path: string, scheme: string, contents: Contents, regexTest: (string, string) -> bool,
                                  hostname: string, probes: seq<Reply<HttpResponse>>, k: int)
    requires path != "" && 0 <= k < |probes| && !Unhealthy(contents, regexTest, probes, k)
    requires forall j :: 0 <= j < k ==> Unhealthy(contents, regexTest, probes, j)
    ensures var w := IntendedHealthWait(path, scheme, contents, regexTest, hostname, probes);
            && w.attempts == k + 1
            && (probes[k].Rejected? ==> w.result == Err(CallFailed(ProbeRequest(scheme, hostname, path))))
            && (probes[k].Replied? ==> w.result == Ok(()))
  {
    var step := ProbeStepOf(scheme, hostname, path, contents, regexTest);
    forall j | 0 <= j < k ensures step(probes[j]).Again? {
      assert Unhealthy(contents, regexTest, probes, j);
      ClassifyProbeMeaning(contents, regexTest, probes[j]);
    }
    ClassifyProbeMeaning(contents, regexTest, probes[k]);
    assert step(probes[k]).Settle?;
    WaitFromSettles(probes, step, HealthPageTimedOut(hostname), 0, k);
  }

  /** When no probe passes or fails, the intended check times out after all of them. */
  lemma IntendedHealthWaitTimesOut(path: string, scheme: string, contents: Contents, regexTest: (string, string) -> bool,
                                   hostname: string, probes: seq<Reply<HttpResponse>>)
    requires path != ""
    requires forall j :: 0 <= j < |probes| ==> Unhealthy(contents, regexTest, probes, j)
    ensures IntendedHealthWait(path, scheme, contents, regexTest, hostname, probes)
            == Waited(Err(HealthPageTimedOut(hostname)), |probes|)
  {
    var step := ProbeStepOf(scheme, hostname, path, contents, regexTest);
    forall j | 0 <= j < |probes| ensures step(probes[j]).Again? {
      assert Unhealthy(contents, regexTest, probes, j);
      ClassifyProbeMeaning(contents, regexTest, probes[j]);
    }
    WaitFromTimesOut(probes, step, HealthPageTimedOut(hostname), 0);
  }

  // ---------------------------------------------------------------- the two compared

  /**
   * The check as written ends where the intended one does, with the same
   * verdict, except that a pass after some wrong status becomes
   * `AfterStatusRetry` of it: with contents configured, a failure.
   */
  lemma {:induction false} CheckFromAgrees(scheme: string, hostname: string, path: string, contents: Contents,
                                           regexTest: (string, string) -> bool, probes: seq<Reply<HttpResponse>>, i: nat)
    requires i <= |probes|
    ensures var v := WaitFrom(probes, ProbeStepOf(scheme, hostname, path, contents, regexTest), HealthPageTimedOut(hostname), i);
            CheckFrom(scheme, hostname, path, contents, regexTest, probes, i)
            == if WrongStatusIn(probes, i, v.attempts - 1) then AfterStatusRetry(contents, hostname, v) else v
    decreases |probes| - i
  {
    var step := ProbeStepOf(scheme, hostname, path, contents, regexTest);
    var timeout := HealthPageTimedOut(hostname);
    if i < |probes| {
      var o := ClassifyProbe(contents, regexTest, probes[i]);
      ClassifyProbeMeaning(contents, regexTest, probes[i]);
      assert step(probes[i]) == ProbeStep(scheme, hostname, path, contents, regexTest, probes[i]);
      var v := WaitFrom(probes, step, timeout, i);
      assert v == WaitAt(probes, step, timeout, i);
      if o == Healthy || o == RequestFailed {
        assert v.attempts == i + 1;
        assert !WrongStatusIn(probes, i, i);
      } else {
        CheckFromAgrees(scheme, hostname, path, contents, regexTest, probes, i + 1);
        assert v == WaitFrom(probes, step, timeout, i + 1);
        if o == WrongBody {
          if WrongStatusIn(probes, i, v.attempts - 1) {
            var j :| i <= j < v.attempts - 1 && j < |probes| && 0 <= j && probes[j].Replied? && probes[j].value.statusCode != StatusOK;
            assert j != i;
            assert WrongStatusIn(probes, i + 1, v.attempts - 1);
          }
        } else if v.result.Ok? {
          WaitFromAttempts(probes, step, timeout, i + 1);
          assert WrongStatusIn(probes, i, v.attempts - 1);
        }
      }
    }
  }

  /**
   * The source's discrepancy: a 503 during warm-up followed by a 200 with the
   * expected body fails the check as written, where the intended check passes.
   */
  lemma StatusRetryBreaksContentsCheck(path: string, scheme: string, regexTest: (string, string) -> bool, hostname: string)
    requires path != ""
    ensures var probes := [Replied(HttpResponse(503, [])), Replied(HttpResponse(StatusOK, ["ok"]))];
            && HealthWait(path, scheme, Literal("ok"), regexTest, hostname, probes)
               == Waited(Err(UndefinedResponse(hostname)), 2)
            && IntendedHealthWait(path, scheme, Literal("ok"), regexTest, hostname, probes) == Waited(Ok(()), 2)
  {
    var probes := [Replied(HttpResponse(503, [])), Replied(HttpResponse(StatusOK, ["ok"]))];
    assert Concat(["ok"]) == "ok" by {
      assert ["ok"][..0] == [];
    }
    assert !Unhealthy(Literal("ok"), regexTest, probes, 1);
    assert probes[0].Replied? && probes[0].value.statusCode != StatusOK;
    assert WrongStatusIn(probes, 0, 1);
    HealthWaitStopsAt(path, scheme, Literal("ok"), regexTest, hostname, probes, 1);
    IntendedHealthWaitStopsAt(path, scheme, Literal("ok"), regexTest, hostname, probes, 1);
  }

  // ---------------------------------------------------------------- properties of the check as written

  /**
   * A check that passes with a health page configured ended on a probe that
   * answered 200 with a matching body (when contents are configured), after
   * only unhealthy answers; with contents configured every one of those was a
   * 200 with the wrong body. It never probes beyond the deadline.
   */
  lemma HealthWaitPassed(path: string, scheme: string, contents: Contents, regexTest: (string, string) -> bool,
                         hostname: string, probes: seq<Reply<HttpResponse>>)
    requires path != ""
    ensures var w := HealthWait(path, scheme, contents, regexTest, hostname, probes);
            && w.attempts <= |probes|
            && (w.result.Ok? ==>
                  && 1 <= w.attempts
                  && probes[w.attempts - 1].Replied?
                  && probes[w.attempts - 1].value.statusCode == StatusOK
                  && (ContentsConfigured(contents) ==>
                        BodyMatches(contents, Body(probes[w.attempts - 1].value.chunks), regexTest))
                  && (forall j :: 0 <= j < w.attempts - 1 ==> Unhealthy(contents, regexTest, probes, j))
                  && (ContentsConfigured(contents) ==>
                        forall j :: 0 <= j < w.attempts - 1 ==> probes[j].Replied? && probes[j].value.statusCode == StatusOK))
  {
    CheckFromAgrees(scheme, hostname, path, contents, regexTest, probes, 0);
    IntendedHealthWaitPassed(path, scheme, contents, regexTest, hostname, probes);
    var w := HealthWait(path, scheme, contents, regexTest, hostname, probes);
    if w.result.Ok? && ContentsConfigured(contents) {
      assert !WrongStatusIn(probes, 0, w.attempts - 1);
      forall j | 0 <= j < w.attempts - 1 ensures probes[j].Replied? && probes[j].value.statusCode == StatusOK {
        assert Unhealthy(contents, regexTest, probes, j);
      }
    }
  }

  /** With a literal configured, passing means the concatenated body equals it exactly. */
  lemma LiteralNeedsExactBody(path: string, scheme: string, text: string, regexTest: (string, string) -> bool,
                              hostname: string, probes: seq<Reply<HttpResponse>>)
    requires path != "" && text != ""
    ensures var w := HealthWait(path, scheme, Literal(text), regexTest, hostname, probes);
            w.result.Ok? ==>
              1 <= w.attempts <= |probes| && probes[w.attempts - 1].Replied? &&
              Concat(probes[w.attempts - 1].value.chunks) == text
  {
    HealthWaitPassed(path, scheme, Literal(text), regexTest, hostname, probes);
  }

  /**
   * When probe `k` is the first that fails or passes, the check issues
   * exactly `k + 1` requests; a failed request fails it, and a pass passes it
   * unless contents are configured and some earlier probe had the wrong status.
   */
  lemma HealthWaitStopsAt(path: string, scheme: string, contents: Contents, regexTest: (string, string) -> bool,
                          hostname: string, probes: seq<Reply<HttpResponse>>, k: int)
    requires path != "" && 0 <= k < |probes| && !Unhealthy(contents, regexTest, probes, k)
    requires forall j :: 0 <= j < k ==> Unhealthy(contents, regexTest, probes, j)
    ensures var w := HealthWait(path, scheme, contents, regexTest, hostname, probes);
            && w.attempts == k + 1
            && (probes[k].Rejected? ==> w.result == Err(CallFailed(ProbeRequest(scheme, hostname, path))))
            && (probes[k].Replied? ==>
                  w.result == if ContentsConfigured(contents) && WrongStatusIn(probes, 0, k)
                              then Err(UndefinedResponse(hostname)) else Ok(()))
  {
    CheckFromAgrees(scheme, hostname, path, contents, regexTest, probes, 0);
    IntendedHealthWaitStopsAt(path, scheme, contents, regexTest, hostname, probes, k);
  }

  /** When no probe passes or fails, the check times out after all of them. */
  lemma HealthWaitTimesOut(path: string, scheme: string, contents: Contents, regexTest: (string, string) -> bool,
                           hostname: string, probes: seq<Reply<HttpResponse>>)
    requires path != ""
    requires forall j :: 0 <= j < |probes| ==> Unhealthy(contents, regexTest, probes, j)
    ensures HealthWait(path, scheme, contents, regexTest, hostname, probes)
            == Waited(Err(HealthPageTimedOut(hostname)), |probes|)
  {
    CheckFromAgrees(scheme, hostname, path, contents, regexTest, probes, 0);
    IntendedHealthWaitTimesOut(path, scheme, contents, regexTest, hostname, probes);
  }

  /** Without `healthPageContents`, the first 200 passes whatever its body and whatever came before. */
  lemma StatusAloneSuffices(path: string, scheme: string, contents: Contents, regexTest: (string, string) -> bool,
                            hostname: string, probes: seq<Reply<HttpResponse>>, k: int)
    requires path != "" && !ContentsConfigured(contents)
    requires 0 <= k < |probes| && probes[k].Replied? && probes[k].value.statusCode == StatusOK
    requires forall j :: 0 <= j < k ==> probes[j].Replied? && probes[j].value.statusCode != StatusOK
    ensures HealthWait(path, scheme, contents, regexTest, hostname, probes) == Waited(Ok(()), k + 1)
  {
    HealthWaitStopsAt(path, scheme, contents, regexTest, hostname, probes, k);
  }
}
