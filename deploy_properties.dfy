/**
 * What a session of the `awsebtdeploy` task promises about the calls it
 * issues: the order of each deploy flow, which hostname each health probe
 * targets, when the CNAME swap happens, and that no write is ever repeated.
 */
module DeployProperties {
  import opened Basics
  import opened Protocol
  import opened Environments
  import opened TaskOptions
  import opened Polling
  import opened Convergence
  import opened HealthCheck
  import opened Deploy

  // ---------------------------------------------------------------- kinds of calls

  /** The constructor of a call, as a number. */
  function Kind(a: Action): nat {
    match a
    case DescribeApplications(_) => 0
    case DescribeEnvironments(_, _) => 1
    case PutS3Object(_) => 2
    case CreateApplicationVersion(_, _, _, _, _) => 3
    case UpdateEnvironment(_, _, _) => 4
    case CreateConfigurationTemplate(_, _, _) => 5
    case CreateEnvironment(_, _, _, _) => 6
    case SwapEnvironmentCNAMEs(_, _) => 7
    case GetHealthPage(_, _, _) => 8
  }

  const KindLookup := 1
  const KindUpload := 2
  const KindPublish := 3
  const KindUpdate := 4
  const KindTemplate := 5
  const KindCreate := 6
  const KindSwap := 7
  const KindProbe := 8

  /** The calls of kind `k`. */
  function OfKind(k: nat): Action -> bool {
    a => Kind(a) == k
  }

  /**
   * The kinds that change something in AWS: the upload, the version, the
   * update, the template, the new environment and the swap. The lookups, the
   * polls and the health probes only read.
   */
  predicate IsWriteKind(k: nat) {
    KindUpload <= k <= KindSwap
  }

  /** The four calls every successful pipeline starts with. */
  function Preamble(c: Config): seq<Action> {
    [DescribeApplications([c.applicationName]), DescribeEnvironments(c.applicationName, []),
     UploadRequest(c), PublishRequest(c)]
  }

  // ---------------------------------------------------------------- counting

  lemma OccurrencesSingle(x: Action, p: Action -> bool)
    ensures Occurrences([x], p) == if p(x) then 1 else 0
  {
    assert [x][..0] == [];
  }

  lemma {:induction false} OccurrencesRepeat(x: Action, n: nat, p: Action -> bool)
    ensures Occurrences(Repeat(x, n), p) == if p(x) then n else 0
    decreases n
  {
    if n > 0 {
      OccurrencesRepeat(x, n - 1, p);
      OccurrencesAppend(Repeat(x, n - 1), [x], p);
      OccurrencesSingle(x, p);
    }
  }

  /** Polls are reads: no write kind counts them. */
  lemma PollsWriteNothing(c: Config, w: World, name: string, k: nat)
    requires IsWriteKind(k)
    ensures Occurrences(DeploymentStage(c, w, name).calls, OfKind(k)) == 0
  {
    var d := DeploymentWait(c.applicationName, name, c.versionLabel, w.polls);
    OccurrencesRepeat(PollRequest(c.applicationName, name), d.attempts, OfKind(k));
  }

  /** Probes are reads too. */
  lemma ProbesWriteNothing(c: Config, w: World, host: string, probes: seq<Reply<HttpResponse>>, k: nat)
    requires IsWriteKind(k)
    ensures Occurrences(HealthStage(c, w, host, probes).calls, OfKind(k)) == 0
  {
    var h := HealthWait(c.healthPage, c.healthPageScheme, c.healthPageContents, w.regexTest, host, probes);
    OccurrencesRepeat(ProbeRequest(c.healthPageScheme, host, c.healthPage), h.attempts, OfKind(k));
  }

  /** The in-place flow writes exactly one thing: the environment update. */
  lemma InPlaceWrites(c: Config, env: Environment, w: World, k: nat)
    requires IsWriteKind(k)
    ensures Occurrences(InPlaceFlow(c, env, w).calls, OfKind(k)) == if k == KindUpdate then 1 else 0
  {
    var update := UpdateEnvironment(env.name, c.versionLabel, c.versionDescription);
    OccurrencesSingle(update, OfKind(k));
    if w.update.Replied? {
      var d := DeploymentStage(c, w, env.name);
      PollsWriteNothing(c, w, env.name, k);
      OccurrencesAppend([update], d.calls, OfKind(k));
      if d.result.Ok? {
        var h := HealthStage(c, w, d.result.value.cname, w.probes);
        ProbesWriteNothing(c, w, d.result.value.cname, w.probes, k);
        OccurrencesAppend([update] + d.calls, h.calls, OfKind(k));
      }
    }
  }

  /** Once the new environment exists, the only write is the swap, issued when it converged and is healthy. */
  lemma ReleaseWrites(c: Config, oldEnv: Environment, newEnv: Environment, w: World, k: nat)
    requires IsWriteKind(k)
    ensures var d := DeploymentStage(c, w, newEnv.name);
            Occurrences(ReleaseFlow(c, oldEnv, newEnv, w).calls, OfKind(k))
            == if k == KindSwap && d.result.Ok? && HealthStage(c, w, d.result.value.cname, w.probes).result.Ok?
               then 1 else 0
  {
    var p := OfKind(k);
    var calls := ReleaseFlow(c, oldEnv, newEnv, w).calls;
    var d := DeploymentStage(c, w, newEnv.name);
    PollsWriteNothing(c, w, newEnv.name, k);
    if d.result.Err? {
      assert calls == d.calls;
    } else {
      var h := HealthStage(c, w, d.result.value.cname, w.probes);
      ProbesWriteNothing(c, w, d.result.value.cname, w.probes, k);
      OccurrencesAppend(d.calls, h.calls, p);
      if h.result.Err? {
        assert calls == d.calls + h.calls;
      } else {
        var swap := SwapEnvironmentCNAMEs(oldEnv.name, newEnv.name);
        OccurrencesSingle(swap, p);
        OccurrencesAppend(d.calls + h.calls, [swap], p);
        if w.swap.Rejected? {
          assert calls == d.calls + h.calls + [swap];
        } else {
          var h2 := HealthStage(c, w, oldEnv.cname, w.postSwapProbes);
          ProbesWriteNothing(c, w, oldEnv.cname, w.postSwapProbes, k);
          OccurrencesAppend(d.calls + h.calls + [swap], h2.calls, p);
          assert calls == d.calls + h.calls + [swap] + h2.calls;
        }
      }
    }
  }

  /** The new environment was created, converged and passed its health check. */
  ghost predicate NewEnvironmentHealthy(c: Config, w: World) {
    && w.template.Replied?
    && w.created.Replied?
    && var d := DeploymentStage(c, w, w.created.value.name);
       d.result.Ok? && HealthStage(c, w, d.result.value.cname, w.probes).result.Ok?
  }

  /** The blue-green flow writes the template, then the new environment, then the swap, each at most once. */
  lemma SwapWrites(c: Config, env: Environment, w: World, k: nat)
    requires IsWriteKind(k)
    ensures Occurrences(SwapFlow(c, env, w).calls, OfKind(k))
            == if k == KindTemplate then 1
               else if k == KindCreate && w.template.Replied? then 1
               else if k == KindSwap && NewEnvironmentHealthy(c, w) then 1
               else 0
  {
    var p := OfKind(k);
    var calls := SwapFlow(c, env, w).calls;
    var template := TemplateRequest(c, env, w);
    OccurrencesSingle(template, p);
    if w.template.Rejected? {
      assert calls == [template];
    } else {
      var create := CreateRequest(c, w, w.template.value);
      OccurrencesSingle(create, p);
      OccurrencesAppend([template], [create], p);
      if w.created.Rejected? {
        assert calls == [template] + [create];
      } else {
        var rel := ReleaseFlow(c, env, w.created.value, w);
        ReleaseWrites(c, env, w.created.value, w, k);
        OccurrencesAppend([template] + [create], rel.calls, p);
        assert calls == [template] + [create] + rel.calls;
      }
    }
  }

  /** Whatever the deploy type, its flow writes each kind at most once, and never uploads or registers a version. */
  lemma DeployWrites(c: Config, env: Option<Environment>, w: World, k: nat)
    requires NeedsEnvironment(c.deployType) ==> env.Some?
    requires IsWriteKind(k)
    ensures Occurrences(DeployByType(c, env, w).calls, OfKind(k)) <= 1
    ensures k == KindUpload || k == KindPublish ==> Occurrences(DeployByType(c, env, w).calls, OfKind(k)) == 0
  {
    match ParseDeployType(c.deployType)
    case None =>
    case Some(Manual) =>
    case Some(InPlace) => InPlaceWrites(c, env.value, w, k);
    case Some(SwapToNew) => SwapWrites(c, env.value, w, k);
  }

  /** How many of the four preamble calls the pipeline issues before it stops or deploys. */
  function PreambleIssued(c: Config, w: World): nat {
    if ApplicationCheck(c, w).result.Err? then 1
    else if EnvironmentCheck(c, w).result.Err? then 2
    else if Upload(c, w).result.Err? then 3
    else 4
  }

  /** All four preamble calls succeeded. */
  predicate PreamblePassed(c: Config, w: World) {
    && ApplicationCheck(c, w).result.Ok? && EnvironmentCheck(c, w).result.Ok?
    && Upload(c, w).result.Ok? && Publish(c, w).result.Ok?
  }

  /** A pipeline whose preamble fails issued a prefix of the preamble and fails. */
  lemma PipelineStops(c: Config, w: World)
    requires !PreamblePassed(c, w)
    ensures PreambleIssued(c, w) <= 4
    ensures Pipeline(c, w).calls == Preamble(c)[..PreambleIssued(c, w)] && Pipeline(c, w).result.Err?
  {
    assert Preamble(c)[..1] == [DescribeApplications([c.applicationName])];
    assert Preamble(c)[..2] == [DescribeApplications([c.applicationName]), DescribeEnvironments(c.applicationName, [])];
    assert Preamble(c)[..3] == Preamble(c)[..2] + [UploadRequest(c)];
  }

  /** A pipeline whose preamble succeeds goes on with the deploy flow and ends as it does. */
  lemma PipelineDeploys(c: Config, w: World)
    requires PreamblePassed(c, w)
    ensures var d := DeployByType(c, EnvironmentCheck(c, w).result.value, w);
            Pipeline(c, w).calls == Preamble(c) + d.calls && Pipeline(c, w).result == d.result
  {
    var a, e, u, p := ApplicationCheck(c, w), EnvironmentCheck(c, w), Upload(c, w), Publish(c, w);
    assert a.calls + e.calls + u.calls + p.calls == Preamble(c);
    assert Pipeline(c, w) == Stage(DeployByType(c, e.result.value, w).result,
                                   a.calls + e.calls + u.calls + p.calls + DeployByType(c, e.result.value, w).calls);
  }

  /** Each preamble call has its own kind, and none of them deploys. */
  lemma PreambleWrites(c: Config, n: nat, k: nat)
    requires n <= 4 && IsWriteKind(k)
    ensures Occurrences(Preamble(c)[..n], OfKind(k)) <= 1
    ensures k != KindUpload && k != KindPublish ==> Occurrences(Preamble(c)[..n], OfKind(k)) == 0
  {
    var q, p := Preamble(c), OfKind(k);
    assert q[..0] == [];
    assert q[..1] == [q[0]];
    OccurrencesSingle(q[0], p);
    assert q[..2] == q[..1] + [q[1]];
    OccurrencesSingle(q[1], p);
    OccurrencesAppend(q[..1], [q[1]], p);
    assert q[..3] == q[..2] + [q[2]];
    OccurrencesSingle(q[2], p);
    OccurrencesAppend(q[..2], [q[2]], p);
    assert q[..4] == q[..3] + [q[3]];
    OccurrencesSingle(q[3], p);
    OccurrencesAppend(q[..3], [q[3]], p);
  }

  /** A session never repeats a write of any kind. */
  lemma SessionWritesOnce(c: Config, w: World, k: nat)
    requires IsWriteKind(k)
    ensures Occurrences(Session(c, w).calls, OfKind(k)) <= 1
  {
    match Validated(c, w.bundleIsFile)
    case Err(_) =>
      assert Session(c, w).calls == [];
    case Ok(v) =>
      assert Session(c, w) == Pipeline(v, w);
      if !PreamblePassed(v, w) {
        PipelineStops(v, w);
        PreambleWrites(v, PreambleIssued(v, w), k);
      } else {
        PipelineDeploys(v, w);
        PreambleWrites(v, 4, k);
        var env := EnvironmentCheck(v, w).result.value;
        DeployWrites(v, env, w, k);
        assert Preamble(v)[..4] == Preamble(v);
        OccurrencesAppend(Preamble(v), DeployByType(v, env, w).calls, OfKind(k));
      }
  }

  /**
   * Every write happens at most once in a session: one upload, one version,
   * at most one update, one template, one new environment and one swap.
   */
  lemma WritesAtMostOnce(c: Config, w: World)
    ensures forall k :: IsWriteKind(k) ==> Occurrences(Session(c, w).calls, OfKind(k)) <= 1
  {
    forall k | IsWriteKind(k) ensures Occurrences(Session(c, w).calls, OfKind(k)) <= 1 {
      SessionWritesOnce(c, w, k);
    }
  }

  // ---------------------------------------------------------------- in-place

  /**
   * `inPlaceDeploy` issues the `updateEnvironment` first; then polls the
   * environment by its name; then probes the CNAME of the snapshot the polls
   * converged on.
   */
  lemma InPlaceDeployOrder(c: Config, env: Environment, w: World)
    ensures var s := InPlaceFlow(c, env, w);
            |s.calls| >= 1 && s.calls[0] == UpdateEnvironment(env.name, c.versionLabel, c.versionDescription)
    ensures var s, d := InPlaceFlow(c, env, w), DeploymentStage(c, w, env.name);
            w.update.Replied? ==>
              |s.calls| >= 1 + |d.calls| && forall j :: 1 <= j < 1 + |d.calls| ==> s.calls[j] == PollRequest(c.applicationName, env.name)
    ensures var s, d := InPlaceFlow(c, env, w), DeploymentStage(c, w, env.name);
            w.update.Replied? && d.result.Ok? ==>
              forall j :: 1 + |d.calls| <= j < |s.calls| ==>
                s.calls[j] == ProbeRequest(c.healthPageScheme, d.result.value.cname, c.healthPage)
  {
    var s := InPlaceFlow(c, env, w);
    var update := UpdateEnvironment(env.name, c.versionLabel, c.versionDescription);
    if w.update.Rejected? {
      assert s.calls == [update];
      return;
    }
    var d := DeploymentStage(c, w, env.name);
    var tail := if d.result.Err? then [] else HealthStage(c, w, d.result.value.cname, w.probes).calls;
    if d.result.Err? {
      assert s.calls == [update] + d.calls;
      assert s.calls == [update] + d.calls + tail;
    } else {
      assert s.calls == [update] + d.calls + tail;
    }
    forall j | 1 <= j < 1 + |d.calls| ensures s.calls[j] == PollRequest(c.applicationName, env.name) {
      assert s.calls[j] == d.calls[j - 1];
    }
    forall j | 1 + |d.calls| <= j < |s.calls| && d.result.Ok?
      ensures s.calls[j] == ProbeRequest(c.healthPageScheme, d.result.value.cname, c.healthPage)
    {
      assert s.calls[j] == tail[j - 1 - |d.calls|];
    }
  }

  /** `inPlaceDeploy` succeeds only when the polls saw the environment Ready and Green on the new version. */
  lemma InPlaceDeploySucceeded(c: Config, env: Environment, w: World)
    requires InPlaceFlow(c, env, w).result.Ok?
    ensures w.update.Replied?
    ensures var d := DeploymentStage(c, w, env.name);
            d.result.Ok? && IsReady(d.result.value, c.versionLabel)
  {
    DeploymentWaitConverged(c.applicationName, env.name, c.versionLabel, w.polls);
  }

  /** With no health page configured, `inPlaceDeploy` sends no probe at all. */
  lemma InPlaceWithoutHealthPage(c: Config, env: Environment, w: World)
    requires c.healthPage == ""
    ensures Occurrences(InPlaceFlow(c, env, w).calls, OfKind(KindProbe)) == 0
  {
    var p := OfKind(KindProbe);
    var s := InPlaceFlow(c, env, w);
    var update := UpdateEnvironment(env.name, c.versionLabel, c.versionDescription);
    OccurrencesSingle(update, p);
    if w.update.Rejected? {
      assert s.calls == [update];
      return;
    }
    var d := DeploymentStage(c, w, env.name);
    OccurrencesRepeat(PollRequest(c.applicationName, env.name), |d.calls|, p);
    OccurrencesAppend([update], d.calls, p);
    if d.result.Ok? {
      var h := HealthStage(c, w, d.result.value.cname, w.probes);
      assert h.calls == [];
      assert s.calls == [update] + d.calls + h.calls;
      assert s.calls == [update] + d.calls;
    } else {
      assert s.calls == [update] + d.calls;
    }
  }

  // ---------------------------------------------------------------- blue-green

  /**
   * The CNAME swap is issued exactly when the new environment was created,
   * converged on the new version (Ready and Green) and passed its health check;
   * and a successful blue-green deploy also had the swap accepted.
   */
  lemma SwapOnlyWhenNewEnvironmentHealthy(c: Config, env: Environment, w: World)
    ensures Occurrences(SwapFlow(c, env, w).calls, OfKind(KindSwap)) == if NewEnvironmentHealthy(c, w) then 1 else 0
    ensures NewEnvironmentHealthy(c, w) ==>
              var d := DeploymentStage(c, w, w.created.value.name);
              IsReady(d.result.value, c.versionLabel)
    ensures SwapFlow(c, env, w).result.Ok? ==> NewEnvironmentHealthy(c, w) && w.swap.Replied?
  {
    SwapWrites(c, env, w, KindSwap);
    if w.created.Replied? {
      DeploymentWaitConverged(c.applicationName, w.created.value.name, c.versionLabel, w.polls);
    }
  }

  /**
   * `swapDeploy` in order: the template of the old environment; the new
   * environment, with the synthesized name, the version and that template;
   * polls of the new environment; probes of the CNAME of the snapshot the
   * polls converged on; the swap with the old environment as source and the
   * new one as destination; then, once the swap is accepted, probes of the old
   * snapshot's CNAME, the original hostname, which now serves the new environment.
   */
  lemma SwapDeployOrder(c: Config, env: Environment, w: World)
    requires NewEnvironmentHealthy(c, w)
    ensures var newEnv := w.created.value;
            var d := DeploymentWait(c.applicationName, newEnv.name, c.versionLabel, w.polls);
            var h := HealthWait(c.healthPage, c.healthPageScheme, c.healthPageContents, w.regexTest,
                                d.result.value.cname, w.probes);
            var h2 := HealthWait(c.healthPage, c.healthPageScheme, c.healthPageContents, w.regexTest,
                                 env.cname, w.postSwapProbes);
            && d.attempts >= 1
            && SwapFlow(c, env, w).calls
               == [CreateConfigurationTemplate(c.applicationName, env.id, c.applicationName + "-" + w.templateStamp),
                   CreateEnvironment(c.applicationName, Naming.CreateEnvironmentName(c.applicationName, w.nameStamp),
                                     c.versionLabel, w.template.value)]
                  + Repeat(PollRequest(c.applicationName, newEnv.name), d.attempts)
                  + Repeat(ProbeRequest(c.healthPageScheme, d.result.value.cname, c.healthPage), h.attempts)
                  + [SwapEnvironmentCNAMEs(env.name, newEnv.name)]
                  + (if w.swap.Replied? then Repeat(ProbeRequest(c.healthPageScheme, env.cname, c.healthPage), h2.attempts)
                     else [])
  {
    var s, newEnv := SwapFlow(c, env, w), w.created.value;
    var t, ce := TemplateRequest(c, env, w), CreateRequest(c, w, w.template.value);
    var d := DeploymentStage(c, w, newEnv.name);
    var h := HealthStage(c, w, d.result.value.cname, w.probes);
    var sw := SwapEnvironmentCNAMEs(env.name, newEnv.name);
    var h2 := HealthStage(c, w, env.cname, w.postSwapProbes);
    DeploymentWaitConverged(c.applicationName, newEnv.name, c.versionLabel, w.polls);
    var last := if w.swap.Replied? then h2.calls else [];
    if w.swap.Replied? {
      assert ReleaseFlow(c, env, newEnv, w).calls == d.calls + h.calls + [sw] + last;
    } else {
      assert ReleaseFlow(c, env, newEnv, w).calls == d.calls + h.calls + [sw];
      assert d.calls + h.calls + [sw] + [] == d.calls + h.calls + [sw];
    }
    assert s.calls == [t] + [ce] + (d.calls + h.calls + [sw] + last);
    assert [t] + [ce] + (d.calls + h.calls + [sw] + last) == [t, ce] + d.calls + h.calls + [sw] + last;
  }

  // ---------------------------------------------------------------- the pipeline

  /**
   * Invalid options abort before any call; valid ones start with the
   * application lookup, and nothing follows it unless the application exists.
   */
  lemma SessionStart(c: Config, w: World)
    ensures Validated(c, w.bundleIsFile).Err? ==>
              Session(c, w) == Stage(Err(Validated(c, w.bundleIsFile).error), [])
    ensures Validated(c, w.bundleIsFile).Ok? ==>
              var s := Session(c, w);
              && |s.calls| >= 1
              && s.calls[0] == DescribeApplications([c.applicationName])
              && (|s.calls| > 1 <==> w.applications.Replied? && w.applications.value > 0)
  {
    match Validated(c, w.bundleIsFile)
    case Err(_) =>
    case Ok(v) =>
      PipelineSteps(v, w);
  }

  /**
   * The `manual` deploy type only uploads and registers the version: the
   * session's calls are a prefix of the four preamble calls, and it succeeds
   * exactly when all four were issued and answered, the application exists
   * and the lookup neither failed nor (having nothing to look up) aborted.
   */
  lemma ManualDeploysNothing(c: Config, w: World)
    requires Validated(c, w.bundleIsFile).Ok?
    requires Validated(c, w.bundleIsFile).value.deployType == "manual"
    ensures var v := Validated(c, w.bundleIsFile).value;
            Session(c, w).calls <= Preamble(v)
    ensures var v := Validated(c, w.bundleIsFile).value;
            Session(c, w).result.Ok? <==>
              && Session(c, w).calls == Preamble(v)
              && w.applications.Replied? && w.applications.value > 0
              && w.environments.Replied? && w.upload.Replied? && w.publish.Replied?
  {
    var v := Validated(c, w.bundleIsFile).value;
    assert Session(c, w) == Pipeline(v, w);
    if PreamblePassed(v, w) {
      PipelineDeploys(v, w);
      assert DeployByType(v, EnvironmentCheck(v, w).result.value, w) == Stage(Ok(()), []);
      assert Preamble(v) + [] == Preamble(v);
    } else {
      PipelineStops(v, w);
    }
  }

  /**
   * An unknown deploy type is only noticed once the bundle is uploaded and the
   * version created: the session issues a prefix of the four preamble calls
   * and never succeeds; when all four went through it fails with
   * `UnknownDeployType`.
   */
  lemma UnknownDeployTypeFailsLate(c: Config, w: World)
    requires Validated(c, w.bundleIsFile).Ok?
    requires ParseDeployType(Validated(c, w.bundleIsFile).value.deployType).None?
    ensures var v := Validated(c, w.bundleIsFile).value;
            Session(c, w).calls <= Preamble(v) && Session(c, w).result.Err?
    ensures var v := Validated(c, w.bundleIsFile).value;
            Session(c, w).result == Err(UnknownDeployType(v.deployType)) <==>
              Session(c, w).calls == Preamble(v) && w.publish.Replied?
  {
    var v := Validated(c, w.bundleIsFile).value;
    assert Session(c, w) == Pipeline(v, w);
    if PreamblePassed(v, w) {
      PipelineDeploys(v, w);
      assert DeployByType(v, EnvironmentCheck(v, w).result.value, w) == Stage(Err(UnknownDeployType(v.deployType)), []);
      assert Preamble(v) + [] == Preamble(v);
    } else {
      PipelineStops(v, w);
    }
  }

  /** A session that succeeds issued the whole preamble, used a known deploy type, and deployed what that type deploys. */
  lemma SessionSucceeded(c: Config, w: World)
    requires Session(c, w).result.Ok?
    ensures Validated(c, w.bundleIsFile).Ok?
    ensures var v, s := Validated(c, w.bundleIsFile).value, Session(c, w);
            && |s.calls| >= 4 && s.calls[..4] == Preamble(v)
            && ParseDeployType(v.deployType).Some?
            && (ParseDeployType(v.deployType) == Some(Manual) ==> s.calls == Preamble(v))
            && (ParseDeployType(v.deployType) == Some(InPlace) ==> Occurrences(s.calls, OfKind(KindUpdate)) == 1)
            && (ParseDeployType(v.deployType) == Some(SwapToNew) ==> Occurrences(s.calls, OfKind(KindSwap)) == 1)
  {
    var v := Validated(c, w.bundleIsFile).value;
    assert Session(c, w) == Pipeline(v, w);
    if !PreamblePassed(v, w) {
      PipelineStops(v, w);
      assert false;
    }
    PipelineDeploys(v, w);
    var e := EnvironmentCheck(v, w);
    var d := DeployByType(v, e.result.value, w);
    var s := Session(c, w);
    assert s.calls == Preamble(v) + d.calls;
    assert s.calls[..4] == Preamble(v);
    assert Preamble(v)[..4] == Preamble(v);
    PreambleWrites(v, 4, KindUpdate);
    PreambleWrites(v, 4, KindSwap);
    OccurrencesAppend(Preamble(v), d.calls, OfKind(KindUpdate));
    OccurrencesAppend(Preamble(v), d.calls, OfKind(KindSwap));
    match ParseDeployType(v.deployType)
    case Some(InPlace) =>
      assert Occurrences(d.calls, OfKind(KindUpdate)) == 1 by {
        InPlaceWrites(v, e.result.value.value, w, KindUpdate);
      }
    case Some(SwapToNew) =>
      assert Occurrences(d.calls, OfKind(KindSwap)) == 1 by {
        SwapOnlyWhenNewEnvironmentHealthy(v, e.result.value.value, w);
      }
    case Some(Manual) =>
  }

  /** When `environmentName` is set, the CNAME plays no part in finding the environment. */
  lemma NameWinsOverCNAME(c: Config, data: Option<seq<Environment>>, cname: string)
    requires c.environmentName != ""
    ensures ResolveTarget(c.(environmentCNAME := cname), data) == ResolveTarget(c, data)
  {
  }
}
