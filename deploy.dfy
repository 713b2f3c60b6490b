/**
 * The `awsebtdeploy` task: check the application and the target environment,
 * upload the bundle, create the version, then deploy by `deployType`.
 *
 * Every AWS or HTTP call is recorded as an `Action`; the replies the outside
 * world gives are scripted in a `World`. The functions below say which calls a
 * session issues and how it ends; the class `DeployTask` runs the same steps
 * imperatively, appending to its trace, and is proved to do exactly that.
 */
module Deploy {
  import opened Basics
  import opened Protocol
  import opened Environments
  import opened Naming
  import opened TaskOptions
  import opened Polling
  import opened Convergence
  import opened HealthCheck

  /** The replies the session receives, one field per call site. */
  datatype World = World(
    bundleIsFile: bool,                             // grunt.file.isFile(options.sourceBundle)
    applications: Reply<nat>,                       // describeApplications: number of applications found
    environments: Reply<Option<seq<Environment>>>,  // describeEnvironments for the lookup; None when `Environments` is missing
    upload: Reply<()>,                              // putS3Object
    publish: Reply<()>,                             // createApplicationVersion
    update: Reply<()>,                              // updateEnvironment
    template: Reply<string>,                        // createConfigurationTemplate: the TemplateName it returns
    created: Reply<Environment>,                    // createEnvironment: the new environment it describes
    swap: Reply<()>,                                // swapEnvironmentCNAMEs
    polls: seq<Reply<seq<Environment>>>,            // the polls answered before the deploy timeout
    probes: seq<Reply<HttpResponse>>,               // the probes answered before the health timeout
    postSwapProbes: seq<Reply<HttpResponse>>,       // the same for the check after the swap
    templateStamp: string,                          // new Date().getTime() when naming the template
    nameStamp: string,                              // new Date().getTime() when naming the new environment
    regexTest: (string, string) -> bool)            // RegExp.prototype.test, by pattern source and text

  /** A step of the promise chain: how it ended, and the calls it issued in order. */
  datatype Stage<+T> = Stage(result: Result<T, Failure>, calls: seq<Action>)

  // ---------------------------------------------------------------- deploy types

  datatype DeployType = InPlace | SwapToNew | Manual

  function DeployTypeName(t: DeployType): string {
    match t
    case InPlace => "inPlace"
    case SwapToNew => "swapToNew"
    case Manual => "manual"
  }

  /** The `switch (options.deployType)` of `invokeDeployType`; `None` is the `default` branch. */
  function ParseDeployType(s: string): (r: Option<DeployType>)
    ensures r.Some? ==> DeployTypeName(r.value) == s
  {
    if s == "inPlace" then Some(InPlace)
    else if s == "swapToNew" then Some(SwapToNew)
    else if s == "manual" then Some(Manual)
    else None
  }

  /** Every deploy type is recognised by its own name. */
  lemma DeployTypeRoundTrip(t: DeployType)
    ensures ParseDeployType(DeployTypeName(t)) == Some(t)
  {
  }

  /** Deploy types that act on the resolved environment. */
  predicate NeedsEnvironment(deployType: string) {
    ParseDeployType(deployType) == Some(InPlace) || ParseDeployType(deployType) == Some(SwapToNew)
  }

  // ---------------------------------------------------------------- checkEnvironmentExists

  /** The target named in messages: the environment name when set, else the CNAME. */
  function TargetName(c: Config): string {
    if c.environmentName != "" then c.environmentName else c.environmentCNAME
  }

  /** The target is identified by name when a name is set, and by CNAME only otherwise. */
  predicate Targets(c: Config, e: Environment) {
    if c.environmentName != "" then e.name == c.environmentName else e.cname == c.environmentCNAME
  }

  /** `Targets` as a function value, the shape the first-match lookup takes. */
  function TargetTest(c: Config): Environment -> bool {
    e => Targets(c, e)
  }

  /**
   * The decision after the lookup: the first environment the target
   * identifies; when there is none, `manual` goes on without one and every
   * other deploy type aborts.
   */
  function ResolveTarget(c: Config, data: Option<seq<Environment>>): (r: Result<Option<Environment>, Failure>)
    ensures r == Ok(None) ==> c.deployType == "manual"
  {
    var env := if c.environmentName != "" then FindEnvironmentByName(data, c.environmentName)
               else FindEnvironmentByCNAME(data, c.environmentCNAME);
    if env.None? then
      if c.deployType == "manual" then Ok(None) else Err(EnvironmentNotFound(TargetName(c)))
    else Ok(env)
  }

  /**
   * The lookup selects the first environment the target identifies (by name
   * when a name is set, by CNAME otherwise); when none does, `manual` goes on
   * without an environment and every other deploy type fails naming the target.
   */
  lemma ResolveTargetFinds(c: Config, data: Option<seq<Environment>>)
    ensures var r := ResolveTarget(c, data);
            r.Ok? && r.value.Some? ==> data.Some? && r.value.value in data.value && Targets(c, r.value.value)
    ensures var r := ResolveTarget(c, data);
            forall i :: data.Some? && IsFirst(data.value, TargetTest(c), i) ==> r == Ok(Some(data.value[i]))
    ensures var r := ResolveTarget(c, data);
            r.Err? <==> c.deployType != "manual" && (data.None? || forall e :: e in data.value ==> !Targets(c, e))
    ensures var r := ResolveTarget(c, data);
            r == Ok(None) <==> c.deployType == "manual" && (data.None? || forall e :: e in data.value ==> !Targets(c, e))
    ensures var r := ResolveTarget(c, data);
            r.Err? ==> r.error == EnvironmentNotFound(TargetName(c))
  {
    FindEnvironmentByNameFinds(data, c.environmentName);
    FindEnvironmentByCNAMEFinds(data, c.environmentCNAME);
    if data.Some? {
      var lookup := if c.environmentName != "" then NameIs(c.environmentName) else CNAMEIs(c.environmentCNAME);
      forall e | e in data.value ensures lookup(e) <==> TargetTest(c)(e) {
      }
    }
  }

  // ---------------------------------------------------------------- the stages

  function S3Entries(c: Config): seq<(string, string)> {
    if c.s3.Some? then c.s3.value else []
  }

  function ApplicationCheck(c: Config, w: World): Stage<()> {
    var call := DescribeApplications([c.applicationName]);
    match w.applications
    case Rejected => Stage(Err(CallFailed(call)), [call])
    case Replied(count) =>
      if count == 0 then Stage(Err(ApplicationNotFound(c.applicationName)), [call]) else Stage(Ok(()), [call])
  }

  function EnvironmentCheck(c: Config, w: World): Stage<Option<Environment>> {
    var call := DescribeEnvironments(c.applicationName, []);
    match w.environments
    case Rejected => Stage(Err(CallFailed(call)), [call])
    case Replied(data) => Stage(ResolveTarget(c, data), [call])
  }

  function UploadRequest(c: Config): Action {
    PutS3Object(S3Request(S3Entries(c), c.sourceBundle))
  }

  function Upload(c: Config, w: World): Stage<()> {
    if w.upload.Rejected? then Stage(Err(CallFailed(UploadRequest(c))), [UploadRequest(c)])
    else Stage(Ok(()), [UploadRequest(c)])
  }

  function PublishRequest(c: Config): Action {
    CreateApplicationVersion(c.applicationName, c.versionLabel, c.versionDescription,
                             Get(S3Entries(c), "bucket"), Get(S3Entries(c), "key"))
  }

  function Publish(c: Config, w: World): Stage<()> {
    if w.publish.Rejected? then Stage(Err(CallFailed(PublishRequest(c))), [PublishRequest(c)])
    else Stage(Ok(()), [PublishRequest(c)])
  }

  /** `waitForDeployment(env)` as a stage: the polls it issues and the snapshot it converges on. */
  function DeploymentStage(c: Config, w: World, environmentName: string): Stage<Environment> {
    var d := DeploymentWait(c.applicationName, environmentName, c.versionLabel, w.polls);
    Stage(d.result, Repeat(PollRequest(c.applicationName, environmentName), d.attempts))
  }

  /** `waitForHealthPage(env)` as a stage: the probes of `hostname` it issues. */
  function HealthStage(c: Config, w: World, hostname: string, probes: seq<Reply<HttpResponse>>): Stage<()> {
    var h := HealthWait(c.healthPage, c.healthPageScheme, c.healthPageContents, w.regexTest, hostname, probes);
    Stage(h.result, Repeat(ProbeRequest(c.healthPageScheme, hostname, c.healthPage), h.attempts))
  }

  /** `inPlaceDeploy`: update the environment, wait for it, check the polled snapshot's health page. */
  function InPlaceFlow(c: Config, env: Environment, w: World): Stage<()> {
    var update := UpdateEnvironment(env.name, c.versionLabel, c.versionDescription);
    if w.update.Rejected? then Stage(Err(CallFailed(update)), [update])
    else
      var d := DeploymentStage(c, w, env.name);
      if d.result.Err? then Stage(Err(d.result.error), [update] + d.calls)
      else
        var h := HealthStage(c, w, d.result.value.cname, w.probes);
        Stage(h.result, [update] + d.calls + h.calls)
  }

  /** The template of `env`, named after the application and the first time stamp. */
  function TemplateRequest(c: Config, env: Environment, w: World): Action {
    CreateConfigurationTemplate(c.applicationName, env.id, c.applicationName + "-" + w.templateStamp)
  }

  /** The new environment, named by `createEnvironmentName` from the second time stamp. */
  function CreateRequest(c: Config, w: World, templateName: string): Action {
    CreateEnvironment(c.applicationName, CreateEnvironmentName(c.applicationName, w.nameStamp), c.versionLabel, templateName)
  }

  /** `createConfigurationTemplate`: the stage ends with the `TemplateName` AWS returns. */
  function TemplateStage(c: Config, env: Environment, w: World): Stage<string> {
    var call := TemplateRequest(c, env, w);
    match w.template
    case Rejected => Stage(Err(CallFailed(call)), [call])
    case Replied(templateName) => Stage(Ok(templateName), [call])
  }

  /** `createNewEnvironment`: the stage ends with the description of the environment AWS creates. */
  function CreateStage(c: Config, w: World, templateName: string): Stage<Environment> {
    var call := CreateRequest(c, w, templateName);
    match w.created
    case Rejected => Stage(Err(CallFailed(call)), [call])
    case Replied(newEnv) => Stage(Ok(newEnv), [call])
  }

  /** `swapEnvironmentCNAMEs`: source the old environment, destination the new; it passes the old one on. */
  function SwapStage(oldEnv: Environment, newEnv: Environment, w: World): Stage<Environment> {
    var call := SwapEnvironmentCNAMEs(oldEnv.name, newEnv.name);
    if w.swap.Rejected? then Stage(Err(CallFailed(call)), [call]) else Stage(Ok(oldEnv), [call])
  }

  /**
   * After the new environment exists: wait for it and check its health page,
   * swap the CNAMEs, then check the health page of the old snapshot's CNAME,
   * which now routes to the new environment.
   */
  function ReleaseFlow(c: Config, oldEnv: Environment, newEnv: Environment, w: World): Stage<()> {
    var d := DeploymentStage(c, w, newEnv.name);
    if d.result.Err? then Stage(Err(d.result.error), d.calls)
    else
      var h := HealthStage(c, w, d.result.value.cname, w.probes);
      if h.result.Err? then Stage(Err(h.result.error), d.calls + h.calls)
      else
        var sw := SwapStage(oldEnv, newEnv, w);
        if sw.result.Err? then Stage(Err(sw.result.error), d.calls + h.calls + sw.calls)
        else
          var h2 := HealthStage(c, w, sw.result.value.cname, w.postSwapProbes);
          Stage(h2.result, d.calls + h.calls + sw.calls + h2.calls)
  }

  /** `swapDeploy`: template the old environment, create the new one from the template, release it. */
  function SwapFlow(c: Config, env: Environment, w: World): Stage<()> {
    var t := TemplateStage(c, env, w);
    if t.result.Err? then Stage(Err(t.result.error), t.calls)
    else
      var ce := CreateStage(c, w, t.result.value);
      if ce.result.Err? then Stage(Err(ce.result.error), t.calls + ce.calls)
      else
        var rel := ReleaseFlow(c, env, ce.result.value, w);
        Stage(rel.result, t.calls + ce.calls + rel.calls)
  }

  /** `invokeDeployType`. */
  function DeployByType(c: Config, env: Option<Environment>, w: World): Stage<()>
    requires NeedsEnvironment(c.deployType) ==> env.Some?
  {
    match ParseDeployType(c.deployType)
    case None => Stage(Err(UnknownDeployType(c.deployType)), [])
    case Some(Manual) => Stage(Ok(()), [])
    case Some(InPlace) => InPlaceFlow(c, env.value, w)
    case Some(SwapToNew) => SwapFlow(c, env.value, w)
  }

  /** The promise pipeline, from `checkApplicationExists` to `invokeDeployType`, on validated options. */
  function Pipeline(c: Config, w: World): Stage<()> {
    var a := ApplicationCheck(c, w);
    if a.result.Err? then a
    else
      var e := EnvironmentCheck(c, w);
      if e.result.Err? then Stage(Err(e.result.error), a.calls + e.calls)
      else
        var u := Upload(c, w);
        if u.result.Err? then Stage(u.result, a.calls + e.calls + u.calls)
        else
          var p := Publish(c, w);
          if p.result.Err? then Stage(p.result, a.calls + e.calls + u.calls + p.calls)
          else
            var d := DeployByType(c, e.result.value, w);
            Stage(d.result, a.calls + e.calls + u.calls + p.calls + d.calls)
  }

  /** How `Pipeline` ends at each stage. */
  lemma PipelineSteps(c: Config, w: World)
    ensures var a := ApplicationCheck(c, w);
            a.result.Err? ==> Pipeline(c, w) == a
    ensures var a, e := ApplicationCheck(c, w), EnvironmentCheck(c, w);
            a.result.Ok? && e.result.Err? ==> Pipeline(c, w) == Stage(Err(e.result.error), a.calls + e.calls)
    ensures var a, e, u := ApplicationCheck(c, w), EnvironmentCheck(c, w), Upload(c, w);
            a.result.Ok? && e.result.Ok? && u.result.Err? ==> Pipeline(c, w) == Stage(u.result, a.calls + e.calls + u.calls)
    ensures var a, e, u, p := ApplicationCheck(c, w), EnvironmentCheck(c, w), Upload(c, w), Publish(c, w);
            a.result.Ok? && e.result.Ok? && u.result.Ok? && p.result.Err? ==>
              Pipeline(c, w) == Stage(p.result, a.calls + e.calls + u.calls + p.calls)
    ensures var a, e, u, p := ApplicationCheck(c, w), EnvironmentCheck(c, w), Upload(c, w), Publish(c, w);
            a.result.Ok? && e.result.Ok? && u.result.Ok? && p.result.Ok? ==>
              && (NeedsEnvironment(c.deployType) ==> e.result.value.Some?)
              && var d := DeployByType(c, e.result.value, w);
                 Pipeline(c, w) == Stage(d.result, a.calls + e.calls + u.calls + p.calls + d.calls)
  {
  }

  /** A whole run of the task: `validateOptions`, then the pipeline on the normalised options. */
  function Session(c: Config, w: World): Stage<()> {
    match Validated(c, w.bundleIsFile)
    case Err(f) => Stage(Err(f), [])
    case Ok(v) => Pipeline(v, w)
  }

  // ---------------------------------------------------------------- the task

  class DeployTask {
    /** The shared `options` object, normalised in place by `ValidateOptions`. */
    var options: Config
    /** Every call issued so far, in order. */
    var trace: seq<Action>
    const world: World

    constructor (options: Config, world: World)
      ensures this.options == options && this.world == world && trace == []
    {
      this.options := options;
      this.world := world;
      trace := [];
    }

    method ValidateOptions() returns (r: Result<(), Failure>)
      modifies this
      ensures trace == old(trace)
      ensures Validated(old(options), world.bundleIsFile).Ok? ==>
                r == Ok(()) && options == Validated(old(options), world.bundleIsFile).value
      ensures Validated(old(options), world.bundleIsFile).Err? ==>
                r == Err(Validated(old(options), world.bundleIsFile).error)
      ensures Validated(old(options), world.bundleIsFile).Err? ==>
                options == old(options).(healthPage :=
                  if r.error.UnsupportedScheme? then PrefixHealthPage(old(options).healthPage)
                  else old(options).healthPage)
    {
      var c := options;
      if c.applicationName == "" { return Err(MissingOption("applicationName")); }
      if c.environmentCNAME == "" && c.environmentName == "" {
        return Err(MissingOption("environmentCNAME or environmentName"));
      }
      if c.region == "" { return Err(MissingOption("region")); }
      if c.sourceBundle == "" { return Err(MissingOption("sourceBundle")); }
      if !world.bundleIsFile { return Err(BundleNotAFile(c.sourceBundle)); }

      var page := c.healthPage;
      if page != "" && page[0] != '/' {
        page := "/" + page;
        options := options.(healthPage := page);
      }
      var scheme := c.healthPageScheme;
      if scheme == "" {
        scheme := "http";
      } else if scheme != "http" && scheme != "https" {
        return Err(UnsupportedScheme(scheme));
      }
      var version := c.versionLabel;
      if version == "" {
        version := BasenameWithoutExtension(c.sourceBundle);
      }
      options := c.(healthPage := page, healthPageScheme := scheme, versionLabel := version);
      DefaultS3();
      r := Ok(());
    }

    /** Fill in `s3.bucket` and `s3.key` when they are not set, creating `s3` when it is missing. */
    method DefaultS3()
      modifies this
      ensures trace == old(trace)
      ensures options == old(options).(s3 := Some(S3Defaults(old(options).s3, options.applicationName, options.sourceBundle)))
    {
      if options.s3.None? {
        options := options.(s3 := Some([]));
      }
      if Get(options.s3.value, "bucket") == "" {
        options := options.(s3 := Some(Put(options.s3.value, "bucket", options.applicationName)));
      }
      if Get(options.s3.value, "key") == "" {
        options := options.(s3 := Some(Put(options.s3.value, "key", Basename(options.sourceBundle))));
      }
    }

    method CheckApplicationExists() returns (r: Result<(), Failure>)
      modifies this
      ensures options == old(options)
      ensures var s := ApplicationCheck(options, world); r == s.result && trace == old(trace) + s.calls
    {
      var call := DescribeApplications([options.applicationName]);
      trace := trace + [call];
      match world.applications
      case Rejected => r := Err(CallFailed(call));
      case Replied(count) =>
        if count == 0 {
          r := Err(ApplicationNotFound(options.applicationName));
        } else {
          r := Ok(());
        }
    }

    method CheckEnvironmentExists() returns (r: Result<Option<Environment>, Failure>)
      modifies this
      ensures options == old(options)
      ensures var s := EnvironmentCheck(options, world); r == s.result && trace == old(trace) + s.calls
    {
      var call := DescribeEnvironments(options.applicationName, []);
      trace := trace + [call];
      if world.environments.Rejected? {
        return Err(CallFailed(call));
      }
      var data := world.environments.value;
      var env: Option<Environment>;
      if options.environmentName != "" {
        env := FindEnvironmentByName(data, options.environmentName);
      } else {
        env := FindEnvironmentByCNAME(data, options.environmentCNAME);
      }
      if env.None? {
        var name := if options.environmentName != "" then options.environmentName else options.environmentCNAME;
        if options.deployType == "manual" {
          return Ok(None);
        }
        return Err(EnvironmentNotFound(name));
      }
      r := Ok(env);
    }

    method UploadApplication() returns (r: Result<(), Failure>)
      modifies this
      ensures options == old(options)
      ensures var s := Upload(options, world); r == s.result && trace == old(trace) + s.calls
    {
      var s3Object := BuildS3Request(S3Entries(options), options.sourceBundle);
      var call := PutS3Object(s3Object);
      trace := trace + [call];
      r := if world.upload.Rejected? then Err(CallFailed(call)) else Ok(());
    }

    method CreateApplicationVersion() returns (r: Result<(), Failure>)
      modifies this
      ensures options == old(options)
      ensures var s := Publish(options, world); r == s.result && trace == old(trace) + s.calls
    {
      var call := Action.CreateApplicationVersion(options.applicationName, options.versionLabel,
        options.versionDescription, Get(S3Entries(options), "bucket"), Get(S3Entries(options), "key"));
      trace := trace + [call];
      r := if world.publish.Rejected? then Err(CallFailed(call)) else Ok(());
    }

    /** Poll until the environment runs `versionLabel` and is Ready and Green, or the replies run out. */
    method WaitForDeployment(env: Environment) returns (r: Result<Environment, Failure>)
      modifies this
      ensures options == old(options)
      ensures var s := DeploymentStage(options, world, env.name); r == s.result && trace == old(trace) + s.calls
    {
      var request := PollRequest(options.applicationName, env.name);
      ghost var step := PollStepOf(options.applicationName, env.name, options.versionLabel);
      var i := 0;
      while i < |world.polls|
        invariant 0 <= i <= |world.polls|
        invariant options == old(options)
        invariant trace == old(trace) + Repeat(request, i)
        invariant WaitFrom(world.polls, step, DeploymentTimedOut(env.name), i)
                  == DeploymentWait(options.applicationName, env.name, options.versionLabel, world.polls)
        decreases |world.polls| - i
      {
        trace := trace + [request];
        match world.polls[i]
        case Rejected =>
          return Err(CallFailed(request));
        case Replied(envs) =>
          if |envs| == 0 {
            // still not deployed
          } else {
            var current := envs[0];
            if current.versionLabel != options.versionLabel {
            } else if current.status != ReadyStatus {
            } else if current.health != GreenHealth {
            } else {
              return Ok(current);
            }
          }
        i := i + 1;
      }
      r := Err(DeploymentTimedOut(env.name));
    }

    /**
     * Probe `env`'s CNAME until the status is 200 and the body matches, or
     * until the probes run out. A wrong body retries from the status request;
     * a wrong status does too, but leaves the contents check of the earlier
     * round waiting for the nested check, which will hand it `undefined`.
     */
    method WaitForHealthPage(env: Environment, probes: seq<Reply<HttpResponse>>) returns (r: Result<(), Failure>)
      modifies this
      ensures options == old(options)
      ensures var s := HealthStage(options, world, env.cname, probes); r == s.result && trace == old(trace) + s.calls
    {
      if options.healthPage == "" {
        return Ok(());
      }
      var request := ProbeRequest(options.healthPageScheme, env.cname, options.healthPage);
      ghost var check := HealthWait(options.healthPage, options.healthPageScheme, options.healthPageContents,
                                    world.regexTest, env.cname, probes);
      var statusRetried := false;
      var i := 0;
      while i < |probes|
        invariant 0 <= i <= |probes|
        invariant options == old(options)
        invariant trace == old(trace) + Repeat(request, i)
        invariant var rest := CheckFrom(options.healthPageScheme, env.cname, options.healthPage,
                                        options.healthPageContents, world.regexTest, probes, i);
                  check == if statusRetried then AfterStatusRetry(options.healthPageContents, env.cname, rest) else rest
        decreases |probes| - i
      {
        trace := trace + [request];
        match probes[i]
        case Rejected =>
          return Err(CallFailed(request));
        case Replied(res) =>
          if res.statusCode == StatusOK {
            if !ContentsConfigured(options.healthPageContents) {
              return Ok(());
            }
            var body := ReadBody(res.chunks);
            if BodyMatches(options.healthPageContents, body, world.regexTest) {
              if statusRetried {
                return Err(UndefinedResponse(env.cname));
              }
              return Ok(());
            }
          } else {
            statusRetried := true;
          }
        i := i + 1;
      }
      r := Err(HealthPageTimedOut(env.cname));
    }

    method InPlaceDeploy(env: Environment) returns (r: Result<(), Failure>)
      modifies this
      ensures options == old(options)
      ensures var s := InPlaceFlow(options, env, world); r == s.result && trace == old(trace) + s.calls
    {
      ghost var t0 := trace;
      var update := UpdateEnvironment(env.name, options.versionLabel, options.versionDescription);
      trace := trace + [update];
      if world.update.Rejected? {
        return Err(CallFailed(update));
      }
      var current := WaitForDeployment(env);
      ghost var d := DeploymentStage(options, world, env.name);
      AppendAssoc(t0, [update], d.calls);
      if current.Err? {
        return Err(current.error);
      }
      r := WaitForHealthPage(current.value, world.probes);
      AppendAssoc(t0, [update] + d.calls, HealthStage(options, world, current.value.cname, world.probes).calls);
    }

    method CreateConfigurationTemplate(env: Environment) returns (r: Result<string, Failure>)
      modifies this
      ensures options == old(options)
      ensures var s := TemplateStage(options, env, world); r == s.result && trace == old(trace) + s.calls
    {
      var templateName := options.applicationName + "-" + world.templateStamp;
      var call := Action.CreateConfigurationTemplate(options.applicationName, env.id, templateName);
      trace := trace + [call];
      match world.template
      case Rejected => r := Err(CallFailed(call));
      case Replied(data) => r := Ok(data);
    }

    method CreateNewEnvironment(templateName: string) returns (r: Result<Environment, Failure>)
      modifies this
      ensures options == old(options)
      ensures var s := CreateStage(options, world, templateName); r == s.result && trace == old(trace) + s.calls
    {
      var newEnvName := CreateEnvironmentName(options.applicationName, world.nameStamp);
      var call := CreateEnvironment(options.applicationName, newEnvName, options.versionLabel, templateName);
      trace := trace + [call];
      match world.created
      case Rejected => r := Err(CallFailed(call));
      case Replied(data) => r := Ok(data);
    }

    method SwapEnvironmentCNAMEs(oldEnv: Environment, newEnv: Environment) returns (r: Result<Environment, Failure>)
      modifies this
      ensures options == old(options)
      ensures var s := SwapStage(oldEnv, newEnv, world); r == s.result && trace == old(trace) + s.calls
    {
      var call := Action.SwapEnvironmentCNAMEs(oldEnv.name, newEnv.name);
      trace := trace + [call];
      r := if world.swap.Rejected? then Err(CallFailed(call)) else Ok(oldEnv);
    }

    /** The chain `swapDeploy` runs once the new environment exists. */
    method ReleaseNewEnvironment(oldEnv: Environment, newEnv: Environment) returns (r: Result<(), Failure>)
      modifies this
      ensures options == old(options)
      ensures var s := ReleaseFlow(options, oldEnv, newEnv, world); r == s.result && trace == old(trace) + s.calls
    {
      ghost var t0 := trace;
      var current := WaitForDeployment(newEnv);
      if current.Err? {
        return Err(current.error);
      }
      ghost var d := DeploymentStage(options, world, newEnv.name);
      var healthy := WaitForHealthPage(current.value, world.probes);
      ghost var h := HealthStage(options, world, current.value.cname, world.probes);
      AppendAssoc(t0, d.calls, h.calls);
      if healthy.Err? {
        return healthy;
      }
      var swapped := SwapEnvironmentCNAMEs(oldEnv, newEnv);
      ghost var sw := SwapStage(oldEnv, newEnv, world);
      AppendAssoc(t0, d.calls + h.calls, sw.calls);
      if swapped.Err? {
        return Err(swapped.error);
      }
      r := WaitForHealthPage(swapped.value, world.postSwapProbes);
      AppendAssoc(t0, d.calls + h.calls + sw.calls, HealthStage(options, world, oldEnv.cname, world.postSwapProbes).calls);
    }

    method SwapDeploy(env: Environment) returns (r: Result<(), Failure>)
      modifies this
      ensures options == old(options)
      ensures var s := SwapFlow(options, env, world); r == s.result && trace == old(trace) + s.calls
    {
      ghost var t0 := trace;
      var templateName := CreateConfigurationTemplate(env);
      if templateName.Err? {
        return Err(templateName.error);
      }
      var newEnv := CreateNewEnvironment(templateName.value);
      ghost var t := TemplateStage(options, env, world);
      ghost var ce := CreateStage(options, world, templateName.value);
      AppendAssoc(t0, t.calls, ce.calls);
      if newEnv.Err? {
        return Err(newEnv.error);
      }
      r := ReleaseNewEnvironment(env, newEnv.value);
      AppendAssoc(t0, t.calls + ce.calls, ReleaseFlow(options, env, newEnv.value, world).calls);
    }

    method InvokeDeployType(env: Option<Environment>) returns (r: Result<(), Failure>)
      requires NeedsEnvironment(options.deployType) ==> env.Some?
      modifies this
      ensures options == old(options)
      ensures var s := DeployByType(options, env, world); r == s.result && trace == old(trace) + s.calls
    {
      match ParseDeployType(options.deployType)
      case Some(InPlace) => r := InPlaceDeploy(env.value);
      case Some(SwapToNew) => r := SwapDeploy(env.value);
      case Some(Manual) => r := Ok(());
      case None => r := Err(UnknownDeployType(options.deployType));
    }

    /** The promise chain from `checkApplicationExists` to `invokeDeployType`. */
    method RunPipeline() returns (r: Result<(), Failure>)
      modifies this
      ensures options == old(options)
      ensures var s := Pipeline(options, world); r == s.result && trace == old(trace) + s.calls
    {
      PipelineSteps(options, world);
      ghost var t0 := trace;
      ghost var a, e, u, p := ApplicationCheck(options, world), EnvironmentCheck(options, world),
                              Upload(options, world), Publish(options, world);
      r := CheckApplicationExists();
      if r.Err? {
        return;
      }
      var env := CheckEnvironmentExists();
      AppendAssoc(t0, a.calls, e.calls);
      if env.Err? {
        return Err(env.error);
      }
      r := UploadApplication();
      AppendAssoc(t0, a.calls + e.calls, u.calls);
      if r.Err? {
        return;
      }
      r := CreateApplicationVersion();
      AppendAssoc(t0, a.calls + e.calls + u.calls, p.calls);
      if r.Err? {
        return;
      }
      r := InvokeDeployType(env.value);
      AppendAssoc(t0, a.calls + e.calls + u.calls + p.calls, DeployByType(options, env.value, world).calls);
    }

    /** The task body: validate the options, then run the pipeline on them. */
    method Run() returns (r: Result<(), Failure>)
      modifies this
      ensures var s := Session(old(options), world); r == s.result && trace == old(trace) + s.calls
      ensures Validated(old(options), world.bundleIsFile).Ok? ==>
                options == Validated(old(options), world.bundleIsFile).value
    {
      r := ValidateOptions();
      if r.Err? {
        return;
      }
      r := RunPipeline();
    }
  }
}
