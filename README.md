# grunt-awsebtdeploy: a Dafny model of the `awsebtdeploy` task

The `awsebtdeploy` grunt task deploys an application bundle to AWS Elastic
Beanstalk. It first validates and normalises its options. Then it runs a
promise chain:

1. check that the application exists;
2. find the target environment, by name or else by CNAME;
3. upload the bundle to S3;
4. register an application version;
5. deploy according to `deployType`.

The deploy types are:

- `inPlace`: update the environment, poll until it is Ready and Green on the
  new version, then probe its health page.
- `swapToNew` (blue-green):
  1. template the running environment;
  2. create a fresh environment from the template, with a synthesized name;
  3. wait for it and probe its health page;
  4. swap the CNAMEs;
  5. probe the original hostname again.
- `manual`: stop after registering the version.

The model records every call to Elastic Beanstalk, S3 or the health page as
an `Action` value appended to a trace. The outside world's answers are
scripted in a `World` value:

- one reply per call site;
- for each wait, the sequence of replies that arrive before its deadline;
- the two time stamps the task reads;
- the JavaScript engine's RegExp test.

Any AWS call may be rejected, and a rejection ends the session with
`CallFailed`. A health probe whose request errors ends it the same way. `grunt.warn` is fatal (grunt's default without `--force`), so
every warning ends the session with a `Failure`.

The model is in two layers:

- Pure functions say what a session does. `Session` covers the whole task,
  `Pipeline` the promise chain, and `InPlaceFlow`, `SwapFlow` and
  `ReleaseFlow` the deploy flows. `DeploymentWait` and `HealthWait` are the
  two retry loops.
- The class `Deploy.DeployTask` performs the same steps imperatively:
  - it normalises its `options` field in place;
  - it runs the retry loops as `while` loops over the reply sequences;
  - it appends each call to its `trace` field.

  Each of its methods is proved to end exactly as the corresponding function
  says, and to leave the trace extended by exactly that function's calls.

The properties are lemmas about the functions:

- environment-name shape and length;
- first-match lookup;
- what option normalisation does, and that it is idempotent;
- the keys of the S3 request;
- which reply ends each wait, and how the health check's retry after a wrong
  status differs from the retry the code sets out to perform;
- the exact call order of both deploy flows;
- when the CNAME swap happens;
- that no session repeats a write.

Modules, one per file:

| file | module | models |
|---|---|---|
| basics.dfy | `Basics` | `Option`, `Result`, `Reply` (a settled promise) |
| protocol.dfy | `Protocol` | the calls issued, the failures, counting calls |
| environments.dfy | `Environments` | `findEnvironmentByName` / `findEnvironmentByCNAME` |
| naming.dfy | `Naming` | `createEnvironmentName` |
| task_options.dfy | `TaskOptions` | the options, `validateOptions`' rules, the S3 request of `uploadApplication` |
| polling.dfy | `Polling` | the retry-until-settled loop under `Q.timeout`, shared by both waits |
| convergence.dfy | `Convergence` | `waitForDeployment` |
| health_check.dfy | `HealthCheck` | `waitForHealthPage` |
| deploy.dfy | `Deploy` | the stages, the deploy flows, `invokeDeployType`, the pipeline, the class `DeployTask` |
| deploy_properties.dfy | `DeployProperties` | properties of whole flows and sessions |

### Behaviour of the code worth knowing

- **Unsupported scheme.** An unsupported `healthPageScheme` aborts the task
  (tasks/awsebtdeploy.js:181-183). The message says "reverting to http", but
  `grunt.warn` is fatal, so the reset to `http` never runs. By then the
  `healthPage` normalisation has already been applied in place.
  `DeployTask.ValidateOptions` states this.
- **Name length.** The synthesized environment name is not clipped to 23
  characters when the application name itself is longer. Such a name gets no
  time suffix and keeps its stripped full length (`Naming.EnvironmentNameLength`).
  The budget of 23 is counted in UTF-16 code units of the original name
  (`Naming.JsLength`), so a character outside the Basic Multilingual Plane
  takes two units even though it is stripped
  (`Naming.AstralCharacterTakesTwoUnits`).
- **Unknown deploy type.** An unknown `deployType` is only detected in
  `invokeDeployType`, after the bundle has been uploaded and the version
  created (`DeployProperties.UnknownDeployTypeFailsLate`). `validateOptions`
  does not look at `deployType`.
- **Name and CNAME together.** Both `environmentName` and `environmentCNAME`
  may be given. The name then wins and the CNAME is ignored
  (`DeployProperties.NameWinsOverCNAME`). Nothing rejects the combination.
- **Health check after a wrong status.** See "## Findings". The deploy flows
  use the check as written (`HealthCheck.HealthWait`), so every property of
  `InPlaceFlow`, `SwapFlow` and `ReleaseFlow` describes the code's own
  behaviour, including this defect.

## Model

| member | source | states |
|---|---|---|
| Environments.FilterContents | tasks/awsebtdeploy.js:24-26 | `filter` keeps every element satisfying the predicate, only those, and only elements of the input |
| Environments.FilterHead | tasks/awsebtdeploy.js:24-26 | element 0 of the filter is the first element of the input that satisfies the predicate |
| Environments.FilterEmpty | tasks/awsebtdeploy.js:24-26 | the filter is empty exactly when no element satisfies the predicate |
| Environments.FirstMatchFinds | tasks/awsebtdeploy.js:21-35 | `filter(p)[0]` is absent exactly when `Environments` is missing or nothing matches; otherwise it is the first matching element |
| Environments.FindEnvironmentByNameFinds | tasks/awsebtdeploy.js:29-35 | absent exactly when no environment has that EnvironmentName (or the list is missing); otherwise the first that has it |
| Environments.FindEnvironmentByCNAMEFinds | tasks/awsebtdeploy.js:21-27 | absent exactly when no environment has that CNAME (or the list is missing); otherwise the first that has it |
| Naming.SubstringIsSuffix | tasks/awsebtdeploy.js:42 | `time.substring(len - space, len)` is the last `min(len, max(0, space))` characters, including for a negative space |
| Naming.StripInvalid | tasks/awsebtdeploy.js:54 | removing `[^a-zA-Z0-9\-]` leaves only name characters, never lengthens the string, and changes nothing in a string with only name characters |
| Naming.StripInvalidKeepsNameChars | tasks/awsebtdeploy.js:54 | every occurrence of every name character survives the stripping |
| Naming.StripInvalidAppend | tasks/awsebtdeploy.js:54 | stripping a concatenation is the concatenation of the stripped parts, in order |
| Naming.StripInvalidSingle | tasks/awsebtdeploy.js:54 | a single character survives exactly when it is a name character |
| Naming.JsLengthAtLeast | tasks/awsebtdeploy.js:41 | `applicationName.length` (UTF-16 code units) is never less than the number of characters |
| Naming.JsLengthOfBmp | tasks/awsebtdeploy.js:41 | for a string inside the Basic Multilingual Plane, `.length` is its number of characters |
| Naming.CreateEnvironmentName | tasks/awsebtdeploy.js:37-55 | the name is the stripped application name followed by the last min(length of the stamp, max(0, 23 minus the ORIGINAL name's length in UTF-16 code units)) characters of the time stamp; a valid application name is kept verbatim as the prefix |
| Naming.EnvironmentNameLength | tasks/awsebtdeploy.js:37-55 | an application name of at most 23 code units gives a name of at most 23 characters; a longer one gets no time suffix |
| Naming.AstralCharacterTakesTwoUnits | tasks/awsebtdeploy.js:41-54 | a valid 21-character name followed by one emoji leaves no room for the time stamp: the result is the name alone |
| Naming.NameCharsBeforeSuffix | tasks/awsebtdeploy.js:49-54 | everything before the time suffix is a letter, a digit or a dash |
| TaskOptions.Basename | tasks/awsebtdeploy.js:200 | the simplified `path.basename` result is the text after the last `/`: a suffix of the path with no `/` in it, preceded by a `/` unless it is the whole path |
| TaskOptions.BasenameWithoutExtension | tasks/awsebtdeploy.js:186-189 | the default version label is the basename cut before its last `.`, or the whole basename when it has no `.` or its last `.` is its first character |
| TaskOptions.Put | tasks/awsebtdeploy.js:195-200 | a property assignment sets that key, leaves every other key's value alone, keeps every existing property, the assigned one included, at its position, and appends a new one at the end |
| TaskOptions.S3Defaults | tasks/awsebtdeploy.js:191-201 | `s3.bucket` falls back to the application name and `s3.key` to the bundle's basename; other properties and already-set values are kept; both keys are present afterwards |
| TaskOptions.PrefixHealthPage | tasks/awsebtdeploy.js:173-177 | a set health page starts with `/` afterwards: one without it becomes `/` followed by the page, one that already has it is unchanged; an unset one stays unset |
| TaskOptions.PrefixHealthPageIdempotent | tasks/awsebtdeploy.js:175-176 | prefixing the health page twice is the same as once |
| TaskOptions.ValidatedChecks | tasks/awsebtdeploy.js:164-184 | the checks abort in the source's order with the missing option named, a bundle that is not a file, or the unsupported scheme; validation succeeds exactly when all required options are set, the bundle is a file and the scheme is unset, `http` or `https` |
| TaskOptions.ValidatedNormalises | tasks/awsebtdeploy.js:173-201 | after validation: the health page starts with `/` when set, the scheme is `http` or `https` and `http` when it was unset, the version label and S3 location have their defaults, given values are kept, and every other option is untouched |
| TaskOptions.ValidatedIdempotent | tasks/awsebtdeploy.js:164-202 | validating already-validated options gives them back unchanged |
| TaskOptions.S3DefaultsIdempotent | tasks/awsebtdeploy.js:191-201 | applying the S3 defaults a second time changes nothing |
| TaskOptions.PutKeys | tasks/awsebtdeploy.js:195-200 | after a property assignment, the object has exactly its old keys and the assigned one |
| TaskOptions.PutKeepsDistinctKeys | tasks/awsebtdeploy.js:195-200 | a property assignment never creates a second property with the same key |
| TaskOptions.S3DefaultsKeepDistinctKeys | tasks/awsebtdeploy.js:191-201 | the S3 defaults keep the keys of `options.s3` distinct |
| TaskOptions.ValidatedKeepsDistinctKeys | tasks/awsebtdeploy.js:164-202 | validated options hold an `options.s3` object, with distinct keys when the given one had them |
| TaskOptions.PutSame | tasks/awsebtdeploy.js:195-200 | writing back the value a present property already has leaves the object unchanged |
| TaskOptions.Capitalize | tasks/awsebtdeploy.js:466 | `key.substring(0,1).toUpperCase() + key.substring(1)` (with the ASCII-only upper-casing of `TaskOptions.UpperCase`) has the same length, with the first character upper-cased and the rest unchanged |
| TaskOptions.CapitalisedKeys | tasks/awsebtdeploy.js:464-469 | the copied object has one key per own property of `options.s3`, capitalised, and no other key |
| TaskOptions.CapitalisedValue | tasks/awsebtdeploy.js:464-469 | a property that no later property shadows keeps its value under its capitalised key |
| TaskOptions.S3RequestContents | tasks/awsebtdeploy.js:464-473 | the putObject request holds `Body` with the bundle contents, a key for every option, no other key, and under each key the value of the last option that capitalises to it |
| TaskOptions.BuildS3Request | tasks/awsebtdeploy.js:462-473 | the `for…in` loop, then `Body`, builds exactly that request |
| Polling.WaitOutcome | tasks/awsebtdeploy.js:298-341 | a wait stops at the first reply that settles it, with that reply's verdict, after one request per reply up to it; with no settling reply it times out after all of them |
| Polling.WaitFromSettles | tasks/awsebtdeploy.js:298-341 | resumed at any reply before the first settling one, the wait ends at that one |
| Polling.WaitFromTimesOut | tasks/awsebtdeploy.js:341 | if no reply settles it, the wait ends with the timeout after every reply |
| Polling.WaitFromAttempts | tasks/awsebtdeploy.js:298-341 | resumed at reply `i`, the wait issues at least reply `i`'s request and never more requests than there are replies |
| Polling.FirstSettling | tasks/awsebtdeploy.js:298-341 | if some reply settles the wait, there is a first one |
| Polling.WaitRespectsSteps | tasks/awsebtdeploy.js:298-341 | two reply sequences that each step reads alike give the same wait |
| Convergence.PollStepMeaning | tasks/awsebtdeploy.js:307-337 | a poll converges exactly when element 0 exists and runs the version, Ready and Green, and it yields that element; it fails exactly when the call is rejected; anything else polls again |
| Convergence.DeploymentWaitConverged | tasks/awsebtdeploy.js:294-342 | a converged wait ended on the first reply whose element 0 is ready, after only non-ready replies, and never polled past the deadline |
| Convergence.DeploymentWaitStopsAt | tasks/awsebtdeploy.js:298-341 | when reply `k` is the first that is ready or rejected, exactly `k + 1` polls are issued and the wait ends with that reply's verdict; nothing is fetched after it |
| Convergence.DeploymentWaitTimesOut | tasks/awsebtdeploy.js:341 | when no reply is ready or rejected, the wait times out after every reply |
| Convergence.OnlyFirstElementRead | tasks/awsebtdeploy.js:308-314 | replies that agree on element 0 give the same wait |
| HealthCheck.ReadBody | tasks/awsebtdeploy.js:394-397 | accumulating the `data` chunks gives their concatenation, or `undefined` when none arrived |
| HealthCheck.ClassifyProbeMeaning | tasks/awsebtdeploy.js:361-414 | a probe's request fails exactly when it is rejected; it has the wrong status exactly when it answers other than 200; the wrong body exactly when it answers 200, contents are configured and the body does not match; otherwise it is healthy |
| HealthCheck.HealthWaitPassed | tasks/awsebtdeploy.js:344-429 | a passed check ended on a 200 probe with a matching body (when contents are configured), after only unhealthy answers, never probed past the deadline, and, with contents configured, saw no status other than 200 before |
| HealthCheck.LiteralNeedsExactBody | tasks/awsebtdeploy.js:403-405 | with a string configured, passing means the concatenated body equals it exactly |
| HealthCheck.HealthWaitStopsAt | tasks/awsebtdeploy.js:349-423 | when probe `k` is the first that is healthy or rejected, exactly `k + 1` requests are issued; a rejection fails the check, and a healthy answer passes it unless contents are configured and an earlier probe had the wrong status, in which case the check fails with `UndefinedResponse` |
| HealthCheck.HealthWaitTimesOut | tasks/awsebtdeploy.js:428 | when every probe is answered but unhealthy, the check times out after all of them |
| HealthCheck.StatusAloneSuffices | tasks/awsebtdeploy.js:383-387 | without `healthPageContents`, the first 200 passes whatever its body |
| HealthCheck.CheckFromAgrees | tasks/awsebtdeploy.js:361-423 | the check as written ends as the intended retry does, except that a pass after some wrong status turns into `UndefinedResponse` when contents are configured |
| HealthCheck.StatusRetryBreaksContentsCheck | tasks/awsebtdeploy.js:367-369 | with contents `"ok"`, the probes 503 then 200 `"ok"` fail the check as written with `UndefinedResponse` after two requests, where the intended check passes |
| HealthCheck.IntendedHealthWaitPassed | tasks/awsebtdeploy.js:361-423 | a passed intended check ended on a 200 probe with a matching body (when contents are configured), after only unhealthy answers, and never probed past the deadline |
| HealthCheck.IntendedHealthWaitStopsAt | tasks/awsebtdeploy.js:361-423 | when probe `k` is the first that is healthy or rejected, the intended check issues exactly `k + 1` requests and ends with that probe's verdict |
| HealthCheck.IntendedHealthWaitTimesOut | tasks/awsebtdeploy.js:428 | when every probe is answered but unhealthy, the intended check times out after all of them |
| Deploy.ParseDeployType | tasks/awsebtdeploy.js:432-441 | a recognised deploy type is the one named by the string |
| Deploy.DeployTypeRoundTrip | tasks/awsebtdeploy.js:432-438 | every deploy type is recognised under its own name |
| Deploy.ResolveTarget | tasks/awsebtdeploy.js:503-514 | going on without an environment happens only for `manual` |
| Deploy.ResolveTargetFinds | tasks/awsebtdeploy.js:485-516 | the lookup yields the first environment the target identifies (by name when a name is set, else by CNAME); with none, `manual` goes on without one and every other type fails naming the target |
| Deploy.DeployTask.constructor | tasks/awsebtdeploy.js:204-213 | a task starts with the given options and world and an empty trace |
| Deploy.DeployTask.ValidateOptions | tasks/awsebtdeploy.js:164-202 | the options are normalised in place exactly as `Validated` says and no call is issued; on an error, the only change is the health-page prefix when the scheme check aborts |
| Deploy.DeployTask.DefaultS3 | tasks/awsebtdeploy.js:191-201 | `options.s3` is created when missing and its bucket and key are defaulted in place, as `S3Defaults` says |
| Deploy.DeployTask.CheckApplicationExists | tasks/awsebtdeploy.js:518-532 | one `describeApplications` call; abort when it is rejected or finds no application |
| Deploy.DeployTask.CheckEnvironmentExists | tasks/awsebtdeploy.js:485-516 | one `describeEnvironments` call for the application; the result is `ResolveTarget` of its reply |
| Deploy.DeployTask.UploadApplication | tasks/awsebtdeploy.js:461-483 | one putObject call carrying the request `BuildS3Request` builds |
| Deploy.DeployTask.CreateApplicationVersion | tasks/awsebtdeploy.js:444-459 | one `createApplicationVersion` call with the label, description, bucket and key |
| Deploy.DeployTask.WaitForDeployment | tasks/awsebtdeploy.js:294-342 | the poll loop issues exactly the polls `DeploymentWait` counts and ends as it does |
| Deploy.DeployTask.WaitForHealthPage | tasks/awsebtdeploy.js:344-429 | the probe loop, which remembers whether a status retry happened, issues exactly the probes `HealthWait` counts (none without a health page) and ends as it does |
| Deploy.DeployTask.InPlaceDeploy | tasks/awsebtdeploy.js:275-292 | update, wait and health check issue exactly the calls of `InPlaceFlow` |
| Deploy.DeployTask.CreateConfigurationTemplate | tasks/awsebtdeploy.js:221-234 | one template call named `applicationName-stamp` for the environment's id; it yields the returned TemplateName |
| Deploy.DeployTask.CreateNewEnvironment | tasks/awsebtdeploy.js:236-250 | one `createEnvironment` call with the synthesized name, the version and the template |
| Deploy.DeployTask.SwapEnvironmentCNAMEs | tasks/awsebtdeploy.js:252-262 | one swap call, source old and destination new, passing the old environment on |
| Deploy.DeployTask.ReleaseNewEnvironment | tasks/awsebtdeploy.js:267-272 | wait, health check, swap and second health check issue exactly the calls of `ReleaseFlow` |
| Deploy.DeployTask.SwapDeploy | tasks/awsebtdeploy.js:264-273 | the blue-green chain issues exactly the calls of `SwapFlow` |
| Deploy.DeployTask.InvokeDeployType | tasks/awsebtdeploy.js:431-442 | dispatch on `deployType` issues exactly the calls of `DeployByType` |
| Deploy.DeployTask.RunPipeline | tasks/awsebtdeploy.js:534-539 | the promise chain issues exactly the calls of `Pipeline` and ends as it does |
| Deploy.DeployTask.Run | tasks/awsebtdeploy.js:164-539 | validation then the chain issue exactly the calls of `Session`, leaving the validated options in place |
| DeployProperties.PollsWriteNothing | tasks/awsebtdeploy.js:298-306 | the polls of a deployment wait write nothing |
| DeployProperties.ProbesWriteNothing | tasks/awsebtdeploy.js:349-381 | health probes write nothing |
| DeployProperties.InPlaceWrites | tasks/awsebtdeploy.js:286-292 | the in-place flow writes exactly one update and no other write |
| DeployProperties.ReleaseWrites | tasks/awsebtdeploy.js:267-272 | after creation, the only write is the swap, issued exactly when the new environment converged and passed its health check |
| DeployProperties.SwapWrites | tasks/awsebtdeploy.js:264-273 | the blue-green flow writes one template, then one environment if the template was made, then one swap exactly when the new environment is healthy |
| DeployProperties.DeployWrites | tasks/awsebtdeploy.js:431-442 | no deploy flow repeats a write, and none uploads or registers a version |
| DeployProperties.PipelineStops | tasks/awsebtdeploy.js:534-537 | a pipeline whose preamble fails has issued a prefix of the four preamble calls and fails |
| DeployProperties.PipelineDeploys | tasks/awsebtdeploy.js:534-539 | a pipeline whose preamble passes issues the four preamble calls, then the deploy flow's calls, and ends as the flow does |
| DeployProperties.PreambleWrites | tasks/awsebtdeploy.js:534-537 | the preamble writes only the upload and the version, each at most once |
| DeployProperties.SessionWritesOnce | tasks/awsebtdeploy.js:164-539 | a session issues each kind of write at most once |
| DeployProperties.WritesAtMostOnce | tasks/awsebtdeploy.js:164-539 | no session repeats any write: one upload, one version, at most one update, template, new environment and swap |
| DeployProperties.InPlaceDeployOrder | tasks/awsebtdeploy.js:286-292 | `updateEnvironment` comes first, then polls of the environment by name, then probes of the CNAME of the snapshot the polls converged on |
| DeployProperties.InPlaceDeploySucceeded | tasks/awsebtdeploy.js:286-342 | a successful in-place deploy had its update accepted and saw the environment Ready and Green on the new version |
| DeployProperties.InPlaceWithoutHealthPage | tasks/awsebtdeploy.js:345-347 | with no health page the in-place flow sends no probe |
| DeployProperties.SwapOnlyWhenNewEnvironmentHealthy | tasks/awsebtdeploy.js:264-273 | the swap is issued exactly once when the new environment was created, converged and passed its health check, and never otherwise; a successful blue-green deploy had the swap accepted |
| DeployProperties.SwapDeployOrder | tasks/awsebtdeploy.js:264-273 | the exact blue-green call sequence: template of the old environment, then the new environment (synthesized name, version, template), then polls of it, then probes of its polled CNAME, then the swap (old to new), then, if the swap is accepted, probes of the old snapshot's CNAME |
| DeployProperties.SessionStart | tasks/awsebtdeploy.js:217-534 | invalid options abort before any call; valid ones start with the application lookup, and something follows it exactly when the application exists |
| DeployProperties.ManualDeploysNothing | tasks/awsebtdeploy.js:437-438 | `manual` issues only a prefix of the four preamble calls and succeeds exactly when all four went through |
| DeployProperties.UnknownDeployTypeFailsLate | tasks/awsebtdeploy.js:439-440 | an unknown deploy type never succeeds, and is reported only after the upload and the version |
| DeployProperties.SessionSucceeded | tasks/awsebtdeploy.js:534-539 | a successful session passed validation, issued the whole preamble and used a known deploy type: `manual` did nothing more, `inPlace` updated once, `swapToNew` swapped once |
| DeployProperties.NameWinsOverCNAME | tasks/awsebtdeploy.js:498-501 | with `environmentName` set, the CNAME option plays no part in the lookup |

## Findings

| source | as written | input that shows it | evidently intended | confidence | as-written member | corrected member |
|---|---|---|---|---|---|---|
| tasks/awsebtdeploy.js:367-369 | after a status other than 200, the status promise resolves with the nested `checkHealthPage()`, which resolves with `undefined`; the outer `.then(checkHealthPageContents)` (lines 421-422) then calls `res.setEncoding` on `undefined` (line 392) and rejects | `healthPageContents` `"ok"`, probes answering 503 and then 200 with body `"ok"` | a wrong status retries the whole check, and the later 200 with the expected body passes it | not executed | HealthCheck.StatusRetryBreaksContentsCheck (on HealthCheck.HealthWait) | HealthCheck.IntendedHealthWait, with HealthCheck.IntendedHealthWaitPassed |

The deploy flows keep the behaviour as written: they run `HealthWait`, not
`IntendedHealthWait`, because they model what the task does. `CheckFromAgrees`
relates the two at every probe.

## Left out

- `setupAWSOptions` and `wrapAWS` (tasks/awsebtdeploy.js:57-82): credentials from environment variables and the SDK binding are outside the model.
- The `awsebtlogs` task (tasks/awsebtdeploy.js:84-160): it only downloads logs to files.
- Logging (`grunt.log`, `grunt.verbose`) is not modelled; it does not affect the outcome.
- Timers: `Q.delay` and the wall clock of `Q.timeout` are replaced by the finite reply sequences in `World`. So `deployTimeoutMin`, `deployIntervalSec`, `healthPageTimeoutMin` and `healthPageIntervalSec` do not appear.
- HTTP and HTTPS transport, the `cache-control` header and `rejectUnauthorized` are out of scope. A probe is an abstract `GetHealthPage(scheme, hostname, path)` call.
- A probe whose request errors: `get` and `sget` get no `'error'` listener (tasks/awsebtdeploy.js:375-377), so the error is thrown and ends the process. The model records it as `CallFailed`, which ends the session just as fatally.
- Requests issued after `Q.timeout` fires are not modelled. The timed-out chain keeps probing or polling in the background, but the task has already failed; the model stops at the timeout.
- Naming.CreateEnvironmentName: the time stamp is cut by characters, which equal UTF-16 code units for its digit strings; only the application name's length is counted in code units.
- Reading the bundle (`fs.readFileSync`) is not modelled. The `Body` of the S3 request is the abstract `BundleContents(path)`.
- `grunt.file.isFile` is an input (`World.bundleIsFile`).
- `new Date().getTime()` is an input: two digit strings, one for the template name and one for the environment name.
- HealthCheck.BodyMatches: the JavaScript RegExp engine is abstracted as the opaque `World.regexTest(source, text)`, so nothing is proved about what a pattern matches.
- TaskOptions.Basename: it models Node's `path.basename` simplified to the text after the last `/`. BasenameWithoutExtension drops the text from the last `.` unless that `.` opens the segment. Neither claims Node's exact behaviour (trailing slashes, Windows separators).
- TaskOptions.UpperCase: it upper-cases only ASCII letters, where `String.prototype.toUpperCase` also maps other letters. Some characters upper-case to more than one (`'ß'` to `"SS"`), so in the source a capitalised key can be longer than the original; `TaskOptions.Capitalize`'s equal length holds only for the model.
- grunt's merge of the task defaults (tasks/awsebtdeploy.js:206-213) is not modelled. `Config` is the options after the merge, so `deployType` and `versionDescription` already hold their defaults or the user's values.
- JavaScript truthiness of the string options is not modelled in general. An unset option is the empty string, and the source's `!x` tests treat `undefined`, `null` and `""` alike.
- Values of `options.s3` are strings. Non-string S3 parameters are not modelled.
- `options.s3` is a sequence of (key, value) pairs. A sequence with a repeated key stands for no JavaScript object. On such input `Get` reads the first entry while the capitalised copy keeps the last, which the source cannot do. `DistinctKeys` is the property a real object has, and validation keeps it (`TaskOptions.ValidatedKeepsDistinctKeys`).
- A rejected `describeEnvironments` or `createApplicationVersion` promise aborts the session through `done`. The model shows this as `CallFailed`, without grunt's message text.
- Concurrency is not modelled: the promise chain is strictly sequential, and the model keeps that order.
