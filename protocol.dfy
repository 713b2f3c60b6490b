/**
 * The calls the deploy task issues to Elastic Beanstalk, S3 and the health page,
 * recorded as values, and the reasons a deploy session aborts.
 */
module Protocol {

  /** A value of the S3 putObject request: an option given by the user, or the bytes of the bundle file. */
  datatype S3Value = Text(text: string) | BundleContents(path: string)

  datatype Action =
    | DescribeApplications(applicationNames: seq<string>)
    /** `environmentNames == []` lists every non-deleted environment of the application. */
    | DescribeEnvironments(applicationName: string, environmentNames: seq<string>)
    | PutS3Object(request: map<string, S3Value>)
    | CreateApplicationVersion(applicationName: string, versionLabel: string, description: string,
                               s3Bucket: string, s3Key: string)
    | UpdateEnvironment(environmentName: string, versionLabel: string, description: string)
    | CreateConfigurationTemplate(applicationName: string, environmentId: string, templateName: string)
    | CreateEnvironment(applicationName: string, environmentName: string, versionLabel: string,
                        templateName: string)
    | SwapEnvironmentCNAMEs(sourceEnvironmentName: string, destinationEnvironmentName: string)
    /** An HTTP(S) GET of `path` on `hostname`, sent with `cache-control: no-cache`. */
    | GetHealthPage(scheme: string, hostname: string, path: string)

  /** Why a session stops; each is a `grunt.warn` (fatal) or a rejected promise handed to `done`. */
  datatype Failure =
    | MissingOption(option: string)
    | BundleNotAFile(path: string)
    | UnsupportedScheme(scheme: string)
    | ApplicationNotFound(applicationName: string)
    | EnvironmentNotFound(target: string)
    | UnknownDeployType(deployType: string)
    | CallFailed(call: Action)
    | DeploymentTimedOut(environmentName: string)
    | HealthPageTimedOut(hostname: string)
    /** The TypeError of `res.setEncoding` when the contents check is handed `undefined` instead of a response. */
    | UndefinedResponse(hostname: string)

  /** The number of calls in `calls` that satisfy `p`. */
  function Occurrences(calls: seq<Action>, p: Action -> bool): nat
  {
    if calls == [] then 0 else Occurrences(calls[..|calls| - 1], p) + (if p(calls[|calls| - 1]) then 1 else 0)
  }

  lemma {:induction false} OccurrencesAppend(a: seq<Action>, b: seq<Action>, p: Action -> bool)
    ensures Occurrences(a + b, p) == Occurrences(a, p) + Occurrences(b, p)
    decreases |b|
  {
    if b == [] {
      assert a + b == a;
    } else {
      assert (a + b)[..|a + b| - 1] == a + b[..|b| - 1];
      OccurrencesAppend(a, b[..|b| - 1], p);
    }
  }
}
