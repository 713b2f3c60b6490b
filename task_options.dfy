/**
 * The options of the `awsebtdeploy` task: the checks and defaults of
 * `validateOptions`, and the S3 request `uploadApplication` builds from `options.s3`.
 *
 * A string option is `""` when the user left it unset: every test the task
 * makes on such an option is a JavaScript truthiness test, under which
 * `undefined`, `null` and `""` behave alike.
 */
module TaskOptions {
  import opened Basics
  import opened Protocol

  /** `healthPageContents`: unset, a string to compare with, or a RegExp (kept as its source text). */
  datatype Contents = NoContents | Literal(text: string) | Pattern(source: string)

  /** The test `if (!options.healthPageContents)` fails: a non-empty string, or any RegExp. */
  predicate ContentsConfigured(c: Contents) {
    c.Pattern? || (c.Literal? && c.text != "")
  }

  /** The task's `options` object, after grunt has merged in the task's own defaults. */
  datatype Config = Config(
    applicationName: string,
    environmentName: string,
    environmentCNAME: string,
    region: string,
    sourceBundle: string,
    healthPage: string,
    healthPageScheme: string,
    healthPageContents: Contents,
    versionLabel: string,
    versionDescription: string,
    deployType: string,
    /** `options.s3` as its own enumerable properties in insertion order; `None` when the object is absent. */
    s3: Option<seq<(string, string)>>)

  // ---------------------------------------------------------------- paths

  /** The index of the last occurrence of `c` in `s`, if any. */
  function LastIndexOf(s: string, c: char): (r: Option<nat>)
    ensures r.None? <==> c !in s
    ensures r.Some? ==> r.value < |s| && s[r.value] == c && c !in s[r.value + 1..]
  {
    if s == [] then None
    else if s[|s| - 1] == c then Some(|s| - 1)
    else
      var r := LastIndexOf(s[..|s| - 1], c);
      assert s == s[..|s| - 1] + [s[|s| - 1]];
      if r.Some? then assert s[r.value + 1..] == s[..|s| - 1][r.value + 1..] + [s[|s| - 1]]; r
      else r
  }

  /** `path.basename(p)`, simplified to the text after the last `/`. */
  function Basename(path: string): (r: string)
    ensures '/' !in r
    ensures |r| <= |path| && r == path[|path| - |r|..]
    ensures |r| < |path| ==> path[|path| - |r| - 1] == '/'
  {
    match LastIndexOf(path, '/')
    case None => path
    case Some(i) => path[i + 1..]
  }

  /**
   * `path.basename(p, path.extname(p))`, simplified: the last segment without
   * the text from its last `.`, unless that `.` opens the segment.
   */
  function BasenameWithoutExtension(path: string): (r: string)
    ensures var base := Basename(path); |r| <= |base| && r == base[..|r|]
    ensures '.' !in Basename(path) ==> r == Basename(path)
    ensures var base := Basename(path);
            && (LastIndexOf(base, '.').Some? && LastIndexOf(base, '.').value > 0 ==>
                  r == base[..LastIndexOf(base, '.').value])
            && (LastIndexOf(base, '.') == Some(0) ==> r == base)
  {
    var base := Basename(path);
    match LastIndexOf(base, '.')
    case Some(i) => if i > 0 then base[..i] else base
    case None => base
  }

  // ---------------------------------------------------------------- options.s3

  /** `obj[key]` read as a string option: `""` when the property is absent. */
  function Get(entries: seq<(string, string)>, key: string): string
  {
    if entries == [] then ""
    else if entries[0].0 == key then entries[0].1
    else Get(entries[1..], key)
  }

  /** `obj.hasOwnProperty(key)`. */
  predicate Present(entries: seq<(string, string)>, key: string) {
    entries != [] && (entries[0].0 == key || Present(entries[1..], key))
  }

  /** Two property lists with the same keys at the same positions. */
  predicate SameKeyOrder(a: seq<(string, string)>, b: seq<(string, string)>) {
    |a| == |b| && forall i :: 0 <= i < |a| ==> a[i].0 == b[i].0
  }

  /** `obj[key] = value`: the existing property keeps its place, a new one is appended. */
  function Put(entries: seq<(string, string)>, key: string, value: string): (r: seq<(string, string)>)
    ensures Get(r, key) == value
    ensures forall k :: k != key ==> Get(r, k) == Get(entries, k)
    ensures |r| == |entries| || r == entries + [(key, value)]
    ensures !Present(entries, key) ==> r == entries + [(key, value)]
    ensures Present(entries, key) ==> SameKeyOrder(r, entries)
    ensures Present(r, key)
    ensures forall k :: Present(entries, k) ==> Present(r, k)
  {
    if entries == [] then [(key, value)]
    else if entries[0].0 == key then [(key, value)] + entries[1..]
    else
      var r := [entries[0]] + Put(entries[1..], key, value);
      assert r[1..] == Put(entries[1..], key, value);
      r
  }

  /** The keys of a property assignment's result: the old ones and the assigned one. */
  lemma {:induction false} PutKeys(entries: seq<(string, string)>, key: string, value: string, k: string)
    ensures Present(Put(entries, key, value), k) <==> Present(entries, k) || k == key
    decreases |entries|
  {
    if entries != [] && entries[0].0 != key {
      var r := Put(entries, key, value);
      assert r == [entries[0]] + Put(entries[1..], key, value);
      assert r[1..] == Put(entries[1..], key, value);
      PutKeys(entries[1..], key, value, k);
    }
  }

  /** No two properties share a key, as in every JavaScript object. */
  predicate DistinctKeys(entries: seq<(string, string)>) {
    entries == [] || (!Present(entries[1..], entries[0].0) && DistinctKeys(entries[1..]))
  }

  /** A property assignment keeps the keys distinct. */
  lemma {:induction false} PutKeepsDistinctKeys(entries: seq<(string, string)>, key: string, value: string)
    requires DistinctKeys(entries)
    ensures DistinctKeys(Put(entries, key, value))
    decreases |entries|
  {
    if entries == [] {
    } else if entries[0].0 == key {
      var r := Put(entries, key, value);
      assert r[1..] == entries[1..];
    } else {
      var r := Put(entries, key, value);
      assert r[1..] == Put(entries[1..], key, value);
      PutKeys(entries[1..], key, value, entries[0].0);
      PutKeepsDistinctKeys(entries[1..], key, value);
    }
  }

  /**
   * The `options.s3` defaults: `bucket` falls back to the application name and
   * `key` to the bundle's file name; properties already set are kept.
   */
  function S3Defaults(s3: Option<seq<(string, string)>>, applicationName: string, sourceBundle: string)
    : (r: seq<(string, string)>)
    ensures var given := if s3.Some? then s3.value else [];
            && Get(r, "bucket") == (if Get(given, "bucket") != "" then Get(given, "bucket") else applicationName)
            && Get(r, "key") == (if Get(given, "key") != "" then Get(given, "key") else Basename(sourceBundle))
            && (forall k :: k != "bucket" && k != "key" ==> Get(r, k) == Get(given, k))
            && (Get(given, "bucket") != "" && Get(given, "key") != "" ==> r == given)
    ensures Present(r, "bucket") && Present(r, "key")
  {
    var entries := if s3.Some? then s3.value else [];
    GetPresent(entries, "bucket");
    var withBucket := if Get(entries, "bucket") == "" then Put(entries, "bucket", applicationName) else entries;
    GetPresent(withBucket, "key");
    if Get(withBucket, "key") == "" then Put(withBucket, "key", Basename(sourceBundle)) else withBucket
  }

  /** The defaults keep the keys of `options.s3` distinct. */
  lemma S3DefaultsKeepDistinctKeys(s3: Option<seq<(string, string)>>, applicationName: string, sourceBundle: string)
    requires s3.Some? ==> DistinctKeys(s3.value)
    ensures DistinctKeys(S3Defaults(s3, applicationName, sourceBundle))
  {
    var entries := if s3.Some? then s3.value else [];
    if Get(entries, "bucket") == "" {
      PutKeepsDistinctKeys(entries, "bucket", applicationName);
    }
    var withBucket := if Get(entries, "bucket") == "" then Put(entries, "bucket", applicationName) else entries;
    if Get(withBucket, "key") == "" {
      PutKeepsDistinctKeys(withBucket, "key", Basename(sourceBundle));
    }
  }

  /** A property that reads as set is present. */
  lemma {:induction false} GetPresent(entries: seq<(string, string)>, key: string)
    ensures Get(entries, key) != "" ==> Present(entries, key)
    decreases |entries|
  {
    if entries != [] && entries[0].0 != key {
      GetPresent(entries[1..], key);
    }
  }

  // ---------------------------------------------------------------- validateOptions

  /** The `healthPage` normalisation: a set page gets a leading `/` unless it has one. */
  function PrefixHealthPage(page: string): (r: string)
    ensures page == "" <==> r == ""
    ensures r != "" ==> r[0] == '/'
    ensures page != "" && page[0] == '/' ==> r == page
    ensures page != "" && page[0] != '/' ==> r == "/" + page
  {
    if page != "" && page[0] != '/' then "/" + page else page
  }

  /** The normalisation does nothing to a page it has produced. */
  lemma PrefixHealthPageIdempotent(page: string)
    ensures PrefixHealthPage(PrefixHealthPage(page)) == PrefixHealthPage(page)
  {
  }

  /** The version label used when none is given: the bundle's file name without its extension. */
  function DefaultVersionLabel(sourceBundle: string): string
  {
    BasenameWithoutExtension(sourceBundle)
  }

  /**
   * `validateOptions`: the first missing or invalid option aborts (in the order
   * the task checks them); otherwise the normalised options. `bundleIsFile` is
   * what `grunt.file.isFile(options.sourceBundle)` answers.
   */
  function Validated(c: Config, bundleIsFile: bool): Result<Config, Failure>
  {
    if c.applicationName == "" then Err(MissingOption("applicationName"))
    else if c.environmentCNAME == "" && c.environmentName == "" then Err(MissingOption("environmentCNAME or environmentName"))
    else if c.region == "" then Err(MissingOption("region"))
    else if c.sourceBundle == "" then Err(MissingOption("sourceBundle"))
    else if !bundleIsFile then Err(BundleNotAFile(c.sourceBundle))
    else if c.healthPageScheme != "" && c.healthPageScheme != "http" && c.healthPageScheme != "https" then
      Err(UnsupportedScheme(c.healthPageScheme))
    else
      Ok(c.(healthPage := PrefixHealthPage(c.healthPage),
            healthPageScheme := if c.healthPageScheme == "" then "http" else c.healthPageScheme,
            versionLabel := if c.versionLabel == "" then DefaultVersionLabel(c.sourceBundle) else c.versionLabel,
            s3 := Some(S3Defaults(c.s3, c.applicationName, c.sourceBundle))))
  }

  /** The checks, in the order the task makes them; validation fails exactly when one of them does. */
  lemma ValidatedChecks(c: Config, bundleIsFile: bool)
    ensures var r := Validated(c, bundleIsFile);
            && (c.applicationName == "" ==> r == Err(MissingOption("applicationName")))
            && (c.applicationName != "" && c.environmentCNAME == "" && c.environmentName == "" ==>
                  r == Err(MissingOption("environmentCNAME or environmentName")))
            && (c.applicationName != "" && (c.environmentCNAME != "" || c.environmentName != "") ==>
                  && (c.region == "" ==> r == Err(MissingOption("region")))
                  && (c.region != "" && c.sourceBundle == "" ==> r == Err(MissingOption("sourceBundle")))
                  && (c.region != "" && c.sourceBundle != "" && !bundleIsFile ==> r == Err(BundleNotAFile(c.sourceBundle)))
                  && (c.region != "" && c.sourceBundle != "" && bundleIsFile && c.healthPageScheme !in {"", "http", "https"} ==>
                        r == Err(UnsupportedScheme(c.healthPageScheme))))
            && (r.Ok? <==>
                  c.applicationName != "" && (c.environmentCNAME != "" || c.environmentName != "") &&
                  c.region != "" && c.sourceBundle != "" && bundleIsFile &&
                  c.healthPageScheme in {"", "http", "https"})
            && (r.Err? && r.error.UnsupportedScheme? ==> r.error.scheme == c.healthPageScheme)
  {
  }

  /**
   * What validation normalises (a `/`-prefixed health page, a known scheme,
   * the default version label and S3 location), what it keeps as given, and
   * that it touches nothing else.
   */
  lemma ValidatedNormalises(c: Config, bundleIsFile: bool)
    requires Validated(c, bundleIsFile).Ok?
    ensures var v := Validated(c, bundleIsFile).value;
            // normalised
            && (v.healthPage != "" ==> v.healthPage[0] == '/')
            && (v.healthPage == "" <==> c.healthPage == "")
            && v.healthPageScheme in {"http", "https"}
            && (c.healthPageScheme == "" ==> v.healthPageScheme == "http")
            && v.versionLabel == (if c.versionLabel != "" then c.versionLabel else DefaultVersionLabel(c.sourceBundle))
            && v.s3 == Some(S3Defaults(c.s3, c.applicationName, c.sourceBundle))
            // what was already given is kept
            && (c.healthPage != "" && c.healthPage[0] == '/' ==> v.healthPage == c.healthPage)
            && (c.healthPageScheme != "" ==> v.healthPageScheme == c.healthPageScheme)
            && (c.versionLabel != "" ==> v.versionLabel == c.versionLabel)
            // and nothing else is touched
            && v.applicationName == c.applicationName && v.environmentName == c.environmentName
            && v.environmentCNAME == c.environmentCNAME && v.region == c.region
            && v.sourceBundle == c.sourceBundle && v.healthPageContents == c.healthPageContents
            && v.versionDescription == c.versionDescription && v.deployType == c.deployType
  {
  }

  /** Validated options hold an `options.s3` object whose keys are distinct when the given one's were. */
  lemma ValidatedKeepsDistinctKeys(c: Config, bundleIsFile: bool)
    requires c.s3.Some? ==> DistinctKeys(c.s3.value)
    ensures var r := Validated(c, bundleIsFile);
            r.Ok? ==> r.value.s3.Some? && DistinctKeys(r.value.s3.value)
  {
    var r := Validated(c, bundleIsFile);
    if r.Ok? {
      var d := S3Defaults(c.s3, c.applicationName, c.sourceBundle);
      assert r.value.s3 == Some(d);
      S3DefaultsKeepDistinctKeys(c.s3, c.applicationName, c.sourceBundle);
    }
  }

  /** Putting back the value a present property already has changes nothing. */
  lemma {:induction false} PutSame(entries: seq<(string, string)>, key: string)
    requires Present(entries, key)
    ensures Put(entries, key, Get(entries, key)) == entries
    decreases |entries|
  {
    if entries[0].0 != key {
      PutSame(entries[1..], key);
    }
  }

  /** Validation applied to options it has already validated gives them back unchanged. */
  lemma ValidatedIdempotent(c: Config, bundleIsFile: bool)
    requires Validated(c, bundleIsFile).Ok?
    ensures Validated(Validated(c, bundleIsFile).value, bundleIsFile) == Validated(c, bundleIsFile)
  {
    var v := Validated(c, bundleIsFile).value;
    ValidatedNormalises(c, bundleIsFile);
    ValidatedChecks(v, bundleIsFile);
    PrefixHealthPageIdempotent(c.healthPage);
    S3DefaultsIdempotent(c.s3, c.applicationName, c.sourceBundle);
    var w := Validated(v, bundleIsFile).value;
    ValidatedNormalises(v, bundleIsFile);
    assert w == v;
  }

  /** With an application name to fall back on, the S3 defaults change nothing the second time. */
  lemma S3DefaultsIdempotent(s3: Option<seq<(string, string)>>, applicationName: string, sourceBundle: string)
    requires applicationName != ""
    ensures var e := S3Defaults(s3, applicationName, sourceBundle);
            S3Defaults(Some(e), applicationName, sourceBundle) == e
  {
    var e := S3Defaults(s3, applicationName, sourceBundle);
    assert Get(e, "bucket") != "";
    PutSame(e, "key");
  }

  // ---------------------------------------------------------------- uploadApplication

  function UpperCase(c: char): char {
    if 'a' <= c <= 'z' then (c as int - 'a' as int + 'A' as int) as char else c
  }

  /** `key.substring(0, 1).toUpperCase() + key.substring(1)`. */
  function Capitalize(key: string): (r: string)
    ensures |r| == |key|
    ensures |key| > 0 ==> r[0] == UpperCase(key[0]) && r[1..] == key[1..]
  {
    if key == [] then [] else [UpperCase(key[0])] + key[1..]
  }

  /**
   * The `for (var key in options.s3)` loop: each own property copied under its
   * capitalised key; when two keys capitalise alike the later one wins.
   */
  function Capitalised(entries: seq<(string, string)>): map<string, S3Value>
    decreases |entries|
  {
    if entries == [] then map[]
    else
      var last := entries[|entries| - 1];
      Capitalised(entries[..|entries| - 1])[Capitalize(last.0) := Text(last.1)]
  }

  /** No later property of `entries` capitalises to the same key as property `i`. */
  ghost predicate IsLastWithCapitalised(entries: seq<(string, string)>, i: int) {
    0 <= i < |entries| &&
    forall j :: i < j < |entries| ==> Capitalize(entries[j].0) != Capitalize(entries[i].0)
  }

  /** One key per own property: exactly the capitalised property names. */
  lemma {:induction false} CapitalisedKeys(entries: seq<(string, string)>)
    ensures forall i :: 0 <= i < |entries| ==> Capitalize(entries[i].0) in Capitalised(entries)
    ensures forall k :: k in Capitalised(entries) ==> exists i :: 0 <= i < |entries| && Capitalize(entries[i].0) == k
    decreases |entries|
  {
    if entries != [] {
      var init := entries[..|entries| - 1];
      CapitalisedKeys(init);
      assert forall i :: 0 <= i < |init| ==> init[i] == entries[i];
    }
  }

  /** A property no later property shadows keeps its value under its capitalised key. */
  lemma {:induction false} CapitalisedValue(entries: seq<(string, string)>, i: int)
    requires IsLastWithCapitalised(entries, i)
    ensures Capitalize(entries[i].0) in Capitalised(entries) &&
            Capitalised(entries)[Capitalize(entries[i].0)] == Text(entries[i].1)
    decreases |entries|
  {
    var init, last := entries[..|entries| - 1], entries[|entries| - 1];
    assert Capitalised(entries) == Capitalised(init)[Capitalize(last.0) := Text(last.1)];
    if i < |entries| - 1 {
      assert init[i] == entries[i];
      assert Capitalize(last.0) != Capitalize(entries[i].0);
      assert IsLastWithCapitalised(init, i);
      CapitalisedValue(init, i);
    }
  }

  /** The request given to `putS3Object`: the capitalised options, then `Body` set to the bundle's bytes. */
  function S3Request(entries: seq<(string, string)>, sourceBundle: string): map<string, S3Value>
  {
    Capitalised(entries)["Body" := BundleContents(sourceBundle)]
  }

  /**
   * The request carries the bundle as `Body`, a key for every option and no
   * other, and under each key the value of the last option capitalising to it.
   */
  lemma S3RequestContents(entries: seq<(string, string)>, sourceBundle: string)
    ensures var r := S3Request(entries, sourceBundle);
            "Body" in r && r["Body"] == BundleContents(sourceBundle)
    ensures var r := S3Request(entries, sourceBundle);
            forall i :: 0 <= i < |entries| ==> Capitalize(entries[i].0) in r
    ensures var r := S3Request(entries, sourceBundle);
            forall k :: k in r && k != "Body" ==> exists i :: 0 <= i < |entries| && Capitalize(entries[i].0) == k
    ensures var r := S3Request(entries, sourceBundle);
            forall i :: IsLastWithCapitalised(entries, i) && Capitalize(entries[i].0) != "Body" ==>
              r[Capitalize(entries[i].0)] == Text(entries[i].1)
  {
    CapitalisedKeys(entries);
    forall i | IsLastWithCapitalised(entries, i) ensures Capitalised(entries)[Capitalize(entries[i].0)] == Text(entries[i].1) {
      CapitalisedValue(entries, i);
    }
  }

  /** `uploadApplication`'s request-building loop, run over the properties one by one. */
  method BuildS3Request(entries: seq<(string, string)>, sourceBundle: string) returns (request: map<string, S3Value>)
    ensures request == S3Request(entries, sourceBundle)
  {
    var s3Object: map<string, S3Value> := map[];
    for i := 0 to |entries|
      invariant s3Object == Capitalised(entries[..i])
    {
      assert entries[..i + 1][..i] == entries[..i];
      s3Object := s3Object[Capitalize(entries[i].0) := Text(entries[i].1)];
    }
    assert entries[..|entries|] == entries;
    request := s3Object["Body" := BundleContents(sourceBundle)];
  }
}
