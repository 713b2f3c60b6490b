/**
 * Environment descriptions as the Elastic Beanstalk API returns them, and the
 * first-match lookups `findEnvironmentByName` / `findEnvironmentByCNAME`.
 */
module Environments {
  import opened Basics

  /** One element of a `describeEnvironments` response. */
  datatype Environment = Environment(
    id: string,            // EnvironmentId
    name: string,          // EnvironmentName
    cname: string,         // CNAME, the public hostname
    status: string,        // e.g. Launching, Updating, Ready
    health: string,        // e.g. Green, Yellow, Red
    versionLabel: string)  // the version currently deployed

  /** `envs[i]` satisfies `p` and no earlier element does. */
  ghost predicate IsFirst(envs: seq<Environment>, p: Environment -> bool, i: int) {
    0 <= i < |envs| && p(envs[i]) && forall j :: 0 <= j < i ==> !p(envs[j])
  }

  /** `Array.prototype.filter`: the elements satisfying `p`, in order. */
  function Filter(envs: seq<Environment>, p: Environment -> bool): seq<Environment>
  {
    if envs == [] then []
    else (if p(envs[0]) then [envs[0]] else []) + Filter(envs[1..], p)
  }

  /** The filter keeps every element satisfying `p` and nothing else. */
  lemma {:induction false} FilterContents(envs: seq<Environment>, p: Environment -> bool)
    ensures |Filter(envs, p)| <= |envs|
    ensures forall i :: 0 <= i < |Filter(envs, p)| ==> p(Filter(envs, p)[i])
    ensures forall e :: e in envs && p(e) ==> e in Filter(envs, p)
    ensures forall e :: e in Filter(envs, p) ==> e in envs
    decreases |envs|
  {
    if envs != [] {
      FilterContents(envs[1..], p);
      assert envs == [envs[0]] + envs[1..];
    }
  }

  /** The head of a filter is the first element that satisfies the predicate. */
  lemma {:induction false} FilterHead(envs: seq<Environment>, p: Environment -> bool, i: int)
    requires IsFirst(envs, p, i)
    ensures |Filter(envs, p)| > 0 && Filter(envs, p)[0] == envs[i]
    decreases |envs|
  {
    if i > 0 {
      assert !p(envs[0]);
      assert IsFirst(envs[1..], p, i - 1);
      FilterHead(envs[1..], p, i - 1);
    }
  }

  /** The filter is empty exactly when no element satisfies the predicate. */
  lemma FilterEmpty(envs: seq<Environment>, p: Environment -> bool)
    ensures |Filter(envs, p)| == 0 <==> forall i :: 0 <= i < |envs| ==> !p(envs[i])
  {
    FilterContents(envs, p);
    if exists i :: 0 <= i < |envs| && p(envs[i]) {
      var i :| 0 <= i < |envs| && p(envs[i]);
      assert envs[i] in envs;
    }
    var r := Filter(envs, p);
    if |r| > 0 {
      assert r[0] in envs && p(r[0]);
      var i :| 0 <= i < |envs| && envs[i] == r[0];
      assert p(envs[i]);
    }
  }

  /** `filter(...)[0]` over a response that may lack `Environments`: absent when nothing matches. */
  function FirstMatch(data: Option<seq<Environment>>, p: Environment -> bool): Option<Environment>
  {
    if data.None? then None
    else
      var matching := Filter(data.value, p);
      if |matching| == 0 then None else Some(matching[0])
  }

  /**
   * The lookup finds nothing exactly when no element satisfies `p`; otherwise
   * it finds the first one that does.
   */
  lemma FirstMatchFinds(data: Option<seq<Environment>>, p: Environment -> bool)
    ensures FirstMatch(data, p).None? <==> data.None? || forall i :: 0 <= i < |data.value| ==> !p(data.value[i])
    ensures forall i :: data.Some? && IsFirst(data.value, p, i) ==> FirstMatch(data, p) == Some(data.value[i])
    ensures var r := FirstMatch(data, p);
            r.Some? ==> data.Some? && p(r.value) && r.value in data.value
  {
    if data.Some? {
      FilterEmpty(data.value, p);
      FilterContents(data.value, p);
      forall i | IsFirst(data.value, p, i) ensures Filter(data.value, p)[0] == data.value[i] {
        FilterHead(data.value, p, i);
      }
    }
  }

  function NameIs(name: string): Environment -> bool { (e: Environment) => e.name == name }

  function CNAMEIs(cname: string): Environment -> bool { (e: Environment) => e.cname == cname }

  /** The first environment whose EnvironmentName is `name`, if any. */
  function FindEnvironmentByName(data: Option<seq<Environment>>, name: string): Option<Environment>
  {
    FirstMatch(data, NameIs(name))
  }

  lemma FindEnvironmentByNameFinds(data: Option<seq<Environment>>, name: string)
    ensures var r := FindEnvironmentByName(data, name);
            r.None? <==> data.None? || forall i :: 0 <= i < |data.value| ==> data.value[i].name != name
    ensures var r := FindEnvironmentByName(data, name);
            forall i :: data.Some? && IsFirst(data.value, NameIs(name), i) ==> r == Some(data.value[i])
    ensures var r := FindEnvironmentByName(data, name);
            r.Some? ==> r.value.name == name && r.value in data.value
  {
    FirstMatchFinds(data, NameIs(name));
  }

  /** The first environment whose CNAME is `cname`, if any. */
  function FindEnvironmentByCNAME(data: Option<seq<Environment>>, cname: string): Option<Environment>
  {
    FirstMatch(data, CNAMEIs(cname))
  }

  lemma FindEnvironmentByCNAMEFinds(data: Option<seq<Environment>>, cname: string)
    ensures var r := FindEnvironmentByCNAME(data, cname);
            r.None? <==> data.None? || forall i :: 0 <= i < |data.value| ==> data.value[i].cname != cname
    ensures var r := FindEnvironmentByCNAME(data, cname);
            forall i :: data.Some? && IsFirst(data.value, CNAMEIs(cname), i) ==> r == Some(data.value[i])
    ensures var r := FindEnvironmentByCNAME(data, cname);
            r.Some? ==> r.value.cname == cname && r.value in data.value
  {
    FirstMatchFinds(data, CNAMEIs(cname));
  }
}
