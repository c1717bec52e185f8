/** The versioned step catalog and its startup snapshot. */
module Catalog {
  import opened Domain

  const USER_SIGNED_UP := "USER_SIGNED_UP"
  const EMAIL_VERIFIED := "EMAIL_VERIFIED"
  const ORGANISATION_CREATED := "ORGANISATION_CREATED"
  const PROVISION_KONG := "PROVISION_KONG"
  const PROVISION_AWS := "PROVISION_AWS"
  const VERTICAL_SELECTED := "VERTICAL_SELECTED"
  const ONBOARDING_COMPLETED := "ONBOARDING_COMPLETED"
  const PROVISION_SVIX := "PROVISION_SVIX"
  const PROVISION_LAGO := "PROVISION_LAGO"
  const RESOURCES_PROVISIONED := "RESOURCES_PROVISIONED"

  const CREATE_ORGANISATION := "CreateOrganisation"
  const ACT_KONG := "ProvisionKong"
  const ACT_AWS := "ProvisionAWS"
  const ACT_SVIX := "ProvisionSvix"
  const ACT_LAGO := "ProvisionLago"
  const COMPLETE_PROVISIONING := "CompleteProvisioning"

  type Versions = map<int, seq<StepDef>>

  /** The version a run walks when its input names none. */
  const CATALOG_VERSION := 1

  const V1: seq<StepDef> := [
    StepDef(USER_SIGNED_UP, "", "", false),
    StepDef(EMAIL_VERIFIED, "", EMAIL_VERIFIED, false),
    StepDef(ORGANISATION_CREATED, CREATE_ORGANISATION, ORGANISATION_CREATED, false),
    StepDef(PROVISION_KONG, ACT_KONG, "", false),
    StepDef(PROVISION_AWS, ACT_AWS, "", false),
    StepDef(VERTICAL_SELECTED, "", VERTICAL_SELECTED, false),
    StepDef(ONBOARDING_COMPLETED, "", ONBOARDING_COMPLETED, true),
    StepDef(PROVISION_SVIX, ACT_SVIX, "", false),
    StepDef(PROVISION_LAGO, ACT_LAGO, "", false),
    StepDef(RESOURCES_PROVISIONED, COMPLETE_PROVISIONING, "", false)
  ]

  const RegisteredActions: set<string> :=
    {CREATE_ORGANISATION, ACT_KONG, ACT_AWS, ACT_SVIX, ACT_LAGO, COMPLETE_PROVISIONING}

  function Steps(c: Versions, version: int): seq<StepDef> {
    if version in c then c[version] else []
  }

  predicate StepInCatalog(c: Versions, version: int, name: string) {
    exists s :: s in Steps(c, version) && s.name == name
  }

  /** n is the largest version, or 0 when no version is positive. */
  predicate IsLatest(c: Versions, n: int) {
    n >= 0 && (n != 0 ==> n in c) && forall v :: v in c ==> v <= n
  }

  lemma {:induction false} LatestExists(c: Versions) returns (n: int)
    ensures IsLatest(c, n)
    decreases |c|
  {
    if v :| v in c {
      var rest := map u | u in c && u != v :: c[u];
      assert rest.Keys == c.Keys - {v};
      n := LatestExists(rest);
      if n < v {
        n := v;
      }
      assert forall u :: u in c ==> u == v || u in rest;
    } else {
      n := 0;
    }
  }

  ghost function Latest(c: Versions): (n: int)
    ensures IsLatest(c, n)
  {
    assert exists n :: IsLatest(c, n) by {
      var n := LatestExists(c);
    }
    var n :| IsLatest(c, n); n
  }

  /** The step shown to a user who has no journey yet. */
  ghost function FirstStep(c: Versions): string {
    var steps := Steps(c, Latest(c));
    if |steps| == 0 then V1[0].name else steps[0].name
  }

  predicate Registered(steps: seq<StepDef>, registered: set<string>) {
    forall s :: s in steps && s.action != "" ==> s.action in registered
  }

  /** A later catalog that keeps every existing version. */
  predicate Extends(c: Versions, c': Versions) {
    forall v :: v in c ==> v in c' && c'[v] == c[v]
  }

  predicate DistinctNames(steps: seq<StepDef>) {
    forall i, j :: 0 <= i < j < |steps| ==> steps[i].name != steps[j].name
  }

  /** Every awaited signal is named after its step. */
  predicate SignalsNameTheirSteps(steps: seq<StepDef>) {
    forall s :: s in steps && s.signal != "" ==> s.signal == s.name
  }

  predicate Ascending(xs: seq<int>) {
    forall i, j :: 0 <= i < j < |xs| ==> xs[i] <= xs[j]
  }

  /** Insert x into an ascending list: one round of the library sort. */
  method Insert(xs: seq<int>, x: int) returns (ys: seq<int>)
    requires Ascending(xs)
    ensures Ascending(ys) && multiset(ys) == multiset(xs) + multiset{x}
  {
    var p := 0;
    while p < |xs| && xs[p] < x
      invariant p <= |xs| && forall i :: 0 <= i < p ==> xs[i] < x
    {
      p := p + 1;
    }
    assert xs == xs[..p] + xs[p..];
    ys := xs[..p] + [x] + xs[p..];
  }

  /** An order in which the runtime may range over the versions. */
  ghost predicate Ranges(order: seq<int>, c: Versions) {
    && (forall v :: v in c <==> v in order)
    && (forall i, j :: 0 <= i < j < |order| ==> order[i] != order[j])
  }

  class CatalogCache {
    const versions: Versions

    constructor (versions: Versions)
      ensures this.versions == versions
    {
      this.versions := versions;
    }

    method LatestVersion(order: seq<int>) returns (latest: int)
      requires Ranges(order, versions)
      ensures latest == Latest(versions)
    {
      latest := 0;
      for k := 0 to |order|
        invariant latest >= 0 && (latest != 0 ==> latest in versions)
        invariant forall j :: 0 <= j < k ==> order[j] <= latest
      {
        if order[k] > latest {
          latest := order[k];
        }
      }
      LatestIsUnique(versions, latest, Latest(versions));
    }

    /** The version numbers, ascending, each once. */
    method VersionNumbers(order: seq<int>) returns (out: seq<int>)
      requires Ranges(order, versions)
      ensures Ascending(out) && multiset(out) == multiset(order)
      ensures forall v :: v in versions <==> v in out
    {
      out := [];
      for k := 0 to |order|
        invariant Ascending(out) && multiset(out) == multiset(order[..k])
      {
        out := Insert(out, order[k]);
        assert order[..k + 1] == order[..k] + [order[k]];
      }
      assert order[..|order|] == order;
      assert forall v :: v in out <==> v in multiset(out);
      assert forall v :: v in order <==> v in multiset(order);
    }

    /** The first step, in order of version and position, whose action nothing handles. */
    method ValidateActions(order: seq<int>, registered: set<string>) returns (missing: Option<(int, nat)>)
      requires Ranges(order, versions)
      ensures missing == None <==> forall v :: v in versions ==> Registered(versions[v], registered)
      ensures missing.Some? ==>
                var (v, i) := missing.value;
                && v in versions && i < |versions[v]|
                && versions[v][i].action != "" && versions[v][i].action !in registered
                && Registered(versions[v][..i], registered)
                && forall u :: u in versions && u < v ==> Registered(versions[u], registered)
    {
      var numbers := VersionNumbers(order);
      assert forall j :: 0 <= j < |numbers| ==> numbers[j] in numbers;
      for k := 0 to |numbers|
        invariant forall j :: 0 <= j < k ==> Registered(versions[numbers[j]], registered)
      {
        var steps := versions[numbers[k]];
        for i := 0 to |steps|
          invariant Registered(steps[..i], registered)
        {
          if steps[i].action != "" && steps[i].action !in registered {
            assert steps[i] in steps;
            return Some((numbers[k], i));
          }
          assert steps[..i + 1] == steps[..i] + [steps[i]];
        }
        assert steps[..|steps|] == steps;
      }
      missing := None;
    }
  }

  lemma {:induction false} LatestIsUnique(c: Versions, m: int, n: int)
    requires IsLatest(c, m) && IsLatest(c, n)
    ensures m == n
  {
  }

  /** A later catalog has the same steps for every version of the earlier one, and its
      latest version is no earlier. */
  lemma {:induction false} GrowthKeepsVersions(c: Versions, c': Versions, version: int)
    requires Extends(c, c') && version in c
    ensures Steps(c', version) == Steps(c, version) && Latest(c) <= Latest(c')
  {
    assert Latest(c) != 0 ==> Latest(c) in c';
  }

  /** A fingerprint that tells the shipped step names apart. */
  function Mark(s: string): (nat, char, char)
    requires |s| > 10
  {
    (|s|, s[1], s[10])
  }

  lemma {:induction false} V1NamesDiffer()
    ensures DistinctNames(V1)
  {
    var marks := [(14, 'S', 'D'), (14, 'M', 'F'), (20, 'R', 'O'), (14, 'R', 'K'), (13, 'R', 'A'),
                  (17, 'E', 'E'), (20, 'N', '_'), (14, 'R', 'S'), (14, 'R', 'L'), (21, 'E', 'P')];
    assert forall i :: 0 <= i < 10 ==> |V1[i].name| > 10 && Mark(V1[i].name) == marks[i];
    assert forall i, j :: 0 <= i < j < 10 ==> marks[i] != marks[j];
    forall i, j | 0 <= i < j < |V1|
      ensures V1[i].name != V1[j].name
    {
      assert Mark(V1[i].name) == marks[i] && Mark(V1[j].name) == marks[j];
    }
  }

  /** The shipped version: distinct step names, signals named after their steps, every
      action handled. */
  lemma {:induction false} V1IsSound()
    ensures DistinctNames(V1) && SignalsNameTheirSteps(V1) && Registered(V1, RegisteredActions)
  {
    V1NamesDiffer();
    assert forall i :: 0 <= i < 10 ==> V1[i].signal != "" ==> V1[i].signal == V1[i].name;
    assert forall i :: 0 <= i < 10 ==> V1[i].action != "" ==> V1[i].action in RegisteredActions;
  }
}
