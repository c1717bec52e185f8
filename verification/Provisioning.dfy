/** The systems that hold an organisation's resources, and the service's provisioner. */
module Provisioning {
  import opened Faults

  /** Things the vendors keep one of per key. */
  datatype Object =
    | KongConsumer(org: string)
    | SvixApp(org: string)
    | AwsKey(org: string)
    | LagoCustomer(org: string)
    | LagoPlan(code: string)

  /** A request to create something, or to attach an AWS key to the usage plan.
      Subscriptions carry a new id each time, so no two of them clash. */
  datatype Request = Unique(item: Object) | Subscribe(org: string, planCode: string) | Attach(org: string)

  /** `created` lists the objects in order of creation, and `log` every request the
      service has begun, answered or not. */
  datatype Vendors = Vendors(created: seq<Object>, subscriptions: seq<(string, string)>, attached: set<string>,
                             log: seq<Request>)

  /** A vendor refuses a second object with the same key; the client reads the refusal
      as success. */
  function Posted(v: Vendors, q: Request, f: Fault): Vendors {
    var w := v.(log := v.log + [q]);
    if !f.Lands() then w
    else match q
         case Unique(o) => if o in v.created then w else w.(created := v.created + [o])
         case Subscribe(org, code) => w.(subscriptions := v.subscriptions + [(org, code)])
         case Attach(org) => w.(attached := v.attached + {org})
  }

  /** Whether a vendor answers with a conflict. */
  predicate Clashes(v: Vendors, q: Request) {
    match q
    case Unique(o) => o in v.created
    case Subscribe(_, _) => false
    case Attach(org) => org in v.attached
  }

  /** The HTTP status of a call that got an answer. */
  datatype PostStatus = Created | Conflict

  class VendorClient {
    var vendors: Vendors

    constructor (vendors: Vendors)
      ensures this.vendors == vendors
    {
      this.vendors := vendors;
    }

    method Execute(q: Request, f: Fault) returns (r: Result<PostStatus>)
      modifies this
      ensures vendors == Posted(old(vendors), q, f)
      ensures r == if !f.Fine? then Stop(f) else if Clashes(old(vendors), q) then Done(Conflict) else Done(Created)
    {
      r := if !f.Fine? then Stop(f) else if Clashes(vendors, q) then Done(Conflict) else Done(Created);
      vendors := Posted(vendors, q, f);
    }
  }

  datatype Resource = Kong | Aws | Svix | Lago

  /** The key of a resource in a provisioning record. */
  function KeyOf(r: Resource): string {
    match r case Kong => "kong" case Aws => "aws" case Svix => "svix" case Lago => "lago"
  }

  const LAGO_ENVIRONMENTS := ["d_c_plan_", "s_c_plan_", "p_c_plan_"]

  /** Position of a provider's first call in a plan. */
  const FIRST_CALL := 1

  /** Lago's calls in order: the customer, a plan per environment, a subscription per
      environment. */
  function LagoRequests(org: string): seq<Request> {
    [Unique(LagoCustomer(org))]
    + seq(|LAGO_ENVIRONMENTS|, i requires 0 <= i < |LAGO_ENVIRONMENTS| => Unique(LagoPlan(LAGO_ENVIRONMENTS[i] + org)))
    + seq(|LAGO_ENVIRONMENTS|, i requires 0 <= i < |LAGO_ENVIRONMENTS| => Subscribe(org, LAGO_ENVIRONMENTS[i] + org))
  }

  /** Send requests in order from the k-th on, stopping at the first without an answer. */
  function PostAll(v: Vendors, qs: seq<Request>, k: nat, plan: Plan): (Vendors, Result<()>)
    requires k <= |qs|
    decreases |qs| - k
  {
    if k == |qs| then (v, Done(()))
    else
      var f := plan.At(FIRST_CALL + k);
      var w := Posted(v, qs[k], f);
      if f.Fine? then PostAll(w, qs, k + 1, plan) else (w, Stop(f))
  }

  /** An existing key is taken as provisioned, without looking at its usage plan. */
  function EnsureApiKeySpec(v: Vendors, org: string, plan: Plan): (Vendors, Result<string>) {
    var f := plan.At(FIRST_CALL);
    var w := Posted(v, Unique(AwsKey(org)), f);
    if !f.Fine? then (w, Stop(f))
    else if AwsKey(org) in v.created then (w, Done(org))
    else
      var g := plan.At(FIRST_CALL + 1);
      (Posted(w, Attach(org), g), if g.Fine? then Done(plan.keyId) else Stop(g))
  }

  /** The calls of a provider, in order. An AWS key already there ends it after the first. */
  function Requests(r: Resource, org: string): (qs: seq<Request>)
    ensures 1 <= |qs| <= 7
  {
    match r
    case Kong => [Unique(KongConsumer(org))]
    case Aws => [Unique(AwsKey(org)), Attach(org)]
    case Svix => [Unique(SvixApp(org))]
    case Lago => LagoRequests(org)
  }

  function ProviderSpec(v: Vendors, r: Resource, org: string, plan: Plan): (Vendors, Result<string>) {
    if r.Aws? then EnsureApiKeySpec(v, org, plan)
    else
      var (w, a) := PostAll(v, Requests(r, org), 0, plan);
      (w, if a.Done? then Done(org) else if a.Crashed? then Crashed else Erred)
  }

  class HTTPProvisioner {
    const client: VendorClient

    constructor (client: VendorClient)
      ensures this.client == client
    {
      this.client := client;
    }

    /** A conflict means the object is already there. */
    method Post(q: Request, f: Fault) returns (r: Result<()>)
      modifies client
      ensures client.vendors == Posted(old(client.vendors), q, f)
      ensures r == if f.Fine? then Done(()) else Stop(f)
    {
      var a := client.Execute(q, f);
      match a
      case Done(Created) => r := Done(());
      case Done(Conflict) => r := Done(());
      case Erred => r := Erred;
      case Crashed => r := Crashed;
    }

    method Kong(org: string, plan: Plan) returns (r: Result<string>)
      modifies client
      ensures (client.vendors, r) == ProviderSpec(old(client.vendors), Resource.Kong, org, plan)
    {
      var a := Post(Unique(KongConsumer(org)), plan.At(FIRST_CALL));
      assert PostAll(client.vendors, Requests(Resource.Kong, org), 1, plan) == (client.vendors, Done(()));
      r := if a.Done? then Done(org) else if a.Crashed? then Crashed else Erred;
    }

    method Svix(org: string, plan: Plan) returns (r: Result<string>)
      modifies client
      ensures (client.vendors, r) == ProviderSpec(old(client.vendors), Resource.Svix, org, plan)
    {
      var a := Post(Unique(SvixApp(org)), plan.At(FIRST_CALL));
      assert PostAll(client.vendors, Requests(Resource.Svix, org), 1, plan) == (client.vendors, Done(()));
      r := if a.Done? then Done(org) else if a.Crashed? then Crashed else Erred;
    }

    method Lago(org: string, plan: Plan) returns (r: Result<string>)
      modifies client
      ensures (client.vendors, r) == ProviderSpec(old(client.vendors), Resource.Lago, org, plan)
    {
      ghost var qs := LagoRequests(org);
      ghost var v0 := client.vendors;
      ghost var n := |LAGO_ENVIRONMENTS|;
      var a := Post(Unique(LagoCustomer(org)), plan.At(FIRST_CALL));
      if !a.Done? {
        return if a.Crashed? then Crashed else Erred;
      }
      for k := 0 to |LAGO_ENVIRONMENTS|
        invariant PostAll(v0, qs, 0, plan) == PostAll(client.vendors, qs, 1 + k, plan)
      {
        assert qs[1 + k] == Unique(LagoPlan(LAGO_ENVIRONMENTS[k] + org));
        a := Post(Unique(LagoPlan(LAGO_ENVIRONMENTS[k] + org)), plan.At(FIRST_CALL + 1 + k));
        if !a.Done? {
          return if a.Crashed? then Crashed else Erred;
        }
      }
      for k := 0 to |LAGO_ENVIRONMENTS|
        invariant PostAll(v0, qs, 0, plan) == PostAll(client.vendors, qs, 1 + n + k, plan)
      {
        assert qs[1 + n + k] == Subscribe(org, LAGO_ENVIRONMENTS[k] + org);
        a := Post(Subscribe(org, LAGO_ENVIRONMENTS[k] + org), plan.At(FIRST_CALL + 1 + |LAGO_ENVIRONMENTS| + k));
        if !a.Done? {
          return if a.Crashed? then Crashed else Erred;
        }
      }
      r := Done(org);
    }

    method EnsureApiKey(org: string, plan: Plan) returns (r: Result<string>)
      modifies client
      ensures (client.vendors, r) == ProviderSpec(old(client.vendors), Resource.Aws, org, plan)
    {
      var a := client.Execute(Unique(AwsKey(org)), plan.At(FIRST_CALL));
      if !a.Done? {
        return if a.Crashed? then Crashed else Erred;
      }
      if a.value.Conflict? {
        return Done(org);
      }
      var keyId := plan.keyId;
      a := client.Execute(Attach(org), plan.At(FIRST_CALL + 1));
      if !a.Done? {
        return if a.Crashed? then Crashed else Erred;
      }
      r := Done(keyId);
    }
  }

  /** What must exist for a resource to be provisioned. */
  function Needed(r: Resource, org: string): set<Object> {
    match r
    case Kong => {KongConsumer(org)}
    case Aws => {AwsKey(org)}
    case Svix => {SvixApp(org)}
    case Lago => {LagoCustomer(org)} + (set p | p in LAGO_ENVIRONMENTS :: LagoPlan(p + org))
  }

  predicate Provisioned(v: Vendors, r: Resource, org: string) {
    forall o :: o in Needed(r, org) ==> o in v.created
  }

  predicate NoDuplicates(v: Vendors) {
    forall i, j :: 0 <= i < j < |v.created| ==> v.created[i] != v.created[j]
  }

  /** Every subscription is of a customer that exists to a plan that exists, and only keys
      that exist are attached. */
  predicate Supported(v: Vendors) {
    && (forall x :: x in v.subscriptions ==> LagoCustomer(x.0) in v.created && LagoPlan(x.1) in v.created)
    && forall org :: org in v.attached ==> AwsKey(org) in v.created
  }

  /** What a request refers to exists. */
  predicate Refers(v: Vendors, q: Request) {
    match q
    case Unique(_) => true
    case Subscribe(org, code) => LagoCustomer(org) in v.created && LagoPlan(code) in v.created
    case Attach(org) => AwsKey(org) in v.created
  }

  /** No object of v is removed or moved. */
  predicate Grows(v: Vendors, v': Vendors) {
    v.created <= v'.created && v.log <= v'.log
  }

  lemma {:induction false} PostAllGrows(v: Vendors, qs: seq<Request>, k: nat, plan: Plan)
    requires k <= |qs| && NoDuplicates(v)
    ensures var (w, a) := PostAll(v, qs, k, plan);
            && Grows(v, w) && NoDuplicates(w) && v.subscriptions <= w.subscriptions
            && (a.Done? ==> forall i :: k <= i < |qs| && qs[i].Unique? ==> qs[i].item in w.created)
            && (a.Done? ==> forall i :: k <= i < |qs| && qs[i].Subscribe? ==>
              (qs[i].org, qs[i].planCode) in w.subscriptions)
            && (forall o :: o in w.created ==> o in v.created || exists i :: k <= i < |qs| && qs[i] == Unique(o))
    decreases |qs| - k
  {
    if k < |qs| {
      var f := plan.At(FIRST_CALL + k);
      var w := Posted(v, qs[k], f);
      assert NoDuplicates(w);
      if f.Fine? {
        PostAllGrows(w, qs, k + 1, plan);
        var end := PostAll(w, qs, k + 1, plan).0;
        if qs[k].Unique? {
          assert qs[k].item in w.created && w.created <= end.created;
        } else if qs[k].Subscribe? {
          assert w.subscriptions[|v.subscriptions|] == (qs[k].org, qs[k].planCode)
                 && w.subscriptions <= end.subscriptions;
        }
      }
    }
  }

  lemma {:induction false} LagoRequestsCover(org: string, i: nat)
    requires i < |LAGO_ENVIRONMENTS|
    ensures Unique(LagoCustomer(org)) == LagoRequests(org)[0]
    ensures Unique(LagoPlan(LAGO_ENVIRONMENTS[i] + org)) == LagoRequests(org)[1 + i]
    ensures Subscribe(org, LAGO_ENVIRONMENTS[i] + org) == LagoRequests(org)[1 + |LAGO_ENVIRONMENTS| + i]
  {
  }

  /** A provider asks for nothing before what it refers to has been made. */
  lemma {:induction false} RequestsAreInOrder(v: Vendors, r: Resource, org: string, k: nat)
    requires k < |Requests(r, org)|
    requires forall i :: 0 <= i < k && Requests(r, org)[i].Unique? ==> Requests(r, org)[i].item in v.created
    ensures Refers(v, Requests(r, org)[k])
  {
    var qs := Requests(r, org);
    assert k > 0 && qs[0].Unique? ==> qs[0].item in v.created;
    if r.Lago? && k > |LAGO_ENVIRONMENTS| {
      var e := k - 1 - |LAGO_ENVIRONMENTS|;
      LagoRequestsCover(org, e);
      assert qs[1 + e].Unique? && qs[1 + e].item in v.created;
    }
  }

  lemma {:induction false} PostKeepsSupported(v: Vendors, q: Request, f: Fault)
    requires Supported(v) && Refers(v, q)
    ensures Supported(Posted(v, q, f))
  {
  }

  lemma {:induction false} RequestIsNeeded(r: Resource, org: string, i: nat)
    requires !r.Aws? && i < |Requests(r, org)| && Requests(r, org)[i].Unique?
    ensures Requests(r, org)[i].item in Needed(r, org)
  {
    if r.Lago? && i > 0 {
      var p := LAGO_ENVIRONMENTS[i - 1];
      assert p in LAGO_ENVIRONMENTS && Requests(r, org)[i] == Unique(LagoPlan(p + org));
    }
  }

  /** Whatever fails or crashes, a provider creates no object twice and removes none; and
      when it answers, everything the resource needs exists. What it creates belongs to
      that resource of that organisation. */
  lemma {:induction false} ProviderIsSafe(v: Vendors, r: Resource, org: string, plan: Plan)
    requires NoDuplicates(v)
    ensures var (w, a) := ProviderSpec(v, r, org, plan);
            && Grows(v, w) && NoDuplicates(w)
            && (a.Done? ==> Provisioned(w, r, org))
            && (forall o :: o in w.created ==> o in v.created || o in Needed(r, org))
  {
    if !r.Aws? {
      var qs := Requests(r, org);
      PostAllGrows(v, qs, 0, plan);
      var (w, a) := PostAll(v, qs, 0, plan);
      forall o | o in w.created && o !in v.created
        ensures o in Needed(r, org)
      {
        var i :| 0 <= i < |qs| && qs[i] == Unique(o);
        RequestIsNeeded(r, org, i);
      }
      if a.Done? {
        forall o | o in Needed(r, org)
          ensures o in w.created
        {
          match r
          case Kong => assert qs[0].item in w.created;
          case Svix => assert qs[0].item in w.created;
          case Lago =>
            LagoRequestsCover(org, 0);
            if o.LagoPlan? {
              var p :| p in LAGO_ENVIRONMENTS && o == LagoPlan(p + org);
              var i :| 0 <= i < |LAGO_ENVIRONMENTS| && LAGO_ENVIRONMENTS[i] == p;
              LagoRequestsCover(org, i);
              assert qs[1 + i].item in w.created;
            } else {
              assert qs[0].item in w.created;
            }
        }
      }
    }
  }

  /** A provider answers with the id of the key it has just created, where that is what it
      does, and with the organisation's own id otherwise: for a key already there, too. */
  lemma {:induction false} ProviderAnswersId(v: Vendors, r: Resource, org: string, plan: Plan)
    ensures var (w, a) := ProviderSpec(v, r, org, plan);
            a.Done? ==> a.value == if r == Resource.Aws && AwsKey(org) !in v.created then plan.keyId else org
    ensures var (w, a) := ProviderSpec(v, r, org, plan);
            a.Done? && r == Resource.Aws && AwsKey(org) !in v.created ==> AwsKey(org) in w.created && org in w.attached
  {
  }

  /** How many of the requests from the k-th on are subscriptions. */
  function Subscriptions(qs: seq<Request>, k: nat): nat
    requires k <= |qs|
    decreases |qs| - k
  {
    if k == |qs| then 0 else (if qs[k].Subscribe? then 1 else 0) + Subscriptions(qs, k + 1)
  }

  lemma {:induction false} PostAllSubscribes(v: Vendors, qs: seq<Request>, k: nat, plan: Plan)
    requires k <= |qs| && PostAll(v, qs, k, plan).1.Done?
    ensures |PostAll(v, qs, k, plan).0.subscriptions| == |v.subscriptions| + Subscriptions(qs, k)
    decreases |qs| - k
  {
    if k < |qs| {
      PostAllSubscribes(Posted(v, qs[k], plan.At(FIRST_CALL + k)), qs, k + 1, plan);
    }
  }

  /** The subscriptions are not idempotent: every completed Lago call adds three, whatever
      is there already. Nor is the usage plan: a completed AWS call leaves the key
      attached exactly when it was, or when the key was not there yet. */
  lemma {:induction false} NotEverythingIsIdempotent(v: Vendors, org: string, plan: Plan)
    ensures var (w, a) := ProviderSpec(v, Resource.Lago, org, plan);
            a.Done? ==> |w.subscriptions| == |v.subscriptions| + 3
    ensures var (w, a) := ProviderSpec(v, Resource.Aws, org, plan);
            a.Done? ==> (org in w.attached <==> org in v.attached || AwsKey(org) !in v.created)
  {
    var qs := LagoRequests(org);
    if PostAll(v, qs, 0, plan).1.Done? {
      PostAllSubscribes(v, qs, 0, plan);
      LagoRequestsCover(org, 0);
      LagoRequestsCover(org, 1);
      LagoRequestsCover(org, 2);
      assert Subscriptions(qs, 6) == 1 && Subscriptions(qs, 4) == 3;
      assert Subscriptions(qs, 2) == 3 && Subscriptions(qs, 0) == 3;
    }
  }

  /** A completed Lago call leaves the organisation subscribed to its plan of each
      environment. */
  lemma {:induction false} LagoSubscribesToEach(v: Vendors, org: string, plan: Plan)
    requires NoDuplicates(v)
    ensures var (w, a) := ProviderSpec(v, Resource.Lago, org, plan);
            a.Done? ==> forall p :: p in {"d_c_plan_", "s_c_plan_", "p_c_plan_"} ==> (org, p + org) in w.subscriptions
  {
    var qs := LagoRequests(org);
    PostAllGrows(v, qs, 0, plan);
    LagoRequestsCover(org, 0);
    LagoRequestsCover(org, 1);
    LagoRequestsCover(org, 2);
    assert qs[4].Subscribe? && qs[5].Subscribe? && qs[6].Subscribe?;
  }

  lemma {:induction false} PlanCodeTellsOrg(p: string, a: string, q: string, b: string)
    requires |p| == |q| && p + a == q + b
    ensures a == b
  {
    assert a == (p + a)[|p|..] && b == (q + b)[|q|..];
  }

  lemma {:induction false} PlanIsPrefixed(code: string, org: string) returns (i: nat)
    requires Unique(LagoPlan(code)) in LagoRequests(org)
    ensures i < |LAGO_ENVIRONMENTS| && code == LAGO_ENVIRONMENTS[i] + org && |LAGO_ENVIRONMENTS[i]| == 9
  {
    var k :| 0 <= k < |LagoRequests(org)| && LagoRequests(org)[k] == Unique(LagoPlan(code));
    i := k - 1;
    assert forall e :: 0 <= e < |LAGO_ENVIRONMENTS| ==> |LAGO_ENVIRONMENTS[e]| == 9;
  }

  /** A request tells which resource of which organisation it is for. */
  lemma {:induction false} RequestTellsOwner(x: Request, r: Resource, a: string, q: Resource, b: string)
    requires x in Requests(r, a) && x in Requests(q, b)
    ensures r == q && a == b
  {
    if r.Lago? && q.Lago? && x.Unique? && x.item.LagoPlan? {
      var i := PlanIsPrefixed(x.item.code, a);
      var j := PlanIsPrefixed(x.item.code, b);
      PlanCodeTellsOrg(LAGO_ENVIRONMENTS[i], a, LAGO_ENVIRONMENTS[j], b);
    }
  }

  lemma {:induction false} PostAllAnswers(v: Vendors, qs: seq<Request>, k: nat, plan: Plan)
    requires k <= |qs| && forall i: nat :: plan.At(i).Fine?
    ensures PostAll(v, qs, k, plan).1.Done?
    decreases |qs| - k
  {
    if k < |qs| {
      PostAllAnswers(Posted(v, qs[k], plan.At(FIRST_CALL + k)), qs, k + 1, plan);
    }
  }

  /** What reading a conflict as success buys: with no failure a provider answers,
      whatever earlier attempts have left behind, and everything needed exists once. */
  lemma {:induction false} ConflictsNeverBlock(v: Vendors, r: Resource, org: string, plan: Plan)
    requires NoDuplicates(v) && forall i: nat :: plan.At(i).Fine?
    ensures var (w, a) := ProviderSpec(v, r, org, plan);
            a.Done? && Provisioned(w, r, org) && NoDuplicates(w)
  {
    ProviderIsSafe(v, r, org, plan);
    PostAllAnswers(v, Requests(r, org), 0, plan);
  }
}
