/** What every call of every attempt keeps, however calls fail and wherever attempts
    crash, while other users' attempts make their calls in between. */
module Attempts {
  import opened Domain
  import opened Faults
  import opened Stores
  import opened Auth0
  import opened Provisioning
  import opened Activities
  import opened Flights

  /** Every stored org id names a live organisation the user is member and owner of. */
  predicate DocsAreOwned(w: World) {
    forall u :: u in w.docs && w.docs[u].journey.orgId != "" ==> Holds(w.tenant, w.docs[u].journey.orgId, u)
  }

  /** No two users' journeys name the same organisation. */
  predicate DocsDiffer(docs: Docs) {
    forall u, v :: u in docs && v in docs && u != v && docs[u].journey.orgId == docs[v].journey.orgId ==>
                     docs[u].journey.orgId == ""
  }

  /** Every resource the record lists exists. */
  predicate Real(v: Vendors, org: string, rec: Record) {
    forall r: Resource :: KeyOf(r) in rec.resources ==> Provisioned(v, r, org)
  }

  predicate RecordsAreReal(w: World) {
    forall o :: o in w.recs ==> Real(w.vendors, o, w.recs[o])
  }

  predicate Consistent(w: World) {
    && OneOrgEach(w.tenant) && NoDuplicates(w.vendors) && Supported(w.vendors)
    && DocsAreOwned(w) && DocsDiffer(w.docs) && RecordsAreReal(w)
  }

  /** later still lists what rec lists, under the same ids, and is completed and dated as
      rec is. */
  predicate Includes(later: Record, rec: Record) {
    && (forall k :: k in rec.resources ==> k in later.resources && later.resources[k] == rec.resources[k])
    && (rec.completed ==> later.completed)
    && (rec.createdAt.Some? ==> later.createdAt == rec.createdAt)
  }

  /** Nothing established is lost: ids spent, objects created, requests logged, and, for
      a named organisation, resources recorded with their ids, completion, and the time
      the record was created. The record of the empty org id is shared by users and not
      covered. */
  predicate Keeps(w: World, w': World) {
    && w.tenant.minted <= w'.tenant.minted
    && Grows(w.vendors, w'.vendors)
    && forall o :: o in w.recs && o != "" ==> o in w'.recs && Includes(w'.recs[o], w.recs[o])
  }

  lemma {:induction false} KeepsIsTransitive(a: World, b: World, c: World)
    requires Keeps(a, b) && Keeps(b, c)
    ensures Keeps(a, c)
  {
  }

  /** The user's journey names org, unless there is nothing to name. */
  predicate HasOrg(docs: Docs, user: string, org: string) {
    org != "" ==> user in docs && docs[user].journey.orgId == org
  }

  predicate NoId(docs: Docs, user: string) {
    !(user in docs && docs[user].journey.orgId != "")
  }

  /** A persist carries no org id but the one already stored. */
  predicate Proper(w: World, c: Command) {
    c.Persist? ==> HasOrg(w.docs, c.journey.userId, c.journey.orgId)
  }

  /** org exists and nobody but the user is a member. */
  predicate Alone(t: Tenant, org: string, user: string) {
    org != "" && org in t.minted && org in t.orgs && forall m :: m in t.members && m.0 == org ==> m.1 == user
  }

  /** What the attempt has read is real and, for a named organisation, still stored. */
  predicate Read(w: World, org: string, rec: Record) {
    Real(w.vendors, org, rec) && (org != "" ==> rec == RecordOf(w.recs, org))
  }

  /** What the world says when a command has been answered. */
  predicate Answered(w: World, c: Command, a: Answer) {
    match KindOf(c)
    case Single => a == Answer("", "")
      && (c.Persist? ==> c.journey.userId in w.docs && w.docs[c.journey.userId].journey == c.journey)
    case Organisation => a.orgId != "" && UserOf(c) in w.docs && w.docs[UserOf(c)].journey.orgId == a.orgId
    case Provision(r) => a == Answer("", "") && OrgIn(c) in w.recs && KeyOf(r) in w.recs[OrgIn(c)].resources
    case Completion => a == Answer("", "") && OrgIn(c) in w.recs && w.recs[OrgIn(c)].completed
  }

  /** What an attempt may rely on before its next call. */
  predicate Knows(w: World, f: Flight)
    requires Fit(f)
  {
    var c, user, org, t := f.command, UserOf(f.command), f.plan.orgId, w.tenant;
    match f.stage
    case Store => Proper(w, c)
    case Find => true
    case Token => NoId(w.docs, user)
    case List => NoId(w.docs, user)
    case Create => NoId(w.docs, user) && OrgsOf(t, user) == {}
    case Member => NoId(w.docs, user) && OrgsOf(t, user) == {} && Alone(t, org, user)
    case Role => NoId(w.docs, user) && OrgsOf(t, user) == {org} && Alone(t, org, user)
    case Delete => NoId(w.docs, user) && OrgsOf(t, user) <= {org} && Alone(t, org, user)
    case SetOrg => NoId(w.docs, user) && Holds(t, org, user) && Alone(t, org, user)
    case EmailToken => org != "" && HasOrg(w.docs, user, org)
    case EmailLookup => org != "" && HasOrg(w.docs, user, org)
    case Get => HasOrg(w.docs, user, OrgIn(c))
    case Post(read, k) =>
      && HasOrg(w.docs, user, OrgIn(c)) && Read(w, OrgIn(c), read)
      && KeyOf(KindOf(c).resource) !in read.resources
      && forall i :: 0 <= i < k && Requests(KindOf(c).resource, OrgIn(c))[i].Unique? ==>
           Requests(KindOf(c).resource, OrgIn(c))[i].item in w.vendors.created
    case Write(read, rec) =>
      && HasOrg(w.docs, user, OrgIn(c)) && Read(w, OrgIn(c), read)
      && if KindOf(c).Completion? then rec == read.(completed := true)
        else Adds(w.vendors, KindOf(c).resource, OrgIn(c), read, rec)
    case Over(r) => r.Done? ==> Answered(w, c, r.value)
  }

  /** rec is read with one more resource, which exists. */
  predicate Adds(v: Vendors, r: Resource, org: string, read: Record, rec: Record) {
    && Provisioned(v, r, org) && KeyOf(r) !in read.resources
    && KeyOf(r) in rec.resources && rec == read.(resources := read.resources[KeyOf(r) := rec.resources[KeyOf(r)]])
  }

  /** What a call of f may change: the user's own document and memberships in the
      organisation f has minted, the record of the user's own organisation, and what
      vendors add. */
  ghost predicate Spares(w: World, w': World, f: Flight) {
    var user, g, o := UserOf(f.command), f.plan.orgId, OrgIn(f.command);
    && (forall v :: v in w.docs ==> v in w'.docs && (v != user ==> w'.docs[v] == w.docs[v]))
    && (forall v :: v in w'.docs && v != user ==> v in w.docs)
    && (forall p :: p != o ==> (p in w.recs <==> p in w'.recs) && (p in w.recs ==> w'.recs[p] == w.recs[p]))
    && (w'.recs != w.recs ==> HasOrg(w.docs, user, o) && w'.docs == w.docs && w'.tenant == w.tenant)
    && SparesTenant(w.tenant, w'.tenant, g, user)
    && Grows(w.vendors, w'.vendors)
  }

  ghost predicate SparesTenant(t: Tenant, t': Tenant, g: string, user: string) {
    && (forall m :: m != (g, user) ==> (m in t.members <==> m in t'.members) && (m in t.owners <==> m in t'.owners))
    && (forall x :: x != g ==> (x in t.orgs <==> x in t'.orgs))
    && t.minted <= t'.minted <= t.minted + {g}
    && (t' != t ==> forall m :: m in t.members && m.0 == g ==> m.1 == user)
  }

  lemma {:induction false} KeysDiffer(r: Resource, q: Resource)
    ensures KeyOf(r) == KeyOf(q) <==> r == q
  {
    assert forall x: Resource :: |KeyOf(x)| == (if x.Aws? then 3 else 4);
    assert KeyOf(Resource.Kong)[0] == 'k' && KeyOf(Resource.Svix)[0] == 's' && KeyOf(Resource.Lago)[0] == 'l';
  }

  /** Every object is created at most once, and none is removed. */
  lemma {:induction false} PostGrows(v: Vendors, q: Request, p: Fault)
    requires NoDuplicates(v)
    ensures Grows(v, Posted(v, q, p)) && NoDuplicates(Posted(v, q, p))
    ensures p.Fine? && q.Unique? ==> q.item in Posted(v, q, p).created
  {
  }

  lemma {:induction false} RealGrows(v: Vendors, v': Vendors, org: string, rec: Record)
    requires Real(v, org, rec) && Grows(v, v')
    ensures Real(v', org, rec)
  {
    forall r: Resource | KeyOf(r) in rec.resources
      ensures Provisioned(v', r, org)
    {
      assert Provisioned(v, r, org);
    }
  }

  lemma {:induction false} AddsIsReal(v: Vendors, r: Resource, org: string, read: Record, rec: Record)
    requires Real(v, org, read) && Adds(v, r, org, read, rec)
    ensures Real(v, org, rec)
  {
    forall q: Resource | KeyOf(q) in rec.resources
      ensures Provisioned(v, q, org)
    {
      KeysDiffer(r, q);
    }
  }

  /** When the last call of a provider has answered, the resource exists. */
  lemma {:induction false} AllPosted(v: Vendors, r: Resource, org: string)
    requires forall i :: 0 <= i < |Requests(r, org)| && Requests(r, org)[i].Unique? ==>
             Requests(r, org)[i].item in v.created
    ensures Provisioned(v, r, org)
  {
    var qs := Requests(r, org);
    forall o | o in Needed(r, org)
      ensures o in v.created
    {
      if r.Lago? && o.LagoPlan? {
        var p :| p in LAGO_ENVIRONMENTS && o == LagoPlan(p + org);
        var i :| 0 <= i < |LAGO_ENVIRONMENTS| && LAGO_ENVIRONMENTS[i] == p;
        assert qs[1 + i] == Unique(o);
      } else {
        assert qs[0] == Unique(o);
      }
    }
  }

  lemma {:induction false} PersistKeepsConsistent(w: World, j: Journey, now: Time)
    requires Consistent(w) && HasOrg(w.docs, j.userId, j.orgId)
    ensures Consistent(w.(docs := Replaced(w.docs, j, now)))
  {
  }

  lemma {:induction false} StoreCallIsSafe(w: World, f: Flight)
    requires Consistent(w) && Fit(f) && f.stage.Store? && Knows(w, f)
    ensures var (w', stage) := Call(w, f);
            Consistent(w') && Keeps(w, w') && Spares(w, w', f) && Knows(w', f.(stage := stage))
  {
    if f.command.Persist? {
      PersistKeepsConsistent(w, f.command.journey, f.now);
    }
  }

  /** What a call of the organisation activity does to the tenant. */
  lemma {:induction false} TenantCallIsSafe(w: World, f: Flight)
    requires Consistent(w) && Fit(f) && KindOf(f.command).Organisation? && !f.stage.Over? && Knows(w, f)
    requires f.stage.Create? ==> CanMint(w.tenant, f.plan.orgId)
    ensures var (w', stage) := Call(w, f);
            OneOrgEach(w'.tenant) && SparesTenant(w.tenant, w'.tenant, f.plan.orgId, UserOf(f.command))
    ensures var (w', stage) := Call(w, f);
            && w'.recs == w.recs && w'.vendors == w.vendors
            && (w'.docs == w.docs || (f.stage.SetOrg? && w'.tenant == w.tenant))
  {
    var user := UserOf(f.command);
    assert forall m :: m in w.tenant.members && m.1 == user ==> m.0 in OrgsOf(w.tenant, user);
  }

  lemma {:induction false} MakingCallKnows(w: World, f: Flight)
    requires Consistent(w) && Fit(f) && Knows(w, f) && (f.stage.Create? || Making(f.stage))
    requires f.stage.Create? ==> CanMint(w.tenant, f.plan.orgId)
    ensures var (w', stage) := Call(w, f); Knows(w', f.(stage := stage))
  {
    var user, org := UserOf(f.command), f.plan.orgId;
    var t, t' := w.tenant, Call(w, f).0.tenant;
    assert forall m :: m in t.members && m.1 == user ==> m.0 in OrgsOf(t, user);
    assert forall m :: m in t'.members && m.1 == user ==> m.0 in OrgsOf(t', user);
    assert forall m :: m in t.members ==> m.0 in t.minted;
    if f.stage.Member? && f.plan.At(MEMBER).Lands() {
      assert (org, user) in t'.members;
    }
  }

  lemma {:induction false} OrganisationCallKnows(w: World, f: Flight)
    requires Consistent(w) && Fit(f) && KindOf(f.command).Organisation? && !f.stage.Over? && Knows(w, f)
    requires f.stage.Create? ==> CanMint(w.tenant, f.plan.orgId)
    ensures var (w', stage) := Call(w, f); Knows(w', f.(stage := stage))
  {
    if f.stage.Create? || Making(f.stage) {
      MakingCallKnows(w, f);
    }
  }

  /** The id that the user has alone is stored on nobody else's journey. */
  lemma {:induction false} OrganisationCallKeepsDocs(w: World, f: Flight)
    requires Consistent(w) && Fit(f) && KindOf(f.command).Organisation? && !f.stage.Over? && Knows(w, f)
    requires f.stage.Create? ==> CanMint(w.tenant, f.plan.orgId)
    ensures var w' := Call(w, f).0; DocsAreOwned(w') && DocsDiffer(w'.docs)
  {
    TenantCallIsSafe(w, f);
    var user, org, w' := UserOf(f.command), f.plan.orgId, Call(w, f).0;
    forall u | u in w'.docs && w'.docs[u].journey.orgId != ""
      ensures Holds(w'.tenant, w'.docs[u].journey.orgId, u)
      ensures u != user ==> u in w.docs && w'.docs[u] == w.docs[u]
    {
      if u in w.docs && w.docs[u].journey.orgId != "" {
        assert Holds(w.tenant, w.docs[u].journey.orgId, u);
        assert (w.docs[u].journey.orgId, u) in w.tenant.members;
      }
    }
    forall u | u in w'.docs && u != user && w'.docs[u].journey.orgId != "" && f.stage.SetOrg?
      ensures w'.docs[u].journey.orgId != org
    {
      assert (w'.docs[u].journey.orgId, u) in w.tenant.members;
    }
  }

  lemma {:induction false} OrganisationCallIsSafe(w: World, f: Flight)
    requires Consistent(w) && Fit(f) && KindOf(f.command).Organisation? && !f.stage.Over? && Knows(w, f)
    requires f.stage.Create? ==> CanMint(w.tenant, f.plan.orgId)
    ensures var (w', stage) := Call(w, f);
            Consistent(w') && Keeps(w, w') && Spares(w, w', f) && Knows(w', f.(stage := stage))
  {
    TenantCallIsSafe(w, f);
    OrganisationCallKeepsDocs(w, f);
    OrganisationCallKnows(w, f);
  }

  lemma {:induction false} GetCallIsSafe(w: World, f: Flight)
    requires Consistent(w) && Fit(f) && f.stage.Get? && Knows(w, f)
    ensures var (w', stage) := Call(w, f); w' == w && Knows(w', f.(stage := stage))
  {
    var o := OrgIn(f.command);
    assert Real(w.vendors, o, RecordOf(w.recs, o));
  }

  lemma {:induction false} PostKeepsReal(w: World, q: Request, p: Fault)
    requires Consistent(w) && Refers(w.vendors, q)
    ensures var w' := w.(vendors := Posted(w.vendors, q, p)); Consistent(w') && Keeps(w, w')
  {
    PostGrows(w.vendors, q, p);
    PostKeepsSupported(w.vendors, q, p);
    var w' := w.(vendors := Posted(w.vendors, q, p));
    forall o | o in w'.recs
      ensures Real(w'.vendors, o, w'.recs[o])
    {
      RealGrows(w.vendors, w'.vendors, o, w.recs[o]);
    }
  }

  /** One more of the requests has been made. */
  lemma {:induction false} PostedSoFar(v: Vendors, qs: seq<Request>, k: nat, p: Fault)
    requires k < |qs| && NoDuplicates(v) && p.Fine?
    requires forall i :: 0 <= i < k && qs[i].Unique? ==> qs[i].item in v.created
    ensures forall i :: 0 <= i <= k && qs[i].Unique? ==> qs[i].item in Posted(v, qs[k], p).created
  {
    PostGrows(v, qs[k], p);
  }

  lemma {:induction false} PostCallKnows(w: World, f: Flight)
    requires Consistent(w) && Fit(f) && f.stage.Post? && Knows(w, f)
    ensures var (w', stage) := Call(w, f); Knows(w', f.(stage := stage))
  {
    var (w', stage) := Call(w, f);
    var r, o, k := KindOf(f.command).resource, OrgIn(f.command), f.stage.k;
    var qs := Requests(r, o);
    PostGrows(w.vendors, qs[k], f.plan.At(FIRST_CALL + k));
    RealGrows(w.vendors, w'.vendors, o, f.stage.read);
    if f.plan.At(FIRST_CALL + k).Fine? {
      PostedSoFar(w.vendors, qs, k, f.plan.At(FIRST_CALL + k));
      if stage.Write? {
        AllPosted(w'.vendors, r, o);
      }
    }
  }

  lemma {:induction false} PostCallIsSafe(w: World, f: Flight)
    requires Consistent(w) && Fit(f) && f.stage.Post? && Knows(w, f)
    ensures var (w', stage) := Call(w, f);
            Consistent(w') && Keeps(w, w') && Spares(w, w', f) && Knows(w', f.(stage := stage))
  {
    var r, org, k := KindOf(f.command).resource, OrgIn(f.command), f.stage.k;
    RequestsAreInOrder(w.vendors, r, org, k);
    PostKeepsReal(w, Requests(r, org)[k], f.plan.At(FIRST_CALL + k));
    PostCallKnows(w, f);
  }

  lemma {:induction false} RecordKeepsConsistent(w: World, o: string, rec: Record)
    requires Consistent(w) && Real(w.vendors, o, rec)
    ensures Consistent(w.(recs := w.recs[o := rec]))
  {
  }

  /** A record that includes what was read loses nothing. */
  lemma {:induction false} RecordKeeps(w: World, o: string, read: Record, rec: Record)
    requires Read(w, o, read) && Includes(rec, read)
    ensures Keeps(w, w.(recs := w.recs[o := rec]))
  {
  }

  lemma {:induction false} WriteCallIsSafe(w: World, f: Flight)
    requires Consistent(w) && Fit(f) && f.stage.Write? && Knows(w, f)
    ensures var (w', stage) := Call(w, f);
            Consistent(w') && Keeps(w, w') && Spares(w, w', f) && Knows(w', f.(stage := stage))
  {
    var (w', stage) := Call(w, f);
    var o, rec := OrgIn(f.command), f.stage.rec;
    assert Real(w.vendors, o, rec) by {
      if KindOf(f.command).Provision? {
        AddsIsReal(w.vendors, KindOf(f.command).resource, o, f.stage.read, rec);
      }
    }
    RecordKeepsConsistent(w, o, Stamped(rec, f.now));
    RecordKeeps(w, o, f.stage.read, Stamped(rec, f.now));
  }

  /** Every call of every attempt, whatever becomes of it, keeps the world consistent and
      loses nothing; it touches only what is the user's own; and what the attempt relies
      on next holds. */
  lemma {:induction false} CallIsSafe(w: World, f: Flight)
    requires Consistent(w) && Fit(f) && !f.stage.Over? && Knows(w, f)
    requires f.stage.Create? ==> CanMint(w.tenant, f.plan.orgId)
    ensures var (w', stage) := Call(w, f);
            Consistent(w') && Keeps(w, w') && Spares(w, w', f) && Knows(w', f.(stage := stage))
  {
    if KindOf(f.command).Organisation? {
      OrganisationCallIsSafe(w, f);
    } else {
      match f.stage
      case Store => StoreCallIsSafe(w, f);
      case Get => GetCallIsSafe(w, f);
      case Post(_, _) => PostCallIsSafe(w, f);
      case Write(_, _) => WriteCallIsSafe(w, f);
    }
  }

  lemma {:induction false} OrgsStay(t: Tenant, t': Tenant, g: string, user: string, u: string)
    requires SparesTenant(t, t', g, user) && u != user
    ensures OrgsOf(t', u) == OrgsOf(t, u)
  {
    forall x
      ensures x in OrgsOf(t', u) <==> x in OrgsOf(t, u)
    {
      var m := (x, u);
      assert x in OrgsOf(t', u) <==> m in t'.members;
      assert x in OrgsOf(t, u) <==> m in t.members;
    }
  }

  /** A call of one user's attempt takes nothing away that another user's relies on. */
  lemma {:induction false} KnowsStays(w: World, w': World, f: Flight, h: Flight)
    requires Fit(h) && Consistent(w) && Spares(w, w', f) && Knows(w, h) && !h.stage.Over?
    requires UserOf(h.command) != UserOf(f.command)
    requires w'.tenant != w.tenant && Making(h.stage) ==> h.plan.orgId != f.plan.orgId
    ensures Knows(w', h)
  {
    OrgsStay(w.tenant, w'.tenant, f.plan.orgId, UserOf(f.command), UserOf(h.command));
    if h.stage.Post? || h.stage.Write? {
      RealGrows(w.vendors, w'.vendors, OrgIn(h.command), h.stage.read);
      RecordStays(w, w', f, UserOf(h.command), OrgIn(h.command));
    }
  }

  /** Nor does it change the record of another user's organisation. */
  lemma {:induction false} RecordStays(w: World, w': World, f: Flight, u: string, o: string)
    requires Consistent(w) && Spares(w, w', f) && u != UserOf(f.command) && HasOrg(w.docs, u, o)
    ensures o != "" ==> RecordOf(w'.recs, o) == RecordOf(w.recs, o) && (o in w'.recs <==> o in w.recs)
  {
  }

  lemma {:induction false} SoloIsSafe(w: World, f: Flight)
    requires Consistent(w) && Fit(f) && Knows(w, f)
    requires f.stage.Find? || f.stage.Token? || f.stage.List? || f.stage.Create? ==> CanMint(w.tenant, f.plan.orgId)
    ensures var (w', r) := Solo(w, f); Consistent(w') && Keeps(w, w') && (r.Done? ==> Answered(w', f.command, r.value))
    decreases Left(f)
  {
    if !f.stage.Over? {
      var (w', stage) := Call(w, f);
      CallIsSafe(w, f);
      SoloIsSafe(w', f.(stage := stage));
      KeepsIsTransitive(w, w', Solo(w, f).0);
    }
  }

  /** Every attempt as a whole, undisturbed, keeps the world consistent and loses nothing,
      and when it answers the world says so: the document stored, the new or stored id
      held, the resource or the completion recorded. */
  lemma {:induction false} AttemptIsSafe(w: World, c: Command, plan: Plan, now: Time)
    requires Consistent(w) && Proper(w, c) && HasOrg(w.docs, UserOf(c), OrgIn(c)) && CanMint(w.tenant, plan.orgId)
    ensures var (w', r) := Attempt(w, c, plan, now);
            Consistent(w') && Keeps(w, w') && (r.Done? ==> Answered(w', c, r.value))
  {
    SoloIsAttempt(w, c, plan, now);
    SoloIsSafe(w, Departure(c, plan, now));
  }

  /** With no failure an attempt to provision answers and records, whatever requests
      earlier attempts made before they crashed, and everything the resource needs
      exists once. */
  lemma {:induction false} RetryCompletes(w: World, r: Resource, input: ActionInput, plan: Plan, now: Time)
    requires Consistent(w) && forall i: nat :: plan.At(i).Fine?
    ensures var (w', a) := ProvisionSpec(w, r, input, plan, now);
            && a.Done? && input.orgId in w'.recs && KeyOf(r) in w'.recs[input.orgId].resources
            && Provisioned(w'.vendors, r, input.orgId) && NoDuplicates(w'.vendors)
  {
    ConflictsNeverBlock(w.vendors, r, input.orgId, plan);
    assert Real(w.vendors, input.orgId, RecordOf(w.recs, input.orgId));
  }

  /** An attempt to provision that found the resource unrecorded and answers has recorded
      the id of the new key, where a key is what it made, and else the organisation's id;
      and nothing else of the record has changed but its dates. */
  lemma {:induction false} RecordsVendorsId(w: World, r: Resource, input: ActionInput, plan: Plan, now: Time)
    requires var was := RecordOf(w.recs, input.orgId).resources; KeyOf(r) !in was
    ensures var (w', a) := ProvisionSpec(w, r, input, plan, now);
            var org, was := input.orgId, RecordOf(w.recs, input.orgId);
            a.Done? ==>
              && org in w'.recs && KeyOf(r) in w'.recs[org].resources
              && w'.recs[org].resources[KeyOf(r)]
                 == (if r.Aws? && AwsKey(org) !in w.vendors.created then plan.keyId else org)
              && w'.recs[org].resources - {KeyOf(r)} == was.resources && w'.recs[org].completed == was.completed
              && w'.recs[org].createdAt == (if was.createdAt.Some? then was.createdAt else Some(now))
              && w'.recs[org].updatedAt == now
  {
    ProviderAnswersId(w.vendors, r, input.orgId, plan);
  }

  /** A creation is answered exactly when the id is stored already, or the name passes, the
      user has no organisation and every call up to the storing of the id is answered. The
      email is looked up at best effort: only a crash there keeps the answer from coming,
      and it is told exactly when both its calls are answered. */
  lemma {:induction false} CreationAnswersExactly(w: World, input: ActionInput, plan: Plan, now: Time)
    ensures var r := CreateOrganisationSpec(w, input, plan, now).1;
            var stored := !NoId(w.docs, input.userId);
            var token, lookup := plan.At(EMAIL_TOKEN), plan.At(EMAIL_LOOKUP);
            && (r.Done? <==>
                  && plan.At(FIND).Fine?
                  && (stored ||
                      (&& ValidDisplayName(input.displayName, plan.letters) && OrgsOf(w.tenant, input.userId) == {}
                       && (forall k :: k in {TOKEN, LIST, CREATE, MEMBER, ROLE, SET_ORG} ==> plan.At(k).Fine?)
                       && !token.Kills() && (token.Fine? ==> !lookup.Kills()))))
            && (r.Done? ==> r.value == if stored then Answer(w.docs[input.userId].journey.orgId, "")
                                       else Answer(plan.orgId, if token.Fine? && lookup.Fine? then plan.email else ""))
  {
  }

  /** The user has an organisation that the journey does not know of. */
  predicate Stranded(w: World, user: string) {
    OrgsOf(w.tenant, user) != {} && NoId(w.docs, user)
  }

  /** An attempt strands a user who had no organisation exactly when it got as far as the
      creation, the membership call took effect, the cleanup did not, and the id did not
      reach the journey. */
  lemma {:induction false} StrandsExactlyWhen(w: World, input: ActionInput, plan: Plan, now: Time)
    requires Consistent(w) && CanMint(w.tenant, plan.orgId) && OrgsOf(w.tenant, input.userId) == {}
    ensures var w' := CreateOrganisationSpec(w, input, plan, now).0;
            Stranded(w', input.userId) <==>
              && plan.At(FIND).Fine? && ValidDisplayName(input.displayName, plan.letters)
              && plan.At(TOKEN).Fine? && plan.At(LIST).Fine?
              && plan.At(CREATE).Fine? && plan.At(MEMBER).Lands()
              && (if !plan.At(MEMBER).Fine? then plan.At(MEMBER).Kills() || !plan.At(DELETE).Lands()
                  else if !plan.At(ROLE).Fine? then plan.At(ROLE).Kills() || !plan.At(DELETE).Lands()
                  else !plan.At(SET_ORG).Lands())
  {
    var user := input.userId;
    var w' := CreateOrganisationSpec(w, input, plan, now).0;
    StoredIdIsHeld(w, user);
    var m := (plan.orgId, user);
    assert forall n | n in w.tenant.members && n.1 == user :: n.0 in OrgsOf(w.tenant, user);
    assert m in w'.tenant.members ==> plan.orgId in OrgsOf(w'.tenant, user);
  }

  lemma {:induction false} StoredIdIsHeld(w: World, user: string)
    requires Consistent(w)
    ensures user in w.docs && w.docs[user].journey.orgId != "" ==> OrgsOf(w.tenant, user) != {}
  {
    if user in w.docs && w.docs[user].journey.orgId != "" {
      assert (w.docs[user].journey.orgId, user) in w.tenant.members;
      assert w.docs[user].journey.orgId in OrgsOf(w.tenant, user);
    }
  }
}
