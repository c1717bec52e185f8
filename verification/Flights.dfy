/** An activity attempt call by call. Between two calls of one attempt anything may happen
    that other users' attempts can do. */
module Flights {
  import opened Domain
  import opened Catalog
  import opened Faults
  import opened Stores
  import opened Auth0
  import opened Provisioning
  import opened Activities

  /** What a command asks for, in the order in which handlers are looked up. */
  datatype Kind = Single | Organisation | Provision(resource: Resource) | Completion

  function KindOf(c: Command): Kind {
    if !c.Act? then Single
    else if c.action == CREATE_ORGANISATION then Organisation
    else if ResourceOf(c.action).Some? then Provision(ResourceOf(c.action).value)
    else if c.action == COMPLETE_PROVISIONING then Completion
    else Single
  }

  /** The next call of an attempt, with what the attempt remembers: the record it has
      read, and from `Write` on the record it is about to store. */
  datatype Stage =
    | Store
    | Find | Token | List | Create | Member | Role | Delete | SetOrg | EmailToken | EmailLookup
    | Get | Post(read: Record, k: nat) | Write(read: Record, rec: Record)
    | Over(result: Result<Answer>)

  /** An attempt under way. */
  datatype Flight = Flight(command: Command, plan: Plan, now: Time, stage: Stage)

  function FirstStage(c: Command): Stage {
    match KindOf(c)
    case Single => Store
    case Organisation => Find
    case Provision(_) => Get
    case Completion => Get
  }

  function OrgIn(c: Command): string {
    if c.Act? then c.input.orgId else ""
  }

  /** The user a command is for. */
  function UserOf(c: Command): string {
    match c
    case Persist(j) => j.userId
    case Act(_, input) => input.userId
    case Emit(e) => e.userId
  }

  /** The stages of an attempt that may have made an organisation. */
  predicate Making(s: Stage) {
    s.Member? || s.Role? || s.Delete? || s.SetOrg?
  }

  /** The stage is one the command goes through. */
  predicate Fit(f: Flight) {
    var kind := KindOf(f.command);
    match f.stage
    case Store => kind.Single?
    case Get => kind.Provision? || kind.Completion?
    case Post(_, k) => kind.Provision? && k < |Requests(kind.resource, OrgIn(f.command))|
    case Write(_, _) => kind.Provision? || kind.Completion?
    case Over(_) => true
    case _ => kind.Organisation?
  }

  /** The most calls left. */
  function Left(f: Flight): nat
    requires Fit(f)
  {
    match f.stage
    case Store => 1
    case Find => 9
    case Token => 8
    case List => 7
    case Create => 6
    case Member => 5
    case Role => 4
    case Delete => 1
    case SetOrg => 3
    case EmailToken => 2
    case EmailLookup => 1
    case Get => 9
    case Post(_, k) => 1 + |Requests(KindOf(f.command).resource, OrgIn(f.command))| - k
    case Write(_, _) => 1
    case Over(_) => 0
  }

  /** The stage after a call that did not answer, or the next. */
  function Unless(f: Fault, next: Stage): Stage {
    if f.Fine? then next else Over(Stop(f))
  }

  function Listed(read: Record, r: Resource, id: string): Stage {
    Write(read, read.(resources := read.resources[KeyOf(r) := id]))
  }

  /** A call of the organisation activity. */
  function OrganisationCall(w: World, f: Flight): (World, Stage)
    requires Fit(f) && !f.stage.Over? && KindOf(f.command).Organisation?
  {
    var user, org, plan := f.command.input.userId, f.plan.orgId, f.plan;
    match f.stage
    case Find =>
      (w, Unless(plan.At(FIND),
                 if user in w.docs && w.docs[user].journey.orgId != "" then
                   Over(Done(Answer(w.docs[user].journey.orgId, "")))
                 else if !ValidDisplayName(f.command.input.displayName, plan.letters) then Over(Erred) else Token))
    case Token => (w, Unless(plan.At(TOKEN), List))
    case List => (w, Unless(plan.At(LIST), if OrgsOf(w.tenant, user) != {} then Over(Erred) else Create))
    case Create => (w.(tenant := Auth0.Created(w.tenant, org, plan.At(CREATE))), Unless(plan.At(CREATE), Member))
    case Member =>
      var m := plan.At(MEMBER);
      (w.(tenant := Joined(w.tenant, org, user, m)),
       if m.Fine? then Role else if m.Kills() then Over(Crashed) else Delete)
    case Role =>
      var r := plan.At(ROLE);
      (w.(tenant := Owned(w.tenant, org, user, r)),
       if r.Fine? then SetOrg else if r.Kills() then Over(Crashed) else Delete)
    case Delete =>
      (w.(tenant := Deleted(w.tenant, org, plan.At(DELETE))), Over(if plan.At(DELETE).Kills() then Crashed else Erred))
    case SetOrg =>
      var p := plan.At(SET_ORG);
      (if p.Lands() then w.(docs := WithOrgId(w.docs, user, org, f.now)) else w, Unless(p, EmailToken))
    case EmailToken =>
      var t := plan.At(EMAIL_TOKEN);
      (w, if t.Fine? then EmailLookup else Over(if t.Kills() then Crashed else Done(Answer(org, ""))))
    case EmailLookup =>
      var l := plan.At(EMAIL_LOOKUP);
      (w, Over(if l.Kills() then Crashed else Done(Answer(org, if l.Fine? then plan.email else ""))))
  }

  /** The stage after the k-th call of a provider has answered. */
  function Posting(v: Vendors, f: Flight): Stage
    requires Fit(f) && f.stage.Post?
  {
    var r, org, k := KindOf(f.command).resource, OrgIn(f.command), f.stage.k;
    if k + 1 == |Requests(r, org)| || (r.Aws? && AwsKey(org) in v.created && k == 0) then
      Listed(f.stage.read, r, if r.Aws? && k == 1 then f.plan.keyId else org)
    else
      Stage.Post(f.stage.read, k + 1)
  }

  /** A call of an activity that works on a provisioning record. */
  function RecordCall(w: World, f: Flight): (World, Stage)
    requires Fit(f) && !f.stage.Over? && (KindOf(f.command).Provision? || KindOf(f.command).Completion?)
  {
    var kind, org, plan := KindOf(f.command), OrgIn(f.command), f.plan;
    match f.stage
    case Get =>
      var rec := RecordOf(w.recs, org);
      (w, Unless(plan.At(GET),
                 if kind.Completion? then Write(rec, rec.(completed := true))
                 else if KeyOf(kind.resource) in rec.resources then Over(Done(Answer("", "")))
                 else Stage.Post(rec, 0)))
    case Post(_, k) =>
      var p := plan.At(FIRST_CALL + k);
      (w.(vendors := Posted(w.vendors, Requests(kind.resource, org)[k], p)), Unless(p, Posting(w.vendors, f)))
    case Write(_, rec) =>
      var p := plan.At(STORE);
      (if p.Lands() then w.(recs := w.recs[org := Stamped(rec, f.now)]) else w, Unless(p, Over(Done(Answer("", "")))))
  }

  /** Make the next call. */
  function Call(w: World, f: Flight): (step: (World, Stage))
    requires Fit(f) && !f.stage.Over?
    ensures Fit(f.(stage := step.1)) && Left(f.(stage := step.1)) < Left(f)
  {
    match KindOf(f.command)
    case Single => var (w', r) := Attempt(w, f.command, f.plan, f.now); (w', Over(r))
    case Organisation => OrganisationCall(w, f)
    case Provision(_) => RecordCall(w, f)
    case Completion => RecordCall(w, f)
  }

  /** The attempt with nothing else going on. */
  function Solo(w: World, f: Flight): (World, Result<Answer>)
    requires Fit(f)
    decreases Left(f)
  {
    if f.stage.Over? then (w, f.stage.result)
    else
      var (w', stage) := Call(w, f);
      Solo(w', f.(stage := stage))
  }

  function Departure(c: Command, plan: Plan, now: Time): (f: Flight)
    ensures Fit(f) && !f.stage.Over?
  {
    Flight(c, plan, now, FirstStage(c))
  }

  lemma {:induction false} SoloEmail(w: World, f: Flight)
    requires Fit(f) && f.stage.EmailToken?
    ensures Solo(w, f) == (w, EmailSpec(f.plan.orgId, f.plan))
  {
    var g := f.(stage := EmailLookup);
    assert Solo(w, g) == Solo(w, g.(stage := Call(w, g).1));
  }

  lemma {:induction false} SoloStep(w: World, f: Flight)
    requires Fit(f) && !f.stage.Over?
    ensures var (w', stage) := Call(w, f); Solo(w, f) == Solo(w', f.(stage := stage))
  {
  }

  /** From the membership call on. */
  lemma {:induction false} SoloMember(w: World, f: Flight)
    requires Fit(f) && f.stage.Member?
    ensures var user, org, plan := f.command.input.userId, f.plan.orgId, f.plan;
            var t2 := Joined(w.tenant, org, user, plan.At(MEMBER));
            var t3 := Owned(t2, org, user, plan.At(ROLE));
            Solo(w, f)
            == if !plan.At(MEMBER).Fine? then SoloCleaned(w, CleanUp(t2, plan, plan.At(MEMBER)))
               else if !plan.At(ROLE).Fine? then SoloCleaned(w, CleanUp(t3, plan, plan.At(ROLE)))
               else Solo(w.(tenant := t3), f.(stage := SetOrg))
  {
    SoloStep(w, f);
    var (w2, s2) := Call(w, f);
    var f2 := f.(stage := s2);
    if !s2.Over? {
      SoloStep(w2, f2);
    }
    if s2.Role? {
      var (w3, s3) := Call(w2, f2);
      if s3.Delete? {
        SoloStep(w3, f2.(stage := s3));
      }
    }
  }

  /** A creation cleaned up, or not. */
  function SoloCleaned(w: World, c: (Tenant, Result<string>)): (World, Result<Answer>) {
    (w.(tenant := c.0), if c.1.Crashed? then Crashed else Erred)
  }

  lemma {:induction false} SoloSetOrg(w: World, f: Flight)
    requires Fit(f) && f.stage.SetOrg?
    ensures var p := f.plan.At(SET_ORG);
            Solo(w, f)
            == (if p.Lands() then w.(docs := WithOrgId(w.docs, f.command.input.userId, f.plan.orgId, f.now)) else w,
                if p.Fine? then EmailSpec(f.plan.orgId, f.plan) else Stop(p))
  {
    SoloStep(w, f);
    var (w2, s2) := Call(w, f);
    if s2.EmailToken? {
      SoloEmail(w2, f.(stage := s2));
    }
  }

  lemma {:induction false} SoloOrganisation(w: World, c: Command, plan: Plan, now: Time)
    requires KindOf(c).Organisation?
    ensures Solo(w, Departure(c, plan, now)) == CreateOrganisationSpec(w, c.input, plan, now)
  {
    var f := Departure(c, plan, now);
    SoloStep(w, f);
    if Call(w, f).1.Token? {
      SoloStep(w, f.(stage := Token));
      if Call(w, f.(stage := Token)).1.List? {
        SoloStep(w, f.(stage := List));
        if Call(w, f.(stage := List)).1.Create? {
          SoloCreate(w, f.(stage := Create));
        }
      }
    }
  }

  lemma {:induction false} SoloCreate(w: World, f: Flight)
    requires Fit(f) && f.stage.Create? && OrgsOf(w.tenant, f.command.input.userId) == {}
    requires ValidDisplayName(f.command.input.displayName, f.plan.letters)
    requires f.plan.At(TOKEN).Fine? && f.plan.At(LIST).Fine? && f.plan.At(FIND).Fine?
    requires !(f.command.input.userId in w.docs && w.docs[f.command.input.userId].journey.orgId != "")
    ensures Solo(w, f) == CreateOrganisationSpec(w, f.command.input, f.plan, f.now)
  {
    SoloStep(w, f);
    var (w1, s1) := Call(w, f);
    if s1.Member? {
      SoloMember(w1, f.(stage := s1));
      var user, org, plan := f.command.input.userId, f.plan.orgId, f.plan;
      if plan.At(MEMBER).Fine? && plan.At(ROLE).Fine? {
        SoloSetOrg(w1.(tenant := CreateOrgSpec(w.tenant, user, f.command.input.displayName, plan).0),
          f.(stage := SetOrg));
      }
    }
  }

  lemma {:induction false} SoloWrite(w: World, f: Flight)
    requires Fit(f) && f.stage.Write?
    ensures Solo(w, f) == Stored(w, OrgIn(f.command), f.stage.rec, f.now, f.plan.At(STORE))
  {
    SoloStep(w, f);
  }

  /** From the k-th call of a provider on. */
  lemma {:induction false} SoloPost(w: World, f: Flight)
    requires Fit(f) && f.stage.Post? && !KindOf(f.command).resource.Aws?
    ensures var r, org := KindOf(f.command).resource, OrgIn(f.command);
            var (v, a) := PostAll(w.vendors, Requests(r, org), f.stage.k, f.plan);
            Solo(w, f)
            == if !a.Done? then (w.(vendors := v), if a.Crashed? then Crashed else Erred)
               else Stored(w.(vendors := v), org, Listed(f.stage.read, r, org).rec, f.now, f.plan.At(STORE))
    decreases Left(f)
  {
    SoloStep(w, f);
    var (w', s) := Call(w, f);
    if s.Post? {
      SoloPost(w', f.(stage := s));
    } else if s.Write? {
      SoloWrite(w', f.(stage := s));
    }
  }

  lemma {:induction false} SoloKey(w: World, f: Flight)
    requires Fit(f) && f.stage.Post? && f.stage.k == 0 && KindOf(f.command).resource.Aws?
    ensures var org := OrgIn(f.command);
            var (v, a) := EnsureApiKeySpec(w.vendors, org, f.plan);
            Solo(w, f)
            == if !a.Done? then (w.(vendors := v), if a.Crashed? then Crashed else Erred)
               else Stored(w.(vendors := v), org, Listed(f.stage.read, Resource.Aws, a.value).rec, f.now,
                 f.plan.At(STORE))
  {
    SoloStep(w, f);
    var (w', s) := Call(w, f);
    if s.Post? {
      SoloStep(w', f.(stage := s));
      var (w2, s2) := Call(w', f.(stage := s));
      if s2.Write? {
        SoloWrite(w2, f.(stage := s2));
      }
    } else if s.Write? {
      SoloWrite(w', f.(stage := s));
    }
  }

  lemma {:induction false} SoloRecord(w: World, c: Command, plan: Plan, now: Time)
    requires KindOf(c).Provision? || KindOf(c).Completion?
    ensures Solo(w, Departure(c, plan, now))
         == if KindOf(c).Provision? then ProvisionSpec(w, KindOf(c).resource, c.input, plan, now)
            else CompleteProvisioningSpec(w, c.input, plan, now)
  {
    var f := Departure(c, plan, now);
    SoloStep(w, f);
    var s := Call(w, f).1;
    if s.Write? {
      SoloWrite(w, f.(stage := s));
    } else if s.Post? {
      if KindOf(c).resource.Aws? {
        SoloKey(w, f.(stage := s));
      } else {
        SoloPost(w, f.(stage := s));
      }
    }
  }

  /** An attempt whose calls follow one another undisturbed does to the world, and
      answers, what its activity does as a whole. */
  lemma {:induction false} SoloIsAttempt(w: World, c: Command, plan: Plan, now: Time)
    ensures Solo(w, Departure(c, plan, now)) == Attempt(w, c, plan, now)
  {
    match KindOf(c)
    case Single => SoloStep(w, Departure(c, plan, now));
    case Organisation => SoloOrganisation(w, c, plan, now);
    case Provision(_) => SoloRecord(w, c, plan, now);
    case Completion => SoloRecord(w, c, plan, now);
  }

  /** The place in the plan of an attempt's next call. */
  function Position(stage: Stage): nat
    requires !stage.Over?
  {
    match stage
    case Store => STORE
    case Find => FIND
    case Token => TOKEN
    case List => LIST
    case Create => CREATE
    case Member => MEMBER
    case Role => ROLE
    case Delete => DELETE
    case SetOrg => SET_ORG
    case EmailToken => EMAIL_TOKEN
    case EmailLookup => EMAIL_LOOKUP
    case Get => GET
    case Post(_, k) => FIRST_CALL + k
    case Write(_, _) => STORE
  }

  /** An attempt ends without reporting back exactly when its worker dies at the call. */
  lemma {:induction false} CrashesExactly(w: World, f: Flight)
    requires Fit(f) && !f.stage.Over? && !(f.stage.Store? && f.command.Act?)
    ensures Call(w, f).1 == Over(Crashed) <==> f.plan.At(Position(f.stage)).Kills()
  {
  }

  /** What a call stores is dated with the departure of the attempt, and a record's
      creation the first time only. */
  lemma {:induction false} CallDatesWhatItStores(w: World, f: Flight)
    requires Fit(f) && !f.stage.Over?
    ensures var w' := Call(w, f).0;
            && (forall u :: u in w'.docs && (u in w.docs ==> w'.docs[u] != w.docs[u]) ==> w'.docs[u].updatedAt == f.now)
            && (forall o :: o in w'.recs && (o in w.recs ==> w'.recs[o] != w.recs[o]) ==>
                  && w'.recs[o].updatedAt == f.now && f.stage.Write?
                  && w'.recs[o].createdAt
                     == if f.stage.rec.createdAt.Some? then f.stage.rec.createdAt else Some(f.now))
    ensures f.stage.Store? && f.command.Persist? && f.plan.At(STORE).Lands() ==>
              Call(w, f).0.docs == w.docs[f.command.journey.userId := Doc(f.command.journey, f.now)]
  {
  }
}
