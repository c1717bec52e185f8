/** The activities the executor dispatches, each attempt of which reads and writes the
    stores and the outside systems call by call. */
module Activities {
  import opened Domain
  import opened Catalog
  import opened Faults
  import opened Stores
  import opened Auth0
  import opened Provisioning

  /** Everything an attempt can change. */
  datatype World = World(docs: Docs, recs: Records, tenant: Tenant, vendors: Vendors)

  /** Positions in a plan of the calls made by the activities themselves. */
  const FIND := 0
  const SET_ORG := 7
  const EMAIL_TOKEN := 8
  const EMAIL_LOOKUP := 9
  const GET := 0
  const STORE := 8

  /** The email lookup is best effort: only a crash stops the attempt. */
  function EmailSpec(org: string, plan: Plan): Result<Answer> {
    if plan.At(EMAIL_TOKEN).Kills() then Crashed
    else if !plan.At(EMAIL_TOKEN).Fine? then Done(Answer(org, ""))
    else if plan.At(EMAIL_LOOKUP).Kills() then Crashed
    else if !plan.At(EMAIL_LOOKUP).Fine? then Done(Answer(org, ""))
    else Done(Answer(org, plan.email))
  }

  function CreateOrganisationSpec(w: World, input: ActionInput, plan: Plan, now: Time): (World, Result<Answer>) {
    var user := input.userId;
    if !plan.At(FIND).Fine? then (w, Stop(plan.At(FIND)))
    else if user in w.docs && w.docs[user].journey.orgId != "" then (w, Done(Answer(w.docs[user].journey.orgId, "")))
    else
      var (t, r) := CreateOrgSpec(w.tenant, user, input.displayName, plan);
      var w1 := w.(tenant := t);
      if !r.Done? then (w1, if r.Crashed? then Crashed else Erred)
      else
        var f := plan.At(SET_ORG);
        var w2 := if f.Lands() then w1.(docs := WithOrgId(w.docs, user, r.value, now)) else w1;
        (w2, if f.Fine? then EmailSpec(r.value, plan) else Stop(f))
  }

  function RecordOf(recs: Records, org: string): Record {
    if org in recs then recs[org] else Record(false, map[], None, 0)
  }

  function Stored(w: World, org: string, rec: Record, now: Time, f: Fault): (World, Result<Answer>) {
    (if f.Lands() then w.(recs := w.recs[org := Stamped(rec, now)]) else w,
     if f.Fine? then Done(Answer("", "")) else Stop(f))
  }

  function ProvisionSpec(w: World, r: Resource, input: ActionInput, plan: Plan, now: Time): (World, Result<Answer>) {
    var rec := RecordOf(w.recs, input.orgId);
    if !plan.At(GET).Fine? then (w, Stop(plan.At(GET)))
    else if KeyOf(r) in rec.resources then (w, Done(Answer("", "")))
    else
      var (v, a) := ProviderSpec(w.vendors, r, input.orgId, plan);
      var w1 := w.(vendors := v);
      if !a.Done? then (w1, if a.Crashed? then Crashed else Erred)
      else Stored(w1, input.orgId, rec.(resources := rec.resources[KeyOf(r) := a.value]), now, plan.At(STORE))
  }

  function CompleteProvisioningSpec(w: World, input: ActionInput, plan: Plan, now: Time): (World, Result<Answer>) {
    if !plan.At(GET).Fine? then (w, Stop(plan.At(GET)))
    else Stored(w, input.orgId, RecordOf(w.recs, input.orgId).(completed := true), now, plan.At(STORE))
  }

  function PersistSpec(w: World, j: Journey, plan: Plan, now: Time): (World, Result<Answer>) {
    var f := plan.At(STORE);
    (if f.Lands() then w.(docs := Replaced(w.docs, j, now)) else w, if f.Fine? then Done(Answer("", "")) else Stop(f))
  }

  function ResourceOf(action: string): Option<Resource> {
    if action == ACT_KONG then Some(Resource.Kong)
    else if action == ACT_AWS then Some(Resource.Aws)
    else if action == ACT_SVIX then Some(Resource.Svix)
    else if action == ACT_LAGO then Some(Resource.Lago)
    else None
  }

  /** One attempt of a command. An action nothing handles fails. */
  function Attempt(w: World, c: Command, plan: Plan, now: Time): (World, Result<Answer>) {
    match c
    case Persist(j) => PersistSpec(w, j, plan, now)
    case Emit(_) => (w, if plan.At(STORE).Fine? then Done(Answer("", "")) else Stop(plan.At(STORE)))
    case Act(action, input) =>
      if action == CREATE_ORGANISATION then CreateOrganisationSpec(w, input, plan, now)
      else if ResourceOf(action).Some? then ProvisionSpec(w, ResourceOf(action).value, input, plan, now)
      else if action == COMPLETE_PROVISIONING then CompleteProvisioningSpec(w, input, plan, now)
      else (w, Erred)
  }

  class Activities {
    const journeys: JourneyRepo
    const records: ProvisioningRecordRepo
    const orgCreator: HTTPOrgCreator
    const provisioner: HTTPProvisioner

    constructor (journeys: JourneyRepo, records: ProvisioningRecordRepo, orgCreator: HTTPOrgCreator,
                 provisioner: HTTPProvisioner)
      ensures this.journeys == journeys && this.records == records
      ensures this.orgCreator == orgCreator && this.provisioner == provisioner
    {
      this.journeys, this.records, this.orgCreator, this.provisioner := journeys, records, orgCreator, provisioner;
    }

    ghost function Snapshot(): World
      reads journeys, records, orgCreator.client, provisioner.client
    {
      World(journeys.docs, records.recs, orgCreator.client.tenant, provisioner.client.vendors)
    }

    method PersistJourneyState(j: Journey, plan: Plan, now: Time) returns (r: Result<Answer>)
      modifies journeys
      ensures (Snapshot(), r) == PersistSpec(old(Snapshot()), j, plan, now)
    {
      var stored := journeys.Upsert(j, now, plan.At(STORE));
      r := Reported(stored);
    }

    function Reported(r: Result<()>): Result<Answer> {
      match r
      case Done(_) => Done(Answer("", ""))
      case Erred => Erred
      case Crashed => Crashed
    }

    /** Create the user's organisation, or answer with the one already stored. */
    method CreateOrganisation(input: ActionInput, plan: Plan, now: Time) returns (r: Result<Answer>)
      modifies journeys, orgCreator.client
      ensures (Snapshot(), r) == CreateOrganisationSpec(old(Snapshot()), input, plan, now)
    {
      var existing := journeys.FindByUserID(input.userId, plan.At(FIND));
      if !existing.Done? {
        return if existing.Crashed? then Crashed else Erred;
      }
      if existing.value.Some? && existing.value.value.journey.orgId != "" {
        return Done(Answer(existing.value.value.journey.orgId, ""));
      }
      var created := orgCreator.CreateOrganisation(input.userId, input.displayName, plan);
      if !created.Done? {
        return if created.Crashed? then Crashed else Erred;
      }
      var orgId := created.value;
      var kept := journeys.SetOrgID(input.userId, orgId, now, plan.At(SET_ORG));
      if !kept.Done? {
        return if kept.Crashed? then Crashed else Erred;
      }
      var email := UserEmail(plan);
      if email.Crashed? {
        return Crashed;
      }
      r := Done(Answer(orgId, if email.Done? then email.value else ""));
    }

    method UserEmail(plan: Plan) returns (r: Result<string>)
      ensures r == if !plan.At(EMAIL_TOKEN).Fine? then Stop(plan.At(EMAIL_TOKEN))
                   else if !plan.At(EMAIL_LOOKUP).Fine? then Stop(plan.At(EMAIL_LOOKUP))
                   else Done(plan.email)
    {
      if !plan.At(EMAIL_TOKEN).Fine? {
        return Stop(plan.At(EMAIL_TOKEN));
      }
      r := if plan.At(EMAIL_LOOKUP).Fine? then Done(plan.email) else Stop(plan.At(EMAIL_LOOKUP));
    }

    /** Provision one resource, unless the record already lists it. */
    method Provision(resource: Resource, input: ActionInput, plan: Plan, now: Time) returns (r: Result<Answer>)
      modifies records, provisioner.client
      ensures (Snapshot(), r) == ProvisionSpec(old(Snapshot()), resource, input, plan, now)
    {
      var got := records.GetByOrgID(input.orgId, plan.At(GET));
      if !got.Done? {
        return if got.Crashed? then Crashed else Erred;
      }
      var rec := if got.value.Some? then got.value.value else Record(false, map[], None, 0);
      if KeyOf(resource) in rec.resources {
        return Done(Answer("", ""));
      }
      var made: Result<string>;
      match resource {
        case Kong => made := provisioner.Kong(input.orgId, plan);
        case Aws => made := provisioner.EnsureApiKey(input.orgId, plan);
        case Svix => made := provisioner.Svix(input.orgId, plan);
        case Lago => made := provisioner.Lago(input.orgId, plan);
      }
      if !made.Done? {
        return if made.Crashed? then Crashed else Erred;
      }
      rec := rec.(resources := rec.resources[KeyOf(resource) := made.value]);
      var stored := records.Upsert(input.orgId, rec, now, plan.At(STORE));
      r := Reported(stored);
    }

    /** Mark the record completed, whatever it lists. */
    method CompleteProvisioning(input: ActionInput, plan: Plan, now: Time) returns (r: Result<Answer>)
      modifies records
      ensures (Snapshot(), r) == CompleteProvisioningSpec(old(Snapshot()), input, plan, now)
    {
      var got := records.GetByOrgID(input.orgId, plan.At(GET));
      if !got.Done? {
        return if got.Crashed? then Crashed else Erred;
      }
      var rec := if got.value.Some? then got.value.value else Record(false, map[], None, 0);
      rec := rec.(completed := true);
      var stored := records.Upsert(input.orgId, rec, now, plan.At(STORE));
      r := Reported(stored);
    }
  }
}
