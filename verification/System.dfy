/** The whole service for any number of users: runs on the server, attempts of their
    pending activities that advance call by call and so interleave across users, client
    calls, step requests that read and later act on a stale journey, and deployments of
    grown catalogs. */
module System {
  import opened Domain
  import opened Catalog
  import opened Executor
  import opened Replay
  import opened ReadModel
  import opened Faults
  import opened Stores
  import opened Auth0
  import opened Provisioning
  import opened Activities
  import opened Flights
  import opened Attempts
  import opened Retry
  import opened Server
  import opened Gate

  /** A step request between its first read and its decision. */
  datatype Ticket = Ticket(user: string, step: string, body: Body, doc: Option<Doc>)

  datatype Sys = Sys(
    catalog: Versions,
    verticals: set<string>,
    now: Time,
    runs: Runs,
    world: World,
    tickets: map<nat, Ticket>)

  /** `Depart` begins an attempt of a run's pending activity and `Proceed` makes its next
      call; the last one reports to the server. */
  datatype Move =
    | Tick(to: Time)
    | Deploy(catalog: Versions)
    | Reload(verticals: set<string>)
    | StartRun(user: string)
    | VerifyEmail(user: string)
    | RecordStep(user: string, step: string)
    | ReadState(id: nat, user: string, step: string, body: Body)
    | Conclude(id: nat)
    | Depart(user: string, plan: Plan)
    | Proceed(user: string)

  function DocOf(s: Sys, user: string): Option<Doc> {
    if user in s.world.docs then Some(s.world.docs[user]) else None
  }

  /** The activity an executor is blocked on. */
  function Pending(e: Exec): Command
    requires e.issued != []
  {
    e.issued[|e.issued| - 1]
  }

  predicate Busy(run: Run) {
    NeedsReply(run.live.exec) && run.live.exec.issued != []
  }

  /** An attempt is under way and its next call can be made. */
  predicate Flying(run: Run) {
    Busy(run) && run.flight.Some? && Fit(run.flight.value) && !run.flight.value.stage.Over?
  }

  /** Starts and signals always can; attempts of one activity do not overlap, and Auth0
      only hands out new ids. */
  predicate Can(s: Sys, m: Move) {
    match m
    case Tick(to) => s.now <= to
    case Deploy(c) => Extends(s.catalog, c)
    case Reload(_) => true
    case StartRun(_) => true
    case VerifyEmail(_) => true
    case RecordStep(_, _) => true
    case ReadState(_, _, _, _) => true
    case Conclude(id) => id in s.tickets
    case Depart(u, _) => u in s.runs && Busy(s.runs[u]) && s.runs[u].flight.None?
    case Proceed(u) =>
      && u in s.runs && Flying(s.runs[u])
      && (s.runs[u].flight.value.stage.Create? ==> CanMint(s.world.tenant, s.runs[u].flight.value.plan.orgId))
  }

  /** What the server records when an attempt is over: a result, the last failure, or a
      retry. */
  function Landed(c: Versions, run: Run, r: Result<Answer>, now: Time): (after: Run)
    requires Placed(StepsOf(c, run), run.live.exec) && Busy(run)
    ensures StepsOf(c, after) == StepsOf(c, run) && Placed(StepsOf(c, after), after.live.exec)
  {
    if r.Done? then
      Told(c, run.(tries := 0, flight := None), Replied(Success(r.value.orgId, r.value.email, now)))
    else if run.tries + 1 == MAXIMUM_ATTEMPTS then
      Told(c, run.(tries := 0, flight := None), Replied(Failure(now)))
    else
      run.(tries := run.tries + 1, flight := None)
  }

  /** Whether a flight's next call writes the run's document. */
  predicate Writes(f: Flight) {
    f.stage.Store? && f.command.Persist? && f.plan.At(STORE).Lands()
  }

  /** The run after its flight's next call. */
  function Advanced(c: Versions, run: Run, stage: Stage, now: Time): (after: Run)
    requires Placed(StepsOf(c, run), run.live.exec) && Flying(run)
    ensures StepsOf(c, after) == StepsOf(c, run) && Placed(StepsOf(c, after), after.live.exec)
  {
    var f := run.flight.value;
    var on := run.(persisted := run.persisted || Writes(f));
    if stage.Over? then Landed(c, on, stage.result, now) else on.(flight := Some(f.(stage := stage)))
  }

  /** The attempt that can make its next call, and that call. */
  function FlightOf(s: Sys, u: string): (f: Flight)
    requires Can(s, Proceed(u))
    ensures Fit(f) && !f.stage.Over? && f == s.runs[u].flight.value
  {
    s.runs[u].flight.value
  }

  function CallOf(s: Sys, u: string): (World, Stage)
    requires Can(s, Proceed(u))
  {
    Call(s.world, FlightOf(s, u))
  }

  function AfterDepart(s: Sys, u: string, plan: Plan): Sys
    requires Can(s, Depart(u, plan))
  {
    var run := s.runs[u];
    s.(runs := s.runs[u := run.(attempts := run.attempts + 1,
                                flight := Some(Departure(Pending(run.live.exec), plan, s.now)))])
  }

  function AfterProceed(s: Sys, u: string): Sys
    requires Runnable(s.catalog, s.runs) && Can(s, Proceed(u))
  {
    var (w, stage) := Call(s.world, s.runs[u].flight.value);
    s.(world := w, runs := s.runs[u := Advanced(s.catalog, s.runs[u], stage, s.now)])
  }

  /** Signal an open run; with none open the call fails and nothing changes. */
  function AfterSignal(s: Sys, u: string, channel: string, p: Payload): Sys
    requires Runnable(s.catalog, s.runs)
  {
    s.(runs := Signalling(s.catalog, s.runs, u, Message(channel, p, s.now)))
  }

  /** What a step request decides from the journey it read. */
  ghost function VerdictOf(s: Sys, t: Ticket): Verdict {
    Decide(s.catalog, s.verticals, StateOf(s.catalog, t.doc, t.user), t.step, t.body)
  }

  ghost function Next(s: Sys, m: Move): Sys
    requires Runnable(s.catalog, s.runs) && Can(s, m)
  {
    match m
    case Tick(to) => s.(now := to)
    case Deploy(c) => s.(catalog := c)
    case Reload(vs) => s.(verticals := vs)
    case StartRun(u) => s.(runs := WithRun(s.catalog, s.runs, u, s.now))
    case VerifyEmail(u) => AfterSignal(s, u, EMAIL_VERIFIED, NO_PAYLOAD)
    case RecordStep(u, step) =>
      AfterSignal(s.(runs := WithRun(s.catalog, s.runs, u, s.now)), u, step, NO_PAYLOAD)
    case ReadState(id, u, step, body) => s.(tickets := s.tickets[id := Ticket(u, step, body, DocOf(s, u))])
    case Conclude(id) =>
      var t := s.tickets[id];
      var verdict := VerdictOf(s, t);
      if verdict.Send? then AfterSignal(s, t.user, t.step, verdict.payload) else s
    case Depart(u, plan) => AfterDepart(s, u, plan)
    case Proceed(u) => AfterProceed(s, u)
  }

  /** A run is the live execution of its history under the steps of its pinned version;
      that version was the latest when the run was created and still has the same steps. */
  ghost predicate Faithful(c: Versions, u: string, run: Run) {
    var steps := StepsOf(c, run);
    && run.input == WorkflowInput(u, Latest(run.born))
    && CATALOG_VERSION in run.born && Extends(run.born, c)
    && Placed(steps, run.live.exec)
    && After(steps, Launch(steps, run.input, run.started), run.history) == Some(run.live)
  }

  /** No activity is tried more often than the policy allows. */
  predicate Metered(run: Run) {
    && run.tries < MAXIMUM_ATTEMPTS
    && (run.tries > 0 || run.flight.Some? ==> NeedsReply(run.live.exec))
    && run.attempts <= MAXIMUM_ATTEMPTS * run.live.exec.answered + run.tries + if run.flight.Some? then 1 else 0
  }

  ghost predicate RunOk(c: Versions, u: string, run: Run) {
    Faithful(c, u, run) && Metered(run)
  }

  /** How many steps of a run are past their action. */
  function Acted(e: Exec): nat {
    Recorded(e)
  }

  /** One of the first k steps creates the organisation. */
  predicate Organised(steps: seq<StepDef>, k: nat)
    requires k <= |steps|
  {
    exists f :: 0 <= f < k && steps[f].action == CREATE_ORGANISATION
  }

  /** Every resource acted on since there is an organisation is recorded for it. */
  predicate ProvisionedSoFar(steps: seq<StepDef>, e: Exec, recs: Records)
    requires Acted(e) <= |steps|
  {
    forall k :: 0 <= k < Acted(e) && ResourceOf(steps[k].action).Some? && Organised(steps, k) ==>
      && e.ctx.orgId in recs
      && KeyOf(ResourceOf(steps[k].action).value) in recs[e.ctx.orgId].resources
  }

  /** The executor is at a point where its last persist has answered. */
  predicate Settled(e: Exec) {
    !e.phase.Persisting? && !e.phase.Finalising?
  }

  /** How a run's view of the world and the world agree. */
  ghost predicate Anchored(w: World, steps: seq<StepDef>, u: string, e: Exec, persisted: bool)
    requires Placed(steps, e)
  {
    && (Settled(e) || e.index > 0 || e.journey.orgId != "" ==> persisted)
    && (persisted ==> u in w.docs && Matches(w.docs[u].journey, steps, e))
    && (Organised(steps, Acted(e)) ==> e.ctx.orgId != "")
    && ProvisionedSoFar(steps, e, w.recs)
  }

  /** The stored document is one of this run's: no further than the run itself, level
      with it once its last persist has answered, and with the run's org id. Only a
      creation whose answer is outstanding or was lost leaves the document ahead. */
  predicate Matches(d: Journey, steps: seq<StepDef>, e: Exec)
    requires Placed(steps, e)
  {
    && d.version == e.journey.version && d.startedAt == e.journey.startedAt
    && |d.steps| <= e.index && (Settled(e) ==> |d.steps| == e.index)
    && (e.journey.orgId != "" ==> d.orgId == e.journey.orgId)
    && (d.orgId != "" && e.journey.orgId == "" ==> e.phase.Acting? && steps[e.index].action == CREATE_ORGANISATION)
  }

  /** The attempt under way is one of the pending activity, and what it relies on holds. */
  predicate FlightOk(w: World, run: Run) {
    run.flight.Some? ==> Flying(run) && run.flight.value.command == Pending(run.live.exec) && Knows(w, run.flight.value)
  }

  /** Every stored document records a prefix of the catalog version it names. */
  ghost predicate StoredIsReadModel(c: Versions, u: string, d: Journey) {
    && d.userId == u && d.version in c && |d.steps| <= |Steps(c, d.version)|
    && IsReadModel(Steps(c, d.version), d, |d.steps|, d)
  }

  ghost predicate DocsAreReadModels(c: Versions, docs: Docs) {
    forall u :: u in docs ==> StoredIsReadModel(c, u, docs[u].journey)
  }

  /** Each completion of provisioning comes after all four resources, and these after the
      organisation. */
  predicate CompletesLast(steps: seq<StepDef>) {
    forall i, r: Resource :: 0 <= i < |steps| && steps[i].action == COMPLETE_PROVISIONING ==> Preceded(steps, i, r)
  }

  /** A step before the i-th provisions r for an organisation created earlier. */
  predicate Preceded(steps: seq<StepDef>, i: nat, r: Resource)
    requires i <= |steps|
  {
    exists k :: 0 <= k < i && ResourceOf(steps[k].action) == Some(r) && Organised(steps, k)
  }

  predicate AllCompleteLast(c: Versions) {
    forall v :: v in c ==> CompletesLast(c[v])
  }

  /** The record is not marked completed, or lists every resource. */
  predicate Sound(rec: Record) {
    rec.completed ==> forall r: Resource :: KeyOf(r) in rec.resources
  }

  predicate NoFalseCompletion(recs: Records) {
    forall o :: o in recs ==> Sound(recs[o])
  }

  /** Nor is the record that an attempt has in hand. */
  predicate SoundFlight(run: Run) {
    run.flight.Some? ==>
      match run.flight.value.stage
      case Post(read, _) => Sound(read)
      case Write(_, rec) => Sound(rec)
      case _ => true
  }

  /** Attempts that have made an organisation have made different ones. */
  predicate FlightsDiffer(runs: Runs) {
    forall u, v :: u in runs && v in runs && u != v && runs[u].flight.Some? && runs[v].flight.Some?
                   && Making(runs[u].flight.value.stage) && Making(runs[v].flight.value.stage) ==>
                     runs[u].flight.value.plan.orgId != runs[v].flight.value.plan.orgId
  }

  /** A ticket holds a document that was stored when it was read. */
  ghost predicate TicketOk(c: Versions, t: Ticket) {
    t.doc.Some? ==> StoredIsReadModel(c, t.user, t.doc.value.journey)
  }

  ghost predicate RunAnchored(c: Versions, w: World, u: string, run: Run)
    requires Faithful(c, u, run)
  {
    Anchored(w, StepsOf(c, run), u, run.live.exec, run.persisted) && FlightOk(w, run)
  }

  ghost predicate RunSound(c: Versions, w: World, u: string, run: Run) {
    RunOk(c, u, run) && RunAnchored(c, w, u, run)
  }

  ghost predicate RunsSound(c: Versions, w: World, runs: Runs) {
    forall u :: u in runs ==> RunSound(c, w, u, runs[u])
  }

  predicate NothingFalse(s: Sys) {
    NoFalseCompletion(s.world.recs) && forall u :: u in s.runs ==> SoundFlight(s.runs[u])
  }

  /** The invariant of the whole service. */
  ghost predicate Inv(s: Sys) {
    && CATALOG_VERSION in s.catalog
    && Consistent(s.world)
    && DocsAreReadModels(s.catalog, s.world.docs)
    && (AllCompleteLast(s.catalog) ==> NothingFalse(s))
    && FlightsDiffer(s.runs)
    && (forall id :: id in s.tickets ==> TicketOk(s.catalog, s.tickets[id]))
    && RunsSound(s.catalog, s.world, s.runs)
  }

  /** Nobody has come yet. The tenant may hold organisations from elsewhere. */
  ghost predicate Initial(s: Sys) {
    && CATALOG_VERSION in s.catalog
    && s.runs == map[] && s.tickets == map[] && s.world.docs == map[] && s.world.recs == map[]
    && OneOrgEach(s.world.tenant) && NoDuplicates(s.world.vendors) && Supported(s.world.vendors)
  }
}
