/** The Temporal server as the service uses it, and the service's Starter: one open run
    per user, starts that use the existing run, and signals buffered by the run. */
module Server {
  import opened Domain
  import opened Catalog
  import opened Executor
  import opened Faults
  import opened Flights
  import opened Replay

  /** One run. `born` is the catalog in force when it was created, `tries` counts the
      failed attempts of the pending activity and `attempts` all attempts begun so far,
      `persisted` says whether the run has written its document yet, and `flight` is the
      attempt under way. */
  datatype Run = Run(
    input: WorkflowInput,
    started: Time,
    born: Versions,
    history: seq<Event>,
    live: Live,
    tries: nat,
    attempts: nat,
    persisted: bool,
    flight: Option<Flight>)

  /** The latest run of each user. */
  type Runs = map<string, Run>

  predicate Open(run: Run) {
    !run.live.exec.failed && !run.live.exec.phase.Finished?
  }

  predicate IsOpen(runs: Runs, user: string) {
    user in runs && Open(runs[user])
  }

  function StepsOf(c: Versions, run: Run): seq<StepDef> {
    Steps(c, PinnedVersion(run.input))
  }

  predicate Runnable(c: Versions, runs: Runs) {
    forall u :: u in runs ==> Placed(StepsOf(c, runs[u]), runs[u].live.exec)
  }

  ghost function NewRun(c: Versions, user: string, now: Time): (run: Run)
    ensures Placed(StepsOf(c, run), run.live.exec)
  {
    var input := WorkflowInput(user, Latest(c));
    Run(input, now, c, [], Launch(Steps(c, PinnedVersion(input)), input, now), 0, 0, false, None)
  }

  /** Start a run unless one is open. */
  ghost function WithRun(c: Versions, runs: Runs, user: string, now: Time): (after: Runs)
    requires Runnable(c, runs)
    ensures Runnable(c, after) && IsOpen(after, user)
  {
    if IsOpen(runs, user) then runs else runs[user := NewRun(c, user, now)]
  }

  function Told(c: Versions, run: Run, e: Event): (after: Run)
    requires Placed(StepsOf(c, run), run.live.exec) && Enabled(run.live, e)
    ensures StepsOf(c, after) == StepsOf(c, run) && Placed(StepsOf(c, after), after.live.exec)
  {
    run.(history := run.history + [e], live := React(StepsOf(c, run), run.live, e))
  }

  /** Add a signal to an open run. */
  function WithSignal(c: Versions, runs: Runs, user: string, m: Message): (after: Runs)
    requires Runnable(c, runs) && IsOpen(runs, user)
    ensures Runnable(c, after) && after.Keys == runs.Keys
  {
    runs[user := Told(c, runs[user], Event.Signalled(m))]
  }

  /** Signal the user's run if it is open. */
  function Signalling(c: Versions, runs: Runs, user: string, m: Message): (after: Runs)
    requires Runnable(c, runs)
    ensures Runnable(c, after) && after.Keys == runs.Keys
  {
    if IsOpen(runs, user) then WithSignal(c, runs, user, m) else runs
  }

  class TemporalClient {
    var runs: Runs

    constructor ()
      ensures runs == map[]
    {
      runs := map[];
    }

    /** What the server and its other clients do between two calls of this one. */
    method MoveOn(later: Runs)
      modifies this
      ensures runs == later
    {
      runs := later;
    }

    /** Start with the use-existing policy: the input counts only for a new run. */
    method ExecuteWorkflow(cache: CatalogCache, user: string, input: WorkflowInput, now: Time, f: Fault)
      returns (ok: bool)
      requires Runnable(cache.versions, runs)
      requires input == WorkflowInput(user, Latest(cache.versions))
      modifies this
      ensures runs == if f.Lands() then WithRun(cache.versions, old(runs), user, now) else old(runs)
      ensures ok == f.Fine?
    {
      if f.Lands() && (user !in runs || !Open(runs[user])) {
        var steps := Steps(cache.versions, PinnedVersion(input));
        runs := runs[user := Run(input, now, cache.versions, [], Launch(steps, input, now), 0, 0, false, None)];
      }
      ok := f.Fine?;
    }

    /** Signal the open run, or report that there is none or that the call failed. */
    method SignalWorkflow(cache: CatalogCache, user: string, m: Message, f: Fault) returns (ok: bool)
      requires Runnable(cache.versions, runs)
      modifies this
      ensures runs == if f.Lands() then Signalling(cache.versions, old(runs), user, m) else old(runs)
      ensures ok == (f.Fine? && old(IsOpen(runs, user)))
    {
      var found := user in runs && Open(runs[user]);
      if f.Lands() && found {
        runs := runs[user := Told(cache.versions, runs[user], Event.Signalled(m))];
      }
      ok := f.Fine? && found;
    }

    /** Start if absent and signal, as one operation. */
    method SignalWithStart(cache: CatalogCache, user: string, m: Message, input: WorkflowInput, now: Time, f: Fault)
      returns (ok: bool)
      requires Runnable(cache.versions, runs)
      requires input == WorkflowInput(user, Latest(cache.versions))
      modifies this
      ensures runs == if f.Lands() then
              WithSignal(cache.versions, WithRun(cache.versions, old(runs), user, now), user, m)
                      else old(runs)
      ensures ok == f.Fine?
    {
      if f.Lands() {
        var started := ExecuteWorkflow(cache, user, input, now, Fine);
        var sent := SignalWorkflow(cache, user, m, Fine);
      }
      ok := f.Fine?;
    }
  }

  const NO_PAYLOAD := Payload("", "", "")

  class Starter {
    const client: TemporalClient
    const cache: CatalogCache

    constructor (client: TemporalClient, cache: CatalogCache)
      ensures this.client == client && this.cache == cache
    {
      this.client, this.cache := client, cache;
    }

    method Start(user: string, now: Time, order: seq<int>, f: Fault) returns (ok: bool)
      requires Runnable(cache.versions, client.runs) && Ranges(order, cache.versions)
      modifies client
      ensures client.runs == if f.Lands() then WithRun(cache.versions, old(client.runs), user, now)
              else old(client.runs)
      ensures ok == f.Fine?
    {
      var latest := cache.LatestVersion(order);
      ok := client.ExecuteWorkflow(cache, user, WorkflowInput(user, latest), now, f);
    }

    /** The internal endpoint's call: start if absent, and signal without a payload. */
    method SubmitStep(user: string, step: string, now: Time, order: seq<int>, f: Fault) returns (ok: bool)
      requires Runnable(cache.versions, client.runs) && Ranges(order, cache.versions)
      modifies client
      ensures var m := Message(step, NO_PAYLOAD, now);
              client.runs == if f.Lands() then
                WithSignal(cache.versions, WithRun(cache.versions, old(client.runs), user, now), user, m)
                             else old(client.runs)
      ensures ok == f.Fine?
    {
      var latest := cache.LatestVersion(order);
      ok := client.SignalWithStart(cache, user, Message(step, NO_PAYLOAD, now), WorkflowInput(user, latest), now, f);
    }

    method SignalEmailVerified(user: string, now: Time, f: Fault) returns (ok: bool)
      requires Runnable(cache.versions, client.runs)
      modifies client
      ensures var m := Message(EMAIL_VERIFIED, NO_PAYLOAD, now);
              client.runs == if f.Lands() then Signalling(cache.versions, old(client.runs), user, m)
                else old(client.runs)
      ensures ok == (f.Fine? && old(IsOpen(client.runs, user)))
    {
      ok := client.SignalWorkflow(cache, user, Message(EMAIL_VERIFIED, NO_PAYLOAD, now), f);
    }

    /** Signal a step of an existing run; never starts one. */
    method SignalStep(user: string, step: string, payload: Payload, now: Time, f: Fault) returns (ok: bool)
      requires Runnable(cache.versions, client.runs)
      modifies client
      ensures var m := Message(step, payload, now);
              client.runs == if f.Lands() then Signalling(cache.versions, old(client.runs), user, m)
                else old(client.runs)
      ensures ok == (f.Fine? && old(IsOpen(client.runs, user)))
    {
      ok := client.SignalWorkflow(cache, user, Message(step, payload, now), f);
    }
  }
}
