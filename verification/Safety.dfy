/** The invariant of the whole service holds in every reachable state. */
module Safety {
  import opened Domain
  import opened Catalog
  import opened Executor
  import opened Replay
  import opened ReadModel
  import opened Faults
  import opened Stores
  import opened Auth0
  import opened Provisioning
  import opened Activities
  import opened Flights
  import opened Attempts
  import opened Retry
  import opened Server
  import opened Gate
  import opened System

  /** A run's executor is orderly: it is what the workflow function makes of the
      recorded history. */
  lemma {:induction false} RunIsOrderly(c: Versions, u: string, run: Run)
    requires Faithful(c, u, run)
    ensures Orderly(StepsOf(c, run), FreshJourney(run.input, run.started), run.live.exec)
    ensures PinnedVersion(run.input) == run.input.version && run.input.version in c
  {
    var steps := StepsOf(c, run);
    ReplayMatchesLive(steps, run.input, run.started, run.history);
    OutcomeOrderly(steps, run.input, run.started, Replies(run.history), Signals(run.history));
  }

  lemma {:induction false} ActionsDiffer()
    ensures ResourceOf(CREATE_ORGANISATION) == None
    ensures ResourceOf(COMPLETE_PROVISIONING) == None && ResourceOf("") == None
    ensures CREATE_ORGANISATION != COMPLETE_PROVISIONING && CREATE_ORGANISATION != ""
  {
    assert CREATE_ORGANISATION[0] == 'C' && CREATE_ORGANISATION[1] == 'r';
    assert COMPLETE_PROVISIONING[0] == 'C' && COMPLETE_PROVISIONING[1] == 'o';
    assert ACT_KONG[0] == 'P' && ACT_AWS[0] == 'P' && ACT_SVIX[0] == 'P' && ACT_LAGO[0] == 'P';
  }

  lemma {:induction false} OrganisedGrows(steps: seq<StepDef>, i: nat, k: nat)
    requires i <= k <= |steps| && (forall f :: i <= f < k ==> steps[f].action != CREATE_ORGANISATION)
    ensures Organised(steps, i) <==> Organised(steps, k)
  {
  }

  lemma {:induction false} MessageAnchored(w: World, steps: seq<StepDef>, u: string, e: Exec, persisted: bool,
                                           m: Message)
    requires Placed(steps, e) && NeedsSignal(e)
    requires Anchored(w, steps, u, e, persisted)
    ensures Anchored(w, steps, u, OnMessage(steps, e, m), persisted)
  {
    ActionsDiffer();
    if steps[e.index].action == "" {
      OrganisedGrows(steps, e.index, e.index + 1);
    }
  }

  lemma {:induction false} SettleAnchored(w: World, steps: seq<StepDef>, u: string, l: Live, persisted: bool)
    requires Placed(steps, l.exec) && Anchored(w, steps, u, l.exec, persisted)
    ensures Anchored(w, steps, u, Settle(steps, l).exec, persisted)
  {
    if NeedsSignal(l.exec) && Box(l.boxes, steps[l.exec.index].signal) != [] {
      MessageAnchored(w, steps, u, l.exec, persisted, Box(l.boxes, steps[l.exec.index].signal)[0]);
    }
  }

  /** What the world must say when the pending activity answers r. */
  ghost predicate Backed(w: World, steps: seq<StepDef>, u: string, e: Exec, persisted: bool, r: Reply)
    requires Placed(steps, e)
  {
    r.Success? ==>
      && ((e.phase.Persisting? || e.phase.Finalising?) ==> persisted && u in w.docs && w.docs[u].journey == e.journey)
      && (e.phase.Acting? && steps[e.index].action == CREATE_ORGANISATION ==>
            r.orgId != "" && u in w.docs && w.docs[u].journey.orgId == r.orgId)
      && (e.phase.Acting? && steps[e.index].action != CREATE_ORGANISATION ==> r.orgId == "")
      && (e.phase.Acting? && ResourceOf(steps[e.index].action).Some? ==>
            e.ctx.orgId in w.recs && KeyOf(ResourceOf(steps[e.index].action).value) in w.recs[e.ctx.orgId].resources)
  }

  /** An action that answers moves the run past it. */
  lemma {:induction false} ActionAnchored(w: World, steps: seq<StepDef>, u: string, e: Exec, persisted: bool, r: Reply)
    requires Placed(steps, e) && NeedsReply(e) && e.phase.Acting? && r.Success? && e.ctx.orgId == e.journey.orgId
    requires Anchored(w, steps, u, e, persisted) && Backed(w, steps, u, e, persisted, r)
    ensures Anchored(w, steps, u, OnReply(steps, e, r), persisted)
  {
    ActionsDiffer();
    var t := OnReply(steps, e, r);
    if steps[e.index].action != CREATE_ORGANISATION {
      OrganisedGrows(steps, e.index, e.index + 1);
    }
    assert e.ctx.orgId != "" ==> t.ctx.orgId == e.ctx.orgId;
    forall k | 0 <= k < Acted(t) && ResourceOf(steps[k].action).Some? && Organised(steps, k)
      ensures t.ctx.orgId in w.recs && KeyOf(ResourceOf(steps[k].action).value) in w.recs[t.ctx.orgId].resources
    {
      assert Organised(steps, e.index);
    }
  }

  /** A persist that answers lets the run into the step. */
  lemma {:induction false} PersistAnchored(w: World, steps: seq<StepDef>, blank: Journey, u: string, e: Exec,
                                           persisted: bool, r: Reply)
    requires Orderly(steps, blank, e) && NeedsReply(e) && e.phase.Persisting? && r.Success?
    requires Anchored(w, steps, u, e, persisted) && Backed(w, steps, u, e, persisted, r)
    ensures Anchored(w, steps, u, OnReply(steps, e, r), persisted)
  {
    ActionsDiffer();
    if steps[e.index].signal == "" && steps[e.index].action == "" {
      OrganisedGrows(steps, e.index, e.index + 1);
    }
  }

  lemma {:induction false} ReplyAnchored(w: World, steps: seq<StepDef>, blank: Journey, u: string, e: Exec,
                                         persisted: bool, r: Reply)
    requires Orderly(steps, blank, e) && NeedsReply(e)
    requires Anchored(w, steps, u, e, persisted) && Backed(w, steps, u, e, persisted, r)
    ensures Anchored(w, steps, u, OnReply(steps, e, r), persisted)
  {
    if e.phase.Acting? && r.Success? {
      ActionAnchored(w, steps, u, e, persisted, r);
    } else if e.phase.Persisting? && r.Success? {
      PersistAnchored(w, steps, blank, u, e, persisted, r);
    }
  }

  /** The pending activity of a run, by phase. */
  lemma {:induction false} PendingIs(steps: seq<StepDef>, blank: Journey, e: Exec)
    requires Orderly(steps, blank, e) && NeedsReply(e)
    ensures e.issued != []
    ensures match e.phase
            case Acting => Pending(e) == Act(steps[e.index].action, InputOf(e))
            case Emitting => Pending(e).Emit? && Pending(e).event.userId == blank.userId
            case _ => Pending(e) == Persist(e.journey)
  {
    LastCommand(steps, blank, e);
    var slots := Opened(steps, e);
    assert Fits(steps, blank, e.issued[|e.issued| - 1], slots[|slots| - 1]);
  }

  /** The pending command is for the run's user, and names no organisation but the one
      on the user's journey. */
  lemma {:induction false} PendingIsProper(w: World, steps: seq<StepDef>, blank: Journey, e: Exec, persisted: bool)
    requires Orderly(steps, blank, e) && NeedsReply(e) && Anchored(w, steps, blank.userId, e, persisted)
    ensures e.issued != [] && UserOf(Pending(e)) == blank.userId
    ensures Proper(w, Pending(e)) && HasOrg(w.docs, blank.userId, OrgIn(Pending(e)))
  {
    PendingIs(steps, blank, e);
  }

  /** An attempt that departs knows what it needs to. */
  lemma {:induction false} DepartureKnows(w: World, steps: seq<StepDef>, blank: Journey, e: Exec, persisted: bool,
                                          plan: Plan, now: Time)
    requires Orderly(steps, blank, e) && NeedsReply(e) && Anchored(w, steps, blank.userId, e, persisted)
    ensures e.issued != [] && Knows(w, Departure(Pending(e), plan, now))
  {
    PendingIsProper(w, steps, blank, e, persisted);
  }

  /** A call of its own pending activity keeps the run anchored. */
  lemma {:induction false} CallAnchored(w: World, steps: seq<StepDef>, blank: Journey, e: Exec, persisted: bool,
                                        f: Flight)
    requires Orderly(steps, blank, e) && NeedsReply(e) && e.issued != [] && f.command == Pending(e)
    requires Consistent(w) && Anchored(w, steps, blank.userId, e, persisted)
    requires Fit(f) && !f.stage.Over? && Knows(w, f) && (f.stage.Create? ==> CanMint(w.tenant, f.plan.orgId))
    ensures Anchored(Call(w, f).0, steps, blank.userId, e, persisted || Writes(f))
  {
    PendingIs(steps, blank, e);
    match KindOf(f.command)
    case Single =>
    case Organisation => TenantCallIsSafe(w, f);
    case Provision(_) => RecordCallAnchored(w, steps, blank, e, persisted, f);
    case Completion => RecordCallAnchored(w, steps, blank, e, persisted, f);
  }

  lemma {:induction false} RecordCallAnchored(w: World, steps: seq<StepDef>, blank: Journey, e: Exec, persisted: bool,
                                              f: Flight)
    requires Orderly(steps, blank, e) && NeedsReply(e) && e.issued != [] && f.command == Pending(e)
    requires Anchored(w, steps, blank.userId, e, persisted)
    requires Fit(f) && !f.stage.Over? && Knows(w, f) && (KindOf(f.command).Provision? || KindOf(f.command).Completion?)
    ensures Anchored(Call(w, f).0, steps, blank.userId, e, persisted)
  {
    PendingIs(steps, blank, e);
    var w' := Call(w, f).0;
    forall k | 0 <= k < Acted(e) && ResourceOf(steps[k].action).Some? && Organised(steps, k)
      ensures e.ctx.orgId in w'.recs && KeyOf(ResourceOf(steps[k].action).value) in w'.recs[e.ctx.orgId].resources
    {
      assert Organised(steps, Acted(e));
    }
  }

  /** When the attempt answers, the world backs the answer. */
  lemma {:induction false} AnswerIsBacked(w: World, steps: seq<StepDef>, blank: Journey, e: Exec, persisted: bool,
                                          f: Flight, now: Time)
    requires Orderly(steps, blank, e) && NeedsReply(e) && e.issued != [] && f.command == Pending(e)
    requires f.stage.Over? && f.stage.result.Done? && Answered(w, f.command, f.stage.result.value)
    requires f.command.Persist? ==> persisted
    ensures Backed(w, steps, blank.userId, e, persisted,
            Success(f.stage.result.value.orgId, f.stage.result.value.email, now))
  {
    PendingIs(steps, blank, e);
    ActionsDiffer();
  }

  /** Another user's call leaves a run anchored. */
  lemma {:induction false} OthersAnchored(w: World, w': World, f: Flight, steps: seq<StepDef>, blank: Journey, e: Exec,
                                          persisted: bool)
    requires Orderly(steps, blank, e) && Anchored(w, steps, blank.userId, e, persisted)
    requires Consistent(w) && Spares(w, w', f) && UserOf(f.command) != blank.userId
    ensures Anchored(w', steps, blank.userId, e, persisted)
  {
    RecordStays(w, w', f, blank.userId, e.ctx.orgId);
    forall k | 0 <= k < Acted(e) && ResourceOf(steps[k].action).Some? && Organised(steps, k)
      ensures e.ctx.orgId in w'.recs && KeyOf(ResourceOf(steps[k].action).value) in w'.recs[e.ctx.orgId].resources
    {
      assert Organised(steps, Acted(e));
    }
  }

  /** Executors only ever answer more activities. */
  lemma {:induction false} ReactCounts(steps: seq<StepDef>, l: Live, e: Event)
    requires Placed(steps, l.exec) && Enabled(l, e)
    ensures React(steps, l, e).exec.answered == l.exec.answered + if e.Replied? then 1 else 0
    ensures e.Signalled? && NeedsReply(l.exec) ==> React(steps, l, e).exec == l.exec
  {
  }

  lemma {:induction false} ToldFaithful(c: Versions, u: string, run: Run, e: Event)
    requires Faithful(c, u, run) && Enabled(run.live, e)
    ensures Faithful(c, u, Told(c, run, e))
  {
    assert (run.history + [e])[..|run.history|] == run.history;
  }

  lemma {:induction false} ToldMetered(c: Versions, run: Run, e: Event)
    requires Placed(StepsOf(c, run), run.live.exec) && Enabled(run.live, e)
    requires if e.Replied? then run.tries == 0 && run.flight == None
             && run.attempts <= MAXIMUM_ATTEMPTS * (run.live.exec.answered + 1)
             else Metered(run)
    ensures Metered(Told(c, run, e))
  {
    ReactCounts(StepsOf(c, run), run.live, e);
  }

  lemma {:induction false} ToldAnchored(w: World, c: Versions, u: string, run: Run, e: Event, persisted: bool)
    requires Faithful(c, u, run) && Enabled(run.live, e)
    requires Anchored(w, StepsOf(c, run), u, run.live.exec, persisted)
    requires e.Replied? ==> Backed(w, StepsOf(c, run), u, run.live.exec, persisted, e.reply)
    ensures Anchored(w, StepsOf(c, run), u, Told(c, run, e).live.exec, persisted)
  {
    var steps := StepsOf(c, run);
    match e
    case Replied(r) =>
      RunIsOrderly(c, u, run);
      ReplyAnchored(w, steps, FreshJourney(run.input, run.started), u, run.live.exec, persisted, r);
      SettleAnchored(w, steps, u, run.live.(exec := OnReply(steps, run.live.exec, r)), persisted);
    case Signalled(m) =>
      SettleAnchored(w, steps, u, run.live.(boxes := run.live.boxes[m.channel := Box(run.live.boxes, m.channel) + [m]]),
        persisted);
  }

  lemma {:induction false} NewRunOk(c: Versions, u: string, now: Time)
    requires CATALOG_VERSION in c
    ensures RunOk(c, u, NewRun(c, u, now))
  {
  }

  lemma {:induction false} NewRunAnchored(w: World, c: Versions, u: string, now: Time)
    requires CATALOG_VERSION in c
    ensures RunAnchored(c, w, u, NewRun(c, u, now))
  {
  }

  lemma {:induction false} GrowthKeepsRuns(c: Versions, c': Versions, u: string, run: Run)
    requires RunOk(c, u, run) && Extends(c, c')
    ensures StepsOf(c', run) == StepsOf(c, run) && RunOk(c', u, run)
  {
    RunIsOrderly(c, u, run);
  }

  /** A run whose flight is over, before the server is told. */
  ghost predicate Returned(c: Versions, w: World, u: string, run: Run, r: Reply) {
    && Faithful(c, u, run) && NeedsReply(run.live.exec) && run.tries == 0 && run.flight == None
    && run.attempts <= MAXIMUM_ATTEMPTS * (run.live.exec.answered + 1)
    && Anchored(w, StepsOf(c, run), u, run.live.exec, run.persisted)
    && Backed(w, StepsOf(c, run), u, run.live.exec, run.persisted, r)
  }

  lemma {:induction false} ReplyIsSafe(c: Versions, w: World, u: string, run: Run, r: Reply)
    requires Returned(c, w, u, run, r)
    ensures var after := Told(c, run, Replied(r)); RunSound(c, w, u, after)
  {
    ToldFaithful(c, u, run, Replied(r));
    ToldMetered(c, run, Replied(r));
    ToldAnchored(w, c, u, run, Replied(r), run.persisted);
  }

  /** Whatever an attempt ends in, the run it leaves is sound in the world it leaves. */
  lemma {:induction false} LandedIsSafe(c: Versions, w: World, u: string, run: Run, r: Result<Answer>, now: Time)
    requires RunOk(c, u, run) && Busy(run) && run.flight.Some?
    requires Anchored(w, StepsOf(c, run), u, run.live.exec, run.persisted)
    requires r.Done? ==> Backed(w, StepsOf(c, run), u, run.live.exec, run.persisted,
             Success(r.value.orgId, r.value.email, now))
    ensures var after := Landed(c, run, r, now); RunSound(c, w, u, after)
  {
    var back := run.(tries := 0, flight := None);
    if r.Done? {
      ReplyIsSafe(c, w, u, back, Success(r.value.orgId, r.value.email, now));
    } else if run.tries + 1 == MAXIMUM_ATTEMPTS {
      ReplyIsSafe(c, w, u, back, Failure(now));
    }
  }

  lemma {:induction false} FlyingIsSafe(c: Versions, w: World, u: string, run: Run, stage: Stage, now: Time)
    requires RunOk(c, u, run) && Flying(run) && run.flight.value.command == Pending(run.live.exec)
    requires !stage.Over? && Fit(run.flight.value.(stage := stage)) && Knows(w, run.flight.value.(stage := stage))
    requires Anchored(w, StepsOf(c, run), u, run.live.exec, run.persisted || Writes(run.flight.value))
    ensures RunSound(c, w, u, Advanced(c, run, stage, now))
  {
  }

  /** The call that ends the attempt. */
  lemma {:induction false} ReturnIsSafe(c: Versions, w: World, u: string, run: Run, stage: Stage, now: Time)
    requires RunOk(c, u, run) && Flying(run) && run.flight.value.command == Pending(run.live.exec) && stage.Over?
    requires stage.result.Done? ==> Answered(w, run.flight.value.command, stage.result.value)
    requires run.flight.value.command.Persist? && stage.result.Done? ==> run.persisted || Writes(run.flight.value)
    requires Anchored(w, StepsOf(c, run), u, run.live.exec, run.persisted || Writes(run.flight.value))
    ensures RunSound(c, w, u, Advanced(c, run, stage, now))
  {
    var f := run.flight.value;
    var on := run.(persisted := run.persisted || Writes(f));
    RunIsOrderly(c, u, run);
    if stage.result.Done? {
      var blank := FreshJourney(run.input, run.started);
      AnswerIsBacked(w, StepsOf(c, run), blank, run.live.exec, on.persisted, f.(stage := stage), now);
    }
    LandedIsSafe(c, w, u, on, stage.result, now);
  }

  /** One call of a run's own flight. */
  lemma {:induction false} AdvancedIsSafe(c: Versions, w: World, u: string, run: Run, now: Time)
    requires Consistent(w) && RunSound(c, w, u, run) && Flying(run)
    requires run.flight.value.stage.Create? ==> CanMint(w.tenant, run.flight.value.plan.orgId)
    ensures var (w', stage) := Call(w, run.flight.value);
            RunSound(c, w', u, Advanced(c, run, stage, now))
  {
    var f := run.flight.value;
    var (w', stage) := Call(w, f);
    RunIsOrderly(c, u, run);
    CallIsSafe(w, f);
    CallAnchored(w, StepsOf(c, run), FreshJourney(run.input, run.started), run.live.exec, run.persisted, f);
    if stage.Over? {
      ReturnIsSafe(c, w', u, run, stage, now);
    } else {
      FlyingIsSafe(c, w', u, run, stage, now);
    }
  }

  lemma {:induction false} RunFacts(s: Sys, user: string)
    requires Inv(s) && user in s.runs
    ensures var run := s.runs[user];
            && RunSound(s.catalog, s.world, user, run)
            && Orderly(StepsOf(s.catalog, run), FreshJourney(run.input, run.started), run.live.exec)
            && Anchored(s.world, StepsOf(s.catalog, run), user, run.live.exec, run.persisted)
  {
    RunIsOrderly(s.catalog, user, s.runs[user]);
  }

  /** The flight of a run is the user's own. */
  lemma {:induction false} FlightIsOwn(s: Sys, u: string)
    requires Inv(s) && u in s.runs && s.runs[u].flight.Some?
    ensures var f := s.runs[u].flight.value; Flying(s.runs[u]) && Knows(s.world, f) && UserOf(f.command) == u
    ensures s.runs[u].flight.value.command == Pending(s.runs[u].live.exec)
  {
    RunFacts(s, u);
    var run := s.runs[u];
    PendingIsProper(s.world, StepsOf(s.catalog, run), FreshJourney(run.input, run.started), run.live.exec,
      run.persisted);
  }

  /** A call as the service makes it. */
  lemma {:induction false} ProceedIsSafe(s: Sys, u: string)
    requires Inv(s) && Runnable(s.catalog, s.runs) && Can(s, Proceed(u))
    ensures var (w', stage) := CallOf(s, u);
            && Consistent(w') && Keeps(s.world, w') && Spares(s.world, w', FlightOf(s, u))
            && Knows(w', FlightOf(s, u).(stage := stage))
    ensures UserOf(FlightOf(s, u).command) == u
  {
    FlightIsOwn(s, u);
    CallIsSafe(s.world, s.runs[u].flight.value);
  }

  /** Other users' runs, and their attempts under way, do not notice a call. */
  lemma {:induction false} ProceedSparesOthers(s: Sys, u: string, v: string)
    requires Inv(s) && Runnable(s.catalog, s.runs) && Can(s, Proceed(u)) && v in s.runs && v != u
    ensures var t := AfterProceed(s, u); RunAnchored(s.catalog, t.world, v, s.runs[v])
  {
    ProceedIsSafe(s, u);
    RunFacts(s, v);
    var f, run, w' := s.runs[u].flight.value, s.runs[v], AfterProceed(s, u).world;
    OthersAnchored(s.world, w', f, StepsOf(s.catalog, run), FreshJourney(run.input, run.started), run.live.exec,
      run.persisted);
    if run.flight.Some? {
      FlightIsOwn(s, v);
      MakersDiffer(s, u, v);
      OnlyMakersChangeTenant(s.world, f);
      KnowsStays(s.world, w', f, run.flight.value);
    }
  }

  /** Only attempts that make an organisation, or have made one, change the tenant. */
  lemma {:induction false} OnlyMakersChangeTenant(w: World, f: Flight)
    requires Fit(f) && !f.stage.Over?
    ensures var (w', stage) := Call(w, f); w'.tenant != w.tenant || Making(stage) ==> f.stage.Create? || Making(f.stage)
  {
  }

  lemma {:induction false} MadeIsMinted(w: World, h: Flight)
    requires Fit(h) && Knows(w, h) && Making(h.stage)
    ensures h.plan.orgId in w.tenant.minted
  {
  }

  /** The first attempt is about another organisation than the one the second has made. */
  predicate Apart(f: Option<Flight>, h: Option<Flight>) {
    f.Some? && h.Some? && (f.value.stage.Create? || Making(f.value.stage)) && Making(h.value.stage) ==>
      h.value.plan.orgId != f.value.plan.orgId
  }

  /** A call that changes the tenant is about another organisation than the one another
      attempt has made. */
  lemma {:induction false} MakersDiffer(s: Sys, u: string, v: string)
    requires v in s.runs && v != u && s.runs[v].flight.Some?
    requires Runnable(s.catalog, s.runs) && Can(s, Proceed(u)) && Inv(s)
    ensures Apart(s.runs[u].flight, s.runs[v].flight)
  {
    FlightIsOwn(s, v);
    var h := s.runs[v].flight.value;
    if Making(h.stage) {
      MadeIsMinted(s.world, h);
    }
  }

  lemma {:induction false} FlightAfter(s: Sys, u: string)
    requires Runnable(s.catalog, s.runs) && Can(s, Proceed(u))
    ensures var f := s.runs[u].flight.value;
            var stage := Call(s.world, f).1;
            var t := AfterProceed(s, u);
            && t.runs == s.runs[u := t.runs[u]] && t.catalog == s.catalog && t.world == Call(s.world, f).0
            && t.runs[u].flight == if stage.Over? then None else Some(f.(stage := stage))
  {
  }

  lemma {:induction false} ProceedKeepsRuns(s: Sys, u: string)
    requires Inv(s) && Runnable(s.catalog, s.runs) && Can(s, Proceed(u))
    ensures var t := AfterProceed(s, u); RunsSound(t.catalog, t.world, t.runs)
  {
    var t := AfterProceed(s, u);
    FlightAfter(s, u);
    ProceedIsOwn(s, u);
    forall v | v in s.runs && v != u
      ensures RunSound(s.catalog, t.world, v, s.runs[v])
    {
      RunFacts(s, v);
      ProceedSparesOthers(s, u, v);
    }
  }

  lemma {:induction false} ProceedIsOwn(s: Sys, u: string)
    requires Inv(s) && Runnable(s.catalog, s.runs) && Can(s, Proceed(u))
    ensures var t := AfterProceed(s, u); RunSound(s.catalog, t.world, u, t.runs[u])
  {
    RunFacts(s, u);
    AdvancedIsSafe(s.catalog, s.world, u, s.runs[u], s.now);
  }

  /** The organisation a run's attempt has made is none that another's has. */
  predicate MakesAnother(runs: Runs, u: string, run: Run) {
    forall v :: v in runs && v != u && runs[v].flight.Some? && run.flight.Some?
                && Making(runs[v].flight.value.stage) && Making(run.flight.value.stage) ==>
                  runs[v].flight.value.plan.orgId != run.flight.value.plan.orgId
  }

  lemma {:induction false} ReplacedRunKeepsFlights(runs: Runs, u: string, run: Run)
    requires FlightsDiffer(runs) && MakesAnother(runs, u, run)
    ensures FlightsDiffer(runs[u := run])
  {
  }

  /** After a call that makes an organisation, it is a new one. */
  lemma {:induction false} ProceedKeepsFlights(s: Sys, u: string)
    requires Inv(s) && Runnable(s.catalog, s.runs) && Can(s, Proceed(u))
    ensures FlightsDiffer(AfterProceed(s, u).runs)
  {
    OnlyMakersChangeTenant(s.world, s.runs[u].flight.value);
    FlightAfter(s, u);
    forall v | v in s.runs && v != u && s.runs[v].flight.Some?
      ensures Apart(s.runs[u].flight, s.runs[v].flight)
    {
      MakersDiffer(s, u, v);
    }
    var after := AfterProceed(s, u).runs[u];
    assert MakesAnother(s.runs, u, after);
    ReplacedRunKeepsFlights(s.runs, u, after);
  }

  /** A document the executor persists is a read-model in its own right. */
  lemma {:induction false} PersistedIsReadModel(c: Versions, u: string, run: Run)
    requires Faithful(c, u, run) && Busy(run) && Pending(run.live.exec).Persist?
    ensures StoredIsReadModel(c, u, Pending(run.live.exec).journey)
  {
    var steps := StepsOf(c, run);
    var e := run.live.exec;
    var blank := FreshJourney(run.input, run.started);
    RunIsOrderly(c, u, run);
    PendingIs(steps, blank, e);
    var slots := Opened(steps, e);
    assert Fits(steps, blank, e.issued[|e.issued| - 1], slots[|slots| - 1]);
  }

  /** The org id is no part of what a read-model records. */
  lemma {:induction false} OrgIdIsNoStep(c: Versions, u: string, d: Journey, orgId: string)
    requires StoredIsReadModel(c, u, d)
    ensures StoredIsReadModel(c, u, d.(orgId := orgId))
  {
    var steps := Steps(c, d.version);
    var t := d.(orgId := orgId);
    assert t.steps == d.steps;
    assert RecordsPrefix(steps, t, |d.steps|, t) by {
      if d.completedAt.Some? {
        var k :| 0 <= k < |d.steps| && LastMark(steps, |d.steps|, k) && d.steps[k].completedAt == d.completedAt.value;
        assert t.steps[k].completedAt == t.completedAt.value;
      }
    }
  }

  /** What a call does to the user's own document. */
  lemma {:induction false} CallWritesDocument(w: World, f: Flight)
    requires Fit(f) && !f.stage.Over?
    ensures var u, docs := UserOf(f.command), Call(w, f).0.docs;
            docs == if Writes(f) then Replaced(w.docs, f.command.journey, f.now)
                    else if f.stage.SetOrg? && f.plan.At(SET_ORG).Lands() then WithOrgId(w.docs, u, f.plan.orgId, f.now)
                    else w.docs
  {
  }

  lemma {:induction false} CallKeepsDocs(cat: Versions, w: World, f: Flight)
    requires Fit(f) && !f.stage.Over? && DocsAreReadModels(cat, w.docs)
    requires Writes(f) ==> StoredIsReadModel(cat, f.command.journey.userId, f.command.journey)
    requires f.stage.SetOrg? ==> UserOf(f.command) in w.docs
    ensures DocsAreReadModels(cat, Call(w, f).0.docs)
  {
    CallWritesDocument(w, f);
    var u := UserOf(f.command);
    if f.stage.SetOrg? {
      OrgIdIsNoStep(cat, u, w.docs[u].journey, f.plan.orgId);
    }
  }

  lemma {:induction false} ProceedKeepsDocs(s: Sys, u: string)
    requires Inv(s) && Runnable(s.catalog, s.runs) && Can(s, Proceed(u))
    ensures DocsAreReadModels(s.catalog, AfterProceed(s, u).world.docs)
  {
    var run := s.runs[u];
    FlightIsOwn(s, u);
    RunFacts(s, u);
    if Pending(run.live.exec).Persist? {
      PersistedIsReadModel(s.catalog, u, run);
    }
    PendingIs(StepsOf(s.catalog, run), FreshJourney(run.input, run.started), run.live.exec);
    CallKeepsDocs(s.catalog, s.world, run.flight.value);
  }

  /** By the time completion is asked for, every resource is recorded. */
  lemma {:induction false} ReadyToComplete(steps: seq<StepDef>, e: Exec, recs: Records, r: Resource)
    requires Placed(steps, e) && e.phase.Acting? && steps[e.index].action == COMPLETE_PROVISIONING
    requires CompletesLast(steps) && ProvisionedSoFar(steps, e, recs)
    ensures KeyOf(r) in RecordOf(recs, e.ctx.orgId).resources
  {
    assert Preceded(steps, e.index, r);
    var k :| 0 <= k < e.index && ResourceOf(steps[k].action) == Some(r) && Organised(steps, k);
  }

  /** A call neither takes in hand nor stores a record that is falsely completed. */
  lemma {:induction false} CallKeepsSound(w: World, run: Run)
    requires Flying(run) && Knows(w, run.flight.value) && NoFalseCompletion(w.recs) && SoundFlight(run)
    requires run.flight.value.stage.Get? && KindOf(run.flight.value.command).Completion? ==>
               forall r: Resource :: KeyOf(r) in RecordOf(w.recs, OrgIn(run.flight.value.command)).resources
    ensures var (w', stage) := Call(w, run.flight.value);
            NoFalseCompletion(w'.recs) && SoundFlight(run.(flight := Some(run.flight.value.(stage := stage))))
  {
    var f := run.flight.value;
    assert f.stage.Get? ==> Sound(RecordOf(w.recs, OrgIn(f.command)));
  }

  lemma {:induction false} CompletionIsDue(c: Versions, w: World, u: string, run: Run, r: Resource)
    requires RunSound(c, w, u, run) && Flying(run) && CompletesLast(StepsOf(c, run))
    requires KindOf(run.flight.value.command).Completion?
    ensures KeyOf(r) in RecordOf(w.recs, OrgIn(run.flight.value.command)).resources
  {
    var steps := StepsOf(c, run);
    RunIsOrderly(c, u, run);
    PendingIs(steps, FreshJourney(run.input, run.started), run.live.exec);
    ReadyToComplete(steps, run.live.exec, w.recs, r);
  }

  lemma {:induction false} ReplacedRunKeepsSound(runs: Runs, u: string, run: Run)
    requires (forall v :: v in runs ==> SoundFlight(runs[v])) && SoundFlight(run)
    ensures var after := runs[u := run]; forall v :: v in after ==> SoundFlight(after[v])
  {
  }

  lemma {:induction false} ProceedKeepsSound(s: Sys, u: string)
    requires Inv(s) && Runnable(s.catalog, s.runs) && Can(s, Proceed(u))
    requires NothingFalse(s) && CompletesLast(StepsOf(s.catalog, s.runs[u]))
    ensures NothingFalse(AfterProceed(s, u))
  {
    var run := s.runs[u];
    FlightIsOwn(s, u);
    assert SoundFlight(run);
    if KindOf(run.flight.value.command).Completion? {
      assert RunSound(s.catalog, s.world, u, run);
      forall r: Resource
        ensures KeyOf(r) in RecordOf(s.world.recs, OrgIn(run.flight.value.command)).resources
      {
        CompletionIsDue(s.catalog, s.world, u, run, r);
      }
    }
    CallKeepsSound(s.world, run);
    FlightAfter(s, u);
    ReplacedRunKeepsSound(s.runs, u, AfterProceed(s, u).runs[u]);
  }

  lemma {:induction false} InvIsRunnable(s: Sys)
    requires Inv(s)
    ensures Runnable(s.catalog, s.runs)
  {
    forall u | u in s.runs
      ensures Placed(StepsOf(s.catalog, s.runs[u]), s.runs[u].live.exec)
    {
      assert RunOk(s.catalog, u, s.runs[u]);
    }
  }

  lemma {:induction false} ProceedKeepsInv(s: Sys, u: string)
    requires Inv(s) && Runnable(s.catalog, s.runs) && Can(s, Proceed(u))
    ensures Inv(AfterProceed(s, u))
  {
    ProceedIsSafe(s, u);
    ProceedKeepsDocs(s, u);
    if AllCompleteLast(s.catalog) {
      RunIsOrderly(s.catalog, u, s.runs[u]);
      ProceedKeepsSound(s, u);
    }
    ProceedKeepsFlights(s, u);
    ProceedKeepsRuns(s, u);
  }

  /** The run has no attempt under way that has read or made anything, or the same as
      before. */
  predicate SameFlight(runs: Runs, u: string, run: Run) {
    run.flight.Some? ==>
      || run.flight.value.stage.Find? || run.flight.value.stage.Get? || run.flight.value.stage.Store?
      || (u in runs && run.flight == runs[u].flight)
  }

  lemma {:induction false} ReplacedRunIsSound(c: Versions, w: World, runs: Runs, u: string, run: Run)
    requires RunsSound(c, w, runs) && RunSound(c, w, u, run)
    ensures RunsSound(c, w, runs[u := run])
  {
  }

  lemma {:induction false} ReplacedRunKeepsInv(s: Sys, u: string, run: Run)
    requires Inv(s) && RunSound(s.catalog, s.world, u, run) && SameFlight(s.runs, u, run)
    ensures Inv(s.(runs := s.runs[u := run]))
  {
    ReplacedRunIsSound(s.catalog, s.world, s.runs, u, run);
    assert MakesAnother(s.runs, u, run);
    ReplacedRunKeepsFlights(s.runs, u, run);
    if AllCompleteLast(s.catalog) {
      assert u in s.runs ==> SoundFlight(s.runs[u]);
      ReplacedRunKeepsSound(s.runs, u, run);
    }
  }

  lemma {:induction false} DepartKeepsInv(s: Sys, u: string, plan: Plan)
    requires Inv(s) && Can(s, Depart(u, plan))
    ensures Inv(AfterDepart(s, u, plan))
  {
    var run := s.runs[u];
    var after := AfterDepart(s, u, plan).runs[u];
    RunFacts(s, u);
    DepartureKnows(s.world, StepsOf(s.catalog, run), FreshJourney(run.input, run.started), run.live.exec, run.persisted,
      plan, s.now);
    assert RunSound(s.catalog, s.world, u, after);
    ReplacedRunKeepsInv(s, u, after);
  }

  /** A signal leaves an attempt under way alone. */
  lemma {:induction false} ToldKeepsFlight(w: World, c: Versions, run: Run, m: Message)
    requires Placed(StepsOf(c, run), run.live.exec) && FlightOk(w, run)
    ensures FlightOk(w, Told(c, run, Event.Signalled(m)))
  {
    ReactCounts(StepsOf(c, run), run.live, Event.Signalled(m));
  }

  lemma {:induction false} SignalKeepsInv(s: Sys, u: string, channel: string, p: Payload)
    requires Inv(s) && Runnable(s.catalog, s.runs)
    ensures Inv(AfterSignal(s, u, channel, p))
  {
    if IsOpen(s.runs, u) {
      var run := s.runs[u];
      var m := Message(channel, p, s.now);
      var e := Event.Signalled(m);
      RunFacts(s, u);
      ToldFaithful(s.catalog, u, run, e);
      ToldMetered(s.catalog, run, e);
      ToldAnchored(s.world, s.catalog, u, run, e, run.persisted);
      ToldKeepsFlight(s.world, s.catalog, run, m);
      ReplacedRunKeepsInv(s, u, Told(s.catalog, run, e));
    } else {
      assert s.(runs := s.runs) == s;
    }
  }

  lemma {:induction false} StartKeepsInv(s: Sys, u: string)
    requires Inv(s) && Runnable(s.catalog, s.runs)
    ensures Inv(s.(runs := WithRun(s.catalog, s.runs, u, s.now)))
  {
    if !IsOpen(s.runs, u) {
      NewRunOk(s.catalog, u, s.now);
      NewRunAnchored(s.world, s.catalog, u, s.now);
      ReplacedRunKeepsInv(s, u, NewRun(s.catalog, u, s.now));
    } else {
      assert s.(runs := s.runs) == s;
    }
  }

  lemma {:induction false} DeployKeepsInv(s: Sys, c: Versions)
    requires Inv(s) && Extends(s.catalog, c)
    ensures Inv(s.(catalog := c))
  {
    forall u | u in s.runs
      ensures RunSound(c, s.world, u, s.runs[u])
    {
      assert RunOk(s.catalog, u, s.runs[u]);
      GrowthKeepsRuns(s.catalog, c, u, s.runs[u]);
    }
    assert AllCompleteLast(c) ==> AllCompleteLast(s.catalog);
  }

  lemma {:induction false} ReadKeepsInv(s: Sys, id: nat, u: string, step: string, body: Body)
    requires Inv(s)
    ensures Inv(s.(tickets := s.tickets[id := Ticket(u, step, body, DocOf(s, u))]))
  {
  }

  lemma {:induction false} RecordKeepsInv(s: Sys, u: string, step: string)
    requires Inv(s) && Runnable(s.catalog, s.runs)
    ensures Inv(AfterSignal(s.(runs := WithRun(s.catalog, s.runs, u, s.now)), u, step, NO_PAYLOAD))
  {
    StartKeepsInv(s, u);
    SignalKeepsInv(s.(runs := WithRun(s.catalog, s.runs, u, s.now)), u, step, NO_PAYLOAD);
  }

  lemma {:induction false} ConcludeKeepsInv(s: Sys, id: nat)
    requires Inv(s) && Runnable(s.catalog, s.runs) && id in s.tickets
    ensures Inv(Next(s, Conclude(id)))
  {
    var t := s.tickets[id];
    if VerdictOf(s, t).Send? {
      SignalKeepsInv(s, t.user, t.step, VerdictOf(s, t).payload);
    }
  }

  /** Every move keeps the invariant. */
  lemma {:induction false} NextKeepsInv(s: Sys, m: Move)
    requires Inv(s) && Can(s, m)
    ensures Runnable(s.catalog, s.runs) && Inv(Next(s, m))
  {
    InvIsRunnable(s);
    match m
    case Tick(_) =>
    case Deploy(c) => DeployKeepsInv(s, c);
    case Reload(_) =>
    case StartRun(u) => StartKeepsInv(s, u);
    case VerifyEmail(u) => SignalKeepsInv(s, u, EMAIL_VERIFIED, NO_PAYLOAD);
    case RecordStep(u, step) => RecordKeepsInv(s, u, step);
    case ReadState(id, u, step, body) => ReadKeepsInv(s, id, u, step, body);
    case Conclude(id) => ConcludeKeepsInv(s, id);
    case Depart(u, plan) => DepartKeepsInv(s, u, plan);
    case Proceed(u) => ProceedKeepsInv(s, u);
  }

  /** The states a sequence of moves leads through. */
  ghost predicate Plays(s: Sys, moves: seq<Move>, t: Sys)
    decreases |moves|
  {
    if moves == [] then s == t
    else exists mid: Sys ::
           && Plays(s, moves[..|moves| - 1], mid) && Runnable(mid.catalog, mid.runs)
           && Can(mid, moves[|moves| - 1]) && t == Next(mid, moves[|moves| - 1])
  }

  /** From a state with the invariant every move sequence leads to such states. */
  lemma {:induction false} PlaysKeepInv(s: Sys, moves: seq<Move>, t: Sys)
    requires Inv(s) && Plays(s, moves, t)
    ensures Inv(t)
    decreases |moves|
  {
    if moves != [] {
      var mid: Sys :|
        && Plays(s, moves[..|moves| - 1], mid) && Runnable(mid.catalog, mid.runs)
        && Can(mid, moves[|moves| - 1]) && t == Next(mid, moves[|moves| - 1]);
      PlaysKeepInv(s, moves[..|moves| - 1], mid);
      NextKeepsInv(mid, moves[|moves| - 1]);
    }
  }

  /** The invariant holds in every reachable state, over all users, runs, interleavings of
      their attempts' calls, failures, crashes, stale requests and deployments. */
  lemma {:induction false} AlwaysInv(s: Sys, moves: seq<Move>, t: Sys)
    requires Initial(s) && Plays(s, moves, t)
    ensures Inv(t)
  {
    assert Inv(s);
    PlaysKeepInv(s, moves, t);
  }
}
