/** Exactly which catalogs can leave a record marked completed that does not list every
    resource: plays of the service are built that do, for every catalog that can. */
module Completion {
  import opened Domain
  import opened Catalog
  import opened Executor
  import opened ReadModel
  import opened Faults
  import opened Stores
  import opened Auth0
  import opened Provisioning
  import opened Activities
  import opened Flights
  import opened Attempts
  import opened Server
  import opened System
  import opened Safety
  import opened Guarantees
  import opened Walks
  import opened Naming
  import opened Nameless

  /** A service with this catalog and one vertical, before anyone has come. */
  function Newborn(c: Versions): Sys {
    Sys(c, {A_VERTICAL}, 0, map[], World(map[], map[], Tenant({}, {}, {}, {}), Vendors([], [], {}, [])), map[])
  }

  lemma {:induction false} NewbornIsSound(c: Versions, u: string)
    requires CATALOG_VERSION in c
    ensures Initial(Newborn(c)) && Inv(Newborn(c)) && Free(Newborn(c), u)
    ensures NoId(Newborn(c).world.docs, u) && OrgsOf(Newborn(c).world.tenant, u) == {}
  {
  }

  /** A run that is there completes the record of its organisation, whatever it lists. */
  lemma {:induction false} Complete(s: Sys, u: string, steps: seq<StepDef>, i: nat) returns (t: Sys)
    requires Inv(s) && There(s, u, Target(i, true))
    requires s.runs[u].flight == None && StepsOf(s.catalog, s.runs[u]) == steps
    requires i < |steps| && steps[i].action == COMPLETE_PROVISIONING
    ensures Reaches(s, t)
    ensures var org := s.runs[u].live.exec.ctx.orgId;
            && org in t.world.recs && t.world.recs[org].completed
            && t.world.recs[org].resources == RecordOf(s.world.recs, org).resources
  {
    ActionsDiffer();
    RunFacts(s, u);
    var run := s.runs[u];
    PendingIs(steps, FreshJourney(run.input, run.started), run.live.exec);
    var plan := FreshPlan(s.world.tenant);
    t := Serve(s, u, plan);
  }

  lemma {:induction false} NothingListed(s: Sys, u: string, steps: seq<StepDef>, i: nat, r: Resource)
    requires i < |steps| && There(s, u, Target(i, true))
    requires Walking(s, u, steps, Target(i, true), Lack(r, Organised(steps, i)))
    ensures KeyOf(r) !in RecordOf(s.world.recs, s.runs[u].live.exec.ctx.orgId).resources
  {
    RunFacts(s, u);
  }

  /** One user alone: a completion before which nothing lists r for the organisation. */
  lemma {:induction false} AloneGoesFalse(c: Versions, steps: seq<StepDef>, i: nat, r: Resource) returns (t: Sys)
    requires CATALOG_VERSION in c && steps == Steps(c, Latest(c))
    requires i < |steps| && steps[i].action == COMPLETE_PROVISIONING
    requires Way(Lack(r, Organised(steps, i)), steps, Target(i, true)) && WellNamed(steps, i)
    ensures Reaches(Newborn(c), t) && !NoFalseCompletion(t.world.recs)
  {
    ActionsDiffer();
    var u, goal := "u", Lack(r, Organised(steps, i));
    NewbornIsSound(c, u);
    var mid := ComeNamed(Newborn(c), u, steps, Target(i, true), goal);
    NothingListed(mid, u, steps, i, r);
    t := Complete(mid, u, steps, i);
    ReachesOn(Newborn(c), mid, t);
    assert !Sound(t.world.recs[mid.runs[u].live.exec.ctx.orgId]);
  }

  /** The attempt that has read the record of the empty org id and is about to post. */
  predicate Holding(run: Run, q: Resource) {
    && Flying(run)
    && var f := run.flight.value;
       && f.stage.Post? && f.stage.k == 0 && f.stage.read.resources == map[]
       && f.command.Act? && f.command.input.orgId == "" && KindOf(f.command) == Kind.Provision(q)
       && f.plan.faults == []
  }

  lemma {:induction false} ReadsEmptyRecord(w: World, c: Command, plan: Plan, now: Time, q: Resource)
    requires KindOf(c) == Kind.Provision(q) && c.input.orgId == "" && "" !in w.recs && plan.faults == []
    ensures var f := Departure(c, plan, now);
            f.stage.Get? && Homeward(w, f) && Call(w, f) == (w, Stage.Post(Record(false, map[], None, 0), 0))
  {
  }

  lemma {:induction false} ProvisionIsPending(s: Sys, u: string, steps: seq<StepDef>, p: nat, q: Resource)
    requires Inv(s) && There(s, u, Target(p, true)) && StepsOf(s.catalog, s.runs[u]) == steps
    requires s.runs[u].live.exec.ctx.orgId == "" && p < |steps| && ResourceOf(steps[p].action) == Some(q)
    ensures Busy(s.runs[u])
    ensures var c := Pending(s.runs[u].live.exec); KindOf(c) == Kind.Provision(q) && c.input.orgId == ""
  {
    ActionsDiffer();
    RunFacts(s, u);
    var run := s.runs[u];
    PendingIs(steps, FreshJourney(run.input, run.started), run.live.exec);
  }

  /** The first call of an attempt that will hold the empty record. */
  lemma {:induction false} ReadsOn(s: Sys, u: string, plan: Plan, q: Resource) returns (t: Sys)
    requires Inv(s) && u in s.runs && Busy(s.runs[u]) && s.world.recs == map[] && Faultless(s.world.tenant, plan)
    requires var c := Pending(s.runs[u].live.exec);
             && KindOf(c) == Kind.Provision(q) && c.input.orgId == ""
             && s.runs[u].flight == Some(Departure(c, plan, s.now))
    ensures Inv(t) && Reaches(s, t) && u in t.runs && t == s.(runs := s.runs[u := t.runs[u]]) && Holding(t.runs[u], q)
  {
    ReadsEmptyRecord(s.world, Pending(s.runs[u].live.exec), plan, s.now, q);
    t := OneCall(s, u);
  }

  lemma {:induction false} RunReplacedTwice(s: Sys, u: string, run: Run, t: Sys)
    requires u in t.runs && t == s.(runs := s.runs[u := run]).(runs := s.runs[u := run][u := t.runs[u]])
    ensures t == s.(runs := s.runs[u := t.runs[u]])
  {
    assert s.runs[u := run][u := t.runs[u]] == s.runs[u := t.runs[u]];
  }

  /** A run that is there reads the empty record. */
  lemma {:induction false} TakesEmptyRecord(s: Sys, u: string, q: Resource) returns (t: Sys)
    requires Inv(s) && u in s.runs && Busy(s.runs[u]) && s.runs[u].flight == None && s.world.recs == map[]
    requires var c := Pending(s.runs[u].live.exec); KindOf(c) == Kind.Provision(q) && c.input.orgId == ""
    ensures Inv(t) && Reaches(s, t) && u in t.runs && t == s.(runs := s.runs[u := t.runs[u]]) && Holding(t.runs[u], q)
  {
    var plan := FreshPlan(s.world.tenant);
    var mid := DepartOn(s, u, plan);
    t := ReadsOn(mid, u, plan, q);
    ReachesOn(s, mid, t);
    RunReplacedTwice(s, u, mid.runs[u], t);
  }

  /** An attempt that still holds an empty record stores it with its own resource only. */
  lemma {:induction false} HolderForgets(w: World, run: Run, q: Resource)
    requires Holding(run, q)
    ensures var f := run.flight.value;
            && Homeward(w, f)
            && var recs := Solo(w, f).0.recs; "" in recs && recs[""].resources.Keys == {KeyOf(q)}
  {
    var f := run.flight.value;
    if q.Aws? {
      SoloKey(w, f);
    } else {
      SoloPost(w, f);
      PostAllAnswers(w.vendors, Requests(q, ""), 0, f.plan);
    }
  }

  /** Every resource has another. */
  lemma {:induction false} AnotherResource(q: Resource) returns (r: Resource)
    ensures KeyOf(r) != KeyOf(q)
  {
    r := if q.Kong? then Resource.Aws else Resource.Kong;
    KeysDiffer(r, q);
  }

  lemma {:induction false} OneResourceIsFalse(recs: Records, q: Resource)
    requires "" in recs && recs[""].completed && recs[""].resources.Keys == {KeyOf(q)}
    ensures !NoFalseCompletion(recs)
  {
    var r := AnotherResource(q);
    assert KeyOf(r) !in recs[""].resources;
    assert !Sound(recs[""]);
  }

  lemma {:induction false} HomesAlone(s: Sys, t: Sys, u: string, r: Result<Answer>, wrote: bool)
    requires Homes(s, t, u, r, wrote)
    ensures t.catalog == s.catalog && forall v :: v in s.runs && v != u ==> v in t.runs && t.runs[v] == s.runs[v]
  {
  }

  /** The one that holds the empty record stores it. */
  lemma {:induction false} HolderStores(s: Sys, b: string, q: Resource) returns (t: Sys)
    requires Inv(s) && b in s.runs && Holding(s.runs[b], q)
    ensures Inv(t) && Reaches(s, t) && t.catalog == s.catalog
    ensures "" in t.world.recs && t.world.recs[""].resources.Keys == {KeyOf(q)}
    ensures forall v :: v in s.runs && v != b ==> v in t.runs && t.runs[v] == s.runs[v]
  {
    var f := s.runs[b].flight.value;
    HolderForgets(s.world, s.runs[b], q);
    t := FlyHome(s, b);
    HomesAlone(s, t, b, Solo(s.world, f).1, WritesHome(f));
  }

  /** Another user's run is there while one holds an empty record of the empty org id. */
  lemma {:induction false} SecondCompletes(s: Sys, a: string, b: string, steps: seq<StepDef>, i: nat, q: Resource)
    returns (t: Sys)
    requires i < |steps| && steps[i].action == COMPLETE_PROVISIONING
    requires Walking(s, a, steps, Target(i, true), Any)
    requires There(s, a, Target(i, true)) && s.runs[a].live.exec.ctx.orgId == ""
    requires a != b && b in s.runs && Holding(s.runs[b], q)
    ensures Reaches(s, t) && !NoFalseCompletion(t.world.recs)
  {
    var mid := HolderStores(s, b, q);
    t := Complete(mid, a, steps, i);
    ReachesOn(s, mid, t);
    OneResourceIsFalse(t.world.recs, q);
  }

  /** The user has left no trace. */
  predicate Unseen(s: Sys, u: string) {
    u !in s.runs && u !in s.world.docs && OrgsOf(s.world.tenant, u) == {}
  }

  lemma {:induction false} BesideKeepsUnseen(s: Sys, t: Sys, u: string, v: string)
    requires Beside(s, t, u) && Unseen(s, v) && v != u
    ensures Unseen(t, v)
  {
  }

  /** The first user comes and takes the empty record in hand. */
  lemma {:induction false} FirstHolds(c: Versions, steps: seq<StepDef>, p: nat, q: Resource, a: string, b: string)
    returns (t: Sys)
    requires CATALOG_VERSION in c && steps == Steps(c, Latest(c)) && a != b
    requires p < |steps| && ResourceOf(steps[p].action) == Some(q)
    requires !Organised(steps, p) && Way(Quiet, steps, Target(p, true))
    ensures Inv(t) && Reaches(Newborn(c), t) && t.catalog == c
    ensures b in t.runs && Holding(t.runs[b], q) && Unseen(t, a)
  {
    ActionsDiffer();
    NewbornIsSound(c, b);
    NewbornIsSound(c, a);
    var to := Target(p, true);
    var mid := Come(Newborn(c), b, steps, to, Quiet);
    BesideKeepsUnseen(Newborn(c), mid, b, a);
    NoOrgYet(mid, b, steps, to, Quiet);
    ProvisionIsPending(mid, b, steps, p, q);
    t := TakesEmptyRecord(mid, b, q);
    ReachesOn(Newborn(c), mid, t);
  }

  /** Two users: while one run holds the empty record of the empty org id, another records
      its resources there; the first overwrites it, and the second completes. */
  lemma {:induction false} PairGoesFalse(c: Versions, steps: seq<StepDef>, i: nat, p: nat, q: Resource) returns (t: Sys)
    requires CATALOG_VERSION in c && steps == Steps(c, Latest(c))
    requires p < i < |steps| && steps[i].action == COMPLETE_PROVISIONING && !Organised(steps, i)
    requires ResourceOf(steps[p].action) == Some(q)
    requires Way(Quiet, steps, Target(p, true)) && Way(Any, steps, Target(i, true))
    ensures Reaches(Newborn(c), t) && !NoFalseCompletion(t.world.recs)
  {
    ActionsDiffer();
    var a, b, to := "a", "b", Target(i, true);
    var s := FirstHolds(c, steps, p, q, a, b);
    var mid := Come(s, a, steps, to, Any);
    NoOrgYet(mid, a, steps, to, Any);
    t := SecondCompletes(mid, a, b, steps, i, q);
    ReachesOn(s, mid, t);
    ReachesOn(Newborn(c), s, t);
  }

  /** Some play of a service with this catalog, without a deployment, ends in a false
      completion. */
  ghost predicate CanGoFalse(c: Versions) {
    exists s: Sys, t: Sys :: Initial(s) && s.catalog == c && Reaches(s, t) && !NoFalseCompletion(t.world.recs)
  }

  lemma {:induction false} NewbornGoesFalse(c: Versions, t: Sys)
    requires CATALOG_VERSION in c && Reaches(Newborn(c), t) && !NoFalseCompletion(t.world.recs)
    ensures CanGoFalse(c)
  {
    NewbornIsSound(c, "");
  }

  lemma {:induction false} WayTo(goal: Goal, steps: seq<StepDef>, i: nat)
    requires i < |steps| && steps[i].action != "" && Registered(steps, RegisteredActions) && !goal.Orgless?
    requires goal.Lack? ==> forall k :: 0 <= k < i && ResourceOf(steps[k].action) == Some(goal.r) ==>
             !Organised(steps, k) && goal.shared
    requires goal.Quiet? ==> forall k :: 0 <= k < i ==>
             ResourceOf(steps[k].action).None? && steps[k].action != COMPLETE_PROVISIONING
    ensures Way(goal, steps, Target(i, true))
  {
    forall k | 0 <= k < i
      ensures Passable(goal, steps, k)
    {
      assert steps[k] in steps;
    }
  }

  /** The first of the steps up to the i-th that touches a record. */
  lemma {:induction false} FirstRecordStep(steps: seq<StepDef>, i: nat) returns (p: nat)
    requires i < |steps| && steps[i].action == COMPLETE_PROVISIONING
    ensures p <= i && (ResourceOf(steps[p].action).Some? || steps[p].action == COMPLETE_PROVISIONING)
    ensures forall k :: 0 <= k < p ==> ResourceOf(steps[k].action).None? && steps[k].action != COMPLETE_PROVISIONING
  {
    p := 0;
    while !(ResourceOf(steps[p].action).Some? || steps[p].action == COMPLETE_PROVISIONING)
      invariant p <= i
      invariant forall k :: 0 <= k < p ==> ResourceOf(steps[k].action).None? && steps[k].action != COMPLETE_PROVISIONING
      decreases i - p
    {
      p := p + 1;
    }
  }

  lemma {:induction false} UnorganisedIsWellNamed(steps: seq<StepDef>, i: nat)
    requires i <= |steps| && !Organised(steps, i)
    ensures WellNamed(steps, i)
  {
  }

  /** Completing without r and with no organisation. */
  lemma {:induction false} UnorganisedGoesFalse(c: Versions, steps: seq<StepDef>, i: nat) returns (t: Sys)
    requires CATALOG_VERSION in c && steps == Steps(c, Latest(c)) && Registered(steps, RegisteredActions)
    requires i < |steps| && steps[i].action == COMPLETE_PROVISIONING && !Organised(steps, i)
    ensures Reaches(Newborn(c), t) && !NoFalseCompletion(t.world.recs)
  {
    ActionsDiffer();
    var p := FirstRecordStep(steps, i);
    if steps[p].action == COMPLETE_PROVISIONING {
      WayTo(Lack(Resource.Kong, Organised(steps, p)), steps, p);
      UnorganisedIsWellNamed(steps, p);
      t := AloneGoesFalse(c, steps, p, Resource.Kong);
    } else {
      WayTo(Quiet, steps, p);
      WayTo(Any, steps, i);
      t := PairGoesFalse(c, steps, i, p, ResourceOf(steps[p].action).value);
    }
  }

  /** Step i completes provisioning without r having been provisioned after the
      organisation was created, and every organisation made before it can get a name. */
  predicate FalseAt(steps: seq<StepDef>, i: nat, r: Resource) {
    i < |steps| && steps[i].action == COMPLETE_PROVISIONING && !Preceded(steps, i, r) && WellNamed(steps, i)
  }

  lemma {:induction false} FalseStepGoesFalse(c: Versions, steps: seq<StepDef>, i: nat, r: Resource)
    requires CATALOG_VERSION in c && steps == Steps(c, Latest(c))
    requires Registered(steps, RegisteredActions) && FalseAt(steps, i, r)
    ensures CanGoFalse(c)
  {
    ActionsDiffer();
    var t: Sys;
    if Organised(steps, i) {
      WayTo(Lack(r, true), steps, i);
      t := AloneGoesFalse(c, steps, i, r);
    } else {
      t := UnorganisedGoesFalse(c, steps, i);
    }
    NewbornGoesFalse(c, t);
  }

  lemma {:induction false} CallStaysSound(c: Versions, s: Sys, u: string)
    requires Inv(s) && Uniform(c, s) && NothingFalse(s) && CompletesLast(Steps(c, Latest(c)))
    requires Runnable(s.catalog, s.runs) && Can(s, Proceed(u))
    ensures NothingFalse(Next(s, Proceed(u)))
  {
    UniformRun(c, s, u);
    ProceedKeepsSound(s, u);
  }

  lemma {:induction false} NextKeepsSound(c: Versions, s: Sys, m: Move)
    requires Inv(s) && Uniform(c, s) && NothingFalse(s) && CompletesLast(Steps(c, Latest(c)))
    requires Runnable(s.catalog, s.runs) && Can(s, m)
    ensures NothingFalse(Next(s, m))
  {
    if m.Proceed? {
      CallStaysSound(c, s, m.user);
    } else {
      OnlyCallsTouchTheWorld(s, m);
      forall u | u in Next(s, m).runs
        ensures SoundFlight(Next(s, m).runs[u])
      {
        FlightUnlessOwnMove(s, m, u);
        assert u in s.runs ==> SoundFlight(s.runs[u]);
      }
    }
  }

  /** With a latest version that completes last, and no deployment, nothing goes false. */
  lemma {:induction false} PlaysStaySound(c: Versions, s: Sys, moves: seq<Move>, t: Sys)
    requires Initial(s) && s.catalog == c && Plays(s, moves, t)
    requires NoDeploys(moves) && CompletesLast(Steps(c, Latest(c)))
    ensures NothingFalse(t)
    decreases |moves|
  {
    if moves != [] {
      var before := moves[..|moves| - 1];
      var mid := LastMove(s, moves, t);
      assert NoDeploys(before);
      PlaysKeepUniform(c, s, before, mid);
      PlaysStaySound(c, s, before, mid);
      NextKeepsSound(c, mid, moves[|moves| - 1]);
    }
  }

  /** A completion that goes wrong but cannot go false comes after an organisation that
      gets no name; and then nothing completes before the first organisation. */
  lemma {:induction false} BarredIfNotFalse(steps: seq<StepDef>) returns (f: nat)
    requires !CompletesLast(steps) && forall i, r :: !FalseAt(steps, i, r)
    ensures Barred(steps, f)
  {
    var i: int, r: Resource :| 0 <= i < |steps| && steps[i].action == COMPLETE_PROVISIONING && !Preceded(steps, i, r);
    assert !FalseAt(steps, i, r);
    var g: int :| 0 <= g < i && steps[g].action == CREATE_ORGANISATION && !NameArrives(steps, g);
    f := FirstCreator(steps, i);
    assert NameArrives(steps, f) ==> f <= g && NameArrives(steps, g);
    forall k | 0 <= k < f
      ensures steps[k].action != COMPLETE_PROVISIONING
    {
      CompletionNeedsOrganisation(steps, k, f);
    }
  }

  lemma {:induction false} CompletionNeedsOrganisation(steps: seq<StepDef>, k: nat, f: nat)
    requires k < f && FirstCreates(steps, f)
    ensures steps[k].action == COMPLETE_PROVISIONING ==> FalseAt(steps, k, Resource.Kong)
  {
    UnorganisedIsWellNamed(steps, k);
  }

  lemma {:induction false} NothingGoesFalse(c: Versions, steps: seq<StepDef>, s: Sys, t: Sys)
    requires steps == Steps(c, Latest(c)) && forall i, r :: !FalseAt(steps, i, r)
    requires Initial(s) && s.catalog == c && Reaches(s, t)
    ensures NoFalseCompletion(t.world.recs)
  {
    var moves :| Plays(s, moves, t) && NoDeploys(moves);
    if CompletesLast(steps) {
      PlaysStaySound(c, s, moves, t);
    } else {
      var f := BarredIfNotFalse(steps);
      NobodyPasses(s, moves, t, f);
    }
  }

  /** For every catalog whose latest version has registered actions only: a service with
      this catalog, without a deployment, can end up with a record marked completed that
      does not list all four resources exactly when some step of the latest version
      completes provisioning without each resource having been provisioned by a step
      after the organisation was created, and every organisation made before that step
      can get a name. */
  lemma {:induction false} FalseCompletionExactly(c: Versions)
    requires CATALOG_VERSION in c && Registered(Steps(c, Latest(c)), RegisteredActions)
    ensures CanGoFalse(c) <==> exists i, r :: FalseAt(Steps(c, Latest(c)), i, r)
  {
    var steps := Steps(c, Latest(c));
    if i, r :| FalseAt(steps, i, r) {
      FalseStepGoesFalse(c, steps, i, r);
    } else {
      forall s: Sys, t: Sys | Initial(s) && s.catalog == c && Reaches(s, t)
        ensures NoFalseCompletion(t.world.recs)
      {
        NothingGoesFalse(c, steps, s, t);
      }
    }
  }

  lemma {:induction false} AllListed(s: Sys, u: string, steps: seq<StepDef>, i: nat, r: Resource)
    requires i < |steps| && steps[i].action == COMPLETE_PROVISIONING && CompletesLast(steps)
    requires There(s, u, Target(i, true)) && Walking(s, u, steps, Target(i, true), Any)
    ensures s.runs[u].live.exec.ctx.orgId != ""
    ensures KeyOf(r) in RecordOf(s.world.recs, s.runs[u].live.exec.ctx.orgId).resources
  {
    RunFacts(s, u);
    ReadyToComplete(steps, s.runs[u].live.exec, s.world.recs, r);
    assert Preceded(steps, i, r);
    assert Organised(steps, i);
  }

  /** Where the order is right and names arrive, a record is completed that lists all four
      resources: the promise is not kept by never completing. */
  lemma {:induction false} TrueCompletionIsReached(c: Versions, steps: seq<StepDef>, i: nat)
    returns (t: Sys, org: string)
    requires CATALOG_VERSION in c && steps == Steps(c, Latest(c)) && Registered(steps, RegisteredActions)
    requires i < |steps| && steps[i].action == COMPLETE_PROVISIONING && CompletesLast(steps) && WellNamed(steps, i)
    ensures Reaches(Newborn(c), t) && org != "" && org in t.world.recs && t.world.recs[org].completed
    ensures forall r: Resource :: KeyOf(r) in t.world.recs[org].resources
  {
    ActionsDiffer();
    var u := "u";
    NewbornIsSound(c, u);
    WayTo(Any, steps, i);
    var mid := ComeNamed(Newborn(c), u, steps, Target(i, true), Any);
    org := mid.runs[u].live.exec.ctx.orgId;
    forall r: Resource
      ensures org != "" && KeyOf(r) in RecordOf(mid.world.recs, org).resources
    {
      AllListed(mid, u, steps, i, r);
    }
    assert KeyOf(Resource.Kong) in RecordOf(mid.world.recs, org).resources;
    t := Complete(mid, u, steps, i);
    ReachesOn(Newborn(c), mid, t);
  }

  /** Each organisation step awaits the signal named after it, before the journey is
      marked completed. */
  predicate NamesItsOwn(steps: seq<StepDef>) {
    forall f :: 0 <= f < |steps| && steps[f].action == CREATE_ORGANISATION ==>
      steps[f].signal == steps[f].name != "" && !Marked(steps, f)
  }

  /** With such organisation steps, the order alone decides. */
  lemma {:induction false} OrderDecides(c: Versions)
    requires CATALOG_VERSION in c && Registered(Steps(c, Latest(c)), RegisteredActions)
    requires NamesItsOwn(Steps(c, Latest(c)))
    ensures CanGoFalse(c) <==> !CompletesLast(Steps(c, Latest(c)))
  {
    var steps := Steps(c, Latest(c));
    FalseCompletionExactly(c);
    forall i, r | 0 <= i < |steps| && steps[i].action == COMPLETE_PROVISIONING && !Preceded(steps, i, r)
      ensures FalseAt(steps, i, r)
    {
      forall f | 0 <= f < i && steps[f].action == CREATE_ORGANISATION
        ensures NameArrives(steps, f)
      {
        assert steps[f].signal == steps[f].name && !Marked(steps, f);
      }
    }
  }

  lemma {:induction false} OnlyVersion(steps: seq<StepDef>)
    ensures var c := map[CATALOG_VERSION := steps]; CATALOG_VERSION in c && Steps(c, Latest(c)) == steps
  {
    var c := map[CATALOG_VERSION := steps];
    assert CATALOG_VERSION in c;
    LatestIsUnique(c, Latest(c), CATALOG_VERSION);
  }

  /** Completing checks nothing: a service whose only step completes provisioning leaves a
      completed record that lists no resource, with no failure and a single user. */
  lemma {:induction false} CompletionAloneIsFalse()
    ensures CanGoFalse(map[CATALOG_VERSION := [StepDef(RESOURCES_PROVISIONED, COMPLETE_PROVISIONING, "", false)]])
  {
    ActionsDiffer();
    var steps := [StepDef(RESOURCES_PROVISIONED, COMPLETE_PROVISIONING, "", false)];
    OnlyVersion(steps);
    assert Registered(steps, RegisteredActions);
    assert !Organised(steps, 0) && !Preceded(steps, 0, Resource.Kong);
    UnorganisedIsWellNamed(steps, 0);
    assert FalseAt(steps, 0, Resource.Kong);
    FalseCompletionExactly(map[CATALOG_VERSION := steps]);
  }

  /** With an organisation step before it that no name gets to, the same completion is
      never reached. */
  lemma {:induction false} NamelessCompletionIsNeverReached(o: string)
    ensures !CanGoFalse(map[CATALOG_VERSION := [StepDef(o, CREATE_ORGANISATION, "", false),
                                                StepDef(RESOURCES_PROVISIONED, COMPLETE_PROVISIONING, "", false)]])
  {
    ActionsDiffer();
    var steps := [StepDef(o, CREATE_ORGANISATION, "", false),
                  StepDef(RESOURCES_PROVISIONED, COMPLETE_PROVISIONING, "", false)];
    OnlyVersion(steps);
    assert Registered(steps, RegisteredActions);
    assert steps[0].action == CREATE_ORGANISATION && !NameArrives(steps, 0);
    forall i, r
      ensures !FalseAt(steps, i, r)
    {
    }
    FalseCompletionExactly(map[CATALOG_VERSION := steps]);
  }
}
