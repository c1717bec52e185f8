/** How a name gets to the organisation step: when it can, a play that delivers it. A first
    run is walked to the step the name is sent for and dies there, leaving its document;
    a request reads it, and sends the name to the user's next run. */
module Naming {
  import opened Domain
  import opened Catalog
  import opened Executor
  import opened Replay
  import opened ReadModel
  import opened Faults
  import opened Stores
  import opened Auth0
  import opened Activities
  import opened Attempts
  import opened Retry
  import opened Server
  import opened Gate
  import opened System
  import opened Safety
  import opened Walks

  /** Some step no later than the f-th reads the signal of a step no later than the f-th
      at which the journey is still in progress. */
  predicate NameArrives(steps: seq<StepDef>, f: nat)
    requires f < |steps|
  {
    exists j, k :: 0 <= j <= f && 0 <= k <= f && steps[j].signal != "" && steps[j].signal == steps[k].name
      && !Marked(steps, k)
  }

  /** Every organisation to be made before the i-th step can get a name. */
  predicate WellNamed(steps: seq<StepDef>, i: nat)
    requires i <= |steps|
  {
    forall f :: 0 <= f < i && steps[f].action == CREATE_ORGANISATION ==> NameArrives(steps, f)
  }

  /** The f-th step is the first to create an organisation. */
  predicate FirstCreates(steps: seq<StepDef>, f: nat) {
    f < |steps| && steps[f].action == CREATE_ORGANISATION && !Organised(steps, f)
  }

  lemma {:induction false} FirstCreator(steps: seq<StepDef>, i: nat) returns (f: nat)
    requires i <= |steps| && Organised(steps, i)
    ensures f < i && FirstCreates(steps, f)
  {
    f := 0;
    while steps[f].action != CREATE_ORGANISATION
      invariant f < i && !Organised(steps, f)
      invariant exists g :: f <= g < i && steps[g].action == CREATE_ORGANISATION
      decreases i - f
    {
      f := f + 1;
    }
  }

  /** The first step of that name is no later, and no further in progress. */
  lemma {:induction false} FirstOfName(steps: seq<StepDef>, k: nat) returns (m: nat)
    requires k < |steps|
    ensures m <= k && steps[m].name == steps[k].name && forall x :: 0 <= x < m ==> steps[x].name != steps[k].name
    ensures !Marked(steps, k) ==> !Marked(steps, m)
  {
    m := 0;
    while steps[m].name != steps[k].name
      invariant m <= k && forall x :: 0 <= x < m ==> steps[x].name != steps[k].name
      decreases k - m
    {
      m := m + 1;
    }
  }

  /** A persist that takes effect and fails. */
  predicate Stumbles(plan: Plan) {
    plan.At(STORE) == FailAfter
  }

  lemma {:induction false} StumblingPlan(t: Tenant) returns (plan: Plan)
    ensures Stumbles(plan) && CanMint(t, plan.orgId)
  {
    var org := FreshOrg(t);
    plan := Plan([Fine, Fine, Fine, Fine, Fine, Fine, Fine, Fine, FailAfter], {}, org, "", "");
  }

  lemma {:induction false} LandedErred(c: Versions, run: Run, now: Time)
    requires Placed(StepsOf(c, run), run.live.exec) && Busy(run) && run.live.exec.phase.Persisting?
    ensures var after := Landed(c, run, Erred, now);
            if run.tries + 1 == MAXIMUM_ATTEMPTS then after.live.exec.failed
            else
              && after.live == run.live && after.tries == run.tries + 1
              && after.input == run.input && after.flight == None
  {
  }

  /** Nothing has changed but the user's own run and document. */
  predicate OnlyDocument(s: Sys, t: Sys, u: string, j: Journey) {
    && u in t.runs && u in t.world.docs && t.world.docs[u].journey == j
    && t == s.(world := s.world.(docs := s.world.docs[u := t.world.docs[u]]), runs := s.runs[u := t.runs[u]])
  }

  lemma {:induction false} StumbleOnce(s: Sys, u: string) returns (t: Sys)
    requires Inv(s) && u in s.runs && s.runs[u].flight == None
    requires NeedsReply(s.runs[u].live.exec) && s.runs[u].live.exec.phase.Persisting?
    ensures Inv(t) && Reaches(s, t) && OnlyDocument(s, t, u, s.runs[u].live.exec.journey)
    ensures if s.runs[u].tries + 1 == MAXIMUM_ATTEMPTS then t.runs[u].live.exec.failed
            else t.runs[u].live == s.runs[u].live && t.runs[u].tries == s.runs[u].tries + 1 && t.runs[u].flight == None
  {
    RunFacts(s, u);
    var run := s.runs[u];
    PendingIs(StepsOf(s.catalog, run), FreshJourney(run.input, run.started), run.live.exec);
    var plan := StumblingPlan(s.world.tenant);
    StumbledWorld(s.world, run.live.exec.journey, plan, s.now);
    t := Serve(s, u, plan);
    StumbledHome(s, t, u, run.live.exec.journey);
  }

  lemma {:induction false} StumbledWorld(w: World, j: Journey, plan: Plan, now: Time)
    requires Stumbles(plan)
    ensures Attempt(w, Persist(j), plan, now) == (w.(docs := Replaced(w.docs, j, now)), Erred)
  {
  }

  lemma {:induction false} StumbledHome(s: Sys, t: Sys, u: string, j: Journey)
    requires Homes(s, t, u, Erred, true) && s.runs[u].live.exec.phase.Persisting?
    requires s.runs[u].live.exec.journey == j && j.userId == u
    requires t.world == s.world.(docs := Replaced(s.world.docs, j, s.now))
    ensures OnlyDocument(s, t, u, j)
    ensures if s.runs[u].tries + 1 == MAXIMUM_ATTEMPTS then t.runs[u].live.exec.failed
            else t.runs[u].live == s.runs[u].live && t.runs[u].tries == s.runs[u].tries + 1 && t.runs[u].flight == None
  {
    LandedErred(s.catalog, s.runs[u].(persisted := t.runs[u].persisted, attempts := t.runs[u].attempts), s.now);
  }

  lemma {:induction false} OnlyDocumentOn(s: Sys, mid: Sys, t: Sys, u: string, j: Journey)
    requires OnlyDocument(s, mid, u, j) && OnlyDocument(mid, t, u, j)
    ensures OnlyDocument(s, t, u, j)
  {
    assert s.runs[u := mid.runs[u]][u := t.runs[u]] == s.runs[u := t.runs[u]];
    assert s.world.docs[u := mid.world.docs[u]][u := t.world.docs[u]] == s.world.docs[u := t.world.docs[u]];
  }

  /** The run dies at its persist, leaving its document. */
  lemma {:induction false} Die(s: Sys, u: string) returns (t: Sys)
    requires Inv(s) && u in s.runs && s.runs[u].flight == None
    requires NeedsReply(s.runs[u].live.exec) && s.runs[u].live.exec.phase.Persisting?
    ensures Inv(t) && Reaches(s, t) && OnlyDocument(s, t, u, s.runs[u].live.exec.journey) && t.runs[u].live.exec.failed
    decreases MAXIMUM_ATTEMPTS - s.runs[u].tries
  {
    RunFacts(s, u);
    var mid := StumbleOnce(s, u);
    if s.runs[u].tries + 1 == MAXIMUM_ATTEMPTS {
      t := mid;
    } else {
      t := Die(mid, u);
      ReachesOn(s, mid, t);
      OnlyDocumentOn(s, mid, t, u, s.runs[u].live.exec.journey);
    }
  }

  const A_NAME := "ab"
  const A_VERTICAL := "v"
  const NAMING := Body.Input(Some(A_NAME), Some(A_VERTICAL), Some("yes"))

  /** The gate lets the name through. */
  lemma {:induction false} NameIsSent(c: Versions, verticals: set<string>, j: Journey, step: string)
    requires j.status == InProgress && !StepCompleted(j, step)
    requires StepInCatalog(c, j.version, step) && step == j.currentStep
    requires A_VERTICAL in verticals
    ensures Decide(c, verticals, j, step, NAMING) == Send(PayloadOf(NAMING)) && Good(PayloadOf(NAMING).displayName)
  {
    assert 'a' in A_NAME && 'v' in A_VERTICAL && 'y' in "yes";
  }

  /** The stored journey is at step k, in progress. */
  ghost predicate Stands(s: Sys, u: string, steps: seq<StepDef>, k: nat) {
    && k < |steps| && u in s.world.docs
    && var j := s.world.docs[u].journey;
       && j.status == InProgress && j.orgId == "" && j.version in s.catalog && s.catalog[j.version] == steps
       && j.currentStep == steps[k].name && !StepCompleted(j, steps[k].name)
  }

  /** A new run with the name in its mailbox. */
  ghost predicate Delivered(s: Sys, t: Sys, u: string, name: string) {
    && u in t.runs && t == s.(runs := s.runs[u := t.runs[u]], tickets := t.tickets)
    && var run := NewRun(s.catalog, u, s.now);
       && t.runs[u] == Told(s.catalog, run, Event.Signalled(Message(name, PayloadOf(NAMING), s.now)))
  }

  /** A request reads the journey, a new run starts, and the request concludes. */
  lemma {:induction false} Deliver(s: Sys, u: string, steps: seq<StepDef>, k: nat) returns (t: Sys)
    requires Inv(s) && Free(s, u) && Stands(s, u, steps, k) && A_VERTICAL in s.verticals
    ensures Inv(t) && Reaches(s, t) && Delivered(s, t, u, steps[k].name)
  {
    var name := steps[k].name;
    ReachesOne(s, ReadState(0, u, name, NAMING));
    var s1 := Next(s, ReadState(0, u, name, NAMING));
    var s2 := StartOn(s1, u);
    ReachesOn(s, s1, s2);
    assert steps[k] in steps;
    NameIsSent(s.catalog, s.verticals, s.world.docs[u].journey, name);
    ReachesOne(s2, Conclude(0));
    t := Next(s2, Conclude(0));
    ReachesOn(s, s2, t);
    ConcludedIs(s, s1, s2, u, name);
  }

  lemma {:induction false} ConcludedIs(s: Sys, s1: Sys, s2: Sys, u: string, name: string)
    requires s1 == s.(tickets := s1.tickets) && 0 in s1.tickets && s1.tickets[0] == Ticket(u, name, NAMING, DocOf(s, u))
    requires s2 == s1.(runs := s1.runs[u := NewRun(s1.catalog, u, s1.now)]) && Runnable(s2.catalog, s2.runs)
    requires u in s.world.docs
    requires Decide(s.catalog, s.verticals, s.world.docs[u].journey, name, NAMING) == Send(PayloadOf(NAMING))
    ensures Delivered(s, Next(s2, Conclude(0)), u, name)
  {
    var run := NewRun(s.catalog, u, s.now);
    var m := Message(name, PayloadOf(NAMING), s.now);
    assert IsOpen(s2.runs, u);
    assert s.runs[u := run][u := Told(s.catalog, run, Event.Signalled(m))]
           == s.runs[u := Told(s.catalog, run, Event.Signalled(m))];
  }

  /** A run there at a persist has no organisation, and neither has its user. */
  lemma {:induction false} NoOrgYet(s: Sys, u: string, steps: seq<StepDef>, to: Target, goal: Goal)
    requires Walking(s, u, steps, to, goal) && There(s, u, to) && !Organised(steps, to.i)
    ensures s.runs[u].live.exec.ctx.orgId == "" && s.runs[u].live.exec.journey.orgId == ""
    ensures !to.acting ==> OrgsOf(s.world.tenant, u) == {}
  {
    RunFacts(s, u);
  }

  lemma {:induction false} StandsAfter(s: Sys, t: Sys, u: string, steps: seq<StepDef>, k: nat, goal: Goal)
    requires Walking(s, u, steps, Target(k, false), goal)
    requires There(s, u, Target(k, false)) && !Organised(steps, k) && !Marked(steps, k)
    requires OnlyDocument(s, t, u, s.runs[u].live.exec.journey)
    requires forall x :: 0 <= x < k ==> steps[x].name != steps[k].name
    ensures Stands(t, u, steps, k)
  {
    RunFacts(s, u);
    RunIsOrderly(s.catalog, u, s.runs[u]);
    NoOrgYet(s, u, steps, Target(k, false), goal);
  }

  /** The first run goes to step k and dies there. */
  lemma {:induction false} FirstRun(s: Sys, u: string, steps: seq<StepDef>, k: nat, goal: Goal) returns (t: Sys)
    requires Inv(s) && steps == Steps(s.catalog, Latest(s.catalog))
    requires Free(s, u) && OrgsOf(s.world.tenant, u) == {} && NoId(s.world.docs, u)
    requires Way(goal, steps, Target(k, false)) && Kept(goal, s.world) && !Organised(steps, k) && !Marked(steps, k)
    requires forall x :: 0 <= x < k ==> steps[x].name != steps[k].name
    ensures Inv(t) && Reaches(s, t) && t.catalog == s.catalog
    ensures t.verticals == s.verticals && Free(t, u) && Stands(t, u, steps, k)
    ensures Kept(goal, t.world) && OrgsOf(t.world.tenant, u) == {}
  {
    var to := Target(k, false);
    var mid := Come(s, u, steps, to, goal);
    NoOrgYet(mid, u, steps, to, goal);
    RunFacts(mid, u);
    t := Die(mid, u);
    ReachesOn(s, mid, t);
    StandsAfter(mid, t, u, steps, k, goal);
  }

  /** A new run with one signal in its mailbox stands at the first step. */
  lemma {:induction false} NewRunTold(c: Versions, u: string, now: Time, m: Message)
    requires CATALOG_VERSION in c && Steps(c, Latest(c)) != []
    ensures var run := Told(c, NewRun(c, u, now), Event.Signalled(m));
            && StepsOf(c, run) == Steps(c, Latest(c)) && run.flight == None && !run.persisted
            && run.live.boxes == map[m.channel := [m]]
            && run.live.exec.index == 0 && run.live.exec.phase.Persisting? && !run.live.exec.failed
            && run.live.exec.ctx.orgId == ""
  {
    LatestIsPinned(c);
    assert Box(map[], m.channel) + [m] == [m];
  }

  /** The name in the mailbox is read before an organisation is to be made. */
  lemma {:induction false} NameIsComing(steps: seq<StepDef>, l: Live, m: Message, j: nat, f: nat, to: Target)
    requires FirstCreates(steps, f) && j <= f && to.i < |steps| && steps[j].signal == m.channel != ""
    requires l.boxes == map[m.channel := [m]] && l.exec.index == 0 && l.exec.phase.Persisting?
    ensures Named(steps, to, l)
  {
    assert Box(l.boxes, steps[j].signal) == [m];
    forall g | Acted(l.exec) <= g <= to.i && (g < to.i || to.acting) && steps[g].action == CREATE_ORGANISATION
      ensures Coming(steps, l, Heard(l.exec), g)
    {
      assert g >= f;
    }
  }

  lemma {:induction false} NamingIsGood()
    ensures Good(PayloadOf(NAMING).displayName)
  {
    assert 'a' in A_NAME;
  }

  /** The second run sets out with the name in its mailbox. */
  lemma {:induction false} SecondIsOnTheWay(s: Sys, t: Sys, u: string, steps: seq<StepDef>, k: nat, j: nat, f: nat,
                                            to: Target, goal: Goal)
    requires k < |steps| && Inv(s) && steps == Steps(s.catalog, Latest(s.catalog)) && Delivered(s, t, u, steps[k].name)
    requires j <= f && FirstCreates(steps, f) && steps[j].signal != "" && steps[j].signal == steps[k].name
    requires Way(goal, steps, to) && Kept(goal, s.world) && OrgsOf(s.world.tenant, u) == {} && NoId(s.world.docs, u)
    ensures Inv(t) ==> Walking(t, u, steps, to, goal)
  {
    var m := Message(steps[k].name, PayloadOf(NAMING), s.now);
    NewRunTold(s.catalog, u, s.now, m);
    NameIsComing(steps, t.runs[u].live, m, j, f, to);
    NamingIsGood();
  }

  lemma {:induction false} LatestIsPinned(c: Versions)
    requires CATALOG_VERSION in c
    ensures PinnedVersion(WorkflowInput("", Latest(c))) == Latest(c)
  {
  }

  /** A user sets out, and a name comes along where an organisation is to be made. */
  lemma {:induction false} SetOutNamed(s: Sys, u: string, steps: seq<StepDef>, f: nat, to: Target, goal: Goal)
    returns (t: Sys)
    requires Inv(s) && steps == Steps(s.catalog, Latest(s.catalog))
    requires Free(s, u) && OrgsOf(s.world.tenant, u) == {} && NoId(s.world.docs, u)
    requires A_VERTICAL in s.verticals && FirstCreates(steps, f) && NameArrives(steps, f) && f <= to.i
    requires Way(goal, steps, to) && Kept(goal, s.world)
    ensures Walking(t, u, steps, to, goal) && Reaches(s, t) && t.catalog == s.catalog
  {
    var j, at :|
      0 <= j <= f && 0 <= at <= f && steps[j].signal != "" && steps[j].signal == steps[at].name && !Marked(steps, at);
    var k := FirstOfName(steps, at);
    assert !Organised(steps, k);
    var mid := FirstRun(s, u, steps, k, goal);
    t := Deliver(mid, u, steps, k);
    ReachesOn(s, mid, t);
    SecondIsOnTheWay(mid, t, u, steps, k, j, f, to, goal);
  }

  /** A user comes to the target, with a name where one is needed. */
  lemma {:induction false} ComeNamed(s: Sys, u: string, steps: seq<StepDef>, to: Target, goal: Goal) returns (t: Sys)
    requires Inv(s) && steps == Steps(s.catalog, Latest(s.catalog))
    requires Free(s, u) && OrgsOf(s.world.tenant, u) == {} && NoId(s.world.docs, u)
    requires A_VERTICAL in s.verticals && Way(goal, steps, to) && Kept(goal, s.world)
    requires WellNamed(steps, to.i)
    requires to.acting && steps[to.i].action == CREATE_ORGANISATION ==> NameArrives(steps, to.i)
    ensures Walking(t, u, steps, to, goal) && There(t, u, to) && Reaches(s, t) && t.catalog == s.catalog
  {
    var mid: Sys;
    if NoName(steps, to) {
      mid := SetOut(s, u, steps, to, goal);
    } else {
      var f := to.i;
      if Organised(steps, to.i) {
        f := FirstCreator(steps, to.i);
      }
      mid := SetOutNamed(s, u, steps, f, to, goal);
    }
    t := Walk(mid, u, steps, to, goal);
    ReachesOn(s, mid, t);
  }
}
