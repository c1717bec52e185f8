/** Plays that get somewhere: for proving that a state can be reached. A run is walked to a
    step by attempts without failure, by the signals it waits for, and by a validated
    name where an organisation is to be made. */
module Walks {
  import opened Domain
  import opened Catalog
  import opened Executor
  import opened Replay
  import opened ReadModel
  import opened Faults
  import opened Auth0
  import opened Provisioning
  import opened Activities
  import opened Flights
  import opened Attempts
  import opened Server
  import opened System
  import opened Safety
  import opened Observation

  /** One move leads from s to t. */
  ghost predicate Leads(s: Sys, m: Move, t: Sys) {
    Runnable(s.catalog, s.runs) && Can(s, m) && t == Next(s, m)
  }

  lemma {:induction false} LastMove(s: Sys, moves: seq<Move>, t: Sys) returns (mid: Sys)
    requires Plays(s, moves, t) && moves != []
    ensures Plays(s, moves[..|moves| - 1], mid) && Leads(mid, moves[|moves| - 1], t)
  {
    var last := moves[|moves| - 1];
    var m: Sys :|
      Plays(s, moves[..|moves| - 1], m) && Runnable(m.catalog, m.runs) && Can(m, last) && t == Next(m, last);
    mid := m;
  }

  lemma {:induction false} PlaysSnoc(s: Sys, moves: seq<Move>, mid: Sys, m: Move, t: Sys)
    requires Plays(s, moves, mid) && Leads(mid, m, t)
    ensures Plays(s, moves + [m], t)
  {
    assert (moves + [m])[..|moves|] == moves;
  }

  lemma {:induction false} PlaysOn(s: Sys, a: seq<Move>, mid: Sys, b: seq<Move>, t: Sys)
    requires Plays(s, a, mid) && Plays(mid, b, t)
    ensures Plays(s, a + b, t)
    decreases |b|
  {
    if b == [] {
      assert a + b == a;
    } else {
      var before, last := b[..|b| - 1], b[|b| - 1];
      var m := LastMove(mid, b, t);
      PlaysOn(s, a, mid, before, m);
      PlaysSnoc(s, a + before, m, last, t);
      assert a + b == (a + before) + [last];
    }
  }

  predicate NoDeploys(moves: seq<Move>) {
    forall m :: m in moves ==> !m.Deploy?
  }

  /** Some sequence of moves without a deployment leads from s to t. */
  ghost predicate Reaches(s: Sys, t: Sys) {
    exists moves :: Plays(s, moves, t) && NoDeploys(moves)
  }

  lemma {:induction false} ReachesOn(s: Sys, mid: Sys, t: Sys)
    requires Reaches(s, mid) && Reaches(mid, t)
    ensures Reaches(s, t)
  {
    var a :| Plays(s, a, mid) && NoDeploys(a);
    var b :| Plays(mid, b, t) && NoDeploys(b);
    PlaysOn(s, a, mid, b, t);
    assert NoDeploys(a + b);
  }

  lemma {:induction false} ReachesOne(s: Sys, m: Move)
    requires Inv(s) && Can(s, m) && !m.Deploy?
    ensures Runnable(s.catalog, s.runs) && Reaches(s, Next(s, m)) && Inv(Next(s, m))
  {
    NextKeepsInv(s, m);
    assert [m][..0] == [];
    assert Plays(s, [], s);
    assert Plays(s, [m], Next(s, m));
  }

  lemma {:induction false} CatalogStays(s: Sys, moves: seq<Move>, t: Sys)
    requires Plays(s, moves, t) && NoDeploys(moves)
    ensures t.catalog == s.catalog
    decreases |moves|
  {
    if moves != [] {
      var mid := LastMove(s, moves, t);
      assert NoDeploys(moves[..|moves| - 1]);
      CatalogStays(s, moves[..|moves| - 1], mid);
      DeployAloneChangesCatalog(mid, moves[|moves| - 1]);
    }
  }

  /** What a run's attempt leaves of the service when it flies home undisturbed and ends
      in r; `wrote` says that it has written the run's document. */
  ghost predicate Homes(s: Sys, t: Sys, u: string, r: Result<Answer>, wrote: bool) {
    && u in s.runs && u in t.runs && Placed(StepsOf(s.catalog, s.runs[u]), s.runs[u].live.exec) && Busy(s.runs[u])
    && t == s.(world := t.world, runs := s.runs[u := t.runs[u]])
    && (s.runs[u].persisted || wrote ==> t.runs[u].persisted)
    && var on := s.runs[u].(persisted := t.runs[u].persisted, attempts := t.runs[u].attempts);
       t.runs[u] == Landed(s.catalog, on, r, s.now)
  }

  /** The flight can finish by itself. */
  predicate Homeward(w: World, f: Flight) {
    && Fit(f) && !f.stage.Over?
    && (f.stage.Find? || f.stage.Token? || f.stage.List? || f.stage.Create? ==> CanMint(w.tenant, f.plan.orgId))
  }

  predicate WritesHome(f: Flight) {
    f.command.Persist? && f.plan.At(STORE).Lands()
  }

  lemma {:induction false} CallSolo(w: World, f: Flight)
    requires Fit(f) && !f.stage.Over?
    ensures var (w', stage) := Call(w, f);
            Solo(w, f) == if stage.Over? then (w', stage.result) else Solo(w', f.(stage := stage))
    ensures var stage := Call(w, f).1; f.stage.Store? ==> stage.Over?
  {
    SoloStep(w, f);
  }

  lemma {:induction false} CallSparesMint(w: World, f: Flight)
    requires Fit(f) && !f.stage.Over?
    ensures var (w', stage) := Call(w, f);
            stage.Find? || stage.Token? || stage.List? || stage.Create? ==>
              w'.tenant == w.tenant && (f.stage.Find? || f.stage.Token? || f.stage.List?)
  {
  }

  lemma {:induction false} AdvancedLands(c: Versions, run: Run, stage: Stage, now: Time)
    requires Placed(StepsOf(c, run), run.live.exec) && Flying(run) && stage.Over?
    ensures var after := Advanced(c, run, stage, now);
            && after == Landed(c, run.(persisted := after.persisted, attempts := after.attempts), stage.result, now)
            && (run.persisted || Writes(run.flight.value) ==> after.persisted)
  {
  }

  lemma {:induction false} LastCall(s: Sys, u: string)
    requires Inv(s) && Runnable(s.catalog, s.runs) && Can(s, Proceed(u)) && Homeward(s.world, s.runs[u].flight.value)
    requires Call(s.world, s.runs[u].flight.value).1.Over?
    ensures var f := s.runs[u].flight.value;
            var (w, r) := Solo(s.world, f);
            AfterProceed(s, u).world == w && Homes(s, AfterProceed(s, u), u, r, WritesHome(f))
  {
    var f := s.runs[u].flight.value;
    CallSolo(s.world, f);
    AdvancedLands(s.catalog, s.runs[u], Call(s.world, f).1, s.now);
  }

  lemma {:induction false} NextCall(s: Sys, u: string)
    requires Inv(s) && Runnable(s.catalog, s.runs) && Can(s, Proceed(u)) && Homeward(s.world, s.runs[u].flight.value)
    requires !Call(s.world, s.runs[u].flight.value).1.Over?
    ensures var f := s.runs[u].flight.value;
            var (w, stage) := Call(s.world, f);
            var g := f.(stage := stage);
            && AfterProceed(s, u) == s.(world := w, runs := s.runs[u := s.runs[u].(flight := Some(g))])
            && Homeward(w, g) && Left(g) < Left(f) && Solo(w, g) == Solo(s.world, f)
  {
    CallSolo(s.world, s.runs[u].flight.value);
    CallSparesMint(s.world, s.runs[u].flight.value);
  }

  /** One call of a flight on its way home. */
  lemma {:induction false} OneCall(s: Sys, u: string) returns (mid: Sys)
    requires Inv(s) && u in s.runs && Flying(s.runs[u]) && Homeward(s.world, s.runs[u].flight.value)
    ensures Inv(mid) && Reaches(s, mid)
    ensures var f := s.runs[u].flight.value;
            var (w, stage) := Call(s.world, f);
            var g := f.(stage := stage);
            if stage.Over? then mid.world == Solo(s.world, f).0 && Homes(s, mid, u, Solo(s.world, f).1, WritesHome(f))
            else
              && mid == s.(world := w, runs := s.runs[u := s.runs[u].(flight := Some(g))])
              && Homeward(w, g) && Left(g) < Left(f) && Solo(w, g) == Solo(s.world, f)
  {
    ReachesOne(s, Proceed(u));
    mid := AfterProceed(s, u);
    if Call(s.world, s.runs[u].flight.value).1.Over? {
      LastCall(s, u);
    } else {
      NextCall(s, u);
    }
  }

  /** Whatever the attempt under way and the count of attempts were. */
  lemma {:induction false} HomesLater(s: Sys, u: string, w: World, run: Run, t: Sys, r: Result<Answer>, wrote: bool)
    requires u in s.runs && run == s.runs[u].(attempts := run.attempts, flight := run.flight)
    requires Homes(s.(world := w, runs := s.runs[u := run]), t, u, r, wrote)
    ensures Homes(s, t, u, r, wrote)
  {
    assert s.runs[u := run][u := t.runs[u]] == s.runs[u := t.runs[u]];
  }

  /** The attempt under way flies home. */
  lemma {:induction false} FlyHome(s: Sys, u: string) returns (t: Sys)
    requires Inv(s) && u in s.runs && Flying(s.runs[u]) && Homeward(s.world, s.runs[u].flight.value)
    ensures Inv(t) && Reaches(s, t)
    ensures var f := s.runs[u].flight.value;
            var (w, r) := Solo(s.world, f);
            t.world == w && Homes(s, t, u, r, WritesHome(f))
    decreases Left(s.runs[u].flight.value)
  {
    var f := s.runs[u].flight.value;
    t := OneCall(s, u);
    if !Call(s.world, f).1.Over? {
      var (w, stage) := Call(s.world, f);
      var mid := t;
      t := FlyHome(mid, u);
      ReachesOn(s, mid, t);
      HomesLater(s, u, w, mid.runs[u], t, Solo(s.world, f).1, WritesHome(f));
    }
  }

  lemma {:induction false} DepartureIs(s: Sys, u: string, plan: Plan)
    requires Can(s, Depart(u, plan))
    ensures var f := Departure(Pending(s.runs[u].live.exec), plan, s.now);
            AfterDepart(s, u, plan)
            == s.(runs := s.runs[u := s.runs[u].(attempts := s.runs[u].attempts + 1, flight := Some(f))])
  {
  }

  lemma {:induction false} DepartOn(s: Sys, u: string, plan: Plan) returns (t: Sys)
    requires Inv(s) && u in s.runs && Busy(s.runs[u]) && s.runs[u].flight == None
    ensures Inv(t) && Reaches(s, t)
    ensures var f := Departure(Pending(s.runs[u].live.exec), plan, s.now);
            t == s.(runs := s.runs[u := s.runs[u].(attempts := s.runs[u].attempts + 1, flight := Some(f))])
  {
    ReachesOne(s, Depart(u, plan));
    DepartureIs(s, u, plan);
    t := Next(s, Depart(u, plan));
  }

  /** An attempt from its departure to its end, whatever the plan. */
  lemma {:induction false} Serve(s: Sys, u: string, plan: Plan) returns (t: Sys)
    requires Inv(s) && u in s.runs && Busy(s.runs[u]) && s.runs[u].flight == None && CanMint(s.world.tenant, plan.orgId)
    ensures Inv(t) && Reaches(s, t)
    ensures var c := Pending(s.runs[u].live.exec);
            var (w, r) := Attempt(s.world, c, plan, s.now);
            t.world == w && Homes(s, t, u, r, c.Persist? && plan.At(STORE).Lands())
  {
    var c := Pending(s.runs[u].live.exec);
    SoloIsAttempt(s.world, c, plan, s.now);
    var mid := DepartOn(s, u, plan);
    t := FlyHome(mid, u);
    ReachesOn(s, mid, t);
    HomesLater(s, u, s.world, mid.runs[u], t, Attempt(s.world, c, plan, s.now).1, c.Persist? && plan.At(STORE).Lands());
  }

  /** An attempt with no failure, and a fresh id should it need one. */
  predicate Faultless(t: Tenant, plan: Plan) {
    plan.faults == [] && plan.letters == {} && CanMint(t, plan.orgId)
  }

  lemma {:induction false} LongerThanAll(xs: set<string>) returns (n: nat)
    ensures forall x :: x in xs ==> |x| < n
    decreases |xs|
  {
    if x :| x in xs {
      var m := LongerThanAll(xs - {x});
      n := if m > |x| then m else |x| + 1;
    } else {
      n := 0;
    }
  }

  lemma {:induction false} FreshOrg(t: Tenant) returns (org: string)
    ensures CanMint(t, org)
  {
    var n := LongerThanAll(t.minted);
    org := seq(n + 1, i => 'o');
  }

  lemma {:induction false} FreshPlan(t: Tenant) returns (plan: Plan)
    ensures Faultless(t, plan)
  {
    var org := FreshOrg(t);
    plan := Plan([], {}, org, "", "");
  }

  /** A name the organisation creator takes. */
  predicate Good(name: string) {
    ValidDisplayName(name, {})
  }

  /** What a walk keeps: only the record of the empty org id lists r, and only if so said;
      or there is no record at all; or the user has no organisation; or nothing. */
  datatype Goal = Lack(r: Resource, shared: bool) | Quiet | Orgless(user: string) | Any

  predicate Kept(goal: Goal, w: World) {
    match goal
    case Lack(r, shared) => forall o :: o in w.recs && KeyOf(r) in w.recs[o].resources ==> o == "" && shared
    case Quiet => w.recs == map[]
    case Orgless(u) => OrgsOf(w.tenant, u) == {}
    case Any => true
  }

  /** A step that can be walked past. */
  predicate Passable(goal: Goal, steps: seq<StepDef>, k: nat)
    requires k < |steps|
  {
    && (steps[k].action != "" ==> steps[k].action in RegisteredActions)
    && match goal
       case Lack(r, shared) => ResourceOf(steps[k].action) == Some(r) ==> !Organised(steps, k) && shared
       case Quiet => ResourceOf(steps[k].action).None? && steps[k].action != COMPLETE_PROVISIONING
       case Orgless(_) => steps[k].action != CREATE_ORGANISATION
       case Any => true
  }

  /** Where a walk ends: with the persist or with the action of step i pending. */
  datatype Target = Target(i: nat, acting: bool)

  predicate Way(goal: Goal, steps: seq<StepDef>, to: Target) {
    && to.i < |steps| && (to.acting ==> steps[to.i].action != "")
    && forall k :: 0 <= k < to.i ==> Passable(goal, steps, k)
  }

  predicate AtTarget(to: Target, e: Exec) {
    !e.failed && e.index == to.i && if to.acting then e.phase.Acting? else e.phase.Persisting?
  }

  /** On the way. */
  predicate Towards(steps: seq<StepDef>, to: Target, e: Exec)
    requires to.i < |steps|
  {
    && !e.failed && e.index <= to.i && !e.phase.Finalising? && !e.phase.Finished?
    && (e.index == to.i ==> if to.acting then !e.phase.Emitting? else e.phase.Persisting?)
    && (e.ctx.orgId != "" ==> Organised(steps, Acted(e)))
  }

  /** Every unread signal carries a good name. */
  ghost predicate Laden(l: Live) {
    forall c: string, m :: m in Box(l.boxes, c) ==> Good(m.payload.displayName)
  }

  /** Some unread signal is read by a step from k up to f. */
  predicate Coming(steps: seq<StepDef>, l: Live, k: nat, f: nat) {
    exists j :: k <= j <= f && j < |steps| && steps[j].signal != "" && Box(l.boxes, steps[j].signal) != []
  }

  /** Wherever an organisation is to be made on the way, a name will be there. */
  predicate Named(steps: seq<StepDef>, to: Target, l: Live)
    requires to.i < |steps|
  {
    forall f :: Acted(l.exec) <= f <= to.i && (f < to.i || to.acting) && steps[f].action == CREATE_ORGANISATION ==>
      Good(l.exec.ctx.displayName) || Coming(steps, l, Heard(l.exec), f)
  }

  function Rank(steps: seq<StepDef>, e: Exec): nat
    requires e.index <= |steps|
  {
    4 * (|steps| - e.index) +
    match e.phase
    case Persisting => 3
    case Awaiting => 2
    case Acting => 1
    case _ => 0
  }

  lemma {:induction false} OrganisedOn(steps: seq<StepDef>, i: nat, k: nat)
    requires i <= k <= |steps| && Organised(steps, i)
    ensures Organised(steps, k)
  {
  }

  lemma {:induction false} MessageTowards(steps: seq<StepDef>, to: Target, e: Exec, m: Message)
    requires Placed(steps, e) && NeedsSignal(e) && to.i < |steps|
    requires (to.acting ==> steps[to.i].action != "") && Towards(steps, to, e)
    ensures var t := OnMessage(steps, e, m); Towards(steps, to, t) && Rank(steps, t) < Rank(steps, e)
    ensures var t := OnMessage(steps, e, m);
            t.ctx.displayName == if m.payload.displayName != "" then m.payload.displayName else e.ctx.displayName
  {
    if e.ctx.orgId != "" {
      OrganisedOn(steps, e.index, e.index + 1);
    }
  }

  lemma {:induction false} ReplyTowards(steps: seq<StepDef>, to: Target, e: Exec, r: Reply)
    requires Placed(steps, e) && NeedsReply(e) && to.i < |steps|
    requires (to.acting ==> steps[to.i].action != "") && Towards(steps, to, e)
    requires r.Success? && !AtTarget(to, e)
    requires e.phase.Acting? && r.orgId != "" ==> steps[e.index].action == CREATE_ORGANISATION
    ensures var t := OnReply(steps, e, r);
            && Towards(steps, to, t) && Rank(steps, t) < Rank(steps, e) && t.ctx.displayName == e.ctx.displayName
            && Heard(e) <= Heard(t) && Acted(e) <= Acted(t)
            && forall j :: Heard(e) <= j < Heard(t) ==> steps[j].signal == ""
  {
    if e.ctx.orgId != "" && Acted(e) <= e.index {
      OrganisedOn(steps, e.index, e.index + 1);
    }
  }

  lemma {:induction false} ReplyNamed(steps: seq<StepDef>, to: Target, l: Live, t: Exec)
    requires to.i < |steps| && Named(steps, to, l) && t.ctx.displayName == l.exec.ctx.displayName
    requires Heard(l.exec) <= Heard(t) && Acted(l.exec) <= Acted(t)
    requires forall j :: Heard(l.exec) <= j < Heard(t) && j < |steps| ==> steps[j].signal == ""
    ensures Named(steps, to, l.(exec := t))
  {
    forall f | Acted(t) <= f <= to.i && (f < to.i || to.acting) && steps[f].action == CREATE_ORGANISATION
      && !Good(t.ctx.displayName)
      ensures Coming(steps, l.(exec := t), Heard(t), f)
    {
      assert Coming(steps, l, Heard(l.exec), f);
    }
  }

  /** Reading from the mailbox brings a good name. */
  lemma {:induction false} SettleNamed(steps: seq<StepDef>, to: Target, l: Live)
    requires Placed(steps, l.exec) && to.i < |steps|
    requires (to.acting ==> steps[to.i].action != "") && Towards(steps, to, l.exec)
    requires Laden(l) && Named(steps, to, l)
    ensures var t := Settle(steps, l);
            Towards(steps, to, t.exec) && Rank(steps, t.exec) <= Rank(steps, l.exec) && Laden(t) && Named(steps, to, t)
  {
    if NeedsSignal(l.exec) && Box(l.boxes, steps[l.exec.index].signal) != [] {
      var box := Box(l.boxes, steps[l.exec.index].signal);
      assert box[0] in box;
      MessageTowards(steps, to, l.exec, box[0]);
      var t := Settle(steps, l);
      forall c: string, m | m in Box(t.boxes, c)
        ensures m in Box(l.boxes, c)
      {
      }
    }
  }

  /** An answer on the way. */
  lemma {:induction false} AnswerTowards(steps: seq<StepDef>, to: Target, l: Live, r: Reply)
    requires Placed(steps, l.exec) && NeedsReply(l.exec) && to.i < |steps| && (to.acting ==> steps[to.i].action != "")
    requires Towards(steps, to, l.exec) && Laden(l) && Named(steps, to, l)
    requires r.Success? && !AtTarget(to, l.exec)
    requires l.exec.phase.Acting? && r.orgId != "" ==> steps[l.exec.index].action == CREATE_ORGANISATION
    ensures var t := React(steps, l, Replied(r));
            Towards(steps, to, t.exec) && Rank(steps, t.exec) < Rank(steps, l.exec) && Laden(t) && Named(steps, to, t)
  {
    ReplyTowards(steps, to, l.exec, r);
    var on := l.(exec := OnReply(steps, l.exec, r));
    ReplyNamed(steps, to, l, on.exec);
    SettleNamed(steps, to, on);
  }

  /** A signal without a name, read as it arrives. */
  lemma {:induction false} SignalTowards(steps: seq<StepDef>, to: Target, l: Live, t: Live, m: Message)
    requires Placed(steps, l.exec) && NeedsSignal(l.exec) && to.i < |steps| && (to.acting ==> steps[to.i].action != "")
    requires Towards(steps, to, l.exec) && Laden(l) && Named(steps, to, l)
    requires Box(l.boxes, steps[l.exec.index].signal) == [] && m.payload == NO_PAYLOAD
    requires t.exec == OnMessage(steps, l.exec, m) && forall c: string :: Box(t.boxes, c) == Box(l.boxes, c)
    ensures Towards(steps, to, t.exec) && Rank(steps, t.exec) < Rank(steps, l.exec) && Laden(t) && Named(steps, to, t)
  {
    MessageTowards(steps, to, l.exec, m);
    forall f | Acted(t.exec) <= f <= to.i && (f < to.i || to.acting) && steps[f].action == CREATE_ORGANISATION
                && !Good(t.exec.ctx.displayName)
      ensures Coming(steps, t, Heard(t.exec), f)
    {
      assert Coming(steps, l, Heard(l.exec), f);
      var j :| Heard(l.exec) <= j <= f && j < |steps| && steps[j].signal != "" && Box(l.boxes, steps[j].signal) != [];
      assert Box(t.boxes, steps[j].signal) != [];
    }
  }

  /** Nothing in the stores will hold the user's run up. */
  predicate Unblocked(w: World, u: string, persisted: bool) {
    !Stranded(w, u) && (!persisted ==> NoId(w.docs, u))
  }

  /** No other user has come by a document or a membership. */
  ghost predicate Spared(w: World, w': World, u: string) {
    forall v: string :: v != u ==> (v in w'.docs ==> v in w.docs) && OrgsOf(w'.tenant, v) <= OrgsOf(w.tenant, v)
  }

  /** How a faultless attempt goes on the way. */
  ghost predicate Served(w: World, c: Command, plan: Plan, now: Time, u: string, persisted: bool, goal: Goal) {
    var (w', r) := Attempt(w, c, plan, now);
    && r.Done? && Unblocked(w', u, persisted || c.Persist?) && Kept(goal, w')
    && (r.value.orgId != "" ==> c.Act? && c.action == CREATE_ORGANISATION)
    && Spared(w, w', u)
  }

  lemma {:induction false} PersistServed(w: World, steps: seq<StepDef>, blank: Journey, e: Exec, persisted: bool,
                                         plan: Plan, now: Time, goal: Goal)
    requires Orderly(steps, blank, e) && NeedsReply(e) && !Settled(e)
    requires e.issued != [] && Pending(e) == Persist(e.journey)
    requires Anchored(w, steps, blank.userId, e, persisted) && Unblocked(w, blank.userId, persisted)
    requires Faultless(w.tenant, plan) && Kept(goal, w)
    ensures Served(w, Pending(e), plan, now, blank.userId, persisted, goal)
  {
  }

  lemma {:induction false} CreateServed(w: World, input: ActionInput, plan: Plan, now: Time, goal: Goal)
    requires Unblocked(w, input.userId, true) && Faultless(w.tenant, plan)
    requires Kept(goal, w) && !goal.Orgless? && Good(input.displayName)
    ensures Served(w, Act(CREATE_ORGANISATION, input), plan, now, input.userId, true, goal)
  {
  }

  lemma {:induction false} ProvisionServed(w: World, r: Resource, input: ActionInput, plan: Plan, now: Time, goal: Goal,
                                           steps: seq<StepDef>, k: nat)
    requires Consistent(w) && Unblocked(w, input.userId, true) && Faultless(w.tenant, plan)
    requires k < |steps| && Kept(goal, w) && Passable(goal, steps, k) && ResourceOf(steps[k].action) == Some(r)
    requires input.orgId != "" ==> Organised(steps, k)
    ensures var (w', a) := ProvisionSpec(w, r, input, plan, now);
            && a == Done(Answer("", "")) && w'.docs == w.docs && w'.tenant == w.tenant && Kept(goal, w')
  {
    RetryCompletes(w, r, input, plan, now);
    if goal.Lack? {
      KeysDiffer(r, goal.r);
    }
  }

  lemma {:induction false} ActionServed(w: World, steps: seq<StepDef>, blank: Journey, l: Live, persisted: bool,
                                        plan: Plan, now: Time, goal: Goal, to: Target)
    requires Orderly(steps, blank, l.exec) && NeedsReply(l.exec)
    requires l.exec.phase.Acting? && l.exec.index < to.i && l.exec.issued != []
    requires Pending(l.exec) == Act(steps[l.exec.index].action, InputOf(l.exec)) && Consistent(w)
    requires Anchored(w, steps, blank.userId, l.exec, persisted) && Unblocked(w, blank.userId, persisted)
    requires Faultless(w.tenant, plan) && Kept(goal, w) && Way(goal, steps, to) && Towards(steps, to, l.exec)
    requires Named(steps, to, l)
    ensures Served(w, Pending(l.exec), plan, now, blank.userId, persisted, goal)
  {
    ActionsDiffer();
    var e, action := l.exec, steps[l.exec.index].action;
    assert Passable(goal, steps, e.index);
    if action == CREATE_ORGANISATION {
      assert Good(e.ctx.displayName) || Coming(steps, l, Heard(e), e.index);
      CreateServed(w, InputOf(e), plan, now, goal);
    } else if ResourceOf(action).Some? {
      ProvisionServed(w, ResourceOf(action).value, InputOf(e), plan, now, goal, steps, e.index);
    }
  }

  /** On the way every activity answers. */
  lemma {:induction false} AllServed(w: World, steps: seq<StepDef>, blank: Journey, l: Live, persisted: bool,
                                     plan: Plan, now: Time, goal: Goal, to: Target)
    requires Orderly(steps, blank, l.exec) && NeedsReply(l.exec) && Consistent(w)
    requires Anchored(w, steps, blank.userId, l.exec, persisted) && Unblocked(w, blank.userId, persisted)
    requires Faultless(w.tenant, plan) && Kept(goal, w) && Way(goal, steps, to) && Towards(steps, to, l.exec)
    requires Named(steps, to, l) && !AtTarget(to, l.exec)
    ensures l.exec.issued != [] && Served(w, Pending(l.exec), plan, now, blank.userId, persisted, goal)
  {
    PendingIs(steps, blank, l.exec);
    if l.exec.phase.Acting? {
      ActionServed(w, steps, blank, l, persisted, plan, now, goal, to);
    } else if l.exec.phase.Persisting? {
      PersistServed(w, steps, blank, l.exec, persisted, plan, now, goal);
    }
  }

  /** A run on its way to the target, with nothing to hold it up. */
  ghost predicate OnTheWay(s: Sys, u: string, steps: seq<StepDef>, to: Target, goal: Goal) {
    && u in s.runs && s.runs[u].flight == None && StepsOf(s.catalog, s.runs[u]) == steps
    && Way(goal, steps, to) && Towards(steps, to, s.runs[u].live.exec)
    && Laden(s.runs[u].live) && Named(steps, to, s.runs[u].live)
    && Unblocked(s.world, u, s.runs[u].persisted) && Kept(goal, s.world)
  }

  ghost predicate Walking(s: Sys, u: string, steps: seq<StepDef>, to: Target, goal: Goal) {
    Inv(s) && OnTheWay(s, u, steps, to, goal)
  }

  /** Only the user's own run has moved. */
  ghost predicate Beside(s: Sys, t: Sys, u: string) {
    u in t.runs && t == s.(world := t.world, runs := s.runs[u := t.runs[u]]) && Spared(s.world, t.world, u)
  }

  lemma {:induction false} BesideOn(s: Sys, mid: Sys, t: Sys, u: string)
    requires Beside(s, mid, u) && Beside(mid, t, u)
    ensures Beside(s, t, u)
  {
    assert s.runs[u := mid.runs[u]][u := t.runs[u]] == s.runs[u := t.runs[u]];
  }

  predicate There(s: Sys, u: string, to: Target) {
    u in s.runs && AtTarget(to, s.runs[u].live.exec)
  }

  function RankOf(s: Sys, u: string, steps: seq<StepDef>): nat {
    if u in s.runs && s.runs[u].live.exec.index <= |steps| then Rank(steps, s.runs[u].live.exec) else 0
  }

  /** An attempt that came home with an answer. */
  lemma {:induction false} AnswerIsStep(s: Sys, t: Sys, u: string, a: Answer, wrote: bool, steps: seq<StepDef>,
                                        to: Target, goal: Goal)
    requires OnTheWay(s, u, steps, to, goal) && Homes(s, t, u, Done(a), wrote) && !There(s, u, to)
    requires Unblocked(t.world, u, s.runs[u].persisted || wrote) && Kept(goal, t.world) && Spared(s.world, t.world, u)
    requires s.runs[u].live.exec.phase.Acting? && a.orgId != "" ==>
             steps[s.runs[u].live.exec.index].action == CREATE_ORGANISATION
    ensures OnTheWay(t, u, steps, to, goal) && RankOf(t, u, steps) < RankOf(s, u, steps) && Beside(s, t, u)
  {
    AnswerTowards(steps, to, s.runs[u].live, Success(a.orgId, a.email, s.now));
  }

  lemma {:induction false} WalkServed(s: Sys, u: string, steps: seq<StepDef>, to: Target, goal: Goal, plan: Plan)
    requires Walking(s, u, steps, to, goal) && NeedsReply(s.runs[u].live.exec)
    requires !There(s, u, to) && Faultless(s.world.tenant, plan)
    ensures Busy(s.runs[u])
    ensures Served(s.world, Pending(s.runs[u].live.exec), plan, s.now, u, s.runs[u].persisted, goal)
    ensures s.runs[u].live.exec.phase.Acting? ==>
              && s.runs[u].live.exec.index < |steps|
              && Pending(s.runs[u].live.exec)
                == Act(steps[s.runs[u].live.exec.index].action, InputOf(s.runs[u].live.exec))
  {
    RunFacts(s, u);
    var run := s.runs[u];
    AllServed(s.world, steps, FreshJourney(run.input, run.started), run.live, run.persisted, plan, s.now, goal, to);
    PendingIs(steps, FreshJourney(run.input, run.started), run.live.exec);
  }

  lemma {:induction false} WalkAnswer(s: Sys, u: string, steps: seq<StepDef>, to: Target, goal: Goal) returns (t: Sys)
    requires Walking(s, u, steps, to, goal) && NeedsReply(s.runs[u].live.exec) && !There(s, u, to)
    ensures Walking(t, u, steps, to, goal)
    ensures RankOf(t, u, steps) < RankOf(s, u, steps) && Beside(s, t, u) && Reaches(s, t)
  {
    var plan := FreshPlan(s.world.tenant);
    WalkServed(s, u, steps, to, goal, plan);
    t := Serve(s, u, plan);
    var c := Pending(s.runs[u].live.exec);
    AnswerIsStep(s, t, u, Attempt(s.world, c, plan, s.now).1.value, c.Persist?, steps, to, goal);
  }

  lemma {:induction false} ToldMovesOn(c: Versions, run: Run, m: Message)
    requires Placed(StepsOf(c, run), run.live.exec) && NeedsSignal(run.live.exec)
    requires StepsOf(c, run)[run.live.exec.index].signal == m.channel && Box(run.live.boxes, m.channel) == []
    ensures var after := Told(c, run, Event.Signalled(m));
            && after == run.(history := after.history, live := after.live)
            && after.live.exec == OnMessage(StepsOf(c, run), run.live.exec, m)
            && forall x: string :: Box(after.live.boxes, x) == Box(run.live.boxes, x)
  {
  }

  lemma {:induction false} SignalMovesOn(s: Sys, u: string, name: string)
    requires Runnable(s.catalog, s.runs) && IsOpen(s.runs, u) && NeedsSignal(s.runs[u].live.exec)
    requires var l, steps := s.runs[u].live, StepsOf(s.catalog, s.runs[u]);
             steps[l.exec.index].signal == name && Box(l.boxes, name) == []
    ensures Next(s, RecordStep(u, name))
         == s.(runs := s.runs[u := Told(s.catalog, s.runs[u], Event.Signalled(Message(name, NO_PAYLOAD, s.now)))])
  {
  }

  lemma {:induction false} SignalOn(s: Sys, u: string) returns (t: Sys, m: Message)
    requires Inv(s) && u in s.runs && NeedsSignal(s.runs[u].live.exec)
    ensures Inv(t) && Reaches(s, t) && Beside(s, t, u) && t.world == s.world && m.payload == NO_PAYLOAD
    ensures t.runs[u].input == s.runs[u].input && t.runs[u].flight == s.runs[u].flight
    ensures t.runs[u].persisted == s.runs[u].persisted
    ensures var steps := StepsOf(s.catalog, s.runs[u]);
            && Placed(steps, s.runs[u].live.exec)
            && Box(s.runs[u].live.boxes, steps[s.runs[u].live.exec.index].signal) == []
            && t.runs[u].live.exec == OnMessage(steps, s.runs[u].live.exec, m)
            && forall c: string :: Box(t.runs[u].live.boxes, c) == Box(s.runs[u].live.boxes, c)
  {
    IdleRunAwaitsSignal(s, u);
    var name := StepsOf(s.catalog, s.runs[u])[s.runs[u].live.exec.index].signal;
    ReachesOne(s, RecordStep(u, name));
    SignalMovesOn(s, u, name);
    ToldMovesOn(s.catalog, s.runs[u], Message(name, NO_PAYLOAD, s.now));
    t, m := Next(s, RecordStep(u, name)), Message(name, NO_PAYLOAD, s.now);
  }

  /** A signal without a name, as the service delivers it. */
  lemma {:induction false} SignalIsStep(s: Sys, t: Sys, u: string, m: Message, steps: seq<StepDef>, to: Target,
                                        goal: Goal)
    requires OnTheWay(s, u, steps, to, goal) && Beside(s, t, u) && t.world == s.world && m.payload == NO_PAYLOAD
    requires t.runs[u].input == s.runs[u].input && t.runs[u].flight == s.runs[u].flight
    requires t.runs[u].persisted == s.runs[u].persisted
    requires Placed(steps, s.runs[u].live.exec) && NeedsSignal(s.runs[u].live.exec)
    requires Box(s.runs[u].live.boxes, steps[s.runs[u].live.exec.index].signal) == []
    requires t.runs[u].live.exec == OnMessage(steps, s.runs[u].live.exec, m)
    requires forall c: string :: Box(t.runs[u].live.boxes, c) == Box(s.runs[u].live.boxes, c)
    ensures OnTheWay(t, u, steps, to, goal) && RankOf(t, u, steps) < RankOf(s, u, steps)
  {
    SignalTowards(steps, to, s.runs[u].live, t.runs[u].live, m);
  }

  /** The internal endpoint sends the signal the run waits for. */
  lemma {:induction false} WalkSignal(s: Sys, u: string, steps: seq<StepDef>, to: Target, goal: Goal) returns (t: Sys)
    requires Walking(s, u, steps, to, goal) && NeedsSignal(s.runs[u].live.exec)
    ensures Walking(t, u, steps, to, goal)
    ensures RankOf(t, u, steps) < RankOf(s, u, steps) && Beside(s, t, u) && Reaches(s, t)
  {
    var m;
    t, m := SignalOn(s, u);
    SignalIsStep(s, t, u, m, steps, to, goal);
  }

  lemma {:induction false} StayPut(s: Sys, u: string)
    requires u in s.runs
    ensures Reaches(s, s) && Beside(s, s, u)
  {
    assert Plays(s, [], s) && NoDeploys([]);
    assert s.runs[u := s.runs[u]] == s.runs;
  }

  lemma {:induction false} WalkOn(s: Sys, u: string, steps: seq<StepDef>, to: Target, goal: Goal) returns (t: Sys)
    requires Walking(s, u, steps, to, goal) && !There(s, u, to)
    ensures Walking(t, u, steps, to, goal)
    ensures RankOf(t, u, steps) < RankOf(s, u, steps) && Beside(s, t, u) && Reaches(s, t)
  {
    if NeedsReply(s.runs[u].live.exec) {
      t := WalkAnswer(s, u, steps, to, goal);
    } else {
      t := WalkSignal(s, u, steps, to, goal);
    }
  }

  /** The run gets there. */
  lemma {:induction false} Walk(s: Sys, u: string, steps: seq<StepDef>, to: Target, goal: Goal) returns (t: Sys)
    requires Walking(s, u, steps, to, goal)
    ensures Walking(t, u, steps, to, goal) && There(t, u, to) && Beside(s, t, u) && Reaches(s, t)
    decreases RankOf(s, u, steps)
  {
    if There(s, u, to) {
      t := s;
      StayPut(s, u);
    } else {
      var mid := WalkOn(s, u, steps, to, goal);
      t := Walk(mid, u, steps, to, goal);
      ReachesOn(s, mid, t);
      BesideOn(s, mid, t, u);
    }
  }

  /** The user has no open run. */
  predicate Free(s: Sys, u: string) {
    !IsOpen(s.runs, u)
  }

  lemma {:induction false} StartOn(s: Sys, u: string) returns (t: Sys)
    requires Inv(s) && Free(s, u)
    ensures Inv(t) && Reaches(s, t) && t == s.(runs := s.runs[u := NewRun(s.catalog, u, s.now)])
  {
    ReachesOne(s, StartRun(u));
    t := Next(s, StartRun(u));
  }

  /** No step on the way makes an organisation. */
  predicate NoName(steps: seq<StepDef>, to: Target) {
    && to.i <= |steps| && !Organised(steps, to.i)
    && (to.acting && to.i < |steps| ==> steps[to.i].action != CREATE_ORGANISATION)
  }

  lemma {:induction false} FreshNamed(steps: seq<StepDef>, to: Target, l: Live)
    requires to.i < |steps| && NoName(steps, to)
    ensures Named(steps, to, l)
  {
    forall f | Acted(l.exec) <= f <= to.i && (f < to.i || to.acting)
      ensures steps[f].action != CREATE_ORGANISATION
    {
    }
  }

  /** A user without an organisation sets out, where none is to be made. */
  lemma {:induction false} SetOut(s: Sys, u: string, steps: seq<StepDef>, to: Target, goal: Goal) returns (t: Sys)
    requires Inv(s) && steps == Steps(s.catalog, Latest(s.catalog))
    requires Free(s, u) && OrgsOf(s.world.tenant, u) == {} && NoId(s.world.docs, u)
    requires Way(goal, steps, to) && Kept(goal, s.world) && NoName(steps, to)
    ensures Walking(t, u, steps, to, goal) && Beside(s, t, u) && Reaches(s, t) && t.world == s.world
  {
    t := StartOn(s, u);
    RunFacts(t, u);
    RunIsOrderly(t.catalog, u, t.runs[u]);
    FreshNamed(steps, to, t.runs[u].live);
  }

  /** And gets there. */
  lemma {:induction false} Come(s: Sys, u: string, steps: seq<StepDef>, to: Target, goal: Goal) returns (t: Sys)
    requires Inv(s) && steps == Steps(s.catalog, Latest(s.catalog))
    requires Free(s, u) && OrgsOf(s.world.tenant, u) == {} && NoId(s.world.docs, u)
    requires Way(goal, steps, to) && Kept(goal, s.world) && NoName(steps, to)
    ensures Walking(t, u, steps, to, goal) && There(t, u, to) && Beside(s, t, u) && Reaches(s, t)
  {
    var mid := SetOut(s, u, steps, to, goal);
    t := Walk(mid, u, steps, to, goal);
    ReachesOn(s, mid, t);
    BesideOn(s, mid, t, u);
  }
}
