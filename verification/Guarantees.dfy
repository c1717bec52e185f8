/** What the invariant means to users and operators, in every reachable state and over
    every sequence of moves. */
module Guarantees {
  import opened Domain
  import opened Catalog
  import opened Executor
  import opened ReadModel
  import opened Stores
  import opened Auth0
  import opened Provisioning
  import opened Activities
  import opened Flights
  import opened Attempts
  import opened Server
  import opened System
  import opened Safety

  /** In every reachable state a user is a member of at most one organisation, an org id
      stored on a journey names a live organisation the user is member and owner of, and
      no two users' journeys name the same one. It takes any number of attempts and runs,
      interleaved calls, failing calls and failed cleanups. */
  lemma {:induction false} OneOrganisationPerUser(s: Sys, moves: seq<Move>, t: Sys, user: string, other: string,
                                                  a: string, b: string)
    requires Initial(s) && Plays(s, moves, t)
    ensures (a, user) in t.world.tenant.members && (b, user) in t.world.tenant.members ==> a == b
    ensures user in t.world.docs && t.world.docs[user].journey.orgId != "" ==>
              && Holds(t.world.tenant, t.world.docs[user].journey.orgId, user)
              && (other in t.world.docs && t.world.docs[other].journey.orgId == t.world.docs[user].journey.orgId ==>
                other == user)
  {
    AlwaysInv(s, moves, t);
    var m, n := (a, user), (b, user);
    assert m in t.world.tenant.members && n in t.world.tenant.members ==> m == n;
  }

  lemma {:induction false} V1Actions()
    ensures ResourceOf(ACT_KONG) == Some(Resource.Kong) && ResourceOf(ACT_AWS) == Some(Resource.Aws)
    ensures ResourceOf(ACT_SVIX) == Some(Resource.Svix) && ResourceOf(ACT_LAGO) == Some(Resource.Lago)
    ensures forall i :: 0 <= i < |V1| ==> (V1[i].action == COMPLETE_PROVISIONING <==> i == 9)
    ensures forall i :: 0 <= i < |V1| ==> (V1[i].action == CREATE_ORGANISATION <==> i == 2)
  {
    assert ACT_KONG[9] == 'K' && ACT_AWS[9] == 'A' && ACT_SVIX[9] == 'S' && ACT_LAGO[9] == 'L';
    assert COMPLETE_PROVISIONING[0] == 'C' && CREATE_ORGANISATION[0] == 'C'
           && COMPLETE_PROVISIONING[1] != CREATE_ORGANISATION[1];
  }

  lemma {:induction false} V1CompletesLast()
    ensures CompletesLast(V1)
  {
    V1Actions();
    forall i, r: Resource | 0 <= i < |V1| && V1[i].action == COMPLETE_PROVISIONING
      ensures Preceded(V1, i, r)
    {
      var k := match r case Kong => 3 case Aws => 4 case Svix => 7 case Lago => 8;
      assert V1[2].action == CREATE_ORGANISATION;
      assert i == 9 && ResourceOf(V1[k].action) == Some(r) && Organised(V1, k);
    }
  }

  /** In the shipped version the journey is marked completed at the last step that waits
      for the user, after Kong and AWS and before Svix and Lago are provisioned: the user
      goes on while these are. */
  lemma {:induction false} V1MarksLastUserStep()
    ensures forall k :: 0 <= k < |V1| ==>
              (V1[k].marksComplete <==> V1[k].signal != "" && forall j :: k < j < |V1| ==> V1[j].signal == "")
    ensures forall k, i :: 0 <= k < |V1| && V1[k].marksComplete && 0 <= i < |V1| && ResourceOf(V1[i].action).Some? ==>
              (i < k <==> ResourceOf(V1[i].action).value in {Resource.Kong, Resource.Aws})
  {
    V1Actions();
    assert forall k :: 0 <= k < 10 ==> (V1[k].signal != "" <==> k == 1 || k == 2 || k == 5 || k == 6);
    assert forall k :: 0 <= k < 10 ==> (V1[k].marksComplete <==> k == 6);
    ActionsDiffer();
    assert forall i :: 0 <= i < 10 && ResourceOf(V1[i].action).Some? ==> i == 3 || i == 4 || i == 7 || i == 8;
  }

  /** A record marked completed lists all four resources and each exists in the outside
      systems, once. It holds whenever every catalog version completes provisioning after
      all resources, and these after the organisation, as the shipped one does, although
      completing itself checks nothing. */
  lemma {:induction false} CompletedMeansProvisioned(s: Sys, moves: seq<Move>, t: Sys, org: string, r: Resource)
    requires Initial(s) && Plays(s, moves, t) && AllCompleteLast(t.catalog)
    requires org in t.world.recs && t.world.recs[org].completed
    ensures KeyOf(r) in t.world.recs[org].resources
    ensures Provisioned(t.world.vendors, r, org) && NoDuplicates(t.world.vendors)
  {
    AlwaysInv(s, moves, t);
    assert Sound(t.world.recs[org]);
    assert Real(t.world.vendors, org, t.world.recs[org]);
  }

  /** Every stored document names a version of the catalog and records a prefix of its
      steps, all completed, in order of time, with the step to resume at and the status
      that prefix calls for. */
  lemma {:induction false} StoredDocumentsArePrefixes(s: Sys, moves: seq<Move>, t: Sys, user: string)
    requires Initial(s) && Plays(s, moves, t) && user in t.world.docs
    ensures var j := t.world.docs[user].journey;
            var steps := Steps(t.catalog, j.version);
            && j.version in t.catalog && j.userId == user && |j.steps| <= |steps|
            && IsReadModel(steps, j, |j.steps|, j)
  {
    AlwaysInv(s, moves, t);
    assert StoredIsReadModel(t.catalog, user, t.world.docs[user].journey);
  }

  lemma {:induction false} OnlyCallsTouchTheWorld(s: Sys, m: Move)
    requires Can(s, m) && Runnable(s.catalog, s.runs) && !m.Proceed?
    ensures Next(s, m).world == s.world
  {
  }

  lemma {:induction false} MoveKeeps(s: Sys, m: Move)
    requires Inv(s) && Can(s, m) && Runnable(s.catalog, s.runs)
    ensures Keeps(s.world, Next(s, m).world)
  {
    if m.Proceed? {
      ProceedIsSafe(s, m.user);
    } else {
      OnlyCallsTouchTheWorld(s, m);
    }
  }

  /** Nothing established is ever lost: no created object, no request from the log, and
      for a named organisation no recorded resource and no completion. */
  lemma {:induction false} EstablishedStays(s: Sys, moves: seq<Move>, t: Sys)
    requires Inv(s) && Plays(s, moves, t)
    ensures Inv(t) && Keeps(s.world, t.world)
    decreases |moves|
  {
    if moves != [] {
      var mid: Sys :|
        && Plays(s, moves[..|moves| - 1], mid) && Runnable(mid.catalog, mid.runs)
        && Can(mid, moves[|moves| - 1]) && t == Next(mid, moves[|moves| - 1]);
      EstablishedStays(s, moves[..|moves| - 1], mid);
      NextKeepsInv(mid, moves[|moves| - 1]);
      MoveKeeps(mid, moves[|moves| - 1]);
      KeepsIsTransitive(s.world, mid.world, t.world);
    }
  }

  predicate RecordedFor(recs: Records, r: Resource, org: string) {
    org in recs && KeyOf(r) in recs[org].resources
  }

  /** log' adds to log no request for r of org. */
  predicate NoneFor(log: seq<Request>, log': seq<Request>, r: Resource, org: string) {
    log <= log' && forall i :: |log| <= i < |log'| ==> log'[i] !in Requests(r, org)
  }

  lemma {:induction false} NoneForIsTransitive(a: seq<Request>, b: seq<Request>, c: seq<Request>, r: Resource,
                                               org: string)
    requires NoneFor(a, b, r, org) && NoneFor(b, c, r, org)
    ensures NoneFor(a, c, r, org)
  {
    forall i | |a| <= i < |c|
      ensures c[i] !in Requests(r, org)
    {
      if i < |b| {
        assert c[i] == b[i];
      }
    }
  }

  /** A call sends no request for a resource that is recorded. */
  lemma {:induction false} CallSendsWhatIsDue(w: World, f: Flight, r: Resource, org: string)
    requires Fit(f) && !f.stage.Over? && Knows(w, f) && org != "" && RecordedFor(w.recs, r, org)
    ensures NoneFor(w.vendors.log, Call(w, f).0.vendors.log, r, org)
  {
    if f.stage.Post? {
      var q := KindOf(f.command).resource;
      var x := Requests(q, OrgIn(f.command))[f.stage.k];
      if x in Requests(r, org) {
        RequestTellsOwner(x, q, OrgIn(f.command), r, org);
        assert false;
      }
    }
  }

  lemma {:induction false} MoveSendsWhatIsDue(s: Sys, m: Move, r: Resource, org: string)
    requires Inv(s) && Can(s, m) && Runnable(s.catalog, s.runs) && org != "" && RecordedFor(s.world.recs, r, org)
    ensures NoneFor(s.world.vendors.log, Next(s, m).world.vendors.log, r, org)
  {
    if m.Proceed? {
      FlightIsOwn(s, m.user);
      CallSendsWhatIsDue(s.world, s.runs[m.user].flight.value, r, org);
    } else {
      OnlyCallsTouchTheWorld(s, m);
    }
  }

  lemma {:induction false} RecordedStays(s: Sys, moves: seq<Move>, t: Sys, r: Resource, org: string)
    requires Inv(s) && Plays(s, moves, t) && org != "" && RecordedFor(s.world.recs, r, org)
    ensures Inv(t) && RecordedFor(t.world.recs, r, org)
  {
    EstablishedStays(s, moves, t);
    assert KeyOf(r) in s.world.recs[org].resources.Keys;
    assert KeyOf(r) in t.world.recs[org].resources.Keys;
  }

  /** Once a resource of a named organisation is recorded, no attempt of any run of any
      user ever again begins a request for it. */
  lemma {:induction false} NoRequestOnceRecorded(s: Sys, moves: seq<Move>, t: Sys, r: Resource, org: string)
    requires Inv(s) && Plays(s, moves, t) && org != "" && RecordedFor(s.world.recs, r, org)
    ensures NoneFor(s.world.vendors.log, t.world.vendors.log, r, org)
    decreases |moves|
  {
    if moves != [] {
      var mid: Sys :|
        && Plays(s, moves[..|moves| - 1], mid) && Runnable(mid.catalog, mid.runs)
        && Can(mid, moves[|moves| - 1]) && t == Next(mid, moves[|moves| - 1]);
      NoRequestOnceRecorded(s, moves[..|moves| - 1], mid, r, org);
      RecordedStays(s, moves[..|moves| - 1], mid, r, org);
      MoveSendsWhatIsDue(mid, moves[|moves| - 1], r, org);
      NoneForIsTransitive(s.world.vendors.log, mid.world.vendors.log, t.world.vendors.log, r, org);
    }
  }

  /** The user is stranded and no attempt is still making the organisation. */
  predicate Abandoned(s: Sys, user: string) {
    && Stranded(s.world, user)
    && (user in s.runs && s.runs[user].flight.Some? ==> !Making(s.runs[user].flight.value.stage))
  }

  /** A call of a stranded user's own attempt changes neither the memberships nor the
      missing id, and never comes to make an organisation. */
  lemma {:induction false} StrandedCall(w: World, f: Flight)
    requires Fit(f) && !f.stage.Over? && Knows(w, f) && Stranded(w, UserOf(f.command)) && !Making(f.stage)
    ensures var (w', stage) := Call(w, f);
            w'.tenant == w.tenant && Stranded(w', UserOf(f.command)) && !Making(stage)
  {
  }

  lemma {:induction false} SignalKeepsFlight(s: Sys, u: string, channel: string, p: Payload, user: string)
    requires Runnable(s.catalog, s.runs)
    ensures var runs := AfterSignal(s, u, channel, p).runs;
            runs.Keys == s.runs.Keys && (user in s.runs ==> runs[user].flight == s.runs[user].flight)
  {
  }

  lemma {:induction false} ConcludeKeepsFlight(s: Sys, id: nat, user: string)
    requires Runnable(s.catalog, s.runs) && id in s.tickets
    ensures var runs := Next(s, Conclude(id)).runs;
            runs.Keys == s.runs.Keys && (user in s.runs ==> runs[user].flight == s.runs[user].flight)
  {
    var v := VerdictOf(s, s.tickets[id]);
    if v.Send? {
      SignalKeepsFlight(s, s.tickets[id].user, s.tickets[id].step, v.payload, user);
    }
  }

  lemma {:induction false} RecordKeepsFlight(s: Sys, u: string, step: string, user: string)
    requires Runnable(s.catalog, s.runs)
    ensures var runs := Next(s, RecordStep(u, step)).runs;
            user in runs && runs[user].flight.Some? ==> user in s.runs && runs[user].flight == s.runs[user].flight
  {
    SignalKeepsFlight(s.(runs := WithRun(s.catalog, s.runs, u, s.now)), u, step, NO_PAYLOAD, user);
  }

  lemma {:induction false} FlightUnlessOwnMove(s: Sys, m: Move, user: string)
    requires Can(s, m) && Runnable(s.catalog, s.runs) && user in Next(s, m).runs && !(m.Proceed? && m.user == user)
    ensures SameFlight(s.runs, user, Next(s, m).runs[user])
  {
    match m
    case VerifyEmail(u) => SignalKeepsFlight(s, u, EMAIL_VERIFIED, NO_PAYLOAD, user);
    case RecordStep(u, step) => RecordKeepsFlight(s, u, step, user);
    case Conclude(id) => ConcludeKeepsFlight(s, id, user);
    case _ =>
  }

  lemma {:induction false} OwnCallKeepsAbandoned(s: Sys, user: string)
    requires Inv(s) && Can(s, Proceed(user)) && Runnable(s.catalog, s.runs) && Abandoned(s, user)
    ensures Abandoned(AfterProceed(s, user), user) && AfterProceed(s, user).world.tenant == s.world.tenant
  {
    FlightIsOwn(s, user);
    FlightAfter(s, user);
    StrandedCall(s.world, s.runs[user].flight.value);
  }

  lemma {:induction false} SparedStaysStranded(w: World, w': World, f: Flight, user: string)
    requires Spares(w, w', f) && UserOf(f.command) != user && Stranded(w, user)
    ensures Stranded(w', user) && OrgsOf(w'.tenant, user) == OrgsOf(w.tenant, user)
  {
    OrgsStay(w.tenant, w'.tenant, f.plan.orgId, UserOf(f.command), user);
  }

  lemma {:induction false} OthersCallKeepsStranded(s: Sys, u: string, user: string)
    requires Inv(s) && Can(s, Proceed(u)) && Runnable(s.catalog, s.runs) && Stranded(s.world, user) && u != user
    ensures var w' := CallOf(s, u).0;
            Stranded(w', user) && OrgsOf(w'.tenant, user) == OrgsOf(s.world.tenant, user)
  {
    ProceedIsSafe(s, u);
    SparedStaysStranded(s.world, Call(s.world, s.runs[u].flight.value).0, s.runs[u].flight.value, user);
  }

  lemma {:induction false} ClientMoveKeepsAbandoned(s: Sys, m: Move, user: string)
    requires Can(s, m) && Runnable(s.catalog, s.runs) && Abandoned(s, user) && !m.Proceed?
    ensures Abandoned(Next(s, m), user) && OrgsOf(Next(s, m).world.tenant, user) == OrgsOf(s.world.tenant, user)
  {
    OnlyCallsTouchTheWorld(s, m);
    if user in Next(s, m).runs && Next(s, m).runs[user].flight.Some? {
      FlightUnlessOwnMove(s, m, user);
    }
  }

  lemma {:induction false} MoveKeepsAbandoned(s: Sys, m: Move, user: string)
    requires Inv(s) && Can(s, m) && Runnable(s.catalog, s.runs) && Abandoned(s, user)
    ensures Abandoned(Next(s, m), user) && OrgsOf(Next(s, m).world.tenant, user) == OrgsOf(s.world.tenant, user)
  {
    if !m.Proceed? {
      ClientMoveKeepsAbandoned(s, m, user);
    } else if m.user == user {
      OwnCallKeepsAbandoned(s, user);
    } else {
      OthersCallKeepsStranded(s, m.user, user);
      FlightAfter(s, m.user);
    }
  }

  lemma {:induction false} AbandonedIsUnorganised(s: Sys, user: string)
    requires Inv(s) && Abandoned(s, user) && user in s.runs
    ensures var steps, e := StepsOf(s.catalog, s.runs[user]), s.runs[user].live.exec;
            Acted(e) <= |steps| && !Organised(steps, Acted(e))
  {
    RunFacts(s, user);
  }

  /** A stranded user stays stranded under every sequence of moves, keeps the same
      membership, and no run of that user ever gets past the step that creates the
      organisation. */
  lemma {:induction false} StrandedForGood(s: Sys, moves: seq<Move>, t: Sys, user: string)
    requires Inv(s) && Plays(s, moves, t) && Abandoned(s, user)
    ensures Abandoned(t, user) && OrgsOf(t.world.tenant, user) == OrgsOf(s.world.tenant, user)
    ensures user in t.runs ==>
              var e := t.runs[user].live.exec;
              Acted(e) <= |StepsOf(t.catalog, t.runs[user])| && !Organised(StepsOf(t.catalog, t.runs[user]), Acted(e))
    decreases |moves|
  {
    if moves != [] {
      var mid: Sys :|
        && Plays(s, moves[..|moves| - 1], mid) && Runnable(mid.catalog, mid.runs)
        && Can(mid, moves[|moves| - 1]) && t == Next(mid, moves[|moves| - 1]);
      StrandedForGood(s, moves[..|moves| - 1], mid, user);
      PlaysKeepInv(s, moves[..|moves| - 1], mid);
      MoveKeepsAbandoned(mid, moves[|moves| - 1], user);
    }
    PlaysKeepInv(s, moves, t);
    if user in t.runs {
      AbandonedIsUnorganised(t, user);
    }
  }

  /** The user is member and owner of org, and no attempt of the user's is still making it. */
  predicate Secure(s: Sys, org: string, user: string) {
    && Holds(s.world.tenant, org, user)
    && (user in s.runs && s.runs[user].flight.Some? && Making(s.runs[user].flight.value.stage) ==>
          s.runs[user].flight.value.plan.orgId != org)
  }

  /** A user who already holds an organisation has no attempt that makes another. */
  lemma {:induction false} HolderMakesNone(w: World, f: Flight, org: string)
    requires Consistent(w) && Fit(f) && !f.stage.Over? && Knows(w, f) && Holds(w.tenant, org, UserOf(f.command))
    requires Making(f.stage) ==> f.plan.orgId != org
    ensures !f.stage.Create? && !Making(f.stage)
  {
    assert (org, UserOf(f.command)) in w.tenant.members;
    assert org in OrgsOf(w.tenant, UserOf(f.command));
  }

  lemma {:induction false} SparedStaysHeld(w: World, w': World, f: Flight, org: string, user: string)
    requires Spares(w, w', f) && UserOf(f.command) != user && Holds(w.tenant, org, user)
    ensures Holds(w'.tenant, org, user)
  {
    assert (org, user) in w.tenant.members;
  }

  lemma {:induction false} CallKeepsHolding(s: Sys, u: string, org: string, user: string)
    requires Inv(s) && Can(s, Proceed(u)) && Runnable(s.catalog, s.runs) && Secure(s, org, user)
    ensures var (w', stage) := CallOf(s, u);
            Holds(w'.tenant, org, user) && (u == user ==> !Making(stage))
  {
    FlightIsOwn(s, u);
    var f := s.runs[u].flight.value;
    if u == user {
      HolderMakesNone(s.world, f, org);
      OnlyMakersChangeTenant(s.world, f);
    } else {
      ProceedIsSafe(s, u);
      SparedStaysHeld(s.world, Call(s.world, f).0, f, org, user);
    }
  }

  lemma {:induction false} SecureAfterCall(s: Sys, u: string, org: string, user: string)
    requires Can(s, Proceed(u)) && Runnable(s.catalog, s.runs) && Secure(s, org, user)
    requires Holds(CallOf(s, u).0.tenant, org, user) && (u == user ==> !Making(CallOf(s, u).1))
    ensures Secure(Next(s, Proceed(u)), org, user)
  {
    FlightAfter(s, u);
  }

  lemma {:induction false} ClientMoveKeepsSecure(s: Sys, m: Move, org: string, user: string)
    requires Can(s, m) && Runnable(s.catalog, s.runs) && Secure(s, org, user) && !m.Proceed?
    ensures Secure(Next(s, m), org, user)
  {
    OnlyCallsTouchTheWorld(s, m);
    if user in Next(s, m).runs && Next(s, m).runs[user].flight.Some? {
      FlightUnlessOwnMove(s, m, user);
    }
  }

  lemma {:induction false} MoveKeepsSecure(s: Sys, m: Move, org: string, user: string)
    requires Inv(s) && Can(s, m) && Runnable(s.catalog, s.runs) && Secure(s, org, user)
    ensures Secure(Next(s, m), org, user)
  {
    if m.Proceed? {
      CallKeepsHolding(s, m.user, org, user);
      SecureAfterCall(s, m.user, org, user);
    } else {
      ClientMoveKeepsSecure(s, m, org, user);
    }
  }

  /** Nor is a membership with ownership, once made: no cleanup of any attempt, and no
      later run, ever takes it away. */
  lemma {:induction false} HoldingStays(s: Sys, moves: seq<Move>, t: Sys, org: string, user: string)
    requires Inv(s) && Plays(s, moves, t) && Secure(s, org, user)
    ensures Secure(t, org, user)
    decreases |moves|
  {
    if moves != [] {
      var mid: Sys :|
        && Plays(s, moves[..|moves| - 1], mid) && Runnable(mid.catalog, mid.runs)
        && Can(mid, moves[|moves| - 1]) && t == Next(mid, moves[|moves| - 1]);
      HoldingStays(s, moves[..|moves| - 1], mid, org, user);
      PlaysKeepInv(s, moves[..|moves| - 1], mid);
      MoveKeepsSecure(mid, moves[|moves| - 1], org, user);
    }
  }

  lemma {:induction false} IssuedActionIsListed(steps: seq<StepDef>, blank: Journey, e: Exec, k: nat)
    requires Orderly(steps, blank, e) && k < |e.issued| && e.issued[k].Act?
    ensures exists s :: s in steps && s.action == e.issued[k].action != ""
  {
    var slot := Opened(steps, e)[k];
    assert Fits(steps, blank, e.issued[k], slot);
    assert steps[slot.i] in steps;
  }

  /** When every version passes the startup validation, no run of any version ever asks
      for an action that nothing handles. */
  lemma {:induction false} ActionsAreRegistered(s: Sys, user: string, k: nat)
    requires Inv(s) && user in s.runs && k < |s.runs[user].live.exec.issued|
    requires forall v :: v in s.catalog ==> Registered(s.catalog[v], RegisteredActions)
    ensures var c := s.runs[user].live.exec.issued[k]; c.Act? ==> c.action in RegisteredActions
  {
    var run := s.runs[user];
    assert RunSound(s.catalog, s.world, user, run);
    RunIsOrderly(s.catalog, user, run);
    if run.live.exec.issued[k].Act? {
      IssuedActionIsListed(StepsOf(s.catalog, run), FreshJourney(run.input, run.started), run.live.exec, k);
    }
  }
}
