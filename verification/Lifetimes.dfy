/** One run from its start on: what pins it, what it stores, and what never goes back
    while it lasts. */
module Lifetimes {
  import opened Domain
  import opened Catalog
  import opened Executor
  import opened ReadModel
  import opened Faults
  import opened Stores
  import opened Auth0
  import opened Activities
  import opened Flights
  import opened Attempts
  import opened Server
  import opened System
  import opened Safety
  import opened Guarantees

  /** The user's run of s is still the user's run in t. */
  ghost predicate SameRun(s: Sys, t: Sys, user: string) {
    && user in s.runs && user in t.runs
    && t.runs[user].input == s.runs[user].input && t.runs[user].started == s.runs[user].started
    && t.runs[user].born == s.runs[user].born && s.runs[user].history <= t.runs[user].history
    && (s.runs[user].persisted ==> t.runs[user].persisted)
  }

  /** The move is not a start that replaces the user's ended run by a new one. */
  predicate StaysInRun(s: Sys, m: Move, user: string) {
    (m.StartRun? || m.RecordStep?) && m.user == user ==> IsOpen(s.runs, user)
  }

  lemma {:induction false} SignalStays(s: Sys, u: string, channel: string, p: Payload, user: string)
    requires Runnable(s.catalog, s.runs) && user in s.runs
    ensures SameRun(s, AfterSignal(s, u, channel, p), user)
  {
  }

  lemma {:induction false} StartStays(s: Sys, u: string, user: string)
    requires Runnable(s.catalog, s.runs) && user in s.runs && (u == user ==> IsOpen(s.runs, user))
    ensures SameRun(s, s.(runs := WithRun(s.catalog, s.runs, u, s.now)), user)
  {
  }

  lemma {:induction false} AdvancedStays(c: Versions, run: Run, stage: Stage, now: Time)
    requires Placed(StepsOf(c, run), run.live.exec) && Flying(run)
    ensures var after := Advanced(c, run, stage, now);
            && after.input == run.input && after.started == run.started && after.born == run.born
            && run.history <= after.history && (run.persisted ==> after.persisted)
            && after.attempts == run.attempts
  {
  }

  lemma {:induction false} ProceedStays(s: Sys, u: string, user: string)
    requires Runnable(s.catalog, s.runs) && user in s.runs && Can(s, Proceed(u))
    ensures SameRun(s, AfterProceed(s, u), user)
  {
    FlightAfter(s, u);
    AdvancedStays(s.catalog, s.runs[u], Call(s.world, s.runs[u].flight.value).1, s.now);
  }

  lemma {:induction false} RecordStays(s: Sys, u: string, step: string, user: string)
    requires Runnable(s.catalog, s.runs) && user in s.runs && (u == user ==> IsOpen(s.runs, user))
    ensures SameRun(s, Next(s, RecordStep(u, step)), user)
  {
    StartStays(s, u, user);
    SignalStays(s.(runs := WithRun(s.catalog, s.runs, u, s.now)), u, step, NO_PAYLOAD, user);
  }

  /** A run is only ever replaced by a start for its user once it has ended. */
  lemma {:induction false} RunStays(s: Sys, m: Move, user: string)
    requires Can(s, m) && Runnable(s.catalog, s.runs) && user in s.runs && StaysInRun(s, m, user)
    ensures SameRun(s, Next(s, m), user)
  {
    match m
    case Tick(_) =>
    case Deploy(_) =>
    case Reload(_) =>
    case StartRun(u) => StartStays(s, u, user);
    case VerifyEmail(u) => SignalStays(s, u, EMAIL_VERIFIED, NO_PAYLOAD, user);
    case RecordStep(u, step) => RecordStays(s, u, step, user);
    case ReadState(_, _, _, _) =>
    case Conclude(id) =>
      var v := VerdictOf(s, s.tickets[id]);
      if v.Send? {
        SignalStays(s, s.tickets[id].user, s.tickets[id].step, v.payload, user);
      }
    case Depart(_, _) =>
    case Proceed(u) => ProceedStays(s, u, user);
  }

  lemma {:induction false} OnlyStartsAddRuns(s: Sys, m: Move, user: string)
    requires Can(s, m) && Runnable(s.catalog, s.runs) && user in Next(s, m).runs && user !in s.runs
    ensures (m.StartRun? || m.RecordStep?) && m.user == user
  {
  }

  lemma {:induction false} StartCreates(s: Sys, m: Move, user: string)
    requires Can(s, m) && Runnable(s.catalog, s.runs) && !IsOpen(s.runs, user)
    requires (m.StartRun? || m.RecordStep?) && m.user == user
    ensures var t := Next(s, m);
            && user in t.runs && t.runs[user].input == WorkflowInput(user, Latest(s.catalog))
            && t.runs[user].born == s.catalog && t.runs[user].started == s.now
            && |t.runs[user].history| == if m.StartRun? then 0 else 1
  {
    assert Open(NewRun(s.catalog, user, s.now));
  }

  /** Whenever a move gives a user a run, the first or a new one, there was no open run;
      the move is a start for that user; and the run is pinned to the latest version of
      the catalog in force, with nothing in its history but the signal it came with. */
  lemma {:induction false} NewRunPinsLatest(s: Sys, m: Move, user: string)
    requires Inv(s) && Can(s, m) && Runnable(s.catalog, s.runs)
    requires user in Next(s, m).runs && (user !in s.runs || !SameRun(s, Next(s, m), user))
    ensures !IsOpen(s.runs, user) && (m.StartRun? || m.RecordStep?) && m.user == user
    ensures var run := Next(s, m).runs[user];
            && run.input == WorkflowInput(user, Latest(s.catalog)) && Latest(s.catalog) in s.catalog
            && run.born == s.catalog && run.started == s.now
            && |run.history| == if m.StartRun? then 0 else 1
  {
    if user !in s.runs {
      OnlyStartsAddRuns(s, m, user);
    } else if StaysInRun(s, m, user) {
      RunStays(s, m, user);
    }
    StartCreates(s, m, user);
  }

  /** The states a sequence of moves leads through while the user's run is the same. */
  ghost predicate Stretch(s: Sys, moves: seq<Move>, t: Sys, user: string)
    decreases |moves|
  {
    if moves == [] then s == t
    else exists mid: Sys ::
           && Stretch(s, moves[..|moves| - 1], mid, user) && Runnable(mid.catalog, mid.runs)
           && Can(mid, moves[|moves| - 1]) && StaysInRun(mid, moves[|moves| - 1], user)
           && t == Next(mid, moves[|moves| - 1])
  }

  /** Over a stretch the run stays the same run and the invariant holds. */
  lemma {:induction false} StretchKeepsRun(s: Sys, moves: seq<Move>, t: Sys, user: string)
    requires Inv(s) && user in s.runs && Stretch(s, moves, t, user)
    ensures Inv(t) && SameRun(s, t, user)
    decreases |moves|
  {
    if moves != [] {
      var last := moves[|moves| - 1];
      var mid: Sys :|
        && Stretch(s, moves[..|moves| - 1], mid, user) && Runnable(mid.catalog, mid.runs)
        && Can(mid, last) && StaysInRun(mid, last, user) && t == Next(mid, last);
      StretchKeepsRun(s, moves[..|moves| - 1], mid, user);
      NextKeepsInv(mid, last);
      RunStays(mid, last, user);
    }
  }

  lemma {:induction false} PinIsLatest(s: Sys, user: string)
    requires Inv(s) && user in s.runs
    ensures var run := s.runs[user];
            && run.input.version == Latest(run.born) && run.live.exec.journey.version == run.input.version
            && StepsOf(s.catalog, run) == StepsOf(run.born, run)
  {
    RunFacts(s, user);
    assert PinnedVersion(s.runs[user].input) in s.runs[user].born;
  }

  /** Over a stretch, whatever starts, signals and deployments come, the run keeps its
      input, hence its catalog version, and its recorded history. That version was the
      latest when the run was created, and its steps never change. */
  lemma {:induction false} OpenRunIsKept(s: Sys, moves: seq<Move>, t: Sys, user: string)
    requires Inv(s) && user in s.runs && Stretch(s, moves, t, user)
    ensures SameRun(s, t, user)
    ensures t.runs[user].input.version == Latest(t.runs[user].born)
    ensures StepsOf(t.catalog, t.runs[user]) == StepsOf(s.catalog, s.runs[user])
    ensures t.runs[user].live.exec.journey.version == s.runs[user].input.version
  {
    StretchKeepsRun(s, moves, t, user);
    PinIsLatest(s, user);
    PinIsLatest(t, user);
  }

  /** And whatever move comes to an open run, the stretch goes on. */
  lemma {:induction false} OpenRunGoesOn(s: Sys, moves: seq<Move>, t: Sys, user: string, m: Move)
    requires Stretch(s, moves, t, user) && Inv(t) && IsOpen(t.runs, user) && Can(t, m)
    ensures Runnable(t.catalog, t.runs) && Stretch(s, moves + [m], Next(t, m), user)
  {
    InvIsRunnable(t);
    assert (moves + [m])[..|moves|] == moves;
  }

  lemma {:induction false} PersistIsUnsettled(s: Sys, u: string)
    requires Inv(s) && u in s.runs && Busy(s.runs[u]) && Pending(s.runs[u].live.exec).Persist?
    ensures var e := s.runs[u].live.exec; Pending(e) == Persist(e.journey) && !Settled(e)
  {
    RunFacts(s, u);
    var run := s.runs[u];
    PendingIs(StepsOf(s.catalog, run), FreshJourney(run.input, run.started), run.live.exec);
  }

  /** What a call of f can do to a stored document, when e is the executor of f's run. */
  predicate Touches(docs: Docs, docs': Docs, f: Flight, e: Exec, user: string) {
    && user in docs && user in docs'
    && (|| docs'[user] == docs[user]
        || (user == UserOf(f.command) && Writes(f) && docs'[user].journey == e.journey && !Settled(e))
        || (user == UserOf(f.command) && f.stage.SetOrg? && docs[user].journey.orgId == ""
            && docs'[user].journey == docs[user].journey.(orgId := f.plan.orgId)))
  }

  lemma {:induction false} CallTouches(w: World, f: Flight, e: Exec, user: string)
    requires Fit(f) && !f.stage.Over? && Knows(w, f) && user in w.docs
    requires f.command.Persist? ==> f.command == Persist(e.journey) && !Settled(e)
    ensures Touches(w.docs, Call(w, f).0.docs, f, e, user)
  {
    CallWritesDocument(w, f);
  }

  lemma {:induction false} ProceedTouches(s: Sys, u: string, user: string)
    requires Inv(s) && Runnable(s.catalog, s.runs) && Can(s, Proceed(u)) && user in s.world.docs
    ensures Touches(s.world.docs, AfterProceed(s, u).world.docs, s.runs[u].flight.value, s.runs[u].live.exec, user)
    ensures UserOf(s.runs[u].flight.value.command) == u
  {
    FlightIsOwn(s, u);
    FlightAfter(s, u);
    if s.runs[u].flight.value.command.Persist? {
      PersistIsUnsettled(s, u);
    }
    CallTouches(s.world, s.runs[u].flight.value, s.runs[u].live.exec, user);
  }

  /** With an id stored, no call of the user's touches the Auth0 tenant. */
  lemma {:induction false} NoSecondCreation(w: World, f: Flight)
    requires Fit(f) && !f.stage.Over? && Knows(w, f) && !NoId(w.docs, UserOf(f.command))
    ensures Call(w, f).0.tenant == w.tenant
  {
  }

  lemma {:induction false} MoveKeepsOrgId(s: Sys, m: Move, user: string)
    requires Inv(s) && Can(s, m) && Runnable(s.catalog, s.runs) && user in s.runs && user in s.world.docs
    requires s.runs[user].persisted && s.world.docs[user].journey.orgId != ""
    ensures var t := Next(s, m);
            && user in t.world.docs && t.world.docs[user].journey.orgId == s.world.docs[user].journey.orgId
            && (m.Proceed? && m.user == user ==> t.world.tenant == s.world.tenant)
  {
    if m.Proceed? {
      ProceedTouches(s, m.user, user);
      RunFacts(s, user);
      if m.user == user {
        FlightIsOwn(s, user);
        NoSecondCreation(s.world, s.runs[user].flight.value);
      }
    } else {
      OnlyCallsTouchTheWorld(s, m);
    }
  }

  /** The stored org id survives while the run that stored it is the user's run, whichever
      of the two writers acts, and so does the user's one membership. */
  lemma {:induction false} OrgIdIsNeverLost(s: Sys, moves: seq<Move>, t: Sys, user: string)
    requires Inv(s) && user in s.runs && user in s.world.docs && Stretch(s, moves, t, user)
    requires s.runs[user].persisted && s.world.docs[user].journey.orgId != ""
    ensures Inv(t) && user in t.world.docs && t.world.docs[user].journey.orgId == s.world.docs[user].journey.orgId
    ensures OrgsOf(t.world.tenant, user) == OrgsOf(s.world.tenant, user) == {s.world.docs[user].journey.orgId}
    decreases |moves|
  {
    StretchKeepsRun(s, moves, t, user);
    if moves != [] {
      var last := moves[|moves| - 1];
      var mid: Sys :|
        && Stretch(s, moves[..|moves| - 1], mid, user) && Runnable(mid.catalog, mid.runs)
        && Can(mid, last) && StaysInRun(mid, last, user) && t == Next(mid, last);
      StretchKeepsRun(s, moves[..|moves| - 1], mid, user);
      OrgIdIsNeverLost(s, moves[..|moves| - 1], mid, user);
      MoveKeepsOrgId(mid, last, user);
    }
    OnlyOrg(s.world, user);
    OnlyOrg(t.world, user);
  }

  lemma {:induction false} OnlyOrg(w: World, user: string)
    requires Consistent(w) && user in w.docs && w.docs[user].journey.orgId != ""
    ensures OrgsOf(w.tenant, user) == {w.docs[user].journey.orgId}
  {
    var m := (w.docs[user].journey.orgId, user);
    assert Holds(w.tenant, w.docs[user].journey.orgId, user);
    assert m in w.tenant.members;
    assert forall n :: n in w.tenant.members && n.1 == user ==> n == m;
  }

  /** Every attempt to create an organisation that answers, answers with the id that is
      then stored, and with the one that was stored before if there was one; and it makes
      no call to Auth0 that changes anything in that case. */
  lemma {:induction false} CreationAnswersStoredId(s: Sys, user: string)
    requires Inv(s) && Can(s, Proceed(user)) && Runnable(s.catalog, s.runs)
    requires KindOf(FlightOf(s, user).command).Organisation?
    ensures var (w, stage) := CallOf(s, user);
            stage.Over? && stage.result.Done? ==>
              && user in w.docs && w.docs[user].journey.orgId == stage.result.value.orgId != ""
              && (user in s.world.docs && s.world.docs[user].journey.orgId != "" ==>
                    stage.result.value.orgId == s.world.docs[user].journey.orgId && w.tenant == s.world.tenant)
  {
    FlightIsOwn(s, user);
    ProceedIsSafe(s, user);
    if user in s.world.docs && s.world.docs[user].journey.orgId != "" {
      NoSecondCreation(s.world, s.runs[user].flight.value);
      CallWritesDocument(s.world, s.runs[user].flight.value);
    }
  }

  /** A busy run that has not written its document yet is still at its first persist,
      with no organisation. */
  lemma {:induction false} UnpersistedIsFresh(s: Sys, user: string)
    requires Inv(s) && user in s.runs && Busy(s.runs[user]) && !s.runs[user].persisted
    ensures var e := s.runs[user].live.exec;
            Pending(e) == Persist(e.journey) && e.journey.orgId == ""
  {
    RunFacts(s, user);
    var run := s.runs[user];
    PendingIs(StepsOf(s.catalog, run), FreshJourney(run.input, run.started), run.live.exec);
  }

  lemma {:induction false} FreshPersistReplaces(w: World, f: Flight)
    requires Fit(f) && !f.stage.Over? && f.command.Persist? && f.command.journey.orgId == ""
    ensures var docs, u := Call(w, f).0.docs, f.command.journey.userId;
            if f.plan.At(STORE).Lands() then u in docs && docs[u].journey.orgId == "" else docs == w.docs
  {
    CallWritesDocument(w, f);
  }

  lemma {:induction false} OthersKeepDocument(s: Sys, u: string, user: string)
    requires Inv(s) && Runnable(s.catalog, s.runs) && Can(s, Proceed(u)) && u != user
    ensures user in s.world.docs <==> user in AfterProceed(s, u).world.docs
    ensures user in s.world.docs ==> AfterProceed(s, u).world.docs[user] == s.world.docs[user]
  {
    ProceedIsSafe(s, u);
  }

  /** The move is the first persist of a run, and it takes effect. */
  predicate FirstPersistLands(s: Sys, m: Move, user: string) {
    && m.Proceed? && m.user == user && user in s.runs && !s.runs[user].persisted
    && s.runs[user].flight.Some? && s.runs[user].flight.value.plan.At(STORE).Lands()
  }

  /** Exactly when a stored org id is lost: by the first persist of a new run for the
      user, which replaces the document left by the previous run. */
  lemma {:induction false} OrgIdLostOnlyByNewRun(s: Sys, m: Move, user: string)
    requires Inv(s) && Can(s, m) && Runnable(s.catalog, s.runs) && user in s.runs && user in s.world.docs
    requires s.world.docs[user].journey.orgId != ""
    ensures !HasOrg(Next(s, m).world.docs, user, s.world.docs[user].journey.orgId) <==> FirstPersistLands(s, m, user)
  {
    if s.runs[user].persisted {
      MoveKeepsOrgId(s, m, user);
    } else if !m.Proceed? {
      OnlyCallsTouchTheWorld(s, m);
    } else if m.user == user {
      UnpersistedIsFresh(s, user);
      FlightIsOwn(s, user);
      FreshPersistReplaces(s.world, s.runs[user].flight.value);
      FlightAfter(s, user);
    } else {
      OthersKeepDocument(s, m.user, user);
    }
  }

  lemma {:induction false} MarkedGrows(steps: seq<StepDef>, i: nat, k: nat)
    requires i <= k <= |steps|
    ensures Marked(steps, i) ==> Marked(steps, k)
  {
  }

  lemma {:induction false} ProceedKeepsProgress(s: Sys, u: string, user: string)
    requires Inv(s) && Runnable(s.catalog, s.runs) && Can(s, Proceed(u)) && user in s.runs && user in s.world.docs
    requires s.runs[user].persisted
    ensures user in AfterProceed(s, u).world.docs
    ensures var j, k := s.world.docs[user].journey, AfterProceed(s, u).world.docs[user].journey;
            k.version == j.version && |j.steps| <= |k.steps| && (j.status == Completed ==> k.status == Completed)
  {
    ProceedTouches(s, u, user);
    RunFacts(s, user);
    var run := s.runs[user];
    var steps := StepsOf(s.catalog, run);
    var j := s.world.docs[user].journey;
    assert Matches(j, steps, run.live.exec);
    assert StoredIsReadModel(s.catalog, user, j);
    MarkedGrows(steps, |j.steps|, run.live.exec.index);
  }

  lemma {:induction false} MoveKeepsProgress(s: Sys, m: Move, user: string)
    requires Inv(s) && Can(s, m) && Runnable(s.catalog, s.runs) && user in s.runs && user in s.world.docs
    requires s.runs[user].persisted
    ensures user in Next(s, m).world.docs
    ensures var j, k := s.world.docs[user].journey, Next(s, m).world.docs[user].journey;
            k.version == j.version && |j.steps| <= |k.steps| && (j.status == Completed ==> k.status == Completed)
  {
    if m.Proceed? {
      ProceedKeepsProgress(s, m.user, user);
    } else {
      OnlyCallsTouchTheWorld(s, m);
    }
  }

  /** While a run lasts its stored document never records fewer steps, never changes
      version and, once completed, stays so, however later activities fail. */
  lemma {:induction false} ProgressIsMonotone(s: Sys, moves: seq<Move>, t: Sys, user: string)
    requires Inv(s) && user in s.runs && user in s.world.docs && s.runs[user].persisted && Stretch(s, moves, t, user)
    ensures user in t.world.docs
    ensures var j, k := s.world.docs[user].journey, t.world.docs[user].journey;
            k.version == j.version && |j.steps| <= |k.steps| && (j.status == Completed ==> k.status == Completed)
    decreases |moves|
  {
    if moves != [] {
      var last := moves[|moves| - 1];
      var mid: Sys :|
        && Stretch(s, moves[..|moves| - 1], mid, user) && Runnable(mid.catalog, mid.runs)
        && Can(mid, last) && StaysInRun(mid, last, user) && t == Next(mid, last);
      StretchKeepsRun(s, moves[..|moves| - 1], mid, user);
      ProgressIsMonotone(s, moves[..|moves| - 1], mid, user);
      MoveKeepsProgress(mid, last, user);
    }
  }

  /** Tail provisioning never blocks the user: whenever an action of a step after the
      first that marks completion is pending, the stored document already says
      completed. So no attempt of it begins before. */
  lemma {:induction false} TailWaitsForCompletion(s: Sys, user: string)
    requires Inv(s) && user in s.runs && Busy(s.runs[user]) && Pending(s.runs[user].live.exec).Act?
    requires var e := s.runs[user].live.exec;
             e.index <= |StepsOf(s.catalog, s.runs[user])| && Marked(StepsOf(s.catalog, s.runs[user]), e.index)
    ensures user in s.world.docs && s.world.docs[user].journey.status == Completed
  {
    RunFacts(s, user);
    var run := s.runs[user];
    var steps := StepsOf(s.catalog, run);
    PendingIs(steps, FreshJourney(run.input, run.started), run.live.exec);
    assert Matches(s.world.docs[user].journey, steps, run.live.exec);
    assert StoredIsReadModel(s.catalog, user, s.world.docs[user].journey);
  }

  /** The call leaves the user with an organisation that the journey does not know of and
      nothing on the way to tell it. */
  predicate CallAbandons(w: World, f: Flight)
    requires Fit(f)
  {
    match f.stage
    case Member => f.plan.At(MEMBER) == CrashAfter
    case Role => f.plan.At(ROLE).Kills()
    case Delete => !f.plan.At(DELETE).Lands() && OrgsOf(w.tenant, UserOf(f.command)) != {}
    case SetOrg => !f.plan.At(SET_ORG).Lands()
    case Store => Writes(f) && f.command.journey.orgId == "" && !NoId(w.docs, UserOf(f.command))
    case _ => false
  }

  lemma {:induction false} CallAbandonsExactly(w: World, f: Flight)
    requires Consistent(w) && Fit(f) && !f.stage.Over? && Knows(w, f)
    requires f.stage.Create? ==> CanMint(w.tenant, f.plan.orgId)
    requires Stranded(w, UserOf(f.command)) ==> Making(f.stage)
    ensures var (w', stage) := Call(w, f);
            Stranded(w', UserOf(f.command)) && !Making(stage) <==> CallAbandons(w, f)
  {
    var user, w' := UserOf(f.command), Call(w, f).0;
    CallWritesDocument(w, f);
    StoredIdIsHeld(w, user);
    var m := (f.plan.orgId, user);
    assert f.stage.Member? && f.plan.At(MEMBER).Lands() ==> m in w'.tenant.members && m.0 in OrgsOf(w'.tenant, user);
    assert forall n | n in w'.tenant.members && n.1 == user :: n.0 in OrgsOf(w'.tenant, user);
  }

  /** What makes a user abandoned: a crash right after the membership call, a crash at the
      role call, a cleanup that does not take effect, an id that is not stored, or the
      first persist of a new run over a document that had the id. */
  predicate Abandons(s: Sys, m: Move, user: string) {
    && m.Proceed? && m.user == user && user in s.runs && Flying(s.runs[user])
    && var f := s.runs[user].flight.value;
       match f.stage
       case Store => FirstPersistLands(s, m, user) && !NoId(s.world.docs, user)
       case _ => CallAbandons(s.world, f)
  }

  lemma {:induction false} OnlyFirstPersistForgets(s: Sys, user: string)
    requires Inv(s) && user in s.runs && Flying(s.runs[user]) && s.runs[user].flight.value.stage.Store?
    ensures var f := s.runs[user].flight.value;
            CallAbandons(s.world, f) <==> FirstPersistLands(s, Proceed(user), user) && !NoId(s.world.docs, user)
  {
    FlightIsOwn(s, user);
    RunFacts(s, user);
    if Pending(s.runs[user].live.exec).Persist? {
      PersistIsUnsettled(s, user);
    }
    if !s.runs[user].persisted {
      UnpersistedIsFresh(s, user);
    }
  }

  lemma {:induction false} OwnCallAbandons(s: Sys, user: string)
    requires Inv(s) && Can(s, Proceed(user)) && Runnable(s.catalog, s.runs) && !Abandoned(s, user)
    ensures var (w, stage) := CallOf(s, user);
            Stranded(w, user) && !Making(stage) <==> Abandons(s, Proceed(user), user)
  {
    FlightIsOwn(s, user);
    CallAbandonsExactly(s.world, s.runs[user].flight.value);
    if s.runs[user].flight.value.stage.Store? {
      OnlyFirstPersistForgets(s, user);
    }
  }

  lemma {:induction false} AbandonedAfterCall(s: Sys, u: string, user: string)
    requires Can(s, Proceed(u)) && Runnable(s.catalog, s.runs)
    ensures var (w, stage) := Call(s.world, s.runs[u].flight.value);
            Abandoned(AfterProceed(s, u), user) <==>
              if u == user then Stranded(w, user) && !Making(stage) else Abandoned(s.(world := w), user)
  {
    FlightAfter(s, u);
  }

  lemma {:induction false} SparedIsNotStranded(w: World, w': World, f: Flight, user: string)
    requires Spares(w, w', f) && UserOf(f.command) != user
    ensures Stranded(w', user) <==> Stranded(w, user)
  {
    OrgsStay(w.tenant, w'.tenant, f.plan.orgId, UserOf(f.command), user);
  }

  lemma {:induction false} OthersCallStrandsNone(s: Sys, u: string, user: string)
    requires Inv(s) && Can(s, Proceed(u)) && Runnable(s.catalog, s.runs) && u != user
    ensures Stranded(CallOf(s, u).0, user) <==> Stranded(s.world, user)
  {
    ProceedIsSafe(s, u);
    SparedIsNotStranded(s.world, Call(s.world, s.runs[u].flight.value).0, s.runs[u].flight.value, user);
  }

  lemma {:induction false} ClientMoveAbandonsNone(s: Sys, m: Move, user: string)
    requires Inv(s) && Can(s, m) && Runnable(s.catalog, s.runs) && !Abandoned(s, user) && !m.Proceed?
    ensures !Abandoned(Next(s, m), user)
  {
    OnlyCallsTouchTheWorld(s, m);
    if Stranded(s.world, user) {
      FlightIsOwn(s, user);
      MakerFliesOn(s, m, user);
    }
  }

  lemma {:induction false} MakerFliesOn(s: Sys, m: Move, user: string)
    requires Can(s, m) && Runnable(s.catalog, s.runs) && user in s.runs && Flying(s.runs[user]) && !m.Proceed?
    ensures user in Next(s, m).runs && Next(s, m).runs[user].flight == s.runs[user].flight
  {
    match m
    case VerifyEmail(u) => SignalKeepsFlight(s, u, EMAIL_VERIFIED, NO_PAYLOAD, user);
    case RecordStep(u, step) =>
      SignalKeepsFlight(s.(runs := WithRun(s.catalog, s.runs, u, s.now)), u, step, NO_PAYLOAD, user);
    case Conclude(id) => ConcludeKeepsFlight(s, id, user);
    case _ =>
  }

  /** Exactly when a user becomes abandoned, over all moves. By `StrandedForGood` it is for
      good: in particular a returning user, whose new run has overwritten the id, never
      passes the organisation step again. */
  lemma {:induction false} AbandonedExactly(s: Sys, m: Move, user: string)
    requires Inv(s) && Can(s, m) && Runnable(s.catalog, s.runs) && !Abandoned(s, user)
    ensures Abandoned(Next(s, m), user) <==> Abandons(s, m, user)
  {
    if !m.Proceed? {
      ClientMoveAbandonsNone(s, m, user);
    } else {
      AbandonedAfterCall(s, m.user, user);
      if m.user == user {
        OwnCallAbandons(s, user);
      } else {
        OthersCallStrandsNone(s, m.user, user);
      }
    }
  }
}
