/** Whole stretches of one run: what its user is shown never goes back, and how many
    attempts it can take. */
module Observation {
  import opened Domain
  import opened Catalog
  import opened Executor
  import opened Replay
  import opened ReadModel
  import opened Faults
  import opened Flights
  import opened Retry
  import opened Server
  import opened Gate
  import opened System
  import opened Safety
  import opened Guarantees
  import opened Lifetimes

  function Begins(m: Move, user: string): nat {
    if m.Depart? && m.user == user then 1 else 0
  }

  function Calls(m: Move, user: string): nat {
    if m.Proceed? && m.user == user then 1 else 0
  }

  /** How many of the moves begin an attempt of this user's activities. */
  function DeparturesOf(moves: seq<Move>, user: string): nat {
    if moves == [] then 0 else DeparturesOf(moves[..|moves| - 1], user) + Begins(moves[|moves| - 1], user)
  }

  /** How many of the moves are calls of this user's attempts. */
  function CallsOf(moves: seq<Move>, user: string): nat {
    if moves == [] then 0 else CallsOf(moves[..|moves| - 1], user) + Calls(moves[|moves| - 1], user)
  }

  /** Neither starts nor signals touch an attempt or its count. */
  lemma {:induction false} SignalCosts(s: Sys, u: string, channel: string, p: Payload, user: string)
    requires Runnable(s.catalog, s.runs) && user in s.runs
    ensures var run := AfterSignal(s, u, channel, p).runs[user];
            run.attempts == s.runs[user].attempts && run.flight == s.runs[user].flight
  {
  }

  lemma {:induction false} ConcludeCosts(s: Sys, id: nat, user: string)
    requires Runnable(s.catalog, s.runs) && user in s.runs && id in s.tickets
    ensures user in Next(s, Conclude(id)).runs
    ensures var run := Next(s, Conclude(id)).runs[user];
            run.attempts == s.runs[user].attempts && run.flight == s.runs[user].flight
  {
    var v := VerdictOf(s, s.tickets[id]);
    if v.Send? {
      SignalCosts(s, s.tickets[id].user, s.tickets[id].step, v.payload, user);
    }
  }

  lemma {:induction false} RecordCosts(s: Sys, u: string, step: string, user: string)
    requires Runnable(s.catalog, s.runs) && user in s.runs && (u == user ==> IsOpen(s.runs, user))
    ensures user in Next(s, RecordStep(u, step)).runs
    ensures var run := Next(s, RecordStep(u, step)).runs[user];
            run.attempts == s.runs[user].attempts && run.flight == s.runs[user].flight
  {
    SignalCosts(s.(runs := WithRun(s.catalog, s.runs, u, s.now)), u, step, NO_PAYLOAD, user);
  }

  const MOST_CALLS := 9

  /** The most calls the attempt under way has left. */
  function CallsLeft(run: Run): nat {
    if run.flight.Some? && Fit(run.flight.value) then Left(run.flight.value) else 0
  }

  lemma {:induction false} ProceedCosts(s: Sys, u: string, user: string)
    requires Runnable(s.catalog, s.runs) && user in s.runs && Can(s, Proceed(u))
    ensures var run := AfterProceed(s, u).runs[user];
            && run.attempts == s.runs[user].attempts
            && CallsLeft(run) + (if u == user then 1 else 0) <= CallsLeft(s.runs[user])
  {
    FlightAfter(s, u);
    AdvancedStays(s.catalog, s.runs[u], Call(s.world, s.runs[u].flight.value).1, s.now);
  }

  lemma {:induction false} DepartCosts(s: Sys, u: string, plan: Plan, user: string)
    requires user in s.runs && Can(s, Depart(u, plan))
    ensures var run := AfterDepart(s, u, plan).runs[user];
            && run.attempts == s.runs[user].attempts + (if u == user then 1 else 0)
            && CallsLeft(run) <= CallsLeft(s.runs[user]) + if u == user then MOST_CALLS else 0
  {
  }

  lemma {:induction false} ClientCosts(s: Sys, m: Move, user: string)
    requires Runnable(s.catalog, s.runs) && Can(s, m) && user in s.runs && StaysInRun(s, m, user)
    requires !m.Depart? && !m.Proceed?
    ensures user in Next(s, m).runs
    ensures var run := Next(s, m).runs[user];
            run.attempts == s.runs[user].attempts && run.flight == s.runs[user].flight
  {
    match m
    case Tick(_) =>
    case Deploy(_) =>
    case Reload(_) =>
    case StartRun(_) =>
    case VerifyEmail(u) => SignalCosts(s, u, EMAIL_VERIFIED, NO_PAYLOAD, user);
    case RecordStep(u, step) => RecordCosts(s, u, step, user);
    case ReadState(_, _, _, _) =>
    case Conclude(id) => ConcludeCosts(s, id, user);
  }

  lemma {:induction false} MoveCosts(s: Sys, m: Move, user: string)
    requires Runnable(s.catalog, s.runs) && Can(s, m) && user in s.runs && StaysInRun(s, m, user)
    ensures user in Next(s, m).runs
    ensures var run := Next(s, m).runs[user];
            && run.attempts == s.runs[user].attempts + Begins(m, user)
            && CallsLeft(run) + Calls(m, user) <= CallsLeft(s.runs[user]) + MOST_CALLS * Begins(m, user)
  {
    if m.Depart? {
      DepartCosts(s, m.user, m.plan, user);
    } else if m.Proceed? {
      ProceedCosts(s, m.user, user);
    } else {
      ClientCosts(s, m, user);
    }
  }

  /** Over a stretch each attempt begun is counted, and an attempt makes at most nine
      calls, so there are at most nine for each attempt begun or already under way. */
  lemma {:induction false} StretchCounts(s: Sys, moves: seq<Move>, t: Sys, user: string)
    requires user in s.runs && Stretch(s, moves, t, user)
    ensures user in t.runs && t.runs[user].attempts == s.runs[user].attempts + DeparturesOf(moves, user)
    ensures CallsOf(moves, user) + CallsLeft(t.runs[user])
            <= CallsLeft(s.runs[user]) + MOST_CALLS * DeparturesOf(moves, user)
    ensures CallsLeft(s.runs[user]) <= MOST_CALLS
    decreases |moves|
  {
    if moves != [] {
      var last := moves[|moves| - 1];
      var mid: Sys :|
        && Stretch(s, moves[..|moves| - 1], mid, user) && Runnable(mid.catalog, mid.runs)
        && Can(mid, last) && StaysInRun(mid, last, user) && t == Next(mid, last);
      StretchCounts(s, moves[..|moves| - 1], mid, user);
      MoveCosts(mid, last, user);
    }
  }

  /** The most activities a run of n steps asks for. */
  function ActivityBound(n: nat): nat {
    3 * n + 1
  }

  /** A run of n steps asks for at most 3n + 1 activities, each tried at most 8 times
      with at most 123 seconds of waiting in between. */
  lemma {:induction false} RunIsBounded(s: Sys, user: string)
    requires Inv(s) && user in s.runs
    ensures var run := s.runs[user];
            var n := |StepsOf(s.catalog, run)|;
            && |run.live.exec.issued| <= ActivityBound(n)
            && run.tries < MAXIMUM_ATTEMPTS
            && run.attempts <= MAXIMUM_ATTEMPTS * |run.live.exec.issued| <= MAXIMUM_ATTEMPTS * ActivityBound(n)
            && Waited(run.tries) <= 123
  {
    RunFacts(s, user);
    var run := s.runs[user];
    var steps := StepsOf(s.catalog, run);
    ReplayMatchesLive(steps, run.input, run.started, run.history);
    RunFollowsSchedule(steps, run.input, run.started, Replies(run.history), Signals(run.history));
    BackoffIsBounded(run.tries);
  }

  /** However many moves a stretch has, at most 8 (3n + 1) of them begin attempts for the
      run, and at most nine times as many, and nine, are calls of its attempts. So a run
      whose activities keep being attempted ends, or comes to wait for a signal. */
  lemma {:induction false} AttemptsAreBounded(s: Sys, moves: seq<Move>, t: Sys, user: string)
    requires Inv(s) && user in s.runs && Stretch(s, moves, t, user)
    ensures DeparturesOf(moves, user) <= MAXIMUM_ATTEMPTS * ActivityBound(|StepsOf(s.catalog, s.runs[user])|)
    ensures CallsOf(moves, user) <= MOST_CALLS * DeparturesOf(moves, user) + MOST_CALLS
  {
    StretchKeepsRun(s, moves, t, user);
    StretchCounts(s, moves, t, user);
    RunIsBounded(t, user);
    RunFacts(s, user);
    RunFacts(t, user);
    assert StepsOf(t.catalog, t.runs[user]) == StepsOf(s.catalog, s.runs[user]);
  }

  /** An open run with no activity under way waits for the signal of its current step,
      and no signal is there to read. */
  lemma {:induction false} IdleRunAwaitsSignal(s: Sys, user: string)
    requires Inv(s) && IsOpen(s.runs, user) && !Busy(s.runs[user])
    ensures var l := s.runs[user].live;
            var steps := StepsOf(s.catalog, s.runs[user]);
            && NeedsSignal(l.exec) && l.exec.index < |steps|
            && steps[l.exec.index].signal != "" && Box(l.boxes, steps[l.exec.index].signal) == []
  {
    RunFacts(s, user);
    var run := s.runs[user];
    var steps := StepsOf(s.catalog, run);
    var rs, ms := Replies(run.history), Signals(run.history);
    ReplayMatchesLive(steps, run.input, run.started, run.history);
    DriveRests(steps, Begin(steps, run.input, run.started), rs, ms);
    if NeedsReply(run.live.exec) {
      PendingIs(steps, FreshJourney(run.input, run.started), run.live.exec);
    } else {
      var c := steps[run.live.exec.index].signal;
      assert Box(run.live.boxes, c) == Channel(ms, c)[Taken(steps, run.live.exec.index, c)..];
    }
  }

  /** The journey the state endpoint answers with. */
  ghost function Seen(s: Sys, user: string): Journey {
    StateOf(s.catalog, DocOf(s, user), user)
  }

  /** The i-th step has this name. */
  predicate Names(steps: seq<StepDef>, name: string, i: nat) {
    i < |steps| && steps[i].name == name
  }

  /** How many steps the stored document records. */
  function Depth(s: Sys, user: string): nat {
    if user in s.world.docs then |s.world.docs[user].journey.steps| else 0
  }

  /** The user's run was created under the catalog in force, and the stored document, if
      any, is the run's own. */
  predicate Watched(s: Sys, user: string) {
    user in s.runs && s.runs[user].born == s.catalog && (user in s.world.docs ==> s.runs[user].persisted)
  }

  lemma {:induction false} FirstRunIsWatched(s: Sys, user: string)
    requires Inv(s) && Runnable(s.catalog, s.runs) && user !in s.runs && user !in s.world.docs
    ensures Watched(Next(s, StartRun(user)), user)
  {
  }

  lemma {:induction false} OwnDocumentAppears(s: Sys, user: string)
    requires Inv(s) && Runnable(s.catalog, s.runs) && Can(s, Proceed(user)) && user !in s.world.docs
    requires user in CallOf(s, user).0.docs
    ensures Writes(FlightOf(s, user))
  {
    RunFacts(s, user);
    UnpersistedIsFresh(s, user);
    FlightIsOwn(s, user);
  }

  lemma {:induction false} DeployAloneChangesCatalog(s: Sys, m: Move)
    requires Can(s, m) && Runnable(s.catalog, s.runs) && !m.Deploy?
    ensures Next(s, m).catalog == s.catalog
  {
  }

  lemma {:induction false} WritingIsKept(s: Sys, u: string)
    requires Runnable(s.catalog, s.runs) && Can(s, Proceed(u)) && Writes(s.runs[u].flight.value)
    ensures AfterProceed(s, u).runs[u].persisted
  {
  }

  lemma {:induction false} WatchGoesOn(s: Sys, m: Move, user: string)
    requires Inv(s) && Can(s, m) && Runnable(s.catalog, s.runs)
    requires Watched(s, user) && StaysInRun(s, m, user) && !m.Deploy?
    ensures Watched(Next(s, m), user) && Next(s, m).catalog == s.catalog
    ensures Depth(s, user) <= Depth(Next(s, m), user)
  {
    RunStays(s, m, user);
    DeployAloneChangesCatalog(s, m);
    if user in s.world.docs {
      MoveKeepsProgress(s, m, user);
    } else if !m.Proceed? {
      OnlyCallsTouchTheWorld(s, m);
    } else if m.user == user {
      FlightAfter(s, user);
      if user in AfterProceed(s, user).world.docs {
        OwnDocumentAppears(s, user);
        WritingIsKept(s, user);
      }
    } else {
      OthersKeepDocument(s, m.user, user);
    }
  }

  lemma {:induction false} StretchKeepsWatch(s: Sys, moves: seq<Move>, t: Sys, user: string)
    requires Inv(s) && Watched(s, user) && Stretch(s, moves, t, user) && (forall m :: m in moves ==> !m.Deploy?)
    ensures Inv(t) && Watched(t, user) && t.catalog == s.catalog && Depth(s, user) <= Depth(t, user)
    decreases |moves|
  {
    if moves != [] {
      var last := moves[|moves| - 1];
      var mid: Sys :|
        && Stretch(s, moves[..|moves| - 1], mid, user) && Runnable(mid.catalog, mid.runs)
        && Can(mid, last) && StaysInRun(mid, last, user) && t == Next(mid, last);
      StretchKeepsWatch(s, moves[..|moves| - 1], mid, user);
      NextKeepsInv(mid, last);
      WatchGoesOn(mid, last, user);
    }
  }

  /** What a watched user is shown: the step to resume at for the recorded depth, in the
      latest catalog version, and completed exactly when a recorded step marks it. */
  lemma {:induction false} SeenIsDepth(s: Sys, user: string)
    requires Inv(s) && Watched(s, user)
    ensures var steps := Steps(s.catalog, Latest(s.catalog));
            && Depth(s, user) <= |steps|
            && (|steps| > 0 ==> Seen(s, user).currentStep == ResumeAt(steps, Depth(s, user)))
            && (Seen(s, user).status == Completed <==> Marked(steps, Depth(s, user)))
  {
    RunFacts(s, user);
    RunIsOrderly(s.catalog, user, s.runs[user]);
    if user in s.world.docs {
      assert Matches(s.world.docs[user].journey, StepsOf(s.catalog, s.runs[user]), s.runs[user].live.exec);
      assert StoredIsReadModel(s.catalog, user, s.world.docs[user].journey);
    }
  }

  lemma {:induction false} ResumesInOrder(steps: seq<StepDef>, a: nat, b: nat, i: nat, j: nat)
    requires DistinctNames(steps) && a <= b <= |steps|
    requires Names(steps, ResumeAt(steps, a), i) && Names(steps, ResumeAt(steps, b), j)
    ensures i <= j
  {
  }

  /** Under one catalog with distinct step names, successive answers during one run,
      the answer before the first persist included, never name an earlier step and
      never go from completed back to in progress. */
  lemma {:induction false} ObservationsNeverGoBack(s: Sys, moves: seq<Move>, t: Sys, user: string, i: nat, j: nat)
    requires Inv(s) && Watched(s, user) && Stretch(s, moves, t, user) && (forall m :: m in moves ==> !m.Deploy?)
    requires DistinctNames(Steps(s.catalog, Latest(s.catalog)))
    requires Names(Steps(s.catalog, Latest(s.catalog)), Seen(s, user).currentStep, i)
    requires Names(Steps(s.catalog, Latest(s.catalog)), Seen(t, user).currentStep, j)
    ensures i <= j
    ensures Seen(s, user).status == Completed ==> Seen(t, user).status == Completed
  {
    var steps := Steps(s.catalog, Latest(s.catalog));
    StretchKeepsWatch(s, moves, t, user);
    SeenIsDepth(s, user);
    SeenIsDepth(t, user);
    ResumesInOrder(steps, Depth(s, user), Depth(t, user), i, j);
    MarkedGrows(steps, Depth(s, user), Depth(t, user));
  }

  /** Every answer names a step of the catalog. */
  lemma {:induction false} ObservationIsAStep(s: Sys, user: string) returns (i: nat)
    requires Inv(s) && Watched(s, user) && |Steps(s.catalog, Latest(s.catalog))| > 0
    ensures Names(Steps(s.catalog, Latest(s.catalog)), Seen(s, user).currentStep, i)
  {
    var n := |Steps(s.catalog, Latest(s.catalog))|;
    SeenIsDepth(s, user);
    i := if Depth(s, user) < n then Depth(s, user) else n - 1;
  }
}
