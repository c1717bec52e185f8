/** When the server gives an activity up: after exactly eight attempts. */
module Retries {
  import opened Domain
  import opened Catalog
  import opened Executor
  import opened Replay
  import opened Faults
  import opened Flights
  import opened Server
  import opened System
  import opened Safety
  import opened Lifetimes
  import opened Observation

  /** The attempts of the pending activity so far. */
  function Spent(run: Run): nat {
    run.tries + if run.flight.Some? then 1 else 0
  }

  /** Told of nothing but signals, a run has the same results and the same attempts. */
  predicate NothingAnswered(run: Run, after: Run) {
    && after.live.exec.answered == run.live.exec.answered && after.live.exec.failed == run.live.exec.failed
    && after.tries == run.tries && after.flight == run.flight
  }

  lemma {:induction false} ToldOfSignal(c: Versions, run: Run, m: Message)
    requires Placed(StepsOf(c, run), run.live.exec)
    ensures NothingAnswered(run, Told(c, run, Event.Signalled(m)))
  {
  }

  lemma {:induction false} SignalAnswersNothing(s: Sys, u: string, channel: string, p: Payload, user: string)
    requires Runnable(s.catalog, s.runs) && user in s.runs
    ensures user in AfterSignal(s, u, channel, p).runs
    ensures NothingAnswered(s.runs[user], AfterSignal(s, u, channel, p).runs[user])
  {
    if IsOpen(s.runs, u) {
      ToldOfSignal(s.catalog, s.runs[u], Message(channel, p, s.now));
    }
  }

  lemma {:induction false} RecordAnswersNothing(s: Sys, u: string, step: string, user: string)
    requires Runnable(s.catalog, s.runs) && user in s.runs && (u == user ==> IsOpen(s.runs, user))
    ensures user in Next(s, RecordStep(u, step)).runs
    ensures NothingAnswered(s.runs[user], Next(s, RecordStep(u, step)).runs[user])
  {
    SignalAnswersNothing(s.(runs := WithRun(s.catalog, s.runs, u, s.now)), u, step, NO_PAYLOAD, user);
  }

  lemma {:induction false} ConcludeAnswersNothing(s: Sys, id: nat, user: string)
    requires Runnable(s.catalog, s.runs) && user in s.runs && id in s.tickets
    ensures user in Next(s, Conclude(id)).runs
    ensures NothingAnswered(s.runs[user], Next(s, Conclude(id)).runs[user])
  {
    var v := VerdictOf(s, s.tickets[id]);
    if v.Send? {
      SignalAnswersNothing(s, s.tickets[id].user, s.tickets[id].step, v.payload, user);
    }
  }

  lemma {:induction false} ClientAnswersNothing(s: Sys, m: Move, user: string)
    requires Runnable(s.catalog, s.runs) && Can(s, m) && user in s.runs && StaysInRun(s, m, user)
    requires !m.Depart? && !(m.Proceed? && m.user == user)
    ensures user in Next(s, m).runs && NothingAnswered(s.runs[user], Next(s, m).runs[user])
  {
    match m
    case Tick(_) =>
    case Deploy(_) =>
    case Reload(_) =>
    case StartRun(_) =>
    case VerifyEmail(u) => SignalAnswersNothing(s, u, EMAIL_VERIFIED, NO_PAYLOAD, user);
    case RecordStep(u, step) => RecordAnswersNothing(s, u, step, user);
    case ReadState(_, _, _, _) =>
    case Conclude(id) => ConcludeAnswersNothing(s, id, user);
    case Proceed(_) =>
  }

  /** What the server records of an attempt it takes as final. */
  function ReplyOf(r: Result<Answer>, now: Time): Reply {
    if r.Done? then Success(r.value.orgId, r.value.email, now) else Failure(now)
  }

  /** What the end of an attempt means to the run. */
  lemma {:induction false} LandedCounts(c: Versions, run: Run, r: Result<Answer>, now: Time)
    requires Placed(StepsOf(c, run), run.live.exec) && Busy(run) && run.tries < 8
    ensures var after := Landed(c, run, r, now);
            if r.Done? || run.tries == 7 then
              && after.live.exec.answered == run.live.exec.answered + 1 && Spent(after) == 0
              && (after.live.exec.failed <==> !r.Done? && !run.live.exec.phase.Emitting?)
              && after.history == run.history + [Replied(ReplyOf(r, now))]
            else
              && after.live == run.live && after.tries == run.tries + 1 && after.flight == None
              && after.history == run.history
  {
  }

  lemma {:induction false} AdvancedCounts(c: Versions, run: Run, stage: Stage, now: Time)
    requires Placed(StepsOf(c, run), run.live.exec) && Flying(run) && run.tries < 8
    ensures var after := Advanced(c, run, stage, now);
            if stage.Over? && (stage.result.Done? || run.tries == 7) then
              && after.live.exec.answered == run.live.exec.answered + 1 && Spent(after) == 0
              && (after.live.exec.failed <==> !stage.result.Done? && !run.live.exec.phase.Emitting?)
              && after.history == run.history + [Replied(ReplyOf(stage.result, now))]
            else after.live == run.live && Spent(after) == Spent(run) && after.history == run.history
  {
    if stage.Over? {
      LandedCounts(c, run.(persisted := run.persisted || Writes(run.flight.value)), stage.result, now);
    }
  }

  /** As long as no result comes in, n more attempts have begun. */
  predicate Spends(run: Run, after: Run, n: nat) {
    && run.live.exec.answered <= after.live.exec.answered
    && (after.live.exec.answered == run.live.exec.answered ==> Spent(after) == Spent(run) + n)
  }

  lemma {:induction false} OwnCallSpends(s: Sys, user: string)
    requires Runnable(s.catalog, s.runs) && Can(s, Proceed(user)) && s.runs[user].tries < 8
    ensures Spends(s.runs[user], AfterProceed(s, user).runs[user], 0)
  {
    AdvancedCounts(s.catalog, s.runs[user], Call(s.world, s.runs[user].flight.value).1, s.now);
  }

  lemma {:induction false} DepartSpends(s: Sys, u: string, plan: Plan, user: string)
    requires Can(s, Depart(u, plan)) && user in s.runs
    ensures Spends(s.runs[user], AfterDepart(s, u, plan).runs[user], if u == user then 1 else 0)
  {
  }

  lemma {:induction false} MoveSpends(s: Sys, m: Move, user: string)
    requires Runnable(s.catalog, s.runs) && Can(s, m) && user in s.runs && StaysInRun(s, m, user)
    requires s.runs[user].tries < 8
    ensures user in Next(s, m).runs && Spends(s.runs[user], Next(s, m).runs[user], Begins(m, user))
  {
    if m.Proceed? && m.user == user {
      OwnCallSpends(s, user);
    } else if m.Depart? {
      DepartSpends(s, m.user, m.plan, user);
    } else {
      ClientAnswersNothing(s, m, user);
    }
  }

  lemma {:induction false} StretchSpends(s: Sys, moves: seq<Move>, t: Sys, user: string)
    requires Inv(s) && user in s.runs && Stretch(s, moves, t, user)
    ensures user in t.runs && Spends(s.runs[user], t.runs[user], DeparturesOf(moves, user))
    decreases |moves|
  {
    if moves != [] {
      var before, last := moves[..|moves| - 1], moves[|moves| - 1];
      var mid: Sys :|
        && Stretch(s, before, mid, user) && Runnable(mid.catalog, mid.runs)
        && Can(mid, last) && StaysInRun(mid, last, user) && t == Next(mid, last);
      StretchKeepsRun(s, before, mid, user);
      StretchSpends(s, before, mid, user);
      RunFacts(mid, user);
      MoveSpends(mid, last, user);
    }
  }

  /** The next call of the user's attempt ends it without an answer. */
  predicate Fruitless(s: Sys, user: string) {
    && Can(s, Proceed(user))
    && CallOf(s, user).1.Over? && !CallOf(s, user).1.result.Done?
  }

  /** The call that ends an attempt. */
  lemma {:induction false} LastCallCounts(s: Sys, user: string)
    requires Runnable(s.catalog, s.runs) && Can(s, Proceed(user)) && CallOf(s, user).1.Over? && s.runs[user].tries < 8
    ensures user in Next(s, Proceed(user)).runs && Spent(s.runs[user]) == s.runs[user].tries + 1
    ensures var run, after, r := s.runs[user], Next(s, Proceed(user)).runs[user], CallOf(s, user).1.result;
            && after.history == run.history + (if r.Done? || run.tries == 7 then [Replied(ReplyOf(r, s.now))] else [])
            && (after.live.exec.failed <==> !r.Done? && run.tries == 7 && !run.live.exec.phase.Emitting?)
  {
    AdvancedCounts(s.catalog, s.runs[user], CallOf(s, user).1, s.now);
  }

  /** An answer is recorded as it is, organisation and email included. */
  lemma {:induction false} AnswerIsRecorded(s: Sys, user: string)
    requires Inv(s) && Can(s, Proceed(user)) && CallOf(s, user).1.Over? && CallOf(s, user).1.result.Done?
    ensures Runnable(s.catalog, s.runs) && user in Next(s, Proceed(user)).runs
    ensures var a, after := CallOf(s, user).1.result.value, Next(s, Proceed(user)).runs[user];
            && after.history == s.runs[user].history + [Replied(Success(a.orgId, a.email, s.now))]
            && !after.live.exec.failed
  {
    InvIsRunnable(s);
    RunFacts(s, user);
    LastCallCounts(s, user);
  }

  /** Since the activity was asked for, `moves` have gone by without a result, and now an
      attempt ends without an answer. The server records a failure exactly when it is the
      eighth, and then the run fails, unless the activity is an event. */
  lemma {:induction false} GivenUpAfterEight(s: Sys, moves: seq<Move>, t: Sys, user: string)
    requires Inv(s) && user in s.runs && Spent(s.runs[user]) == 0 && Stretch(s, moves, t, user)
    requires user in t.runs && t.runs[user].live.exec.answered == s.runs[user].live.exec.answered && Fruitless(t, user)
    ensures Runnable(t.catalog, t.runs) && user in Next(t, Proceed(user)).runs
    ensures var n, run, after := DeparturesOf(moves, user), t.runs[user], Next(t, Proceed(user)).runs[user];
            && 1 <= n <= 8
            && after.history == run.history + (if n == 8 then [Replied(Failure(t.now))] else [])
            && (after.live.exec.failed <==> n == 8 && !run.live.exec.phase.Emitting?)
  {
    StretchKeepsRun(s, moves, t, user);
    StretchSpends(s, moves, t, user);
    RunFacts(t, user);
    InvIsRunnable(t);
    LastCallCounts(t, user);
  }
}
