/** Where no name can get to the first organisation step, no run ever gets past it. And
    what holds of all runs while the catalog stays the same. */
module Nameless {
  import opened Domain
  import opened Catalog
  import opened Executor
  import opened Replay
  import opened ReadModel
  import opened Faults
  import opened Stores
  import opened Activities
  import Crashes
  import opened Flights
  import opened Attempts
  import opened Server
  import opened System
  import opened Safety
  import opened Delivery
  import opened Walks
  import opened Naming

  /** Every run, document and ticket is of the latest version of c. */
  ghost predicate Uniform(c: Versions, s: Sys) {
    && s.catalog == c && Born(c, s.runs) && AllOf(Latest(c), s.world.docs) && AllRead(Latest(c), s.tickets)
  }

  predicate Born(c: Versions, runs: Runs) {
    forall u :: u in runs ==> runs[u].born == c
  }

  predicate AllOf(version: int, docs: Docs) {
    forall u :: u in docs ==> docs[u].journey.version == version
  }

  predicate AllRead(version: int, tickets: map<nat, Ticket>) {
    forall id :: id in tickets && tickets[id].doc.Some? ==> tickets[id].doc.value.journey.version == version
  }

  /** Every run follows these steps. */
  predicate Following(c: Versions, steps: seq<StepDef>, runs: Runs) {
    forall u :: u in runs ==> StepsOf(c, runs[u]) == steps
  }

  lemma {:induction false} UniformRun(c: Versions, s: Sys, u: string)
    requires Inv(s) && Uniform(c, s) && u in s.runs
    ensures StepsOf(s.catalog, s.runs[u]) == Steps(c, Latest(c)) && s.runs[u].live.exec.journey.version == Latest(c)
  {
    RunFacts(s, u);
    RunIsOrderly(s.catalog, u, s.runs[u]);
  }

  lemma {:induction false} UniformFollows(c: Versions, s: Sys)
    requires Inv(s) && Uniform(c, s)
    ensures Following(c, Steps(c, Latest(c)), s.runs)
  {
    forall u | u in s.runs
      ensures StepsOf(c, s.runs[u]) == Steps(c, Latest(c))
    {
      UniformRun(c, s, u);
    }
  }

  lemma {:induction false} SignalKeepsBorn(c: Versions, runs: Runs, u: string, m: Message)
    requires Born(c, runs) && Runnable(c, runs)
    ensures Born(c, Signalling(c, runs, u, m))
  {
  }

  lemma {:induction false} StartKeepsBorn(c: Versions, runs: Runs, u: string, now: Time)
    requires Born(c, runs) && Runnable(c, runs)
    ensures Born(c, WithRun(c, runs, u, now))
  {
  }

  lemma {:induction false} AdvancedIsBorn(c: Versions, run: Run, stage: Stage, now: Time)
    requires Placed(StepsOf(c, run), run.live.exec) && Flying(run)
    ensures Advanced(c, run, stage, now).born == run.born
  {
  }

  lemma {:induction false} CallKeepsVersions(w: World, f: Flight, version: int)
    requires Fit(f) && !f.stage.Over? && AllOf(version, w.docs)
    requires f.command.Persist? ==> f.command.journey.version == version
    requires f.stage.SetOrg? ==> UserOf(f.command) in w.docs
    ensures AllOf(version, Call(w, f).0.docs)
  {
    CallWritesDocument(w, f);
  }

  /** A run that makes an organisation has a document. */
  lemma {:induction false} FlightFacts(s: Sys, u: string)
    requires Inv(s) && u in s.runs && s.runs[u].flight.Some?
    ensures var f, e := s.runs[u].flight.value, s.runs[u].live.exec;
            && (f.command.Persist? ==> f.command == Persist(e.journey))
            && (f.command.Act? ==> u in s.world.docs && e.phase.Acting? && e.index < |StepsOf(s.catalog, s.runs[u])|
                                   && f.command == Act(StepsOf(s.catalog, s.runs[u])[e.index].action, InputOf(e)))
  {
    RunFacts(s, u);
    FlightIsOwn(s, u);
    PendingIs(StepsOf(s.catalog, s.runs[u]), FreshJourney(s.runs[u].input, s.runs[u].started), s.runs[u].live.exec);
  }

  lemma {:induction false} ProceedKeepsUniform(c: Versions, s: Sys, u: string)
    requires Inv(s) && Uniform(c, s) && Runnable(s.catalog, s.runs) && Can(s, Proceed(u))
    ensures Uniform(c, AfterProceed(s, u))
  {
    FlightIsOwn(s, u);
    FlightFacts(s, u);
    UniformRun(c, s, u);
    CallKeepsVersions(s.world, s.runs[u].flight.value, Latest(c));
    FlightAfter(s, u);
    AdvancedIsBorn(s.catalog, s.runs[u], Call(s.world, s.runs[u].flight.value).1, s.now);
  }

  lemma {:induction false} RecordKeepsUniform(c: Versions, s: Sys, u: string, step: string)
    requires Uniform(c, s) && Runnable(s.catalog, s.runs)
    ensures Uniform(c, Next(s, RecordStep(u, step)))
  {
    StartKeepsBorn(c, s.runs, u, s.now);
    SignalKeepsBorn(c, WithRun(c, s.runs, u, s.now), u, Message(step, NO_PAYLOAD, s.now));
  }

  lemma {:induction false} ConcludeKeepsUniform(c: Versions, s: Sys, id: nat)
    requires Uniform(c, s) && Runnable(s.catalog, s.runs) && id in s.tickets
    ensures Uniform(c, Next(s, Conclude(id)))
  {
    var t := s.tickets[id];
    var v := VerdictOf(s, t);
    if v.Send? {
      SignalKeepsBorn(c, s.runs, t.user, Message(t.step, v.payload, s.now));
    }
  }

  lemma {:induction false} DepartKeepsUniform(c: Versions, s: Sys, u: string, plan: Plan)
    requires Uniform(c, s) && Can(s, Depart(u, plan))
    ensures Uniform(c, AfterDepart(s, u, plan))
  {
  }

  /** Without a deployment all runs, documents and requests stay of one version. */
  lemma {:induction false} NextKeepsUniform(c: Versions, s: Sys, m: Move)
    requires Inv(s) && Uniform(c, s) && Runnable(s.catalog, s.runs) && Can(s, m) && !m.Deploy?
    ensures Uniform(c, Next(s, m))
  {
    match m
    case Tick(_) =>
    case Reload(_) =>
    case StartRun(u) => StartKeepsBorn(c, s.runs, u, s.now);
    case VerifyEmail(u) => SignalKeepsBorn(c, s.runs, u, Message(EMAIL_VERIFIED, NO_PAYLOAD, s.now));
    case RecordStep(u, step) => RecordKeepsUniform(c, s, u, step);
    case ReadState(_, _, _, _) =>
    case Conclude(id) => ConcludeKeepsUniform(c, s, id);
    case Depart(u, plan) => DepartKeepsUniform(c, s, u, plan);
    case Proceed(u) => ProceedKeepsUniform(c, s, u);
  }

  /** The channel is that of a step no later than the f-th, with the journey in progress. */
  predicate Speakable(steps: seq<StepDef>, f: nat, channel: string)
    requires f < |steps|
  {
    exists k :: 0 <= k <= f && steps[k].name == channel && !Marked(steps, k)
  }

  /** Names come only on such channels. */
  predicate Harmless(steps: seq<StepDef>, f: nat, ms: seq<Message>)
    requires f < |steps|
  {
    forall m :: m in ms && m.payload.displayName != "" ==> Speakable(steps, f, m.channel)
  }

  /** An attempt that makes no organisation and has no completed record in hand. */
  predicate Modest(f: Flight) {
    match f.stage
    case Store => true
    case Find => true
    case Get => true
    case Post(read, _) => !read.completed
    case Write(_, rec) => !rec.completed
    case Over(_) => true
    case _ => false
  }

  /** The run has not got past the f-th step. */
  predicate HeldBack(steps: seq<StepDef>, f: nat, run: Run)
    requires f < |steps|
  {
    && Acted(run.live.exec) <= f && !run.live.exec.phase.Finalising? && !run.live.exec.phase.Finished?
    && Harmless(steps, f, Signals(run.history))
    && (run.flight.Some? ==> Modest(run.flight.value))
  }

  /** No document has an organisation or goes beyond the f-th step, and no record is
      completed. */
  predicate Bare(f: nat, w: World) {
    && (forall u :: u in w.docs ==> w.docs[u].journey.orgId == "" && |w.docs[u].journey.steps| <= f)
    && (forall o :: o in w.recs ==> !w.recs[o].completed)
  }

  predicate Held(steps: seq<StepDef>, f: nat, runs: Runs)
    requires f < |steps|
  {
    forall u :: u in runs ==> HeldBack(steps, f, runs[u])
  }

  predicate ReadBelow(f: nat, tickets: map<nat, Ticket>) {
    forall id :: id in tickets && tickets[id].doc.Some? ==> |tickets[id].doc.value.journey.steps| <= f
  }

  /** No run, document or request has got past the f-th step. */
  ghost predicate Unnamed(c: Versions, f: nat, s: Sys) {
    f < |Steps(c, Latest(c))| && Held(Steps(c, Latest(c)), f, s.runs) && Bare(f, s.world) && ReadBelow(f, s.tickets)
  }

  /** The first organisation step gets no name, and nothing completes before it. */
  predicate Barred(steps: seq<StepDef>, f: nat) {
    && FirstCreates(steps, f) && !NameArrives(steps, f)
    && forall i :: 0 <= i < f ==> steps[i].action != COMPLETE_PROVISIONING
  }

  lemma {:induction false} ReceiptsBelow(steps: seq<StepDef>, e: Exec, rs: seq<Reply>, ms: seq<Message>)
    requires Placed(steps, e) && (e.phase.Awaiting? ==> steps[e.index].signal != "")
    ensures forall x :: x in Receipts(steps, e, rs, ms) ==>
              x.step < Heard(Drive(steps, e, rs, ms)) && x.step < |steps| && steps[x.step].signal != ""
    ensures Heard(e) <= Heard(Drive(steps, e, rs, ms))
    decreases if e.answered < |rs| then |rs| - e.answered else 0, if e.phase.Awaiting? then 1 else 0
  {
    if NeedsReply(e) && e.answered < |rs| {
      ReceiptsBelow(steps, OnReply(steps, e, rs[e.answered]), rs, ms);
    } else if NeedsSignal(e) && SignalReady(steps, e, ms) {
      ReceiptsBelow(steps, OnMessage(steps, e, NextSignal(steps, e, ms)), rs, ms);
    }
  }

  lemma {:induction false} NothingSaid(rec: seq<Receipt>, was: string)
    requires forall x :: x in rec ==> x.message.payload.displayName == ""
    ensures LastSaid(rec, DisplayName, was) == was
  {
    if rec != [] {
      assert rec[0] in rec;
      NothingSaid(rec[1..], was);
    }
  }

  lemma {:induction false} SpeakableArrives(steps: seq<StepDef>, f: nat, j: nat)
    requires f < |steps|
    ensures j <= f && steps[j].signal != "" && Speakable(steps, f, steps[j].signal) ==> NameArrives(steps, f)
  {
  }

  /** A run held back has heard no name. */
  lemma {:induction false} HeldBackIsNameless(c: Versions, u: string, run: Run, f: nat)
    requires Faithful(c, u, run) && f < |StepsOf(c, run)|
    requires HeldBack(StepsOf(c, run), f, run) && !NameArrives(StepsOf(c, run), f)
    ensures run.live.exec.ctx.displayName == ""
  {
    var steps := StepsOf(c, run);
    var begin, rs, ms := Begin(steps, run.input, run.started), Replies(run.history), Signals(run.history);
    ReplayMatchesLive(steps, run.input, run.started, run.history);
    ContextIsLastSaid(steps, begin, rs, ms);
    ReceiptsFit(steps, begin, rs, ms);
    ReceiptsBelow(steps, begin, rs, ms);
    forall x | x in Receipts(steps, begin, rs, ms)
      ensures x.message.payload.displayName == ""
    {
      SpeakableArrives(steps, f, x.step);
    }
    NothingSaid(Receipts(steps, begin, rs, ms), "");
  }

  lemma {:induction false} ReplyHeld(steps: seq<StepDef>, f: nat, e: Exec, r: Reply)
    requires Placed(steps, e) && NeedsReply(e) && f < |steps| && steps[f].action != ""
    requires Acted(e) <= f && !e.phase.Finalising? && !e.phase.Finished?
    requires r.Success? && e.phase.Acting? ==> e.index < f
    ensures var t := OnReply(steps, e, r); Acted(t) <= f && !t.phase.Finalising? && !t.phase.Finished?
  {
  }

  lemma {:induction false} MessageHeld(steps: seq<StepDef>, f: nat, e: Exec, m: Message)
    requires Placed(steps, e) && NeedsSignal(e) && f < |steps| && steps[f].action != "" && Acted(e) <= f
    ensures var t := OnMessage(steps, e, m); Acted(t) <= f && !t.phase.Finalising? && !t.phase.Finished?
  {
  }

  lemma {:induction false} SettleHeld(steps: seq<StepDef>, f: nat, l: Live)
    requires Placed(steps, l.exec) && f < |steps| && steps[f].action != ""
    requires Acted(l.exec) <= f && !l.exec.phase.Finalising? && !l.exec.phase.Finished?
    ensures var t := Settle(steps, l).exec; Acted(t) <= f && !t.phase.Finalising? && !t.phase.Finished?
  {
    if NeedsSignal(l.exec) && Box(l.boxes, steps[l.exec.index].signal) != [] {
      MessageHeld(steps, f, l.exec, Box(l.boxes, steps[l.exec.index].signal)[0]);
    }
  }

  /** A run held back is so after a result that does not take it past the f-th step, and
      after a harmless signal. */
  lemma {:induction false} ToldHeld(c: Versions, run: Run, e: Event, f: nat)
    requires f < |StepsOf(c, run)| && StepsOf(c, run)[f].action != "" && HeldBack(StepsOf(c, run), f, run)
    requires Placed(StepsOf(c, run), run.live.exec) && Enabled(run.live, e)
    requires match e
             case Replied(r) => r.Success? && run.live.exec.phase.Acting? ==> run.live.exec.index < f
             case Signalled(m) => Harmless(StepsOf(c, run), f, [m])
    ensures HeldBack(StepsOf(c, run), f, Told(c, run, e))
  {
    var steps := StepsOf(c, run);
    Crashes.HistorySnoc(run.history, e);
    match e
    case Replied(r) =>
      ReplyHeld(steps, f, run.live.exec, r);
      SettleHeld(steps, f, run.live.(exec := OnReply(steps, run.live.exec, r)));
    case Signalled(m) =>
      assert m in [m];
      SettleHeld(steps, f, run.live.(boxes := run.live.boxes[m.channel := Box(run.live.boxes, m.channel) + [m]]));
  }

  /** A call of a nameless attempt makes no organisation and completes no record. */
  lemma {:induction false} CallStaysModest(w: World, h: Flight, f: nat)
    requires Fit(h) && !h.stage.Over? && Knows(w, h) && Modest(h) && Bare(f, w) && !KindOf(h.command).Completion?
    requires KindOf(h.command).Organisation? ==> h.command.input.displayName == ""
    requires h.command.Persist? ==> |h.command.journey.steps| <= f
    ensures var (w', stage) := Call(w, h);
            && Modest(h.(stage := stage)) && Bare(f, w')
            && (KindOf(h.command).Organisation? && stage.Over? ==> !stage.result.Done?) && w'.tenant == w.tenant
  {
    CallWritesDocument(w, h);
  }

  lemma {:induction false} AdvancedHeld(c: Versions, run: Run, stage: Stage, now: Time, f: nat)
    requires Placed(StepsOf(c, run), run.live.exec) && Flying(run)
    requires f < |StepsOf(c, run)| && StepsOf(c, run)[f].action != "" && HeldBack(StepsOf(c, run), f, run)
    requires Modest(run.flight.value.(stage := stage))
    requires stage.Over? && stage.result.Done? && run.live.exec.phase.Acting? ==> run.live.exec.index < f
    ensures HeldBack(StepsOf(c, run), f, Advanced(c, run, stage, now))
  {
    if stage.Over? {
      var on := run.(persisted := run.persisted || Writes(run.flight.value), tries := 0, flight := None);
      var r := stage.result;
      if r.Done? {
        ToldHeld(c, on, Replied(Success(r.value.orgId, r.value.email, now)), f);
      } else if run.tries + 1 == Retry.MAXIMUM_ATTEMPTS {
        ToldHeld(c, on, Replied(Failure(now)), f);
      }
    }
  }

  /** What a run held back asks for. */
  lemma {:induction false} PendingIsNameless(c: Versions, u: string, run: Run, f: nat)
    requires Faithful(c, u, run) && Barred(StepsOf(c, run), f) && HeldBack(StepsOf(c, run), f, run) && Busy(run)
    ensures var p, e := Pending(run.live.exec), run.live.exec;
            && !KindOf(p).Completion? && (KindOf(p).Organisation? ==> p.input.displayName == "")
            && (p.Persist? ==> |p.journey.steps| <= f) && (e.phase.Acting? && e.index >= f ==> KindOf(p).Organisation?)
  {
    ActionsDiffer();
    RunIsOrderly(c, u, run);
    PendingIs(StepsOf(c, run), FreshJourney(run.input, run.started), run.live.exec);
    HeldBackIsNameless(c, u, run, f);
  }

  lemma {:induction false} ReplacedRunIsHeld(steps: seq<StepDef>, f: nat, runs: Runs, u: string, run: Run)
    requires f < |steps| && Held(steps, f, runs) && HeldBack(steps, f, run)
    ensures Held(steps, f, runs[u := run])
  {
  }

  lemma {:induction false} ProceedKeepsUnnamed(c: Versions, s: Sys, u: string, f: nat)
    requires Inv(s) && Uniform(c, s) && Unnamed(c, f, s) && Barred(Steps(c, Latest(c)), f)
    requires Runnable(s.catalog, s.runs) && Can(s, Proceed(u))
    ensures Unnamed(c, f, AfterProceed(s, u)) && AfterProceed(s, u).world.tenant == s.world.tenant
  {
    var run := s.runs[u];
    var h := run.flight.value;
    UniformRun(c, s, u);
    FlightIsOwn(s, u);
    RunFacts(s, u);
    PendingIsNameless(c, u, run, f);
    CallStaysModest(s.world, h, f);
    var stage := Call(s.world, h).1;
    AdvancedHeld(c, run, stage, s.now, f);
    ReplacedRunIsHeld(Steps(c, Latest(c)), f, s.runs, u, Advanced(c, run, stage, s.now));
  }

  lemma {:induction false} SignalKeepsHeld(c: Versions, steps: seq<StepDef>, runs: Runs, u: string, m: Message, f: nat)
    requires Runnable(c, runs) && Following(c, steps, runs) && Barred(steps, f) && Held(steps, f, runs)
    requires m.payload.displayName != "" ==> Speakable(steps, f, m.channel)
    ensures Held(steps, f, Signalling(c, runs, u, m))
  {
    if IsOpen(runs, u) {
      ToldHeld(c, runs[u], Event.Signalled(m), f);
      ReplacedRunIsHeld(steps, f, runs, u, Told(c, runs[u], Event.Signalled(m)));
    }
  }

  /** A new run has no history and stands at the first step. */
  lemma {:induction false} StartKeepsHeld(c: Versions, steps: seq<StepDef>, runs: Runs, u: string, now: Time, f: nat)
    requires CATALOG_VERSION in c && steps == Steps(c, Latest(c))
    requires Runnable(c, runs) && Following(c, steps, runs) && f < |steps| && Held(steps, f, runs)
    ensures Held(steps, f, WithRun(c, runs, u, now)) && Following(c, steps, WithRun(c, runs, u, now))
  {
    if !IsOpen(runs, u) {
      LatestIsPinned(c);
      ReplacedRunIsHeld(steps, f, runs, u, NewRun(c, u, now));
    }
  }

  /** Whatever the step endpoint sends goes to the step of the journey it read. */
  lemma {:induction false} SentIsSpeakable(c: Versions, s: Sys, id: nat, f: nat)
    requires Inv(s) && Uniform(c, s) && Unnamed(c, f, s) && id in s.tickets && VerdictOf(s, s.tickets[id]).Send?
    ensures Speakable(Steps(c, Latest(c)), f, s.tickets[id].step)
  {
    var steps, t := Steps(c, Latest(c)), s.tickets[id];
    assert TicketOk(s.catalog, t);
    if t.doc.Some? {
      var j := t.doc.value.journey;
      assert steps[|j.steps|].name == t.step && !Marked(steps, |j.steps|);
    } else {
      assert steps[0].name == t.step && !Marked(steps, 0);
    }
  }

  lemma {:induction false} ConcludeKeepsUnnamed(c: Versions, s: Sys, id: nat, f: nat)
    requires Inv(s) && Uniform(c, s) && Unnamed(c, f, s) && Barred(Steps(c, Latest(c)), f)
    requires Runnable(s.catalog, s.runs) && id in s.tickets
    ensures Unnamed(c, f, Next(s, Conclude(id)))
  {
    var v, t := VerdictOf(s, s.tickets[id]), s.tickets[id];
    if v.Send? {
      SentIsSpeakable(c, s, id, f);
      UniformFollows(c, s);
      SignalKeepsHeld(c, Steps(c, Latest(c)), s.runs, t.user, Message(t.step, v.payload, s.now), f);
    }
  }

  lemma {:induction false} RecordKeepsHeld(c: Versions, steps: seq<StepDef>, runs: Runs, u: string, step: string,
                                           now: Time, f: nat)
    requires CATALOG_VERSION in c && steps == Steps(c, Latest(c))
    requires Runnable(c, runs) && Following(c, steps, runs) && Barred(steps, f) && Held(steps, f, runs)
    ensures Held(steps, f, Signalling(c, WithRun(c, runs, u, now), u, Message(step, NO_PAYLOAD, now)))
  {
    StartKeepsHeld(c, steps, runs, u, now, f);
    SignalKeepsHeld(c, steps, WithRun(c, runs, u, now), u, Message(step, NO_PAYLOAD, now), f);
  }

  lemma {:induction false} DepartKeepsUnnamed(c: Versions, s: Sys, u: string, plan: Plan, f: nat)
    requires Unnamed(c, f, s) && Can(s, Depart(u, plan))
    ensures Unnamed(c, f, AfterDepart(s, u, plan))
  {
    ReplacedRunIsHeld(Steps(c, Latest(c)), f, s.runs, u, AfterDepart(s, u, plan).runs[u]);
  }

  /** No move without a deployment gets a run past the first organisation step. */
  lemma {:induction false} NextKeepsUnnamed(c: Versions, s: Sys, m: Move, f: nat)
    requires Inv(s) && Uniform(c, s) && Unnamed(c, f, s) && Barred(Steps(c, Latest(c)), f)
    requires Runnable(s.catalog, s.runs) && Can(s, m) && !m.Deploy?
    ensures Unnamed(c, f, Next(s, m)) && Next(s, m).world.tenant == s.world.tenant
  {
    UniformFollows(c, s);
    match m
    case Tick(_) =>
    case Reload(_) =>
    case StartRun(u) => StartKeepsHeld(c, Steps(c, Latest(c)), s.runs, u, s.now, f);
    case VerifyEmail(u) =>
      SignalKeepsHeld(c, Steps(c, Latest(c)), s.runs, u, Message(EMAIL_VERIFIED, NO_PAYLOAD, s.now), f);
    case RecordStep(u, step) => RecordKeepsHeld(c, Steps(c, Latest(c)), s.runs, u, step, s.now, f);
    case ReadState(_, _, _, _) =>
    case Conclude(id) => ConcludeKeepsUnnamed(c, s, id, f);
    case Depart(u, plan) => DepartKeepsUnnamed(c, s, u, plan, f);
    case Proceed(u) => ProceedKeepsUnnamed(c, s, u, f);
  }

  lemma {:induction false} PlaysKeepUniform(c: Versions, s: Sys, moves: seq<Move>, t: Sys)
    requires Initial(s) && s.catalog == c && Plays(s, moves, t) && NoDeploys(moves)
    ensures Inv(t) && Uniform(c, t)
    decreases |moves|
  {
    AlwaysInv(s, moves, t);
    if moves != [] {
      var before := moves[..|moves| - 1];
      var mid := LastMove(s, moves, t);
      assert NoDeploys(before);
      PlaysKeepUniform(c, s, before, mid);
      NextKeepsUniform(c, mid, moves[|moves| - 1]);
    }
  }

  lemma {:induction false} PlaysStayUnnamed(c: Versions, s: Sys, moves: seq<Move>, t: Sys, f: nat)
    requires Initial(s) && s.catalog == c && Plays(s, moves, t) && NoDeploys(moves) && Barred(Steps(c, Latest(c)), f)
    ensures Unnamed(c, f, t) && t.world.tenant == s.world.tenant
    decreases |moves|
  {
    if moves != [] {
      var before := moves[..|moves| - 1];
      var mid := LastMove(s, moves, t);
      assert NoDeploys(before);
      PlaysKeepUniform(c, s, before, mid);
      PlaysStayUnnamed(c, s, before, mid, f);
      NextKeepsUnnamed(c, mid, moves[|moves| - 1], f);
    }
  }

  /** Where no name can get to the first organisation step and nothing completes before
      it, no play without a deployment makes an organisation, gets a run past that step,
      or completes a record. */
  lemma {:induction false} NobodyPasses(s: Sys, moves: seq<Move>, t: Sys, f: nat)
    requires Initial(s) && Plays(s, moves, t) && NoDeploys(moves) && Barred(Steps(s.catalog, Latest(s.catalog)), f)
    ensures t.world.tenant == s.world.tenant
    ensures forall u :: u in t.runs ==> Acted(t.runs[u].live.exec) <= f && !t.runs[u].live.exec.phase.Finished?
    ensures forall o :: o in t.world.recs ==> !t.world.recs[o].completed
  {
    PlaysStayUnnamed(s.catalog, s, moves, t, f);
    forall u | u in t.runs
      ensures HeldBack(Steps(s.catalog, Latest(s.catalog)), f, t.runs[u])
    {
    }
  }
}
