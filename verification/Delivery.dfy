/** Where signals end up: which step reads which, and what the step endpoint may send. */
module Delivery {
  import opened Domain
  import opened Catalog
  import opened Executor
  import opened Replay
  import opened ReadModel
  import opened Confluence
  import opened Server
  import opened Gate
  import opened System
  import opened Safety

  /** A step's receipt of a signal. */
  datatype Receipt = Receipt(step: nat, message: Message)

  /** The receipts of a run from s on, in order. */
  function Receipts(steps: seq<StepDef>, s: Exec, rs: seq<Reply>, ms: seq<Message>): seq<Receipt>
    requires Placed(steps, s)
    decreases if s.answered < |rs| then |rs| - s.answered else 0, if s.phase.Awaiting? then 1 else 0
  {
    if NeedsReply(s) && s.answered < |rs| then
      Receipts(steps, OnReply(steps, s, rs[s.answered]), rs, ms)
    else if NeedsSignal(s) && SignalReady(steps, s, ms) then
      var m := NextSignal(steps, s, ms);
      [Receipt(s.index, m)] + Receipts(steps, OnMessage(steps, s, m), rs, ms)
    else
      []
  }

  function ReceiptsOf(c: Versions, run: Run): seq<Receipt> {
    var steps := StepsOf(c, run);
    Receipts(steps, Begin(steps, run.input, run.started), Replies(run.history), Signals(run.history))
  }

  lemma {:induction false} ChannelSelects(ms: seq<Message>, c: string)
    ensures forall m :: m in Channel(ms, c) ==> m in ms && m.channel == c
  {
    if ms != [] {
      ChannelSelects(ms[..|ms| - 1], c);
    }
  }

  /** Receipts by steps from the k-th on, in catalog order. */
  predicate InOrder(rec: seq<Receipt>, k: nat) {
    && (forall a :: 0 <= a < |rec| ==> k <= rec[a].step)
    && (forall a, b :: 0 <= a < b < |rec| ==> rec[a].step < rec[b].step)
  }

  /** Each receipt is of a recorded signal, by a step that waits on its channel, and the
      steps come in catalog order. */
  lemma {:induction false} ReceiptsFit(steps: seq<StepDef>, s: Exec, rs: seq<Reply>, ms: seq<Message>)
    requires Placed(steps, s)
    ensures forall r :: r in Receipts(steps, s, rs, ms) ==>
              r.step < |steps| && r.message in ms && r.message.channel == steps[r.step].signal
    ensures InOrder(Receipts(steps, s, rs, ms), Heard(s))
    decreases if s.answered < |rs| then |rs| - s.answered else 0, if s.phase.Awaiting? then 1 else 0
  {
    if NeedsReply(s) && s.answered < |rs| {
      assert Heard(s) <= Heard(OnReply(steps, s, rs[s.answered]));
      ReceiptsFit(steps, OnReply(steps, s, rs[s.answered]), rs, ms);
    } else if NeedsSignal(s) && SignalReady(steps, s, ms) {
      var m := NextSignal(steps, s, ms);
      ChannelSelects(ms, steps[s.index].signal);
      assert m in Channel(ms, steps[s.index].signal);
      ReceiptsFit(steps, OnMessage(steps, s, m), rs, ms);
      InOrderCons(Receipt(s.index, m), Receipts(steps, OnMessage(steps, s, m), rs, ms));
    }
  }

  lemma {:induction false} InOrderCons(r: Receipt, rest: seq<Receipt>)
    requires InOrder(rest, r.step + 1)
    ensures InOrder([r] + rest, r.step)
  {
  }

  function MessagesOf(rec: seq<Receipt>): seq<Message> {
    if rec == [] then [] else [rec[0].message] + MessagesOf(rec[1..])
  }

  lemma {:induction false} ChannelCons(m: Message, ms: seq<Message>, c: string)
    ensures Channel([m] + ms, c) == if m.channel == c then [m] + Channel(ms, c) else Channel(ms, c)
  {
    if ms != [] {
      ChannelCons(m, ms[..|ms| - 1], c);
      assert ([m] + ms)[..|ms|] == [m] + ms[..|ms| - 1];
    }
  }

  /** The messages of a channel that the steps from i up to k read. */
  function Share(steps: seq<StepDef>, i: nat, k: nat, ms: seq<Message>, c: string): seq<Message>
    requires i <= |steps| && k <= |steps|
    requires Taken(steps, i, c) <= Taken(steps, k, c) <= |Channel(ms, c)|
  {
    Channel(ms, c)[Taken(steps, i, c)..Taken(steps, k, c)]
  }

  lemma {:induction false} ShareSplits(steps: seq<StepDef>, i: nat, k: nat, ms: seq<Message>, c: string)
    requires i < |steps| && k <= |steps|
    requires Taken(steps, i + 1, c) <= Taken(steps, k, c) <= |Channel(ms, c)|
    ensures Taken(steps, i, c) <= Taken(steps, k, c)
    ensures Share(steps, i, k, ms, c)
         == if steps[i].signal == c then [Channel(ms, c)[Taken(steps, i, c)]] + Share(steps, i + 1, k, ms, c)
            else Share(steps, i + 1, k, ms, c)
  {
  }

  lemma {:induction false} ReplyTakesNone(steps: seq<StepDef>, s: Exec, r: Reply, c: string)
    requires Placed(steps, s) && NeedsReply(s) && c != ""
    ensures Taken(steps, Heard(OnReply(steps, s, r)), c) == Taken(steps, Heard(s), c)
    ensures var t := OnReply(steps, s, r); t.phase.Awaiting? ==> steps[t.index].signal != ""
  {
  }

  lemma {:induction false} ReceiptsAreTaken(steps: seq<StepDef>, s: Exec, rs: seq<Reply>, ms: seq<Message>, c: string)
    requires Placed(steps, s) && c != "" && (s.phase.Awaiting? ==> steps[s.index].signal != "")
    requires Taken(steps, Heard(s), c) <= |Channel(ms, c)|
    ensures var t := Drive(steps, s, rs, ms);
            && Taken(steps, Heard(s), c) <= Taken(steps, Heard(t), c) <= |Channel(ms, c)|
            && Channel(MessagesOf(Receipts(steps, s, rs, ms)), c) == Share(steps, Heard(s), Heard(t), ms, c)
    decreases if s.answered < |rs| then |rs| - s.answered else 0, if s.phase.Awaiting? then 2 else 0
  {
    if NeedsReply(s) && s.answered < |rs| {
      ReplyTakesNone(steps, s, rs[s.answered], c);
      ReceiptsAreTaken(steps, OnReply(steps, s, rs[s.answered]), rs, ms, c);
    } else if NeedsSignal(s) && SignalReady(steps, s, ms) {
      var m := NextSignal(steps, s, ms);
      MessageIsHeard(steps, s, m);
      ReceiptIsTaken(steps, s.index, OnMessage(steps, s, m), m, rs, ms, c);
    }
  }

  /** One more receipt, by step i, of the next message of its channel. */
  lemma {:induction false} ShareCons(steps: seq<StepDef>, i: nat, k: nat, ms: seq<Message>, c: string, m: Message,
                                     rest: seq<Receipt>)
    requires i < |steps| && k <= |steps| && m.channel == steps[i].signal
    requires Taken(steps, i + 1, c) <= Taken(steps, k, c) <= |Channel(ms, c)|
    requires m.channel == c ==> Channel(ms, c)[Taken(steps, i, c)] == m
    requires Channel(MessagesOf(rest), c) == Share(steps, i + 1, k, ms, c)
    ensures Taken(steps, i, c) <= Taken(steps, k, c)
    ensures Channel(MessagesOf([Receipt(i, m)] + rest), c) == Share(steps, i, k, ms, c)
  {
    ShareSplits(steps, i, k, ms, c);
    assert ([Receipt(i, m)] + rest)[1..] == rest;
    ChannelCons(m, MessagesOf(rest), c);
  }

  /** Step i has read m and led to `next`. */
  lemma {:induction false} ReceiptIsTaken(steps: seq<StepDef>, i: nat, next: Exec, m: Message, rs: seq<Reply>,
                                          ms: seq<Message>, c: string)
    requires i < |steps| && Placed(steps, next) && Heard(next) == i + 1 && !next.phase.Awaiting? && c != ""
    requires var box := Channel(ms, steps[i].signal);
             Taken(steps, i, steps[i].signal) < |box| && m == box[Taken(steps, i, steps[i].signal)]
    requires Taken(steps, i, c) <= |Channel(ms, c)|
    ensures var t := Drive(steps, next, rs, ms);
            && Taken(steps, i, c) <= Taken(steps, Heard(t), c) <= |Channel(ms, c)|
            && Channel(MessagesOf([Receipt(i, m)] + Receipts(steps, next, rs, ms)), c)
               == Share(steps, i, Heard(t), ms, c)
    decreases if next.answered < |rs| then |rs| - next.answered else 0, 1
  {
    ChannelSelects(ms, steps[i].signal);
    assert m in Channel(ms, steps[i].signal);
    ReceiptsAreTaken(steps, next, rs, ms, c);
    ShareCons(steps, i, Heard(Drive(steps, next, rs, ms)), ms, c, m, Receipts(steps, next, rs, ms));
  }

  lemma {:induction false} MessageIsHeard(steps: seq<StepDef>, s: Exec, m: Message)
    requires Placed(steps, s) && NeedsSignal(s)
    ensures var next := OnMessage(steps, s, m); Heard(next) == s.index + 1 && !next.phase.Awaiting?
  {
  }

  lemma {:induction false} BoxIsRest(steps: seq<StepDef>, input: WorkflowInput, now: Time, h: seq<Event>, c: string)
    requires After(steps, Launch(steps, input, now), h).Some? && c != ""
    ensures var l := After(steps, Launch(steps, input, now), h).value;
            var sent := Channel(Signals(h), c);
            && l.exec == Drive(steps, Begin(steps, input, now), Replies(h), Signals(h))
            && Taken(steps, Heard(l.exec), c) <= |sent| && Box(l.boxes, c) == sent[Taken(steps, Heard(l.exec), c)..]
  {
    ReplayMatchesLive(steps, input, now, h);
  }

  /** No signal is lost or read twice: on every channel, what was read followed by what
      waits unread is what was sent, in order. */
  lemma {:induction false} SignalsAreConserved(steps: seq<StepDef>, input: WorkflowInput, now: Time, h: seq<Event>,
                                               c: string)
    requires After(steps, Launch(steps, input, now), h).Some? && c != ""
    ensures var l := After(steps, Launch(steps, input, now), h).value;
            Channel(Signals(h), c)
            == Channel(MessagesOf(Receipts(steps, Begin(steps, input, now), Replies(h), Signals(h))), c)
               + Box(l.boxes, c)
  {
    BoxIsRest(steps, input, now, h, c);
    ReceiptsAreTaken(steps, Begin(steps, input, now), Replies(h), Signals(h), c);
  }

  /** Whoever sends signals, and however stale the journey they read: when the awaited
      signals of a version are named after their steps, a signal of one of its runs is
      read by the step it names or not at all, and no step reads two. */
  lemma {:induction false} SignalsReachTheirStep(s: Sys, user: string)
    requires Inv(s) && user in s.runs && SignalsNameTheirSteps(StepsOf(s.catalog, s.runs[user]))
    ensures var run := s.runs[user];
            var steps := StepsOf(s.catalog, run);
            var rec := ReceiptsOf(s.catalog, run);
            && (forall r :: r in rec ==> r.step < |steps| && r.message in Signals(run.history))
            && (forall r :: r in rec && r.message.channel != "" ==> steps[r.step].name == r.message.channel)
            && (forall a, b :: 0 <= a < b < |rec| ==> rec[a].step != rec[b].step)
  {
    RunFacts(s, user);
    var run := s.runs[user];
    var steps := StepsOf(s.catalog, run);
    var rec := ReceiptsOf(s.catalog, run);
    ReceiptsFit(steps, Begin(steps, run.input, run.started), Replies(run.history), Signals(run.history));
    assert InOrder(rec, 0);
    forall r | r in rec && r.message.channel != ""
      ensures steps[r.step].name == r.message.channel
    {
      assert steps[r.step] in steps;
    }
  }

  /** A signal on a channel that already has one changes nothing, wherever it comes in
      the history, when no two steps share a channel. */
  lemma {:induction false} LateSignalIsIgnored(steps: seq<StepDef>, input: WorkflowInput, now: Time, rs: seq<Reply>,
                                               before: seq<Message>, m: Message, after: seq<Message>)
    requires DistinctSignals(steps) && m.channel != "" && Channel(before, m.channel) != []
    ensures Outcome(steps, input, now, rs, before + [m] + after) == Outcome(steps, input, now, rs, before + after)
  {
    var ms, ns := before + [m] + after, before + after;
    forall c: string | c != ""
      ensures SameFirst(Channel(ms, c), Channel(ns, c), Taken(steps, |steps|, c))
    {
      TakenAtMostOnce(steps, |steps|, c);
      ChannelAppend(before + [m], after, c);
      ChannelAppend(before, after, c);
      ChannelSnoc(before, m, c);
    }
    DriveHears(steps, Begin(steps, input, now), rs, ms, ns);
  }

  lemma {:induction false} ChannelAppend(a: seq<Message>, b: seq<Message>, c: string)
    ensures Channel(a + b, c) == Channel(a, c) + Channel(b, c)
  {
    if b == [] {
      assert a + b == a;
    } else {
      var m := b[|b| - 1];
      ChannelAppend(a, b[..|b| - 1], c);
      ChannelSnoc(a + b[..|b| - 1], m, c);
      assert a + b == (a + b[..|b| - 1]) + [m];
    }
  }

  lemma {:induction false} FullJourneyIsDone(steps: seq<StepDef>, j: Journey)
    requires |j.steps| == |steps| > 0 && IsReadModel(steps, j, |steps|, j)
    ensures StepCompleted(j, j.currentStep)
  {
    assert j.steps[|steps| - 1] in j.steps;
  }

  /** The step endpoint sends only for a user with a stored journey in progress, and then
      only the signal of the first step that journey does not record, with an input
      that passes validation. No user without a journey, or with a completed one, is
      ever signalled, as long as the catalog has no version 0. */
  lemma {:induction false} SendsAreDue(s: Sys, id: nat)
    requires Inv(s) && id in s.tickets && 0 !in s.catalog && VerdictOf(s, s.tickets[id]).Send?
    ensures var t := s.tickets[id];
            && t.doc.Some? && t.doc.value.journey.status == InProgress
            && var j := t.doc.value.journey;
               var steps := Steps(s.catalog, j.version);
               && |j.steps| < |steps| && t.step == steps[|j.steps|].name
               && Accepts(t.step, t.body, s.verticals) && Sends(VerdictOf(s, t), t.body)
  {
    var t := s.tickets[id];
    assert TicketOk(s.catalog, t);
    AbsentJourneySends(s.catalog, s.verticals, t.user, t.step, t.body);
    AcceptedIsValid(t.step, t.body, s.verticals);
    var j := t.doc.value.journey;
    var steps := Steps(s.catalog, j.version);
    if |j.steps| == |steps| && |steps| > 0 {
      FullJourneyIsDone(steps, j);
    }
  }

  /** A signal is appended to the history of the user's open run, and touches nothing
      else of any run. */
  lemma {:induction false} SignalIsAppended(s: Sys, u: string, channel: string, p: Payload, user: string)
    requires Runnable(s.catalog, s.runs) && user in s.runs
    ensures var t := AfterSignal(s, u, channel, p);
            && t.world == s.world && t.runs.Keys == s.runs.Keys
            && (u != user ==> t.runs[user] == s.runs[user])
            && t.runs[user].history == s.runs[user].history
               + if u == user && IsOpen(s.runs, u) then [Event.Signalled(Message(channel, p, s.now))] else []
  {
  }

  /** What was sent is what the request carried, absent fields as empty ones. */
  predicate Sends(v: Verdict, body: Body) {
    && v.Send? && body.Input?
    && v.payload.displayName == (if body.displayName.Some? then body.displayName.value else "")
    && v.payload.verticalName == (if body.verticalName.Some? then body.verticalName.value else "")
    && v.payload.tncAccepted == (if body.tncAccepted.Some? then body.tncAccepted.value else "")
  }

  /** What a request gets from a stored journey, whatever step it names: nothing changes
      for a completed journey and for a recorded step; the first unrecorded step of a
      journey in progress is decided by the input alone; every other step, of the catalog
      or not, is out of order. */
  lemma {:induction false} VerdictByPosition(c: Versions, verticals: set<string>, u: string, j: Journey, step: string,
                                             body: Body)
    requires StoredIsReadModel(c, u, j) && DistinctNames(Steps(c, j.version))
    ensures var steps := Steps(c, j.version);
            var v := Decide(c, verticals, j, step, body);
            if j.status == Completed || (exists k :: 0 <= k < |j.steps| && steps[k].name == step) then v == NoChange
            else if |j.steps| < |steps| && steps[|j.steps|].name == step then
              if Accepts(step, body, verticals) then Sends(v, body) else v == BadRequest
            else v == NotCurrent
  {
    var steps := Steps(c, j.version);
    AcceptedIsValid(step, body, verticals);
    if k :| 0 <= k < |j.steps| && steps[k].name == step {
      assert j.steps[k] in j.steps;
    }
    if |j.steps| < |steps| {
      assert steps[|j.steps|] in steps;
    }
  }

  /** Once any later document of the run records the step a request was sent for, the
      same request changes nothing. */
  lemma {:induction false} ResubmissionChangesNothing(c: Versions, verticals: set<string>, u: string,
                                                      j: Journey, later: Journey, step: string, body: Body, again: Body)
    requires StoredIsReadModel(c, u, j) && StoredIsReadModel(c, u, later)
    requires later.version == j.version && |j.steps| < |later.steps|
    requires Decide(c, verticals, j, step, body).Send?
    ensures Decide(c, verticals, later, step, again) == NoChange
  {
    assert later.steps[|j.steps|] in later.steps;
  }

  function Vertical(p: Payload): string { p.verticalName }
  function DisplayName(p: Payload): string { p.displayName }
  function TncAccepted(p: Payload): string { p.tncAccepted }

  /** The last non-empty value of a field among the receipts, or what it was before. */
  function LastSaid(rec: seq<Receipt>, field: Payload -> string, was: string): string {
    if rec == [] then was
    else
      var said := field(rec[0].message.payload);
      LastSaid(rec[1..], field, if said != "" then said else was)
  }

  /** The chosen vertical, the display name and the acceptance of terms are those of the
      last signals read that carried them; no result of an activity changes them. */
  lemma {:induction false} ContextIsLastSaid(steps: seq<StepDef>, s: Exec, rs: seq<Reply>, ms: seq<Message>)
    requires Placed(steps, s)
    ensures var t := Drive(steps, s, rs, ms);
            var rec := Receipts(steps, s, rs, ms);
            && t.journey.verticalName == LastSaid(rec, Vertical, s.journey.verticalName)
            && t.ctx.displayName == LastSaid(rec, DisplayName, s.ctx.displayName)
            && t.ctx.tncAccepted == LastSaid(rec, TncAccepted, s.ctx.tncAccepted)
    decreases if s.answered < |rs| then |rs| - s.answered else 0, if s.phase.Awaiting? then 1 else 0
  {
    if NeedsReply(s) && s.answered < |rs| {
      ContextIsLastSaid(steps, OnReply(steps, s, rs[s.answered]), rs, ms);
    } else if NeedsSignal(s) && SignalReady(steps, s, ms) {
      var m := NextSignal(steps, s, ms);
      var next := OnMessage(steps, s, m);
      var rest := Receipts(steps, next, rs, ms);
      ContextIsLastSaid(steps, next, rs, ms);
      assert ([Receipt(s.index, m)] + rest)[1..] == rest;
    }
  }
}
