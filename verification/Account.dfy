/** What every activity of a run carries, read off the recorded history alone: a second
    description of the workflow function, without its variables. */
module Account {
  import opened Domain
  import opened Executor
  import opened Replay
  import opened ReadModel
  import opened Delivery

  function OrgIdOf(r: Reply): string {
    if r.Success? then r.orgId else ""
  }

  function EmailOf(r: Reply): string {
    if r.Success? then r.email else ""
  }

  /** The last non-empty value of a field among the answers of the actions in `past`. */
  function LastAnswer(past: seq<Command>, rs: seq<Reply>, field: Reply -> string): string
    requires |past| <= |rs|
  {
    if past == [] then ""
    else
      var k := |past| - 1;
      if past[k].Act? && field(rs[k]) != "" then field(rs[k]) else LastAnswer(past[..k], rs, field)
  }

  /** The receipts by the first h steps. */
  function HeardBefore(rec: seq<Receipt>, h: nat): seq<Receipt> {
    if rec == [] then []
    else
      var rest, r := HeardBefore(rec[..|rec| - 1], h), rec[|rec| - 1];
      if r.step < h then rest + [r] else rest
  }

  /** The latest of a start, the times of results and the times of signals read. */
  function LatestTime(start: Time, rs: seq<Reply>, rec: seq<Receipt>): Time {
    if rec != [] then Max(LatestTime(start, rs, rec[..|rec| - 1]), rec[|rec| - 1].message.time)
    else if rs != [] then Max(LatestTime(start, rs[..|rs| - 1], []), rs[|rs| - 1].time)
    else start
  }

  /** How many steps have had their signal stage when an activity is asked for. */
  function Reached(c: Command, past: seq<Command>): nat {
    |Emissions(past)| + if c.Persist? then 0 else 1
  }

  /** Who a run is for, the version it was asked to walk (0 for none), and its start. */
  datatype Birth = Birth(userId: string, version: int, start: Time)

  /** What an activity asked for after `past` carries: the user, the version and the start
      of the run, the organisation and the email last answered, what was last said on the
      signals read by then, and the times at which the steps before were recorded, which
      are those of their events. */
  predicate Carries(b: Birth, c: Command, past: seq<Command>, rs: seq<Reply>, rec: seq<Receipt>)
    requires |past| <= |rs|
  {
    var heard := HeardBefore(rec, Reached(c, past));
    var orgId := LastAnswer(past, rs, OrgIdOf);
    match c
    case Persist(j) =>
      && OfRun(b, j) && j.orgId == orgId && j.verticalName == LastSaid(heard, Vertical, "")
      && Timed(j, Emissions(past))
    case Act(_, input) =>
      && input.userId == b.userId && input.orgId == orgId && input.email == LastAnswer(past, rs, EmailOf)
      && input.displayName == LastSaid(heard, DisplayName, "") && input.tncAccepted == LastSaid(heard, TncAccepted, "")
    case Emit(e) =>
      && e.userId == b.userId && e.orgId == orgId && e.timestamp == LatestTime(b.start, rs[..|past|], heard)
  }

  function BirthOf(input: WorkflowInput, now: Time): Birth {
    Birth(input.userId, input.version, now)
  }

  predicate OfRun(b: Birth, j: Journey) {
    j.userId == b.userId && j.version == (if b.version == 0 then 1 else b.version) && j.startedAt == b.start
  }

  /** Each step of the journey was recorded at the time of its event. */
  predicate Timed(j: Journey, events: seq<StepEvent>) {
    |j.steps| == |events| && forall i :: 0 <= i < |events| ==> j.steps[i].completedAt == events[i].timestamp
  }

  /** Every activity asked for carries what it should, and was asked for by a step reached. */
  predicate EachCarries(b: Birth, issued: seq<Command>, rs: seq<Reply>, rec: seq<Receipt>, h: nat) {
    forall k :: 0 <= k < |issued| ==>
      k <= |rs| && Carries(b, issued[k], issued[..k], rs, rec) && Reached(issued[k], issued[..k]) <= h
  }

  /** The values the workflow function threads from step to step. */
  predicate Values(b: Birth, s: Exec, rs: seq<Reply>, rec: seq<Receipt>)
    requires s.answered <= |s.issued| && s.answered <= |rs|
  {
    var past := s.issued[..s.answered];
    && OfRun(b, s.journey) && s.ctx.orgId == LastAnswer(past, rs, OrgIdOf) && s.journey.orgId == s.ctx.orgId
    && s.ctx.email == LastAnswer(past, rs, EmailOf)
    && s.journey.verticalName == LastSaid(rec, Vertical, "")
    && s.ctx.displayName == LastSaid(rec, DisplayName, "") && s.ctx.tncAccepted == LastSaid(rec, TncAccepted, "")
    && s.clock == LatestTime(b.start, rs[..s.answered], rec)
  }

  predicate HeardBy(rec: seq<Receipt>, h: nat) {
    forall x :: x in rec ==> x.step < h
  }

  /** The workflow function with r steps recorded and the signal stages of h behind. */
  predicate Tracks(b: Birth, s: Exec, rs: seq<Reply>, rec: seq<Receipt>, r: nat, h: nat)
    requires s.answered <= |s.issued| && s.answered <= |rs|
  {
    && Values(b, s, rs, rec)
    && |s.journey.steps| == r && Timed(s.journey, Emissions(s.issued))
    && HeardBy(rec, h) && EachCarries(b, s.issued, rs, rec, h)
  }

  /** A run whose account is in order. */
  predicate Accounted(b: Birth, s: Exec, rs: seq<Reply>, rec: seq<Receipt>) {
    && s.answered <= |rs| && Counted(s)
    && Tracks(b, s, rs, rec, Recorded(s), Heard(s))
    && (s.failed ==> s.answered > 0 && rs[s.answered - 1].Failure? && !s.issued[s.answered - 1].Emit?)
  }

  lemma {:induction false} EmissionsSnoc(issued: seq<Command>, c: Command)
    ensures Emissions(issued + [c]) == Emissions(issued) + match c case Emit(e) => [e] case _ => []
  {
    assert (issued + [c])[..|issued|] == issued;
  }

  lemma {:induction false} AllHeard(rec: seq<Receipt>, h: nat)
    requires HeardBy(rec, h)
    ensures HeardBefore(rec, h) == rec
  {
    if rec != [] {
      assert rec[|rec| - 1] in rec;
      AllHeard(rec[..|rec| - 1], h);
      assert rec == rec[..|rec| - 1] + [rec[|rec| - 1]];
    }
  }

  lemma {:induction false} LateIsUnheard(rec: seq<Receipt>, x: Receipt, h: nat)
    requires h <= x.step
    ensures HeardBefore(rec + [x], h) == HeardBefore(rec, h)
  {
    assert (rec + [x])[..|rec|] == rec;
  }

  /** A signal read later changes nothing of what was carried. */
  lemma {:induction false} ReceiptKeepsCarried(b: Birth, issued: seq<Command>, rs: seq<Reply>, rec: seq<Receipt>,
                                               x: Receipt)
    requires EachCarries(b, issued, rs, rec, x.step)
    ensures EachCarries(b, issued, rs, rec + [x], x.step + 1)
  {
    forall k | 0 <= k < |issued|
      ensures k <= |rs| && Carries(b, issued[k], issued[..k], rs, rec + [x])
      ensures Reached(issued[k], issued[..k]) <= x.step + 1
    {
      LateIsUnheard(rec, x, Reached(issued[k], issued[..k]));
    }
  }

  lemma {:induction false} IssueCarries(b: Birth, issued: seq<Command>, c: Command, rs: seq<Reply>,
                                        rec: seq<Receipt>,
                                        h: nat)
    requires EachCarries(b, issued, rs, rec, h) && |issued| <= |rs|
    requires Carries(b, c, issued, rs, rec) && Reached(c, issued) <= h
    ensures EachCarries(b, issued + [c], rs, rec, h)
  {
    forall k | 0 <= k < |issued + [c]|
      ensures k <= |rs| && Carries(b, (issued + [c])[k], (issued + [c])[..k], rs, rec)
      ensures Reached((issued + [c])[k], (issued + [c])[..k]) <= h
    {
      assert (issued + [c])[..k] == issued[..k];
      assert issued[..|issued|] == issued;
    }
  }

  lemma {:induction false} LaterTime(start: Time, rs: seq<Reply>, r: Reply, rec: seq<Receipt>)
    ensures LatestTime(start, rs + [r], rec) == Max(LatestTime(start, rs, rec), r.time)
  {
    if rec == [] {
      assert (rs + [r])[..|rs|] == rs;
    } else {
      LaterTime(start, rs, r, rec[..|rec| - 1]);
    }
  }

  lemma {:induction false} LastSaidSnoc(rec: seq<Receipt>, x: Receipt, field: Payload -> string, was: string)
    ensures var said := field(x.message.payload);
            LastSaid(rec + [x], field, was) == if said != "" then said else LastSaid(rec, field, was)
  {
    if rec == [] {
      assert [] + [x] == [x] && [x][1..] == [];
    } else {
      assert (rec + [x])[1..] == rec[1..] + [x];
      var said := field(rec[0].message.payload);
      LastSaidSnoc(rec[1..], x, field, if said != "" then said else was);
    }
  }

  /** The next activity is asked for. */
  lemma {:induction false} IssueAccounted(b: Birth, s: Exec, phase: Phase, c: Command, rs: seq<Reply>,
                                          rec: seq<Receipt>)
    requires !s.failed && |s.issued| == s.answered <= |rs| && Values(b, s, rs, rec)
    requires var t := Issue(s, phase, c);
             && NeedsReply(t) && HeardBy(rec, Heard(t)) && EachCarries(b, s.issued, rs, rec, Heard(t))
             && Carries(b, c, s.issued, rs, rec) && Reached(c, s.issued) <= Heard(t)
             && |s.journey.steps| == Recorded(t) && Timed(s.journey, Emissions(s.issued + [c]))
    ensures Accounted(b, Issue(s, phase, c), rs, rec)
  {
    var t := Issue(s, phase, c);
    assert t.issued[..t.answered] == s.issued == s.issued[..s.answered];
    IssueCarries(b, s.issued, c, rs, rec, Heard(t));
  }

  lemma {:induction false} PersistCarries(b: Birth, s: Exec, j: Journey, rs: seq<Reply>, rec: seq<Receipt>)
    requires |s.issued| == s.answered <= |rs| && Values(b, s, rs, rec) && HeardBy(rec, |Emissions(s.issued)|)
    requires OfRun(b, j) && j.orgId == s.journey.orgId && j.verticalName == s.journey.verticalName
    requires Timed(j, Emissions(s.issued))
    ensures Carries(b, Persist(j), s.issued, rs, rec)
  {
    assert s.issued[..s.answered] == s.issued;
    AllHeard(rec, |Emissions(s.issued)|);
  }

  lemma {:induction false} ActCarries(b: Birth, s: Exec, action: string, rs: seq<Reply>, rec: seq<Receipt>)
    requires |s.issued| == s.answered <= |rs| && Values(b, s, rs, rec) && HeardBy(rec, |Emissions(s.issued)| + 1)
    ensures Carries(b, Act(action, InputOf(s)), s.issued, rs, rec)
  {
    assert s.issued[..s.answered] == s.issued;
    AllHeard(rec, |Emissions(s.issued)| + 1);
  }

  lemma {:induction false} EmitCarries(b: Birth, s: Exec, e: StepEvent, rs: seq<Reply>, rec: seq<Receipt>)
    requires |s.issued| == s.answered <= |rs| && Values(b, s, rs, rec) && HeardBy(rec, |Emissions(s.issued)| + 1)
    requires e.userId == b.userId && e.orgId == s.ctx.orgId && e.timestamp == s.clock
    ensures Carries(b, Emit(e), s.issued, rs, rec)
  {
    assert s.issued[..s.answered] == s.issued;
    AllHeard(rec, |Emissions(s.issued)| + 1);
  }

  lemma {:induction false} OpenStepAccounted(steps: seq<StepDef>, b: Birth, s: Exec, rs: seq<Reply>,
                                             rec: seq<Receipt>)
    requires s.index <= |steps| && !s.failed && |s.issued| == s.answered <= |rs|
    requires Tracks(b, s, rs, rec, s.index, s.index)
    ensures Accounted(b, OpenStep(steps, s), rs, rec)
  {
    var t := OpenStep(steps, s);
    PersistCarries(b, s, t.journey, rs, rec);
    EmissionsSnoc(s.issued, Persist(t.journey));
    IssueAccounted(b, s.(journey := t.journey), t.phase, Persist(t.journey), rs, rec);
  }

  lemma {:induction false} RecordTimed(j: Journey, after: Journey, events: seq<StepEvent>, e: StepEvent)
    requires Timed(j, events) && |after.steps| == |j.steps| + 1 && after.steps[..|j.steps|] == j.steps
    requires after.steps[|j.steps|].completedAt == e.timestamp
    ensures Timed(after, events + [e])
  {
    assert forall i :: 0 <= i < |j.steps| ==> after.steps[i] == after.steps[..|j.steps|][i];
  }

  lemma {:induction false} RecordAccounted(steps: seq<StepDef>, b: Birth, s: Exec, rs: seq<Reply>,
                                           rec: seq<Receipt>)
    requires s.index < |steps| && !s.failed && |s.issued| == s.answered <= |rs|
    requires Tracks(b, s, rs, rec, s.index, s.index + 1)
    ensures Accounted(b, Record(steps, s), rs, rec)
  {
    var t := Record(steps, s);
    var c := t.issued[|s.issued|];
    EmitCarries(b, s, c.event, rs, rec);
    EmissionsSnoc(s.issued, c);
    RecordTimed(s.journey, t.journey, Emissions(s.issued), c.event);
    IssueAccounted(b, s.(journey := t.journey), Emitting, c, rs, rec);
  }

  lemma {:induction false} OpenActionAccounted(steps: seq<StepDef>, b: Birth, s: Exec, rs: seq<Reply>,
                                               rec: seq<Receipt>)
    requires s.index < |steps| && !s.failed && |s.issued| == s.answered <= |rs|
    requires Tracks(b, s, rs, rec, s.index, s.index + 1)
    ensures Accounted(b, OpenAction(steps, s), rs, rec)
  {
    if steps[s.index].action == "" {
      RecordAccounted(steps, b, s, rs, rec);
    } else {
      var c := Act(steps[s.index].action, InputOf(s));
      ActCarries(b, s, steps[s.index].action, rs, rec);
      EmissionsSnoc(s.issued, c);
      IssueAccounted(b, s, Acting, c, rs, rec);
    }
  }

  lemma {:induction false} LastAnswerSnoc(past: seq<Command>, c: Command, rs: seq<Reply>, field: Reply -> string)
    requires |past| < |rs|
    ensures LastAnswer(past + [c], rs, field)
         == if c.Act? && field(rs[|past|]) != "" then field(rs[|past|]) else LastAnswer(past, rs, field)
  {
    assert (past + [c])[..|past|] == past;
  }

  /** The run has taken its next result. */
  lemma {:induction false} AnswerValues(b: Birth, s: Exec, rs: seq<Reply>, rec: seq<Receipt>)
    requires s.answered < |s.issued| && s.answered < |rs| && Values(b, s, rs, rec)
    ensures var r, t := rs[s.answered], Heeded(s, rs[s.answered]);
            Values(b, if s.issued[s.answered].Act? && r.Success? then Merge(t, r.orgId, r.email) else t, rs, rec)
  {
    var k, r := s.answered, rs[s.answered];
    assert s.issued[..k + 1] == s.issued[..k] + [s.issued[k]];
    assert rs[..k + 1] == rs[..k] + [r];
    LastAnswerSnoc(s.issued[..k], s.issued[k], rs, OrgIdOf);
    LastAnswerSnoc(s.issued[..k], s.issued[k], rs, EmailOf);
    LaterTime(b.start, rs[..k], r, rec);
  }

  lemma {:induction false} EventReplyAccounted(steps: seq<StepDef>, b: Birth, s: Exec, rs: seq<Reply>,
                                               rec: seq<Receipt>)
    requires Placed(steps, s) && Accounted(b, s, rs, rec) && NeedsReply(s) && s.phase.Emitting?
    requires s.answered < |rs| && !s.issued[s.answered].Act?
    ensures Accounted(b, OnReply(steps, s, rs[s.answered]), rs, rec)
  {
    AnswerValues(b, s, rs, rec);
    OpenStepAccounted(steps, b, Heeded(s, rs[s.answered]).(index := s.index + 1), rs, rec);
  }

  lemma {:induction false} PersistReplyAccounted(steps: seq<StepDef>, b: Birth, s: Exec, rs: seq<Reply>,
                                                 rec: seq<Receipt>)
    requires Placed(steps, s) && Accounted(b, s, rs, rec) && NeedsReply(s) && s.phase.Persisting?
    requires s.answered < |rs| && !s.issued[s.answered].Act? && rs[s.answered].Success?
    ensures Accounted(b, OnReply(steps, s, rs[s.answered]), rs, rec)
  {
    AnswerValues(b, s, rs, rec);
    if steps[s.index].signal == "" {
      OpenActionAccounted(steps, b, Heeded(s, rs[s.answered]), rs, rec);
    }
  }

  lemma {:induction false} ActionTracks(b: Birth, s: Exec, rs: seq<Reply>, rec: seq<Receipt>)
    requires Accounted(b, s, rs, rec) && NeedsReply(s) && s.phase.Acting?
    requires s.answered < |rs| && s.issued[s.answered].Act? && rs[s.answered].Success?
    ensures var r := rs[s.answered];
            Tracks(b, Merge(Heeded(s, r), r.orgId, r.email), rs, rec, s.index, s.index + 1)
  {
    AnswerValues(b, s, rs, rec);
  }

  lemma {:induction false} ActionReplyAccounted(steps: seq<StepDef>, b: Birth, s: Exec, rs: seq<Reply>,
                                                rec: seq<Receipt>)
    requires Placed(steps, s) && Accounted(b, s, rs, rec) && NeedsReply(s) && s.phase.Acting?
    requires s.answered < |rs| && s.issued[s.answered].Act? && rs[s.answered].Success?
    ensures Accounted(b, OnReply(steps, s, rs[s.answered]), rs, rec)
  {
    var r := rs[s.answered];
    ActionTracks(b, s, rs, rec);
    RecordAccounted(steps, b, Merge(Heeded(s, r), r.orgId, r.email), rs, rec);
  }

  lemma {:induction false} LastReplyAccounted(steps: seq<StepDef>, b: Birth, s: Exec, rs: seq<Reply>,
                                              rec: seq<Receipt>)
    requires Placed(steps, s) && Accounted(b, s, rs, rec) && NeedsReply(s) && !s.phase.Emitting?
    requires s.answered < |rs| && !s.issued[s.answered].Emit?
    requires rs[s.answered].Failure? || (s.phase.Finalising? && !s.issued[s.answered].Act?)
    ensures Accounted(b, OnReply(steps, s, rs[s.answered]), rs, rec)
  {
    AnswerValues(b, s, rs, rec);
  }

  lemma {:induction false} ReplyAccounted(steps: seq<StepDef>, blank: Journey, b: Birth, s: Exec, rs: seq<Reply>,
                                          rec: seq<Receipt>)
    requires Orderly(steps, blank, s) && Accounted(b, s, rs, rec) && NeedsReply(s) && s.answered < |rs|
    ensures Accounted(b, OnReply(steps, s, rs[s.answered]), rs, rec)
  {
    LastCommand(steps, blank, s);
    if s.phase.Emitting? {
      EventReplyAccounted(steps, b, s, rs, rec);
    } else if rs[s.answered].Failure? || s.phase.Finalising? {
      LastReplyAccounted(steps, b, s, rs, rec);
    } else if s.phase.Persisting? {
      PersistReplyAccounted(steps, b, s, rs, rec);
    } else {
      ActionReplyAccounted(steps, b, s, rs, rec);
    }
  }

  /** A signal has been read. */
  lemma {:induction false} MessageValues(b: Birth, s: Exec, rs: seq<Reply>, rec: seq<Receipt>, m: Message)
    requires s.answered <= |s.issued| && s.answered <= |rs| && Values(b, s, rs, rec)
    ensures Values(b, Absorb(s.(clock := Max(s.clock, m.time)), m.payload), rs, rec + [Receipt(s.index, m)])
  {
    var x := Receipt(s.index, m);
    LastSaidSnoc(rec, x, Vertical, "");
    LastSaidSnoc(rec, x, DisplayName, "");
    LastSaidSnoc(rec, x, TncAccepted, "");
    assert (rec + [x])[..|rec|] == rec;
  }

  lemma {:induction false} MessageTracks(b: Birth, s: Exec, rs: seq<Reply>, rec: seq<Receipt>, m: Message)
    requires s.phase.Awaiting? && Accounted(b, s, rs, rec)
    ensures var t := Absorb(s.(clock := Max(s.clock, m.time)), m.payload);
            Tracks(b, t, rs, rec + [Receipt(s.index, m)], s.index, s.index + 1)
  {
    MessageValues(b, s, rs, rec, m);
    ReceiptKeepsCarried(b, s.issued, rs, rec, Receipt(s.index, m));
  }

  lemma {:induction false} MessageAccounted(steps: seq<StepDef>, b: Birth, s: Exec, rs: seq<Reply>,
                                            rec: seq<Receipt>, m: Message)
    requires Placed(steps, s) && NeedsSignal(s) && Accounted(b, s, rs, rec)
    ensures Accounted(b, OnMessage(steps, s, m), rs, rec + [Receipt(s.index, m)])
  {
    MessageTracks(b, s, rs, rec, m);
    OpenActionAccounted(steps, b, Absorb(s.(clock := Max(s.clock, m.time)), m.payload), rs,
      rec + [Receipt(s.index, m)]);
  }

  lemma {:induction false} ReceiptsStep(steps: seq<StepDef>, s: Exec, rs: seq<Reply>, ms: seq<Message>,
                                        rec: seq<Receipt>)
    requires Placed(steps, s) && NeedsSignal(s) && SignalReady(steps, s, ms)
    ensures var m := NextSignal(steps, s, ms);
            rec + Receipts(steps, s, rs, ms)
            == (rec + [Receipt(s.index, m)]) + Receipts(steps, OnMessage(steps, s, m), rs, ms)
  {
  }

  lemma {:induction false} DriveAccounted(steps: seq<StepDef>, blank: Journey, b: Birth, s: Exec, rs: seq<Reply>,
                                          ms: seq<Message>, rec: seq<Receipt>)
    requires Orderly(steps, blank, s) && Accounted(b, s, rs, rec)
    ensures Accounted(b, Drive(steps, s, rs, ms), rs, rec + Receipts(steps, s, rs, ms))
    decreases if s.answered < |rs| then |rs| - s.answered else 0, if s.phase.Awaiting? then 2 else 0
  {
    if NeedsReply(s) && s.answered < |rs| {
      ReplyOrderly(steps, blank, s, rs[s.answered]);
      ReplyAccounted(steps, blank, b, s, rs, rec);
      DriveAccounted(steps, blank, b, OnReply(steps, s, rs[s.answered]), rs, ms, rec);
    } else if NeedsSignal(s) && SignalReady(steps, s, ms) {
      DriveHeard(steps, blank, b, s, rs, ms, rec);
    } else {
      assert rec + [] == rec;
    }
  }

  lemma {:induction false} DriveHeard(steps: seq<StepDef>, blank: Journey, b: Birth, s: Exec, rs: seq<Reply>,
                                      ms: seq<Message>, rec: seq<Receipt>)
    requires Orderly(steps, blank, s) && Accounted(b, s, rs, rec) && NeedsSignal(s) && SignalReady(steps, s, ms)
    ensures Accounted(b, Drive(steps, s, rs, ms), rs, rec + Receipts(steps, s, rs, ms))
    decreases if s.answered < |rs| then |rs| - s.answered else 0, 1
  {
    var m := NextSignal(steps, s, ms);
    MessageOrderly(steps, blank, s, m);
    MessageAccounted(steps, b, s, rs, rec, m);
    ReceiptsStep(steps, s, rs, ms, rec);
    DriveAccounted(steps, blank, b, OnMessage(steps, s, m), rs, ms, rec + [Receipt(s.index, m)]);
  }

  lemma {:induction false} BeginAccounted(steps: seq<StepDef>, input: WorkflowInput, now: Time, rs: seq<Reply>)
    ensures Accounted(BirthOf(input, now), Begin(steps, input, now), rs, [])
  {
    var s := Entry(input, now);
    assert rs[..0] == [] && s.issued[..0] == [];
    OpenStepAccounted(steps, BirthOf(input, now), s, rs, []);
  }

  /** For every catalog and every history: each activity asked for carries exactly what the
      history says, the workflow function's variables are what it says at the end, and a
      run has failed only if its last result was a failure, and not of an event. */
  lemma {:induction false} RunIsAccounted(steps: seq<StepDef>, input: WorkflowInput, now: Time, rs: seq<Reply>,
                                          ms: seq<Message>)
    ensures var t := Outcome(steps, input, now, rs, ms);
            var rec := Receipts(steps, Begin(steps, input, now), rs, ms);
            && t.answered <= |rs| && t.answered <= |t.issued|
            && (forall k :: 0 <= k < |t.issued| ==>
                  k <= |rs| && Carries(BirthOf(input, now), t.issued[k], t.issued[..k], rs, rec))
            && t.ctx.orgId == LastAnswer(t.issued[..t.answered], rs, OrgIdOf) && Timed(t.journey, Emissions(t.issued))
            && (t.failed ==> t.answered > 0 && rs[t.answered - 1].Failure? && !t.issued[t.answered - 1].Emit?)
  {
    var s := Begin(steps, input, now);
    BeginOrderly(steps, input, now);
    BeginAccounted(steps, input, now, rs);
    DriveAccounted(steps, FreshJourney(input, now), BirthOf(input, now), s, rs, ms, []);
    assert [] + Receipts(steps, s, rs, ms) == Receipts(steps, s, rs, ms);
  }

  lemma {:induction false} HeardBeforeSelects(rec: seq<Receipt>, h: nat)
    ensures forall x :: x in HeardBefore(rec, h) <==> x in rec && x.step < h
  {
    if rec != [] {
      HeardBeforeSelects(rec[..|rec| - 1], h);
      assert rec == rec[..|rec| - 1] + [rec[|rec| - 1]];
    }
  }

  /** t is the start, or the time of one of the results or of one of the signals read. */
  predicate IsSomeTime(t: Time, start: Time, rs: seq<Reply>, rec: seq<Receipt>) {
    t == start || (exists r :: r in rs && t == r.time) || exists x :: x in rec && t == x.message.time
  }

  lemma {:induction false} LatestTimeIsLargest(start: Time, rs: seq<Reply>, rec: seq<Receipt>)
    ensures var t := LatestTime(start, rs, rec);
            && start <= t && (forall r :: r in rs ==> r.time <= t) && (forall x :: x in rec ==> x.message.time <= t)
            && IsSomeTime(t, start, rs, rec)
    decreases |rs| + |rec|
  {
    if rec != [] {
      var rest, x := rec[..|rec| - 1], rec[|rec| - 1];
      LatestTimeIsLargest(start, rs, rest);
      assert rec == rest + [x] && x in rec;
      assert forall y :: y in rest ==> y in rec;
    } else if rs != [] {
      var rest, r := rs[..|rs| - 1], rs[|rs| - 1];
      LatestTimeIsLargest(start, rest, rec);
      assert rs == rest + [r] && r in rs;
      assert forall y :: y in rest ==> y in rs;
    }
  }

  /** The m-th activity is an action that answered with an organisation. */
  predicate GivesOrg(issued: seq<Command>, rs: seq<Reply>, m: nat) {
    m < |issued| && m < |rs| && issued[m].Act? && rs[m].Success? && rs[m].orgId != ""
  }

  /** org is the organisation last answered before the k-th activity, or empty when none was. */
  predicate LastOrg(issued: seq<Command>, rs: seq<Reply>, k: nat, org: string) {
    if org == "" then forall m :: 0 <= m < k ==> !GivesOrg(issued, rs, m)
    else exists m :: && 0 <= m < k && GivesOrg(issued, rs, m) && rs[m].orgId == org
                     && forall n :: m < n < k ==> !GivesOrg(issued, rs, n)
  }

  lemma {:induction false} LastAnswerIsLastOrg(issued: seq<Command>, rs: seq<Reply>, k: nat)
    requires k <= |issued| && k <= |rs|
    ensures LastOrg(issued, rs, k, LastAnswer(issued[..k], rs, OrgIdOf))
  {
    if k > 0 {
      LastAnswerIsLastOrg(issued, rs, k - 1);
      assert issued[..k][..k - 1] == issued[..k - 1];
      assert GivesOrg(issued, rs, k - 1) <==> issued[k - 1].Act? && OrgIdOf(rs[k - 1]) != "";
    }
  }

  lemma {:induction false} EmissionAt(issued: seq<Command>, k: nat)
    requires k < |issued| && issued[k].Emit?
    ensures var i := |Emissions(issued[..k])|; i < |Emissions(issued)| && Emissions(issued)[i] == issued[k].event
  {
    if k < |issued| - 1 {
      EmissionAt(issued[..|issued| - 1], k);
      assert issued[..|issued| - 1][..k] == issued[..k];
    }
  }

  /** The event of each step names the organisation last answered by then, and none where
      none was; and it carries the time at which the step was recorded, which is the
      latest of the start of the run and of the results and signals taken by then. */
  lemma {:induction false} EventTellsOrgAndTime(steps: seq<StepDef>, input: WorkflowInput, now: Time, rs: seq<Reply>,
                                                ms: seq<Message>, k: nat)
    requires k < |Outcome(steps, input, now, rs, ms).issued| && Outcome(steps, input, now, rs, ms).issued[k].Emit?
    ensures var t := Outcome(steps, input, now, rs, ms);
            var rec := Receipts(steps, Begin(steps, input, now), rs, ms);
            var e, i := t.issued[k].event, |Emissions(t.issued[..k])|;
            && k <= |rs| && i < |t.journey.steps|
            && LastOrg(t.issued, rs, k, e.orgId)
            && e.timestamp == t.journey.steps[i].completedAt
            && now <= e.timestamp && (forall m :: 0 <= m < k ==> rs[m].time <= e.timestamp)
            && (forall x :: x in rec && x.step <= i ==> x.message.time <= e.timestamp)
            && (|| e.timestamp == now || (exists m :: 0 <= m < k && e.timestamp == rs[m].time)
                || exists x :: x in rec && x.step <= i && e.timestamp == x.message.time)
  {
    var t := Outcome(steps, input, now, rs, ms);
    var rec := Receipts(steps, Begin(steps, input, now), rs, ms);
    RunIsAccounted(steps, input, now, rs, ms);
    var i := |Emissions(t.issued[..k])|;
    var heard := HeardBefore(rec, i + 1);
    assert Carries(BirthOf(input, now), t.issued[k], t.issued[..k], rs, rec);
    LastAnswerIsLastOrg(t.issued, rs, k);
    EmissionAt(t.issued, k);
    HeardBeforeSelects(rec, i + 1);
    LatestTimeIsLargest(now, rs[..k], heard);
    forall m | 0 <= m < k
      ensures rs[m].time <= t.issued[k].event.timestamp
    {
      assert rs[m] in rs[..k];
    }
  }
}
