/** What every run leaves behind, for every catalog: the activities a run asks for
    follow the catalog step by step, and every document it persists describes a prefix
    of the catalog. */
module ReadModel {
  import opened Domain
  import opened Executor

  /** A position in the fixed schedule of a catalog. */
  datatype Slot = PersistAt(i: nat) | ActAt(i: nat) | EmitAt(i: nat)

  function StepSlots(steps: seq<StepDef>, i: nat): seq<Slot>
    requires i < |steps|
  {
    [PersistAt(i)] + (if steps[i].action != "" then [ActAt(i)] else []) + [EmitAt(i)]
  }

  /** The slots of the first k steps. */
  function Before(steps: seq<StepDef>, k: nat): (slots: seq<Slot>)
    requires k <= |steps|
    ensures 2 * k <= |slots| <= 3 * k
  {
    if k == 0 then [] else Before(steps, k - 1) + StepSlots(steps, k - 1)
  }

  /** The whole schedule: every step, then the final persist. */
  function Schedule(steps: seq<StepDef>): seq<Slot> {
    Before(steps, |steps|) + [PersistAt(|steps|)]
  }

  /** The slots a state has opened. */
  function Opened(steps: seq<StepDef>, s: Exec): seq<Slot>
    requires Placed(steps, s)
  {
    Before(steps, s.index) +
    match s.phase
    case Persisting => [PersistAt(s.index)]
    case Awaiting => [PersistAt(s.index)]
    case Acting => [PersistAt(s.index), ActAt(s.index)]
    case Emitting => StepSlots(steps, s.index)
    case Finalising => [PersistAt(s.index)]
    case Finished => [PersistAt(s.index)]
  }

  /** One of the first i steps marks the journey completed. */
  predicate Marked(steps: seq<StepDef>, i: nat)
    requires i <= |steps|
  {
    exists k :: 0 <= k < i && steps[k].marksComplete
  }

  /** The k-th is the last of the first i steps that marks the journey completed. */
  predicate LastMark(steps: seq<StepDef>, i: nat, k: int)
    requires i <= |steps|
  {
    0 <= k < i && steps[k].marksComplete && forall m :: k < m < i ==> !steps[m].marksComplete
  }

  /** The step a user resumes at once i steps are recorded. */
  function ResumeAt(steps: seq<StepDef>, i: nat): string {
    if i < |steps| then steps[i].name else if |steps| > 0 then steps[|steps| - 1].name else ""
  }

  /** j records exactly the first i steps of the catalog, in order and in time, for
      the user, version and start of the journey `blank`. */
  predicate RecordsPrefix(steps: seq<StepDef>, blank: Journey, i: nat, j: Journey)
    requires i <= |steps|
  {
    && j.userId == blank.userId && j.version == blank.version && j.startedAt == blank.startedAt
    && |j.steps| == i
    && (forall k :: 0 <= k < i ==> j.steps[k].name == steps[k].name && j.steps[k].status == Completed)
    && (forall k :: 0 <= k < i ==> blank.startedAt <= j.steps[k].completedAt)
    && (forall a, b :: 0 <= a < b < i ==> j.steps[a].completedAt <= j.steps[b].completedAt)
    && (j.status == Completed <==> Marked(steps, i))
    && (j.completedAt.Some? <==> j.status == Completed)
    && (j.completedAt.Some? ==>
          exists k :: 0 <= k < i && LastMark(steps, i, k) && j.steps[k].completedAt == j.completedAt.value)
  }

  /** A persisted document: a catalog prefix and the step to resume at. */
  predicate IsReadModel(steps: seq<StepDef>, blank: Journey, i: nat, j: Journey)
    requires i <= |steps|
  {
    RecordsPrefix(steps, blank, i, j) && j.currentStep == ResumeAt(steps, i)
  }

  predicate Fits(steps: seq<StepDef>, blank: Journey, c: Command, slot: Slot) {
    match slot
    case PersistAt(i) => c.Persist? && i <= |steps| && IsReadModel(steps, blank, i, c.journey)
    case ActAt(i) => c.Act? && i < |steps| && c.action == steps[i].action != "" && c.input.userId == blank.userId
    case EmitAt(i) =>
      && c.Emit? && i < |steps| && c.event.step == steps[i].name && c.event.userId == blank.userId
      && c.event.started == (i == 0) && c.event.completed == steps[i].marksComplete
  }

  predicate Follows(steps: seq<StepDef>, blank: Journey, issued: seq<Command>, slots: seq<Slot>) {
    |issued| == |slots| && forall k :: 0 <= k < |issued| ==> Fits(steps, blank, issued[k], slots[k])
  }

  /** What the executor's own copy of the journey says after k recorded steps. */
  predicate UpToDate(steps: seq<StepDef>, blank: Journey, k: nat, s: Exec)
    requires k <= |steps|
  {
    && RecordsPrefix(steps, blank, k, s.journey)
    && blank.startedAt <= s.clock
    && (forall i :: 0 <= i < k ==> s.journey.steps[i].completedAt <= s.clock)
  }

  function Recorded(s: Exec): nat {
    if s.phase.Emitting? then s.index + 1 else s.index
  }

  predicate Counted(s: Exec) {
    |s.issued| == s.answered + if NeedsReply(s) then 1 else 0
  }

  /** The pending activity carries the executor's current journey or context. */
  predicate Aimed(steps: seq<StepDef>, s: Exec)
    requires Placed(steps, s)
  {
    && s.ctx.orgId == s.journey.orgId
    && (!s.failed && (s.phase.Persisting? || s.phase.Finalising?) ==>
          s.issued != [] && s.issued[|s.issued| - 1] == Persist(s.journey))
    && (!s.failed && s.phase.Acting? ==>
          s.issued != [] && s.issued[|s.issued| - 1] == Act(steps[s.index].action, InputOf(s)))
  }

  /** The invariant of every run. */
  predicate Orderly(steps: seq<StepDef>, blank: Journey, s: Exec) {
    && Placed(steps, s)
    && (s.phase.Awaiting? ==> steps[s.index].signal != "")
    && (s.phase.Acting? ==> steps[s.index].action != "")
    && Follows(steps, blank, s.issued, Opened(steps, s))
    && Counted(s)
    && Aimed(steps, s)
    && UpToDate(steps, blank, Recorded(s), s)
    && s.journey.currentStep == ResumeAt(steps, s.index)
  }

  lemma {:induction false} IssueFollows(steps: seq<StepDef>, blank: Journey, issued: seq<Command>, slots: seq<Slot>,
                                        c: Command, slot: Slot)
    requires Follows(steps, blank, issued, slots) && Fits(steps, blank, c, slot)
    ensures Follows(steps, blank, issued + [c], slots + [slot])
  {
  }

  lemma {:induction false} RecordUpToDate(steps: seq<StepDef>, blank: Journey, s: Exec)
    requires s.index < |steps| && UpToDate(steps, blank, s.index, s)
    ensures UpToDate(steps, blank, s.index + 1, Record(steps, s))
  {
    var t := Record(steps, s);
    var i := s.index;
    assert t.journey.steps == s.journey.steps + [StepSummary(steps[i].name, Completed, s.clock)];
    assert Marked(steps, i + 1) <==> Marked(steps, i) || steps[i].marksComplete;
    if steps[i].marksComplete {
      assert LastMark(steps, i + 1, i) && t.journey.steps[i].completedAt == s.clock;
    } else if t.journey.completedAt.Some? {
      var k :| 0 <= k < i && LastMark(steps, i, k) && s.journey.steps[k].completedAt == s.journey.completedAt.value;
      assert LastMark(steps, i + 1, k) && t.journey.steps[k] == s.journey.steps[k];
    }
  }

  lemma {:induction false} RecordFollows(steps: seq<StepDef>, blank: Journey, s: Exec)
    requires s.index < |steps| && s.journey.userId == blank.userId
    requires Follows(steps, blank, s.issued, Before(steps, s.index) + [PersistAt(s.index)] +
                                             if steps[s.index].action != "" then [ActAt(s.index)] else [])
    ensures Follows(steps, blank, Record(steps, s).issued, Opened(steps, Record(steps, s)))
  {
    var t := Record(steps, s);
    var i := s.index;
    var slots := Before(steps, i) + [PersistAt(i)] + if steps[i].action != "" then [ActAt(i)] else [];
    IssueFollows(steps, blank, s.issued, slots, t.issued[|s.issued|], EmitAt(i));
    assert Opened(steps, t) == slots + [EmitAt(i)];
  }

  lemma {:induction false} RecordOrderly(steps: seq<StepDef>, blank: Journey, s: Exec)
    requires s.index < |steps| && !s.failed && |s.issued| == s.answered && s.ctx.orgId == s.journey.orgId
    requires UpToDate(steps, blank, s.index, s) && s.journey.currentStep == steps[s.index].name
    requires Follows(steps, blank, s.issued, Before(steps, s.index) + [PersistAt(s.index)] +
                                             if steps[s.index].action != "" then [ActAt(s.index)] else [])
    ensures Orderly(steps, blank, Record(steps, s))
  {
    RecordUpToDate(steps, blank, s);
    RecordFollows(steps, blank, s);
  }

  lemma {:induction false} OpenActionOrderly(steps: seq<StepDef>, blank: Journey, s: Exec)
    requires s.index < |steps| && !s.failed && |s.issued| == s.answered && s.ctx.orgId == s.journey.orgId
    requires UpToDate(steps, blank, s.index, s) && s.journey.currentStep == steps[s.index].name
    requires Follows(steps, blank, s.issued, Before(steps, s.index) + [PersistAt(s.index)])
    ensures Orderly(steps, blank, OpenAction(steps, s))
  {
    var t := OpenAction(steps, s);
    var slots := Before(steps, s.index) + [PersistAt(s.index)];
    if steps[s.index].action != "" {
      IssueFollows(steps, blank, s.issued, slots, t.issued[|s.issued|], ActAt(s.index));
      assert Opened(steps, t) == slots + [ActAt(s.index)];
    } else {
      assert slots + [] == slots;
      RecordOrderly(steps, blank, s);
    }
  }

  lemma {:induction false} OpenStepOrderly(steps: seq<StepDef>, blank: Journey, s: Exec)
    requires s.index <= |steps| && !s.failed && |s.issued| == s.answered && s.ctx.orgId == s.journey.orgId
    requires UpToDate(steps, blank, s.index, s)
    requires s.index == |steps| ==> s.journey.currentStep == ResumeAt(steps, s.index)
    requires Follows(steps, blank, s.issued, Before(steps, s.index))
    ensures Orderly(steps, blank, OpenStep(steps, s))
  {
    var t := OpenStep(steps, s);
    IssueFollows(steps, blank, s.issued, Before(steps, s.index), t.issued[|s.issued|], PersistAt(s.index));
  }

  lemma {:induction false} BeginOrderly(steps: seq<StepDef>, input: WorkflowInput, now: Time)
    ensures Orderly(steps, FreshJourney(input, now), Begin(steps, input, now))
  {
    OpenStepOrderly(steps, FreshJourney(input, now), Entry(input, now));
  }

  /** The state in which an answer has been counted but not acted on. */
  function Heeded(s: Exec, r: Reply): Exec {
    s.(answered := s.answered + 1, clock := Max(s.clock, r.time))
  }

  lemma {:induction false} HeededUpToDate(steps: seq<StepDef>, blank: Journey, k: nat, s: Exec, r: Reply)
    requires k <= |steps| && UpToDate(steps, blank, k, s)
    ensures UpToDate(steps, blank, k, Heeded(s, r))
  {
  }

  lemma {:induction false} EventAnswerOrderly(steps: seq<StepDef>, blank: Journey, s: Exec, r: Reply)
    requires Orderly(steps, blank, s) && NeedsReply(s) && s.phase.Emitting?
    ensures Orderly(steps, blank, OnReply(steps, s, r))
  {
    HeededUpToDate(steps, blank, s.index + 1, s, r);
    assert Opened(steps, s) == Before(steps, s.index + 1);
    OpenStepOrderly(steps, blank, Heeded(s, r).(index := s.index + 1));
  }

  lemma {:induction false} PersistAnswerOrderly(steps: seq<StepDef>, blank: Journey, s: Exec, r: Reply)
    requires Orderly(steps, blank, s) && NeedsReply(s) && s.phase.Persisting? && r.Success?
    ensures Orderly(steps, blank, OnReply(steps, s, r))
  {
    HeededUpToDate(steps, blank, s.index, s, r);
    if steps[s.index].signal == "" {
      OpenActionOrderly(steps, blank, Heeded(s, r));
    }
  }

  lemma {:induction false} ActionAnswerOrderly(steps: seq<StepDef>, blank: Journey, s: Exec, r: Reply)
    requires Orderly(steps, blank, s) && NeedsReply(s) && s.phase.Acting? && r.Success?
    ensures Orderly(steps, blank, OnReply(steps, s, r))
  {
    HeededUpToDate(steps, blank, s.index, s, r);
    assert Opened(steps, s) == Before(steps, s.index) + [PersistAt(s.index)] + [ActAt(s.index)];
    MergeUpToDate(steps, blank, s.index, Heeded(s, r), r.orgId, r.email);
    RecordOrderly(steps, blank, Merge(Heeded(s, r), r.orgId, r.email));
  }

  lemma {:induction false} MergeUpToDate(steps: seq<StepDef>, blank: Journey, k: nat, s: Exec, orgId: string,
                                         email: string)
    requires k <= |steps| && UpToDate(steps, blank, k, s)
    ensures UpToDate(steps, blank, k, Merge(s, orgId, email))
  {
  }

  lemma {:induction false} ReplyOrderly(steps: seq<StepDef>, blank: Journey, s: Exec, r: Reply)
    requires Orderly(steps, blank, s) && NeedsReply(s)
    ensures Orderly(steps, blank, OnReply(steps, s, r))
  {
    if s.phase.Emitting? {
      EventAnswerOrderly(steps, blank, s, r);
    } else if r.Success? && s.phase.Persisting? {
      PersistAnswerOrderly(steps, blank, s, r);
    } else if r.Success? && s.phase.Acting? {
      ActionAnswerOrderly(steps, blank, s, r);
    } else {
      HeededUpToDate(steps, blank, s.index, s, r);
    }
  }

  lemma {:induction false} MessageOrderly(steps: seq<StepDef>, blank: Journey, s: Exec, m: Message)
    requires Orderly(steps, blank, s) && NeedsSignal(s)
    ensures Orderly(steps, blank, OnMessage(steps, s, m))
  {
    OpenActionOrderly(steps, blank, Absorb(s.(clock := Max(s.clock, m.time)), m.payload));
  }

  lemma {:induction false} DriveOrderly(steps: seq<StepDef>, blank: Journey, s: Exec, rs: seq<Reply>, ms: seq<Message>)
    requires Orderly(steps, blank, s)
    ensures Orderly(steps, blank, Drive(steps, s, rs, ms))
    decreases if s.answered < |rs| then |rs| - s.answered else 0, if s.phase.Awaiting? then 1 else 0
  {
    if NeedsReply(s) && s.answered < |rs| {
      ReplyOrderly(steps, blank, s, rs[s.answered]);
      DriveOrderly(steps, blank, OnReply(steps, s, rs[s.answered]), rs, ms);
    } else if NeedsSignal(s) && SignalReady(steps, s, ms) {
      var m := NextSignal(steps, s, ms);
      MessageOrderly(steps, blank, s, m);
      DriveOrderly(steps, blank, OnMessage(steps, s, m), rs, ms);
    }
  }

  /** The state every history leads to. */
  function Outcome(steps: seq<StepDef>, input: WorkflowInput, now: Time, rs: seq<Reply>, ms: seq<Message>): (t: Exec)
    ensures Placed(steps, t)
  {
    Drive(steps, Begin(steps, input, now), rs, ms)
  }

  lemma {:induction false} OutcomeOrderly(steps: seq<StepDef>, input: WorkflowInput, now: Time, rs: seq<Reply>,
                                          ms: seq<Message>)
    ensures Orderly(steps, FreshJourney(input, now), Outcome(steps, input, now, rs, ms))
  {
    BeginOrderly(steps, input, now);
    DriveOrderly(steps, FreshJourney(input, now), Begin(steps, input, now), rs, ms);
  }

  lemma {:induction false} BeforeExtends(steps: seq<StepDef>, i: nat, k: nat)
    requires i <= k <= |steps|
    ensures Before(steps, i) <= Before(steps, k)
    decreases k
  {
    if i < k {
      BeforeExtends(steps, i, k - 1);
    }
  }

  lemma {:induction false} OpenedIsScheduled(steps: seq<StepDef>, s: Exec)
    requires Placed(steps, s) && (s.phase.Acting? ==> steps[s.index].action != "")
    ensures Opened(steps, s) <= Schedule(steps)
  {
    if s.index < |steps| {
      BeforeExtends(steps, s.index + 1, |steps|);
      assert Opened(steps, s) <= Before(steps, s.index + 1);
    }
  }

  /** For every catalog and every history, the activities asked for are, one by one,
      the first slots of the catalog's schedule, each carrying what its slot calls for.
      In particular every persisted document is a read-model of a catalog prefix, and a
      run of n steps asks for at most 3n + 1 activities. */
  lemma {:induction false} RunFollowsSchedule(steps: seq<StepDef>, input: WorkflowInput, now: Time,
                                              rs: seq<Reply>, ms: seq<Message>)
    ensures var t := Outcome(steps, input, now, rs, ms);
            && |t.issued| <= |Schedule(steps)| <= 3 * |steps| + 1
            && (forall k :: 0 <= k < |t.issued| ==>
              Fits(steps, FreshJourney(input, now), t.issued[k], Schedule(steps)[k]))
            && (t.phase.Finished? ==> |t.issued| == |Schedule(steps)|)
  {
    var t := Outcome(steps, input, now, rs, ms);
    OutcomeOrderly(steps, input, now, rs, ms);
    OpenedIsScheduled(steps, t);
    forall k | 0 <= k < |t.issued|
      ensures Fits(steps, FreshJourney(input, now), t.issued[k], Schedule(steps)[k])
    {
      assert Schedule(steps)[k] == Opened(steps, t)[k];
    }
  }

  lemma {:induction false} DriveRests(steps: seq<StepDef>, s: Exec, rs: seq<Reply>, ms: seq<Message>)
    requires Placed(steps, s)
    ensures var t := Drive(steps, s, rs, ms);
            && !(NeedsReply(t) && t.answered < |rs|)
            && !(NeedsSignal(t) && SignalReady(steps, t, ms))
    decreases if s.answered < |rs| then |rs| - s.answered else 0, if s.phase.Awaiting? then 1 else 0
  {
    if NeedsReply(s) && s.answered < |rs| {
      DriveRests(steps, OnReply(steps, s, rs[s.answered]), rs, ms);
    } else if NeedsSignal(s) && SignalReady(steps, s, ms) {
      DriveRests(steps, OnMessage(steps, s, NextSignal(steps, s, ms)), rs, ms);
    }
  }

  /** Once every activity a run asks for is answered, the run has ended, or it is
      blocked on a signal of its current step and every signal already sent on that
      channel went to an earlier step. With 3n + 1 answers nothing else can be. */
  lemma {:induction false} OnlySignalsBlock(steps: seq<StepDef>, input: WorkflowInput, now: Time,
                                            rs: seq<Reply>, ms: seq<Message>)
    requires |Outcome(steps, input, now, rs, ms).issued| <= |rs|
    ensures var t := Outcome(steps, input, now, rs, ms);
            || t.phase.Finished?
            || t.failed
            || (NeedsSignal(t) && steps[t.index].signal != ""
                && |Channel(ms, steps[t.index].signal)| <= Taken(steps, t.index, steps[t.index].signal))
    ensures 3 * |steps| + 1 <= |rs| ==> |Outcome(steps, input, now, rs, ms).issued| <= |rs|
  {
    OutcomeOrderly(steps, input, now, rs, ms);
    DriveRests(steps, Begin(steps, input, now), rs, ms);
  }

  /** Every activity answered so far succeeded, except events and the one that ended
      a failed run. */
  predicate Granted(s: Exec, rs: seq<Reply>) {
    && s.answered <= |s.issued| && s.answered <= |rs|
    && forall k :: 0 <= k < s.answered ==>
         (s.failed && k == s.answered - 1) || s.issued[k].Emit? || rs[k].Success?
  }

  lemma {:induction false} LastCommand(steps: seq<StepDef>, blank: Journey, s: Exec)
    requires Orderly(steps, blank, s) && NeedsReply(s)
    ensures |s.issued| == s.answered + 1 && (s.issued[s.answered].Emit? <==> s.phase.Emitting?)
    ensures s.issued[s.answered].Act? <==> s.phase.Acting?
  {
    var slots := Opened(steps, s);
    assert Fits(steps, blank, s.issued[s.answered], slots[|slots| - 1]);
  }

  lemma {:induction false} ReplyGranted(steps: seq<StepDef>, blank: Journey, s: Exec, rs: seq<Reply>)
    requires Orderly(steps, blank, s) && Granted(s, rs) && NeedsReply(s) && s.answered < |rs|
    ensures Granted(OnReply(steps, s, rs[s.answered]), rs)
  {
    var t := OnReply(steps, s, rs[s.answered]);
    LastCommand(steps, blank, s);
    assert s.issued <= t.issued;
    assert !s.failed && (t.failed || s.phase.Emitting? || rs[s.answered].Success?);
    assert t.issued[s.answered] == s.issued[s.answered];
    forall k | 0 <= k < t.answered
      ensures (t.failed && k == t.answered - 1) || t.issued[k].Emit? || rs[k].Success?
    {
      if k < s.answered {
        assert t.issued[k] == s.issued[k];
      }
    }
  }

  lemma {:induction false} DriveGranted(steps: seq<StepDef>, blank: Journey, s: Exec, rs: seq<Reply>, ms: seq<Message>)
    requires Orderly(steps, blank, s) && Granted(s, rs)
    ensures Granted(Drive(steps, s, rs, ms), rs)
    decreases if s.answered < |rs| then |rs| - s.answered else 0, if s.phase.Awaiting? then 1 else 0
  {
    if NeedsReply(s) && s.answered < |rs| {
      ReplyGranted(steps, blank, s, rs);
      ReplyOrderly(steps, blank, s, rs[s.answered]);
      DriveGranted(steps, blank, OnReply(steps, s, rs[s.answered]), rs, ms);
    } else if NeedsSignal(s) && SignalReady(steps, s, ms) {
      var m := NextSignal(steps, s, ms);
      MessageOrderly(steps, blank, s, m);
      assert s.issued <= OnMessage(steps, s, m).issued;
      DriveGranted(steps, blank, OnMessage(steps, s, m), rs, ms);
    }
  }

  lemma {:induction false} BeforeAscends(steps: seq<StepDef>, k: nat)
    requires k <= |steps|
    ensures forall a :: 0 <= a < |Before(steps, k)| ==> Before(steps, k)[a].i < k
    ensures forall a, b :: 0 <= a <= b < |Before(steps, k)| ==> Before(steps, k)[a].i <= Before(steps, k)[b].i
    ensures forall a :: 0 <= a < |Before(steps, k)| && Before(steps, k)[a].ActAt? ==>
              a > 0 && Before(steps, k)[a - 1] == PersistAt(Before(steps, k)[a].i)
  {
    if k > 0 {
      BeforeAscends(steps, k - 1);
    }
  }

  lemma {:induction false} ScheduleAscends(steps: seq<StepDef>)
    ensures forall a, b :: 0 <= a <= b < |Schedule(steps)| ==> Schedule(steps)[a].i <= Schedule(steps)[b].i
    ensures forall a :: 0 <= a < |Schedule(steps)| && Schedule(steps)[a].ActAt? ==>
              a > 0 && Schedule(steps)[a - 1] == PersistAt(Schedule(steps)[a].i)
  {
    BeforeAscends(steps, |steps|);
  }

  lemma {:induction false} OutcomeGranted(steps: seq<StepDef>, input: WorkflowInput, now: Time, rs: seq<Reply>,
                                          ms: seq<Message>)
    ensures var t := Outcome(steps, input, now, rs, ms); Counted(t) && Granted(t, rs)
  {
    BeginOrderly(steps, input, now);
    DriveGranted(steps, FreshJourney(input, now), Begin(steps, input, now), rs, ms);
    OutcomeOrderly(steps, input, now, rs, ms);
  }

  /** The user is never blocked by tail provisioning: an action of a step after the
      first one that marks completion is only asked for once a document with status
      completed has been persisted with success. */
  lemma {:induction false} CompletionComesFirst(steps: seq<StepDef>, input: WorkflowInput, now: Time,
                                                rs: seq<Reply>, ms: seq<Message>, k: nat)
    requires k < |Outcome(steps, input, now, rs, ms).issued|
    ensures var t := Outcome(steps, input, now, rs, ms);
            var slot := Schedule(steps);
            && k < |slot|
            && (slot[k].ActAt? && slot[k].i < |steps| && Marked(steps, slot[k].i) ==>
                  && k > 0 && t.issued[k - 1].Persist? && t.issued[k - 1].journey.status == Completed
                  && k - 1 < |rs| && rs[k - 1].Success?)
  {
    RunFollowsSchedule(steps, input, now, rs, ms);
    OutcomeGranted(steps, input, now, rs, ms);
    ScheduleAscends(steps);
    if Schedule(steps)[k].ActAt? {
      assert Fits(steps, FreshJourney(input, now), Outcome(steps, input, now, rs, ms).issued[k - 1],
             Schedule(steps)[k - 1]);
    }
  }

  /** From the first completed document on, every later one of the run is completed too,
      whatever fails in between. */
  lemma {:induction false} CompletedForGood(steps: seq<StepDef>, input: WorkflowInput, now: Time,
                                            rs: seq<Reply>, ms: seq<Message>, k: nat, m: nat)
    requires k <= m < |Outcome(steps, input, now, rs, ms).issued|
    requires var t := Outcome(steps, input, now, rs, ms);
             t.issued[k].Persist? && t.issued[k].journey.status == Completed && t.issued[m].Persist?
    ensures Outcome(steps, input, now, rs, ms).issued[m].journey.status == Completed
  {
    var t := Outcome(steps, input, now, rs, ms);
    RunFollowsSchedule(steps, input, now, rs, ms);
    ScheduleAscends(steps);
    assert Fits(steps, FreshJourney(input, now), t.issued[k], Schedule(steps)[k]);
    assert Fits(steps, FreshJourney(input, now), t.issued[m], Schedule(steps)[m]);
    assert Schedule(steps)[k].i <= Schedule(steps)[m].i;
  }

  /** The events asked for, in order. */
  function Emissions(issued: seq<Command>): seq<StepEvent> {
    if issued == [] then []
    else Emissions(issued[..|issued| - 1]) +
         (match issued[|issued| - 1] case Emit(e) => [e] case Persist(_) => [] case Act(_, _) => [])
  }

  function EmitIndices(slots: seq<Slot>): seq<nat> {
    if slots == [] then []
    else EmitIndices(slots[..|slots| - 1]) +
         (match slots[|slots| - 1] case EmitAt(i) => [i] case PersistAt(_) => [] case ActAt(_) => [])
  }

  lemma {:induction false} EmissionsFollow(steps: seq<StepDef>, blank: Journey, issued: seq<Command>, slots: seq<Slot>)
    requires Follows(steps, blank, issued, slots)
    ensures |Emissions(issued)| == |EmitIndices(slots)|
    ensures forall k :: 0 <= k < |Emissions(issued)| ==>
            Fits(steps, blank, Emit(Emissions(issued)[k]), EmitAt(EmitIndices(slots)[k]))
  {
    if issued != [] {
      assert Fits(steps, blank, issued[|issued| - 1], slots[|slots| - 1]);
      EmissionsFollow(steps, blank, issued[..|issued| - 1], slots[..|slots| - 1]);
    }
  }

  lemma {:induction false} EmitIndicesSnoc(slots: seq<Slot>, x: Slot)
    ensures EmitIndices(slots + [x]) == if x.EmitAt? then EmitIndices(slots) + [x.i] else EmitIndices(slots)
  {
    assert (slots + [x])[..|slots|] == slots;
  }

  predicate CountsTo(xs: seq<nat>, k: nat) {
    |xs| == k && forall i :: 0 <= i < k ==> xs[i] == i
  }

  lemma {:induction false} StepEmits(steps: seq<StepDef>, i: nat, b: seq<Slot>)
    requires i < |steps|
    ensures EmitIndices(b + StepSlots(steps, i)) == EmitIndices(b) + [i]
  {
    var c := b + [PersistAt(i)];
    var d := if steps[i].action != "" then c + [ActAt(i)] else c;
    EmitIndicesSnoc(b, PersistAt(i));
    EmitIndicesSnoc(c, ActAt(i));
    EmitIndicesSnoc(d, EmitAt(i));
    assert b + StepSlots(steps, i) == d + [EmitAt(i)];
  }

  lemma {:induction false} BeforeEmits(steps: seq<StepDef>, k: nat)
    requires k <= |steps|
    ensures CountsTo(EmitIndices(Before(steps, k)), k)
  {
    if k > 0 {
      BeforeEmits(steps, k - 1);
      StepEmits(steps, k - 1, Before(steps, k - 1));
    }
  }

  lemma {:induction false} OpenedEmits(steps: seq<StepDef>, s: Exec)
    requires Placed(steps, s)
    ensures CountsTo(EmitIndices(Opened(steps, s)), Recorded(s))
  {
    var b := Before(steps, s.index);
    BeforeEmits(steps, s.index);
    if s.phase.Emitting? {
      StepEmits(steps, s.index, b);
    } else {
      EmitIndicesSnoc(b, PersistAt(s.index));
      if s.phase.Acting? {
        EmitIndicesSnoc(b + [PersistAt(s.index)], ActAt(s.index));
        assert Opened(steps, s) == b + [PersistAt(s.index)] + [ActAt(s.index)];
      } else {
        assert Opened(steps, s) == b + [PersistAt(s.index)];
      }
    }
  }

  /** Every recorded step has exactly one event, in catalog order, flagged as the start
      on the first step only and as the completion where the catalog says so. */
  lemma {:induction false} OneEventPerStep(steps: seq<StepDef>, input: WorkflowInput, now: Time,
                                           rs: seq<Reply>, ms: seq<Message>)
    ensures var t := Outcome(steps, input, now, rs, ms);
            var events := Emissions(t.issued);
            && |events| == |t.journey.steps| <= |steps|
            && forall i :: 0 <= i < |events| ==>
                 && events[i].step == steps[i].name && events[i].userId == input.userId
                 && events[i].started == (i == 0) && events[i].completed == steps[i].marksComplete
  {
    var t := Outcome(steps, input, now, rs, ms);
    var blank := FreshJourney(input, now);
    OutcomeOrderly(steps, input, now, rs, ms);
    EmissionsFollow(steps, blank, t.issued, Opened(steps, t));
    OpenedEmits(steps, t);
    forall i | 0 <= i < |Emissions(t.issued)|
      ensures Emissions(t.issued)[i].step == steps[i].name && Emissions(t.issued)[i].userId == input.userId
      ensures Emissions(t.issued)[i].started == (i == 0) && Emissions(t.issued)[i].completed == steps[i].marksComplete
    {
      assert Fits(steps, blank, Emit(Emissions(t.issued)[i]), EmitAt(EmitIndices(Opened(steps, t))[i]));
    }
  }

  lemma {:induction false} IssuedGrows(steps: seq<StepDef>, s: Exec, rs: seq<Reply>, ms: seq<Message>)
    requires Placed(steps, s)
    ensures s.issued <= Drive(steps, s, rs, ms).issued
    decreases if s.answered < |rs| then |rs| - s.answered else 0, if s.phase.Awaiting? then 1 else 0
  {
    if NeedsReply(s) && s.answered < |rs| {
      assert s.issued <= OnReply(steps, s, rs[s.answered]).issued;
      IssuedGrows(steps, OnReply(steps, s, rs[s.answered]), rs, ms);
    } else if NeedsSignal(s) && SignalReady(steps, s, ms) {
      assert s.issued <= OnMessage(steps, s, NextSignal(steps, s, ms)).issued;
      IssuedGrows(steps, OnMessage(steps, s, NextSignal(steps, s, ms)), rs, ms);
    }
  }

  /** qs differs from rs only in how the events among `issued` fared. */
  predicate SameButEvents(issued: seq<Command>, rs: seq<Reply>, qs: seq<Reply>) {
    && |rs| == |qs|
    && forall k :: 0 <= k < |rs| ==>
         rs[k] == qs[k] || (rs[k].time == qs[k].time && k < |issued| && issued[k].Emit?)
  }

  lemma {:induction false} DriveIgnoresEvents(steps: seq<StepDef>, blank: Journey, s: Exec,
                                              rs: seq<Reply>, qs: seq<Reply>, ms: seq<Message>)
    requires Orderly(steps, blank, s)
    requires SameButEvents(Drive(steps, s, rs, ms).issued, rs, qs)
    ensures Drive(steps, s, qs, ms) == Drive(steps, s, rs, ms)
    decreases if s.answered < |rs| then |rs| - s.answered else 0, if s.phase.Awaiting? then 1 else 0
  {
    if NeedsReply(s) && s.answered < |rs| {
      var k := s.answered;
      IssuedGrows(steps, s, rs, ms);
      LastCommand(steps, blank, s);
      assert Drive(steps, s, rs, ms).issued[k] == s.issued[k];
      assert OnReply(steps, s, qs[k]) == OnReply(steps, s, rs[k]);
      ReplyOrderly(steps, blank, s, rs[k]);
      DriveIgnoresEvents(steps, blank, OnReply(steps, s, rs[k]), rs, qs, ms);
    } else if NeedsSignal(s) && SignalReady(steps, s, ms) {
      var m := NextSignal(steps, s, ms);
      MessageOrderly(steps, blank, s, m);
      DriveIgnoresEvents(steps, blank, OnMessage(steps, s, m), rs, qs, ms);
    }
  }
}
