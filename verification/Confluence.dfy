/** Signal schedules do not matter: up to timestamps, what a run does depends only on
    the activity results and on the first payloads of each channel, as many as steps
    wait on it. */
module Confluence {
  import opened Domain
  import opened Executor
  import opened ReadModel
  import opened Replay

  function Each<A, B>(f: A -> B, xs: seq<A>): (ys: seq<B>)
    ensures |ys| == |xs| && forall i :: 0 <= i < |xs| ==> ys[i] == f(xs[i])
  {
    seq(|xs|, i requires 0 <= i < |xs| => f(xs[i]))
  }

  /** Values with every timestamp set to zero. */
  function TimelessSummary(x: StepSummary): StepSummary {
    x.(completedAt := 0)
  }

  function TimelessJourney(j: Journey): Journey {
    j.(steps := Each(TimelessSummary, j.steps), startedAt := 0,
       completedAt := if j.completedAt.Some? then Some(0) else None)
  }

  function TimelessCommand(c: Command): Command {
    match c
    case Persist(j) => Persist(TimelessJourney(j))
    case Act(_, _) => c
    case Emit(e) => Emit(e.(timestamp := 0))
  }

  function TimelessReply(r: Reply): Reply {
    r.(time := 0)
  }

  function TimelessMessage(m: Message): Message {
    m.(time := 0)
  }

  function Timeless(s: Exec): Exec {
    s.(journey := TimelessJourney(s.journey), clock := 0, issued := Each(TimelessCommand, s.issued))
  }

  lemma {:induction false} IssueTimeless(s: Exec, phase: Phase, c: Command)
    ensures Timeless(Issue(s, phase, c)) == Issue(Timeless(s), phase, TimelessCommand(c))
  {
  }

  lemma {:induction false} OpenStepTimeless(steps: seq<StepDef>, s: Exec)
    ensures Timeless(OpenStep(steps, s)) == OpenStep(steps, Timeless(s))
  {
    if s.index < |steps| {
      var j := s.journey.(currentStep := steps[s.index].name);
      IssueTimeless(s.(journey := j), Persisting, Persist(j));
    } else {
      IssueTimeless(s, Finalising, Persist(s.journey));
    }
  }

  lemma {:induction false} RecordTimeless(steps: seq<StepDef>, s: Exec)
    requires s.index < |steps|
    ensures Timeless(Record(steps, s)) == Record(steps, Timeless(s))
  {
    var step := steps[s.index];
    var x := StepSummary(step.name, Completed, s.clock);
    assert Each(TimelessSummary, s.journey.steps + [x])
           == Each(TimelessSummary, s.journey.steps) + [TimelessSummary(x)];
    var listed := s.journey.(steps := s.journey.steps + [x]);
    var j := if step.marksComplete then listed.(status := Completed, completedAt := Some(s.clock)) else listed;
    IssueTimeless(s.(journey := j), Emitting,
                  Emit(StepEvent(j.userId, s.ctx.orgId, step.name, s.clock, s.index == 0, step.marksComplete)));
  }

  lemma {:induction false} OpenActionTimeless(steps: seq<StepDef>, s: Exec)
    requires s.index < |steps|
    ensures Timeless(OpenAction(steps, s)) == OpenAction(steps, Timeless(s))
  {
    if steps[s.index].action != "" {
      IssueTimeless(s, Acting, Act(steps[s.index].action, InputOf(s)));
    } else {
      RecordTimeless(steps, s);
    }
  }

  lemma {:induction false} ReplyTimeless(steps: seq<StepDef>, s: Exec, r: Reply)
    requires Placed(steps, s) && NeedsReply(s)
    ensures Timeless(OnReply(steps, s, r)) == OnReply(steps, Timeless(s), TimelessReply(r))
  {
    var heard := s.(answered := s.answered + 1, clock := Max(s.clock, r.time));
    if s.phase.Emitting? {
      OpenStepTimeless(steps, heard.(index := s.index + 1));
    } else if r.Success? && s.phase.Persisting? && steps[s.index].signal == "" {
      OpenActionTimeless(steps, heard);
    } else if r.Success? && s.phase.Acting? {
      RecordTimeless(steps, Merge(heard, r.orgId, r.email));
    }
  }

  lemma {:induction false} MessageTimeless(steps: seq<StepDef>, s: Exec, m: Message)
    requires Placed(steps, s) && NeedsSignal(s)
    ensures Timeless(OnMessage(steps, s, m)) == OnMessage(steps, Timeless(s), TimelessMessage(m))
  {
    OpenActionTimeless(steps, Absorb(s.(clock := Max(s.clock, m.time)), m.payload));
  }

  lemma {:induction false} ChannelTimeless(ms: seq<Message>, name: string)
    ensures Channel(Each(TimelessMessage, ms), name) == Each(TimelessMessage, Channel(ms, name))
  {
    if ms != [] {
      assert Each(TimelessMessage, ms)[..|ms| - 1] == Each(TimelessMessage, ms[..|ms| - 1]);
      ChannelTimeless(ms[..|ms| - 1], name);
    }
  }

  /** Forgetting timestamps commutes with running. */
  lemma {:induction false} DriveTimeless(steps: seq<StepDef>, s: Exec, rs: seq<Reply>, ms: seq<Message>)
    requires Placed(steps, s)
    ensures Timeless(Drive(steps, s, rs, ms))
         == Drive(steps, Timeless(s), Each(TimelessReply, rs), Each(TimelessMessage, ms))
    decreases if s.answered < |rs| then |rs| - s.answered else 0, if s.phase.Awaiting? then 1 else 0
  {
    if NeedsReply(s) && s.answered < |rs| {
      ReplyTimeless(steps, s, rs[s.answered]);
      DriveTimeless(steps, OnReply(steps, s, rs[s.answered]), rs, ms);
    } else if NeedsSignal(s) {
      ChannelTimeless(ms, steps[s.index].signal);
      if SignalReady(steps, s, ms) {
        var m := NextSignal(steps, s, ms);
        MessageTimeless(steps, s, m);
        DriveTimeless(steps, OnMessage(steps, s, m), rs, ms);
      }
    }
  }

  /** a and b agree on their first n elements, presence included. */
  predicate SameFirst<A(==)>(a: seq<A>, b: seq<A>, n: nat) {
    forall i :: 0 <= i < n ==> (i < |a| <==> i < |b|) && (i < |a| ==> a[i] == b[i])
  }

  /** On every channel the same first messages, as many as steps wait on it. */
  ghost predicate SameHeard(steps: seq<StepDef>, ms: seq<Message>, ns: seq<Message>) {
    forall c: string | c != "" :: SameFirst(Channel(ms, c), Channel(ns, c), Taken(steps, |steps|, c))
  }

  lemma {:induction false} TakenGrows(steps: seq<StepDef>, i: nat, k: nat, name: string)
    requires i <= k <= |steps|
    ensures Taken(steps, i, name) <= Taken(steps, k, name)
    decreases k
  {
    if i < k {
      TakenGrows(steps, i, k - 1, name);
    }
  }

  lemma {:induction false} DriveHears(steps: seq<StepDef>, s: Exec, rs: seq<Reply>, ms: seq<Message>, ns: seq<Message>)
    requires Placed(steps, s) && SameHeard(steps, ms, ns)
    requires s.phase.Awaiting? ==> steps[s.index].signal != ""
    ensures Drive(steps, s, rs, ms) == Drive(steps, s, rs, ns)
    decreases if s.answered < |rs| then |rs| - s.answered else 0, if s.phase.Awaiting? then 1 else 0
  {
    if NeedsReply(s) && s.answered < |rs| {
      DriveHears(steps, OnReply(steps, s, rs[s.answered]), rs, ms, ns);
    } else if NeedsSignal(s) {
      var name := steps[s.index].signal;
      TakenGrows(steps, s.index + 1, |steps|, name);
      assert SameFirst(Channel(ms, name), Channel(ns, name), Taken(steps, |steps|, name));
      if SignalReady(steps, s, ms) {
        DriveHears(steps, OnMessage(steps, s, NextSignal(steps, s, ms)), rs, ms, ns);
      }
    }
  }

  /** Two live runs of one catalog, started at any times, with the same activity
      results and, on every channel, the same first payloads. However the signals were
      interleaved with the results, early, late or duplicated, the two runs dispatched
      the same actions with the same inputs, persisted the same documents and are in
      the same state, timestamps aside. */
  lemma {:induction false} SchedulesDoNotMatter(steps: seq<StepDef>, input: WorkflowInput, t1: Time, t2: Time,
                                                h1: seq<Event>, h2: seq<Event>)
    requires After(steps, Launch(steps, input, t1), h1).Some? && After(steps, Launch(steps, input, t2), h2).Some?
    requires Each(TimelessReply, Replies(h1)) == Each(TimelessReply, Replies(h2))
    requires SameHeard(steps, Each(TimelessMessage, Signals(h1)), Each(TimelessMessage, Signals(h2)))
    ensures Timeless(After(steps, Launch(steps, input, t1), h1).value.exec)
         == Timeless(After(steps, Launch(steps, input, t2), h2).value.exec)
  {
    ReplayMatchesLive(steps, input, t1, h1);
    ReplayMatchesLive(steps, input, t2, h2);
    DriveTimeless(steps, Begin(steps, input, t1), Replies(h1), Signals(h1));
    DriveTimeless(steps, Begin(steps, input, t2), Replies(h2), Signals(h2));
    OpenStepTimeless(steps, Entry(input, t1));
    OpenStepTimeless(steps, Entry(input, t2));
    DriveHears(steps, Timeless(Begin(steps, input, t1)), Each(TimelessReply, Replies(h1)),
               Each(TimelessMessage, Signals(h1)), Each(TimelessMessage, Signals(h2)));
  }

  /** No two steps wait on the same channel. */
  predicate DistinctSignals(steps: seq<StepDef>) {
    forall i, j :: 0 <= i < j < |steps| && steps[i].signal != "" ==> steps[i].signal != steps[j].signal
  }

  lemma {:induction false} NoneTaken(steps: seq<StepDef>, k: nat, c: string)
    requires k <= |steps| && forall i :: 0 <= i < k ==> steps[i].signal != c
    ensures Taken(steps, k, c) == 0
  {
    if k > 0 {
      NoneTaken(steps, k - 1, c);
    }
  }

  lemma {:induction false} TakenAtMostOnce(steps: seq<StepDef>, k: nat, c: string)
    requires k <= |steps| && DistinctSignals(steps) && c != ""
    ensures Taken(steps, k, c) <= 1
  {
    if k > 0 {
      if steps[k - 1].signal == c {
        NoneTaken(steps, k - 1, c);
      } else {
        TakenAtMostOnce(steps, k - 1, c);
      }
    }
  }

  /** The first message on a channel, if any. */
  function First(ms: seq<Message>, c: string): Option<Message> {
    var box := Channel(ms, c);
    if box == [] then None else Some(box[0])
  }

  /** With pairwise distinct signal names only the first payload sent on each channel
      decides. */
  lemma {:induction false} FirstPayloadDecides(steps: seq<StepDef>, input: WorkflowInput, t1: Time, t2: Time,
                                               h1: seq<Event>, h2: seq<Event>)
    requires DistinctSignals(steps)
    requires After(steps, Launch(steps, input, t1), h1).Some? && After(steps, Launch(steps, input, t2), h2).Some?
    requires Each(TimelessReply, Replies(h1)) == Each(TimelessReply, Replies(h2))
    requires forall c: string | c != "" ::
             First(Each(TimelessMessage, Signals(h1)), c) == First(Each(TimelessMessage, Signals(h2)), c)
    ensures Timeless(After(steps, Launch(steps, input, t1), h1).value.exec)
         == Timeless(After(steps, Launch(steps, input, t2), h2).value.exec)
  {
    var ms, ns := Each(TimelessMessage, Signals(h1)), Each(TimelessMessage, Signals(h2));
    forall c: string | c != ""
      ensures SameFirst(Channel(ms, c), Channel(ns, c), Taken(steps, |steps|, c))
    {
      TakenAtMostOnce(steps, |steps|, c);
      assert First(ms, c) == First(ns, c);
    }
    SchedulesDoNotMatter(steps, input, t1, t2, h1, h2);
  }

  /** qs differs from rs in time, and in how the events among `issued` fared. */
  predicate EventsApart(issued: seq<Command>, rs: seq<Reply>, qs: seq<Reply>) {
    && |rs| == |qs|
    && forall k :: 0 <= k < |rs| ==>
         TimelessReply(rs[k]) == TimelessReply(qs[k]) || (k < |issued| && issued[k].Emit?)
  }

  /** Runs that differ only in how event emissions fared, whenever and after however many
      retries, ask for the same activities with the same inputs and end in the same
      state, timestamps aside. */
  lemma {:induction false} EventsDoNotInterfere(steps: seq<StepDef>, input: WorkflowInput, t1: Time, t2: Time,
                                                rs: seq<Reply>, qs: seq<Reply>, ms: seq<Message>, ns: seq<Message>)
    requires Each(TimelessMessage, ms) == Each(TimelessMessage, ns)
    requires EventsApart(Outcome(steps, input, t1, rs, ms).issued, rs, qs)
    ensures Timeless(Outcome(steps, input, t1, rs, ms)) == Timeless(Outcome(steps, input, t2, qs, ns))
  {
    DriveTimeless(steps, Begin(steps, input, t1), rs, ms);
    DriveTimeless(steps, Begin(steps, input, t2), qs, ns);
    OpenStepTimeless(steps, Entry(input, t1));
    OpenStepTimeless(steps, Entry(input, t2));
    BeginOrderly(steps, input, 0);
    DriveIgnoresEvents(steps, FreshJourney(input, 0), Begin(steps, input, 0),
                       Each(TimelessReply, rs), Each(TimelessReply, qs), Each(TimelessMessage, ms));
  }
}
