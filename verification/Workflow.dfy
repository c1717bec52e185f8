/** The workflow function itself: a loop over the pinned steps, blocking on activities
    and signals that the recorded history answers. */
module Workflow {
  import opened Domain
  import opened Catalog
  import opened Executor
  import opened Replay

  /** What a replaying worker hands to the workflow function: recorded results in
      order, recorded signals by channel, and the list of activities it asks for. */
  class WorkflowContext {
    const replies: seq<Reply>
    const messages: seq<Message>
    var inbox: map<string, seq<Message>>
    var issued: seq<Command>
    var answered: nat
    var clock: Time

    constructor (replies: seq<Reply>, messages: seq<Message>, now: Time)
      ensures this.replies == replies && this.messages == messages
      ensures issued == [] && answered == 0 && clock == now
      ensures forall c: string :: Box(inbox, c) == Channel(messages, c)
    {
      this.replies, this.messages := replies, messages;
      inbox, issued, answered, clock := map[], [], 0, now;
      new;
      for k := 0 to |messages|
        invariant issued == [] && answered == 0 && clock == now
        invariant forall c: string :: Box(inbox, c) == Channel(messages[..k], c)
      {
        var m := messages[k];
        assert messages[..k + 1][..k] == messages[..k];
        inbox := inbox[m.channel := Box(inbox, m.channel) + [m]];
      }
      assert messages[..|messages|] == messages;
    }

    /** Schedule an activity and take its recorded result, if there is one. */
    method ExecuteActivity(c: Command) returns (r: Option<Reply>)
      requires answered <= |replies|
      modifies this`issued, this`answered, this`clock
      ensures issued == old(issued) + [c] && answered <= |replies|
      ensures old(answered) < |replies| ==>
                && r == Some(replies[old(answered)]) && answered == old(answered) + 1
                && clock == Max(old(clock), replies[old(answered)].time)
      ensures old(answered) == |replies| ==> r == None && answered == old(answered) && clock == old(clock)
    {
      issued := issued + [c];
      if answered == |replies| {
        return None;
      }
      r := Some(replies[answered]);
      clock := Max(clock, replies[answered].time);
      answered := answered + 1;
    }

    /** Read the next signal of a channel, if there is one. */
    method Receive(name: string) returns (m: Option<Message>)
      modifies this`inbox, this`clock
      ensures old(Box(inbox, name)) != [] ==>
                && m == Some(old(Box(inbox, name))[0])
                && inbox == old(inbox)[name := old(Box(inbox, name))[1..]]
                && clock == Max(old(clock), old(Box(inbox, name))[0].time)
      ensures old(Box(inbox, name)) == [] ==> m == None && inbox == old(inbox) && clock == old(clock)
    {
      var box := Box(inbox, name);
      if box == [] {
        return None;
      }
      m := Some(box[0]);
      inbox := inbox[name := box[1..]];
      clock := Max(clock, box[0].time);
    }

    /** The machine state for the workflow function's local variables. */
    function At(index: nat, phase: Phase, failed: bool, journey: Journey, locals: Context): Exec
      reads this
    {
      Exec(index, phase, failed, journey, locals, clock, issued, answered)
    }
  }

  /** The machine states a and b come to rest in the same place on wf's history. */
  ghost predicate SameRest(wf: WorkflowContext, steps: seq<StepDef>, a: Exec, b: Exec) {
    Placed(steps, a) && Placed(steps, b)
    && Drive(steps, a, wf.replies, wf.messages) == Drive(steps, b, wf.replies, wf.messages)
  }

  /** The workflow function has returned or is blocked in state s. */
  ghost predicate Rests(wf: WorkflowContext, steps: seq<StepDef>, s: Exec)
    reads wf
  {
    && Placed(steps, s) && Drive(steps, s, wf.replies, wf.messages) == s
    && Unread(steps, Heard(s), wf.messages, wf.inbox)
  }

  /** Stage 1: persist where the user is. */
  method PersistStage(wf: WorkflowContext, steps: seq<StepDef>, i: nat, before: Journey, ctx: Context)
    returns (stop: Option<Exec>, journey: Journey)
    requires i < |steps| && wf.answered <= |wf.replies| && Unread(steps, i, wf.messages, wf.inbox)
    modifies wf`issued, wf`answered, wf`clock
    ensures wf.answered <= |wf.replies|
    ensures var s := OpenStep(steps, old(wf.At(i, Emitting, false, before, ctx)));
            match stop
            case Some(t) => SameRest(wf, steps, s, t) && Rests(wf, steps, t)
            case None =>
              SameRest(wf, steps, s, if steps[i].signal != "" then wf.At(i, Awaiting, false, journey, ctx)
                                     else OpenAction(steps, wf.At(i, Acting, false, journey, ctx)))
  {
    journey := before.(currentStep := steps[i].name);
    var stored := wf.ExecuteActivity(Persist(journey));
    if stored == None || stored.value.Failure? {
      stop := Some(wf.At(i, Persisting, stored != None, journey, ctx));
    } else {
      stop := None;
    }
  }

  /** Stage 2: wait for the step's signal and absorb its payload. */
  method SignalStage(wf: WorkflowContext, steps: seq<StepDef>, i: nat, before: Journey, locals: Context)
    returns (stop: Option<Exec>, journey: Journey, ctx: Context)
    requires i < |steps| && steps[i].signal != "" && Unread(steps, i, wf.messages, wf.inbox)
    modifies wf`inbox, wf`clock
    ensures var s := old(wf.At(i, Awaiting, false, before, locals));
            match stop
            case Some(t) => SameRest(wf, steps, s, t) && Rests(wf, steps, t)
            case None =>
              && SameRest(wf, steps, s, OpenAction(steps, wf.At(i, Acting, false, journey, ctx)))
              && Unread(steps, i + 1, wf.messages, wf.inbox)
  {
    var step := steps[i];
    journey, ctx := before, locals;
    ghost var s := wf.At(i, Awaiting, false, before, locals);
    ghost var was := wf.inbox;
    assert Box(was, step.signal) == Channel(wf.messages, step.signal)[Taken(steps, i, step.signal)..];
    var received := wf.Receive(step.signal);
    if received == None {
      return Some(wf.At(i, Awaiting, false, journey, ctx)), journey, ctx;
    }
    var p := received.value.payload;
    assert received.value == NextSignal(steps, s, wf.messages);
    if p.displayName != "" {
      ctx := ctx.(displayName := p.displayName);
    }
    if p.verticalName != "" {
      journey := journey.(verticalName := p.verticalName);
    }
    if p.tncAccepted != "" {
      ctx := ctx.(tncAccepted := p.tncAccepted);
    }
    stop := None;
    assert wf.At(i, Awaiting, false, journey, ctx) == Absorb(s.(clock := wf.clock), p);
    forall c: string | c != ""
      ensures Taken(steps, i + 1, c) <= |Channel(wf.messages, c)|
      ensures Box(wf.inbox, c) == Channel(wf.messages, c)[Taken(steps, i + 1, c)..]
    {
      assert Box(was, c) == Channel(wf.messages, c)[Taken(steps, i, c)..];
    }
  }

  /** Stage 3: run the step's action and merge its result. */
  method ActionStage(wf: WorkflowContext, steps: seq<StepDef>, i: nat, before: Journey, locals: Context)
    returns (stop: Option<Exec>, journey: Journey, ctx: Context)
    requires i < |steps| && steps[i].action != "" && wf.answered <= |wf.replies|
    requires Unread(steps, i + 1, wf.messages, wf.inbox)
    modifies wf`issued, wf`answered, wf`clock
    ensures wf.answered <= |wf.replies|
    ensures var s := OpenAction(steps, old(wf.At(i, Acting, false, before, locals)));
            match stop
            case Some(t) => SameRest(wf, steps, s, t) && Rests(wf, steps, t)
            case None => SameRest(wf, steps, s, Record(steps, wf.At(i, Acting, false, journey, ctx)))
  {
    journey, ctx := before, locals;
    var done := wf.ExecuteActivity(
      Act(steps[i].action, ActionInput(journey.userId, ctx.orgId, ctx.displayName, ctx.tncAccepted, ctx.email)));
    if done == None || done.value.Failure? {
      return Some(wf.At(i, Acting, done != None, journey, ctx)), journey, ctx;
    }
    if done.value.orgId != "" {
      ctx := ctx.(orgId := done.value.orgId);
      journey := journey.(orgId := ctx.orgId);
    }
    if done.value.email != "" {
      ctx := ctx.(email := done.value.email);
    }
    stop := None;
  }

  /** Stages 4 and 5: record the step, then emit its event and ignore the result. */
  method RecordStage(wf: WorkflowContext, steps: seq<StepDef>, i: nat, before: Journey, ctx: Context)
    returns (stop: Option<Exec>, journey: Journey)
    requires i < |steps| && wf.answered <= |wf.replies| && Unread(steps, i + 1, wf.messages, wf.inbox)
    modifies wf`issued, wf`answered, wf`clock
    ensures wf.answered <= |wf.replies|
    ensures var s := Record(steps, old(wf.At(i, Acting, false, before, ctx)));
            match stop
            case Some(t) => SameRest(wf, steps, s, t) && Rests(wf, steps, t)
            case None => SameRest(wf, steps, s, OpenStep(steps, wf.At(i + 1, Emitting, false, journey, ctx)))
  {
    ghost var s := Record(steps, wf.At(i, Acting, false, before, ctx));
    var step := steps[i];
    var now := wf.clock;
    journey := before.(steps := before.steps + [StepSummary(step.name, Completed, now)]);
    if step.marksComplete {
      journey := journey.(status := Completed, completedAt := Some(now));
    }
    var emitted := wf.ExecuteActivity(
      Emit(StepEvent(journey.userId, ctx.orgId, step.name, now, i == 0, step.marksComplete)));
    stop := if emitted == None then Some(wf.At(i, Emitting, false, journey, ctx)) else None;
    assert s == wf.At(i, Emitting, false, journey, ctx).(answered := s.answered, clock := s.clock);
    if emitted == None {
      assert stop.value == s;
    } else {
      assert OnReply(steps, s, emitted.value) == OpenStep(steps, wf.At(i + 1, Emitting, false, journey, ctx));
    }
  }

  /** The body of the loop. */
  method RunStep(wf: WorkflowContext, steps: seq<StepDef>, i: nat, before: Journey, locals: Context)
    returns (stop: Option<Exec>, journey: Journey, ctx: Context)
    requires i < |steps| && wf.answered <= |wf.replies| && Unread(steps, i, wf.messages, wf.inbox)
    modifies wf
    ensures wf.answered <= |wf.replies|
    ensures var s := OpenStep(steps, old(wf.At(i, Emitting, false, before, locals)));
            match stop
            case Some(t) => SameRest(wf, steps, s, t) && Rests(wf, steps, t)
            case None =>
              && SameRest(wf, steps, s, OpenStep(steps, wf.At(i + 1, Emitting, false, journey, ctx)))
              && Unread(steps, i + 1, wf.messages, wf.inbox)
  {
    ctx := locals;
    stop, journey := PersistStage(wf, steps, i, before, ctx);
    if stop != None {
      return;
    }
    if steps[i].signal != "" {
      stop, journey, ctx := SignalStage(wf, steps, i, journey, ctx);
      if stop != None {
        return;
      }
    } else {
      HeardWithoutSignal(steps, i, wf.messages, wf.inbox);
    }
    if steps[i].action != "" {
      stop, journey, ctx := ActionStage(wf, steps, i, journey, ctx);
      if stop != None {
        return;
      }
    }
    stop, journey := RecordStage(wf, steps, i, journey, ctx);
  }

  /** The final persist: every step recorded. */
  method FinalStage(wf: WorkflowContext, steps: seq<StepDef>, journey: Journey, ctx: Context) returns (s: Exec)
    requires wf.answered <= |wf.replies| && Unread(steps, |steps|, wf.messages, wf.inbox)
    modifies wf`issued, wf`answered, wf`clock
    ensures SameRest(wf, steps, OpenStep(steps, old(wf.At(|steps|, Emitting, false, journey, ctx))), s)
    ensures Rests(wf, steps, s)
  {
    var last := wf.ExecuteActivity(Persist(journey));
    var failed := last != None && last.value.Failure?;
    s := wf.At(|steps|, if last == None || failed then Finalising else Finished, failed, journey, ctx);
  }

  /** Walk the steps until a result or a signal is missing, an activity has failed for
      good, or the last step is done. */
  method OnboardingWorkflow(wf: WorkflowContext, steps: seq<StepDef>, input: WorkflowInput) returns (s: Exec)
    requires wf.answered == 0 && wf.issued == []
    requires forall c: string :: Box(wf.inbox, c) == Channel(wf.messages, c)
    modifies wf
    ensures s == Drive(steps, Begin(steps, input, old(wf.clock)), wf.replies, wf.messages)
    ensures Placed(steps, s) && Unread(steps, Heard(s), wf.messages, wf.inbox)
  {
    var version := input.version;
    if version == 0 {
      version := CATALOG_VERSION;
    }
    var journey := Journey(input.userId, "", "", InProgress, "", version, [], wf.clock, None);
    var ctx := Context("", "", "", "");
    ghost var entry := Begin(steps, input, wf.clock);
    assert Unread(steps, 0, wf.messages, wf.inbox);

    for i := 0 to |steps|
      invariant wf.answered <= |wf.replies|
      invariant Unread(steps, i, wf.messages, wf.inbox)
      invariant SameRest(wf, steps, entry, OpenStep(steps, wf.At(i, Emitting, false, journey, ctx)))
    {
      var stop;
      stop, journey, ctx := RunStep(wf, steps, i, journey, ctx);
      if stop != None {
        return stop.value;
      }
    }
    s := FinalStage(wf, steps, journey, ctx);
  }

  lemma {:induction false} HeardWithoutSignal(steps: seq<StepDef>, i: nat, ms: seq<Message>,
                                              boxes: map<string, seq<Message>>)
    requires i < |steps| && steps[i].signal == "" && Unread(steps, i, ms, boxes)
    ensures Unread(steps, i + 1, ms, boxes)
  {
    forall c: string | c != ""
      ensures Taken(steps, i + 1, c) <= |Channel(ms, c)|
      ensures Box(boxes, c) == Channel(ms, c)[Taken(steps, i + 1, c)..]
    {
      assert Taken(steps, i, c) <= |Channel(ms, c)|;
    }
  }
}
