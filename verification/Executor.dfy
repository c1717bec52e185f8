/** The generic step executor as a machine. A state is a point at which the workflow
    function is blocked (on an activity result or on a signal) or has returned. `Drive`
    runs the function as far as a recorded history lets it go, taking results and
    signals from the history on demand, which is how a replay reads them. */
module Executor {
  import opened Domain
  import opened Catalog

  /** Values threaded across the steps of a run. */
  datatype Context = Context(orgId: string, displayName: string, tncAccepted: string, email: string)

  datatype Phase = Persisting | Awaiting | Acting | Emitting | Finalising | Finished

  /** `issued` lists every activity scheduled so far and `answered` counts those whose
      result was taken. A failed run keeps the phase in which it returned an error. */
  datatype Exec = Exec(
    index: nat,
    phase: Phase,
    failed: bool,
    journey: Journey,
    ctx: Context,
    clock: Time,
    issued: seq<Command>,
    answered: nat)

  function PinnedVersion(input: WorkflowInput): int {
    if input.version == 0 then CATALOG_VERSION else input.version
  }

  function FreshJourney(input: WorkflowInput, now: Time): Journey {
    Journey(input.userId, "", "", InProgress, "", PinnedVersion(input), [], now, None)
  }

  function Issue(s: Exec, phase: Phase, c: Command): Exec {
    s.(phase := phase, issued := s.issued + [c])
  }

  /** The state before the first iteration. */
  function Entry(input: WorkflowInput, now: Time): Exec {
    Exec(0, Emitting, false, FreshJourney(input, now), Context("", "", "", ""), now, [], 0)
  }

  function Begin(steps: seq<StepDef>, input: WorkflowInput, now: Time): Exec {
    OpenStep(steps, Entry(input, now))
  }

  /** Enter the step at `index`, or the final persist when there is none left. */
  function OpenStep(steps: seq<StepDef>, s: Exec): Exec {
    if s.index < |steps| then
      var j := s.journey.(currentStep := steps[s.index].name);
      Issue(s.(journey := j), Persisting, Persist(j))
    else
      Issue(s, Finalising, Persist(s.journey))
  }

  function InputOf(s: Exec): ActionInput {
    ActionInput(s.journey.userId, s.ctx.orgId, s.ctx.displayName, s.ctx.tncAccepted, s.ctx.email)
  }

  function OpenAction(steps: seq<StepDef>, s: Exec): Exec
    requires s.index < |steps|
  {
    if steps[s.index].action != "" then
      Issue(s, Acting, Act(steps[s.index].action, InputOf(s)))
    else
      Record(steps, s)
  }

  /** Record the step as completed and ask for its event. */
  function Record(steps: seq<StepDef>, s: Exec): Exec
    requires s.index < |steps|
  {
    var step := steps[s.index];
    var listed := s.journey.(steps := s.journey.steps + [StepSummary(step.name, Completed, s.clock)]);
    var j := if step.marksComplete then listed.(status := Completed, completedAt := Some(s.clock)) else listed;
    Issue(s.(journey := j), Emitting,
          Emit(StepEvent(j.userId, s.ctx.orgId, step.name, s.clock, s.index == 0, step.marksComplete)))
  }

  function Absorb(s: Exec, p: Payload): Exec {
    s.(ctx := s.ctx.(displayName := if p.displayName != "" then p.displayName else s.ctx.displayName,
                     tncAccepted := if p.tncAccepted != "" then p.tncAccepted else s.ctx.tncAccepted),
       journey := if p.verticalName != "" then s.journey.(verticalName := p.verticalName) else s.journey)
  }

  function Merge(s: Exec, orgId: string, email: string): Exec {
    s.(ctx := s.ctx.(orgId := if orgId != "" then orgId else s.ctx.orgId,
                     email := if email != "" then email else s.ctx.email),
       journey := if orgId != "" then s.journey.(orgId := orgId) else s.journey)
  }

  predicate NeedsReply(s: Exec) {
    !s.failed && !s.phase.Awaiting? && !s.phase.Finished?
  }

  predicate NeedsSignal(s: Exec) {
    !s.failed && s.phase.Awaiting?
  }

  /** Whether the indices a state carries make sense for the catalog. */
  predicate Placed(steps: seq<StepDef>, s: Exec) {
    if s.phase.Finalising? || s.phase.Finished? then s.index == |steps| else s.index < |steps|
  }

  /** The activity the run is blocked on has answered. */
  function OnReply(steps: seq<StepDef>, s: Exec, r: Reply): (t: Exec)
    requires Placed(steps, s) && NeedsReply(s)
    ensures Placed(steps, t)
    ensures t.answered == s.answered + 1
  {
    var heard := s.(answered := s.answered + 1, clock := Max(s.clock, r.time));
    if s.phase.Emitting? then
      OpenStep(steps, heard.(index := s.index + 1))
    else if r.Failure? then
      heard.(failed := true)
    else if s.phase.Persisting? then
      if steps[s.index].signal != "" then heard.(phase := Awaiting) else OpenAction(steps, heard)
    else if s.phase.Acting? then
      Record(steps, Merge(heard, r.orgId, r.email))
    else
      heard.(phase := Finished)
  }

  /** The signal the run is blocked on has arrived. */
  function OnMessage(steps: seq<StepDef>, s: Exec, m: Message): (t: Exec)
    requires Placed(steps, s) && NeedsSignal(s)
    ensures Placed(steps, t)
    ensures t.answered == s.answered && NeedsReply(t)
  {
    OpenAction(steps, Absorb(s.(clock := Max(s.clock, m.time)), m.payload))
  }

  /** The signals sent on one channel, in order of arrival. */
  function Channel(ms: seq<Message>, name: string): seq<Message> {
    if ms == [] then []
    else
      var rest := Channel(ms[..|ms| - 1], name);
      if ms[|ms| - 1].channel == name then rest + [ms[|ms| - 1]] else rest
  }

  /** How many of the first k steps wait on a channel. */
  function Taken(steps: seq<StepDef>, k: nat, name: string): nat
    requires k <= |steps|
  {
    if k == 0 then 0
    else Taken(steps, k - 1, name) + if steps[k - 1].signal == name then 1 else 0
  }

  predicate SignalReady(steps: seq<StepDef>, s: Exec, ms: seq<Message>)
    requires Placed(steps, s) && NeedsSignal(s)
  {
    var name := steps[s.index].signal;
    Taken(steps, s.index, name) < |Channel(ms, name)|
  }

  function NextSignal(steps: seq<StepDef>, s: Exec, ms: seq<Message>): Message
    requires Placed(steps, s) && NeedsSignal(s) && SignalReady(steps, s, ms)
  {
    var name := steps[s.index].signal;
    Channel(ms, name)[Taken(steps, s.index, name)]
  }

  /** Run from s as far as the recorded results and signals allow. */
  function Drive(steps: seq<StepDef>, s: Exec, rs: seq<Reply>, ms: seq<Message>): (t: Exec)
    requires Placed(steps, s)
    ensures Placed(steps, t)
    decreases if s.answered < |rs| then |rs| - s.answered else 0, if s.phase.Awaiting? then 1 else 0
  {
    if NeedsReply(s) && s.answered < |rs| then
      Drive(steps, OnReply(steps, s, rs[s.answered]), rs, ms)
    else if NeedsSignal(s) && SignalReady(steps, s, ms) then
      Drive(steps, OnMessage(steps, s, NextSignal(steps, s, ms)), rs, ms)
    else
      s
  }

  lemma {:induction false} ChannelOfPrefix(a: seq<Message>, b: seq<Message>, name: string)
    requires a <= b
    ensures Channel(a, name) <= Channel(b, name)
  {
    if a != b {
      assert a <= b[..|b| - 1];
      ChannelOfPrefix(a, b[..|b| - 1], name);
    }
  }

  /** A longer history continues a run from where the shorter one left it. */
  lemma {:induction false} DriveResumes(steps: seq<StepDef>, s: Exec, rs: seq<Reply>, ms: seq<Message>,
                                        rs': seq<Reply>, ms': seq<Message>)
    requires Placed(steps, s) && rs <= rs' && ms <= ms'
    ensures Drive(steps, s, rs', ms') == Drive(steps, Drive(steps, s, rs, ms), rs', ms')
    decreases if s.answered < |rs| then |rs| - s.answered else 0, if s.phase.Awaiting? then 1 else 0
  {
    if NeedsReply(s) && s.answered < |rs| {
      DriveResumes(steps, OnReply(steps, s, rs[s.answered]), rs, ms, rs', ms');
    } else if NeedsSignal(s) && SignalReady(steps, s, ms) {
      ChannelOfPrefix(ms, ms', steps[s.index].signal);
      DriveResumes(steps, OnMessage(steps, s, NextSignal(steps, s, ms)), rs, ms, rs', ms');
    }
  }
}
