/** A run whose worker crashes and recovers at arbitrary points, against the same run
    without crashes. */
module Crashes {
  import opened Domain
  import opened Executor
  import opened Replay
  import opened ReadModel
  import opened Workflow

  datatype Incident = Deliver(event: Event) | Crash | Recover

  /** What survives a crash (the recorded events and the activities scheduled so far)
      and what does not (the worker). */
  datatype Service = Service(history: seq<Event>, scheduled: seq<Command>, worker: Option<Live>)

  /** `Stuck` is a replay whose activities contradict the recorded ones. */
  datatype Story = Impossible | Stuck | Told(service: Service)

  function Boot(steps: seq<StepDef>, input: WorkflowInput, now: Time): Service {
    var l := Launch(steps, input, now);
    Service([], l.exec.issued, Some(l))
  }

  /** The signals left unread by the first k steps. */
  function Leftover(steps: seq<StepDef>, k: nat, ms: seq<Message>): map<string, seq<Message>>
    requires k <= |steps|
  {
    map c | c in (set m | m in ms :: m.channel) && Taken(steps, k, c) <= |Channel(ms, c)| ::
      Channel(ms, c)[Taken(steps, k, c)..]
  }

  function Rebuilt(steps: seq<StepDef>, input: WorkflowInput, now: Time, h: seq<Event>): (l: Live)
    ensures Placed(steps, l.exec)
  {
    var s := Drive(steps, Begin(steps, input, now), Replies(h), Signals(h));
    Live(s, Leftover(steps, Heard(s), Signals(h)))
  }

  /** The worker reports the activities it has asked for. The server keeps the recorded
      ones and schedules the rest. */
  function Report(sv: Service, l: Live): Story {
    if sv.scheduled <= l.exec.issued then Told(sv.(worker := Some(l), scheduled := l.exec.issued)) else Stuck
  }

  function Occur(steps: seq<StepDef>, input: WorkflowInput, now: Time, sv: Service, x: Incident): Story
    requires sv.worker.Some? ==> Placed(steps, sv.worker.value.exec)
  {
    match x
    case Deliver(e) =>
      // A result belongs to a scheduled activity that has none yet.
      if e.Replied? && |sv.scheduled| <= |Replies(sv.history)| then Impossible
      else
        var kept := sv.(history := sv.history + [e]);
        if sv.worker.None? then Told(kept)
        else if Enabled(sv.worker.value, e) then Report(kept, React(steps, sv.worker.value, e))
        else Stuck
    case Crash => Told(sv.(worker := None))
    case Recover =>
      if sv.worker.Some? then Impossible else Report(sv, Rebuilt(steps, input, now, sv.history))
  }

  function Tell(steps: seq<StepDef>, input: WorkflowInput, now: Time, xs: seq<Incident>): (s: Story)
    ensures s.Told? && s.service.worker.Some? ==> Placed(steps, s.service.worker.value.exec)
  {
    if xs == [] then Told(Boot(steps, input, now))
    else
      var before := Tell(steps, input, now, xs[..|xs| - 1]);
      if before.Told? then Occur(steps, input, now, before.service, xs[|xs| - 1]) else before
  }

  function Delivered(xs: seq<Incident>): seq<Event> {
    if xs == [] then []
    else Delivered(xs[..|xs| - 1]) + (match xs[|xs| - 1] case Deliver(e) => [e] case Crash => [] case Recover => [])
  }

  /** The service agrees with the crash-free worker. */
  ghost predicate Agrees(steps: seq<StepDef>, input: WorkflowInput, now: Time, sv: Service) {
    var l := After(steps, Launch(steps, input, now), sv.history);
    && l.Some?
    && sv.scheduled <= l.value.exec.issued
    && (sv.worker.Some? ==>
          && sv.scheduled == l.value.exec.issued
          && IsReplayOf(steps, Begin(steps, input, now), Replies(sv.history), Signals(sv.history), sv.worker.value))
  }

  lemma {:induction false} HistorySnoc(h: seq<Event>, e: Event)
    ensures match e
            case Replied(r) => Replies(h + [e]) == Replies(h) + [r] && Signals(h + [e]) == Signals(h)
            case Signalled(m) => Replies(h + [e]) == Replies(h) && Signals(h + [e]) == Signals(h) + [m]
  {
    assert (h + [e])[..|h|] == h;
  }

  lemma {:induction false} ReactGrows(steps: seq<StepDef>, l: Live, e: Event)
    requires Placed(steps, l.exec) && Enabled(l, e)
    ensures l.exec.issued <= React(steps, l, e).exec.issued
  {
    if e.Replied? {
      var t := OnReply(steps, l.exec, e.reply);
      assert l.exec.issued <= t.issued;
      assert t.issued <= Settle(steps, l.(exec := t)).exec.issued;
    }
  }

  /** The crash-free worker takes any event the server can record. */
  lemma {:induction false} LiveTakes(steps: seq<StepDef>, input: WorkflowInput, now: Time,
                                     h: seq<Event>, scheduled: seq<Command>, e: Event)
    requires var l := After(steps, Launch(steps, input, now), h); l.Some? && scheduled <= l.value.exec.issued
    requires e.Replied? ==> |Replies(h)| < |scheduled|
    ensures var l := After(steps, Launch(steps, input, now), h).value;
            && Enabled(l, e)
            && After(steps, Launch(steps, input, now), h + [e]) == Some(React(steps, l, e))
            && l.exec.issued <= React(steps, l, e).exec.issued
  {
    var l := After(steps, Launch(steps, input, now), h).value;
    assert Enabled(l, e) by {
      ReplayMatchesLive(steps, input, now, h);
      OutcomeOrderly(steps, input, now, Replies(h), Signals(h));
    }
    ReactGrows(steps, l, e);
    assert (h + [e])[..|h|] == h;
  }

  lemma {:induction false} DeliverAgrees(steps: seq<StepDef>, input: WorkflowInput, now: Time, sv: Service, e: Event)
    requires Agrees(steps, input, now, sv)
    requires e.Replied? ==> |Replies(sv.history)| < |sv.scheduled|
    ensures Occur(steps, input, now, sv, Deliver(e)).Told?
    ensures Agrees(steps, input, now, Occur(steps, input, now, sv, Deliver(e)).service)
  {
    LiveTakes(steps, input, now, sv.history, sv.scheduled, e);
    if sv.worker.Some? {
      var s0, w := Begin(steps, input, now), sv.worker.value;
      var l := After(steps, Launch(steps, input, now), sv.history).value;
      assert w.exec == l.exec by {
        ReplayMatchesLive(steps, input, now, sv.history);
      }
      ReactIsReplay(steps, s0, Replies(sv.history), Signals(sv.history), w, e);
      HistorySnoc(sv.history, e);
      assert React(steps, w, e).exec.issued == React(steps, l, e).exec.issued by {
        ReplayMatchesLive(steps, input, now, sv.history + [e]);
      }
    }
  }

  lemma {:induction false} RebuiltIsReplay(steps: seq<StepDef>, input: WorkflowInput, now: Time, h: seq<Event>)
    requires After(steps, Launch(steps, input, now), h).Some?
    ensures IsReplayOf(steps, Begin(steps, input, now), Replies(h), Signals(h), Rebuilt(steps, input, now, h))
  {
    ReplayMatchesLive(steps, input, now, h);
    var l := After(steps, Launch(steps, input, now), h).value;
    var ms := Signals(h);
    var t := Rebuilt(steps, input, now, h);
    forall c: string | c != ""
      ensures Taken(steps, Heard(t.exec), c) <= |Channel(ms, c)|
      ensures Box(t.boxes, c) == Channel(ms, c)[Taken(steps, Heard(t.exec), c)..]
    {
      assert Taken(steps, Heard(l.exec), c) <= |Channel(ms, c)|;
      if c !in (set m | m in ms :: m.channel) {
        NoMessages(ms, c);
      }
    }
  }

  lemma {:induction false} NoMessages(ms: seq<Message>, c: string)
    requires forall m :: m in ms ==> m.channel != c
    ensures Channel(ms, c) == []
  {
    if ms != [] {
      NoMessages(ms[..|ms| - 1], c);
    }
  }

  /** A run crashed at arbitrary points and recovered is never stuck on its own history.
      Its recorded events are those delivered; a recovered worker is in the state the
      crash-free worker is in, with the same unread signals; and while the worker is
      down the scheduled activities are the first ones of the crash-free run. So every
      activity is scheduled once, in the same order and with the same input. */
  lemma {:induction false} CrashesLeaveNoTrace(steps: seq<StepDef>, input: WorkflowInput, now: Time, xs: seq<Incident>)
    ensures var story := Tell(steps, input, now, xs);
            && story != Stuck
            && (story.Told? ==> story.service.history == Delivered(xs) && Agrees(steps, input, now, story.service))
  {
    if xs == [] {
      LaunchIsReplay(steps, input, now);
    } else {
      var before := xs[..|xs| - 1];
      CrashesLeaveNoTrace(steps, input, now, before);
      var told := Tell(steps, input, now, before);
      if told.Told? {
        var sv := told.service;
        match xs[|xs| - 1]
        case Deliver(e) =>
          if e.Replied? ==> |Replies(sv.history)| < |sv.scheduled| {
            DeliverAgrees(steps, input, now, sv, e);
          }
        case Crash =>
        case Recover =>
          ReplayMatchesLive(steps, input, now, sv.history);
          RebuiltIsReplay(steps, input, now, sv.history);
      }
    }
  }

  /** Recovery: run the workflow function from the top against the history. */
  method RecoverWorker(steps: seq<StepDef>, input: WorkflowInput, now: Time, h: seq<Event>) returns (l: Live)
    requires After(steps, Launch(steps, input, now), h).Some?
    ensures Placed(steps, l.exec)
    ensures l.exec == After(steps, Launch(steps, input, now), h).value.exec
    ensures forall c: string | c != "" ::
              Box(l.boxes, c) == Box(After(steps, Launch(steps, input, now), h).value.boxes, c)
  {
    var wf := new WorkflowContext(Replies(h), Signals(h), now);
    var s := OnboardingWorkflow(wf, steps, input);
    l := Live(s, wf.inbox);
    ReplayMatchesLive(steps, input, now, h);
    ghost var was := After(steps, Launch(steps, input, now), h).value;
    forall c: string | c != ""
      ensures Box(l.boxes, c) == Box(was.boxes, c)
    {
      assert Box(was.boxes, c) == Channel(Signals(h), c)[Taken(steps, Heard(s), c)..];
    }
  }
}
