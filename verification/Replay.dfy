/** A worker that runs the executor live, reacting to events as they arrive and
    buffering early signals, is the same as one that re-runs the executor from the top
    against the recorded history. So crashes leave no trace. */
module Replay {
  import opened Domain
  import opened Executor

  datatype Event = Replied(reply: Reply) | Signalled(message: Message)

  /** A running worker: where the executor is blocked and its unread signals. */
  datatype Live = Live(exec: Exec, boxes: map<string, seq<Message>>)

  function Box(boxes: map<string, seq<Message>>, name: string): seq<Message> {
    if name in boxes then boxes[name] else []
  }

  /** Read the signal the executor waits for, if it is already here. */
  function Settle(steps: seq<StepDef>, l: Live): (t: Live)
    requires Placed(steps, l.exec)
    ensures Placed(steps, t.exec)
  {
    if NeedsSignal(l.exec) && Box(l.boxes, steps[l.exec.index].signal) != [] then
      var name := steps[l.exec.index].signal;
      var box := Box(l.boxes, name);
      Live(OnMessage(steps, l.exec, box[0]), l.boxes[name := box[1..]])
    else
      l
  }

  /** The server only records a result for an activity that is pending. */
  predicate Enabled(l: Live, e: Event) {
    e.Replied? ==> NeedsReply(l.exec)
  }

  function React(steps: seq<StepDef>, l: Live, e: Event): (t: Live)
    requires Placed(steps, l.exec) && Enabled(l, e)
    ensures Placed(steps, t.exec)
  {
    match e
    case Replied(r) => Settle(steps, l.(exec := OnReply(steps, l.exec, r)))
    case Signalled(m) => Settle(steps, l.(boxes := l.boxes[m.channel := Box(l.boxes, m.channel) + [m]]))
  }

  function Launch(steps: seq<StepDef>, input: WorkflowInput, now: Time): (l: Live)
    ensures Placed(steps, l.exec)
  {
    Live(Begin(steps, input, now), map[])
  }

  function Replies(h: seq<Event>): seq<Reply> {
    if h == [] then []
    else Replies(h[..|h| - 1]) + (match h[|h| - 1] case Replied(r) => [r] case Signalled(_) => [])
  }

  function Signals(h: seq<Event>): seq<Message> {
    if h == [] then []
    else Signals(h[..|h| - 1]) + (match h[|h| - 1] case Signalled(m) => [m] case Replied(_) => [])
  }

  /** The worker a history leads to, or None when the history is not one that a run
      can produce. */
  function After(steps: seq<StepDef>, l0: Live, h: seq<Event>): (l: Option<Live>)
    requires Placed(steps, l0.exec)
    ensures l.Some? ==> Placed(steps, l.value.exec)
  {
    if h == [] then Some(l0)
    else
      var mid := After(steps, l0, h[..|h| - 1]);
      if mid.Some? && Enabled(mid.value, h[|h| - 1]) then Some(React(steps, mid.value, h[|h| - 1])) else None
  }

  /** How many steps have had their signal stage. */
  function Heard(s: Exec): nat {
    if s.phase.Acting? || s.phase.Emitting? then s.index + 1 else s.index
  }

  /** The boxes hold exactly the signals that the first k steps have not read. */
  ghost predicate Unread(steps: seq<StepDef>, k: nat, ms: seq<Message>, boxes: map<string, seq<Message>>)
    requires k <= |steps|
  {
    forall c: string | c != "" ::
      Taken(steps, k, c) <= |Channel(ms, c)| && Box(boxes, c) == Channel(ms, c)[Taken(steps, k, c)..]
  }

  /** The worker is the replay of the recorded results and signals, and is blocked. */
  ghost predicate IsReplayOf(steps: seq<StepDef>, s0: Exec, rs: seq<Reply>, ms: seq<Message>, l: Live)
    requires Placed(steps, s0)
  {
    && l.exec == Drive(steps, s0, rs, ms)
    && Drive(steps, l.exec, rs, ms) == l.exec
    && (l.exec.answered == |rs|)
    && (l.exec.phase.Awaiting? ==> steps[l.exec.index].signal != "")
    && Unread(steps, Heard(l.exec), ms, l.boxes)
  }

  lemma {:induction false} ChannelSnoc(ms: seq<Message>, m: Message, c: string)
    ensures Channel(ms + [m], c) == if m.channel == c then Channel(ms, c) + [m] else Channel(ms, c)
  {
    assert (ms + [m])[..|ms|] == ms;
  }

  /** Taking a result moves the run past its signal stage only where there is no signal. */
  lemma {:induction false} ReplyKeepsUnread(steps: seq<StepDef>, s: Exec, r: Reply, ms: seq<Message>,
                                            boxes: map<string, seq<Message>>)
    requires Placed(steps, s) && NeedsReply(s) && Unread(steps, Heard(s), ms, boxes)
    ensures Unread(steps, Heard(OnReply(steps, s, r)), ms, boxes)
    ensures var t := OnReply(steps, s, r); t.phase.Awaiting? ==> steps[t.index].signal != ""
  {
    var t := OnReply(steps, s, r);
    forall c: string | c != ""
      ensures Taken(steps, Heard(t), c) == Taken(steps, Heard(s), c)
    {
    }
    forall c: string | c != ""
      ensures Taken(steps, Heard(t), c) <= |Channel(ms, c)|
      ensures Box(boxes, c) == Channel(ms, c)[Taken(steps, Heard(t), c)..]
    {
      assert Taken(steps, Heard(s), c) <= |Channel(ms, c)|;
    }
  }

  /** Reading from the box and reading from the history give the same signal. */
  lemma {:induction false} SettleIsDrive(steps: seq<StepDef>, rs: seq<Reply>, ms: seq<Message>, l: Live)
    requires Placed(steps, l.exec) && Unread(steps, Heard(l.exec), ms, l.boxes)
    requires l.exec.answered == |rs|
    requires l.exec.phase.Awaiting? ==> steps[l.exec.index].signal != ""
    ensures var t := Settle(steps, l);
            && t.exec == Drive(steps, l.exec, rs, ms) == Drive(steps, t.exec, rs, ms)
            && t.exec.answered == |rs|
            && (t.exec.phase.Awaiting? ==> steps[t.exec.index].signal != "")
            && Unread(steps, Heard(t.exec), ms, t.boxes)
  {
    if NeedsSignal(l.exec) && SignalReady(steps, l.exec, ms) {
      var name := steps[l.exec.index].signal;
      var box := Box(l.boxes, name);
      var t := Settle(steps, l);
      assert t.exec == OnMessage(steps, l.exec, NextSignal(steps, l.exec, ms));
      forall c: string | c != ""
        ensures Taken(steps, Heard(t.exec), c) <= |Channel(ms, c)|
        ensures Box(t.boxes, c) == Channel(ms, c)[Taken(steps, Heard(t.exec), c)..]
      {
        assert Box(l.boxes, c) == Channel(ms, c)[Taken(steps, Heard(l.exec), c)..];
      }
    }
  }

  lemma {:induction false} ReactIsReplay(steps: seq<StepDef>, s0: Exec, rs: seq<Reply>, ms: seq<Message>, l: Live,
                                         e: Event)
    requires Placed(steps, s0) && IsReplayOf(steps, s0, rs, ms, l) && Enabled(l, e)
    ensures match e
            case Replied(r) => IsReplayOf(steps, s0, rs + [r], ms, React(steps, l, e))
            case Signalled(m) => IsReplayOf(steps, s0, rs, ms + [m], React(steps, l, e))
  {
    match e
    case Replied(r) =>
      DriveResumes(steps, s0, rs, ms, rs + [r], ms);
      ReplyKeepsUnread(steps, l.exec, r, ms, l.boxes);
      SettleIsDrive(steps, rs + [r], ms, l.(exec := OnReply(steps, l.exec, r)));
    case Signalled(m) =>
      DriveResumes(steps, s0, rs, ms, rs, ms + [m]);
      var boxes := l.boxes[m.channel := Box(l.boxes, m.channel) + [m]];
      forall c: string | c != ""
        ensures Taken(steps, Heard(l.exec), c) <= |Channel(ms + [m], c)|
        ensures Box(boxes, c) == Channel(ms + [m], c)[Taken(steps, Heard(l.exec), c)..]
      {
        ChannelSnoc(ms, m, c);
      }
      SettleIsDrive(steps, rs, ms + [m], l.(boxes := boxes));
  }

  lemma {:induction false} LaunchIsReplay(steps: seq<StepDef>, input: WorkflowInput, now: Time)
    ensures IsReplayOf(steps, Begin(steps, input, now), [], [], Launch(steps, input, now))
  {
  }

  /** For every catalog and every history a run can produce, re-running the executor
      from the top against the recorded results and signals lands in the same step,
      phase, journey, context and clock, reissues the same activities, and leaves the
      same signals unread. */
  lemma {:induction false} ReplayMatchesLive(steps: seq<StepDef>, input: WorkflowInput, now: Time, h: seq<Event>)
    requires After(steps, Launch(steps, input, now), h).Some?
    ensures IsReplayOf(steps, Begin(steps, input, now), Replies(h), Signals(h),
                       After(steps, Launch(steps, input, now), h).value)
  {
    if h == [] {
      LaunchIsReplay(steps, input, now);
    } else {
      var before, e := h[..|h| - 1], h[|h| - 1];
      ReplayMatchesLive(steps, input, now, before);
      var mid := After(steps, Launch(steps, input, now), before).value;
      ReactIsReplay(steps, Begin(steps, input, now), Replies(before), Signals(before), mid, e);
      assert e.Replied? ==> Signals(h) == Signals(before);
      assert e.Signalled? ==> Replies(h) == Replies(before);
    }
  }
}
