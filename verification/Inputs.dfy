/** The input of the organisation step: what the action is called with is what the
    endpoint's validator accepted. */
module Inputs {
  import opened Domain
  import opened Catalog
  import opened Executor
  import opened Replay
  import opened Faults
  import opened Flights
  import opened Crashes
  import opened Delivery
  import opened Server
  import opened Gate
  import opened System
  import opened Safety
  import opened Guarantees

  /** Every step that creates an organisation waits on that step's own signal. */
  predicate OrganisationAsks(steps: seq<StepDef>) {
    forall s :: s in steps && s.action == CREATE_ORGANISATION ==> s.signal == ORGANISATION_CREATED
  }

  /** Every signal of the organisation step carries an input the validator accepts. */
  predicate AcceptedOnly(ms: seq<Message>) {
    forall m :: m in ms && m.channel == ORGANISATION_CREATED ==> ValidOrganisation(m.payload)
  }

  /** The display name and the acceptance of terms are those of one accepted signal. */
  predicate CarriedBy(input: ActionInput, m: Message) {
    && m.channel == ORGANISATION_CREATED && ValidOrganisation(m.payload)
    && input.displayName == m.payload.displayName && input.tncAccepted == m.payload.tncAccepted
  }

  predicate Carries(c: Command, ms: seq<Message>) {
    c.Act? && c.action == CREATE_ORGANISATION ==> exists m :: m in ms && CarriedBy(c.input, m)
  }

  predicate AllCarry(issued: seq<Command>, ms: seq<Message>) {
    forall k :: 0 <= k < |issued| ==> Carries(issued[k], ms)
  }

  lemma {:induction false} ReplyCarries(steps: seq<StepDef>, s: Exec, r: Reply, ms: seq<Message>)
    requires Placed(steps, s) && NeedsReply(s) && OrganisationAsks(steps) && AllCarry(s.issued, ms)
    ensures AllCarry(OnReply(steps, s, r).issued, ms)
  {
    if s.phase.Persisting? {
      assert steps[s.index] in steps;
    }
  }

  lemma {:induction false} MessageCarries(steps: seq<StepDef>, s: Exec, m: Message, ms: seq<Message>)
    requires Placed(steps, s) && NeedsSignal(s) && OrganisationAsks(steps) && AllCarry(s.issued, ms)
    requires m in ms && m.channel == steps[s.index].signal && AcceptedOnly(ms)
    ensures AllCarry(OnMessage(steps, s, m).issued, ms)
  {
    var t := OnMessage(steps, s, m);
    if steps[s.index].action == CREATE_ORGANISATION {
      assert steps[s.index] in steps;
      assert CarriedBy(t.issued[|s.issued|].input, m);
    }
  }

  /** Whatever the other signals carry. */
  lemma {:induction false} DriveCarries(steps: seq<StepDef>, s: Exec, rs: seq<Reply>, ms: seq<Message>)
    requires Placed(steps, s) && OrganisationAsks(steps) && AllCarry(s.issued, ms) && AcceptedOnly(ms)
    ensures AllCarry(Drive(steps, s, rs, ms).issued, ms)
    decreases if s.answered < |rs| then |rs| - s.answered else 0, if s.phase.Awaiting? then 1 else 0
  {
    if NeedsReply(s) && s.answered < |rs| {
      ReplyCarries(steps, s, rs[s.answered], ms);
      DriveCarries(steps, OnReply(steps, s, rs[s.answered]), rs, ms);
    } else if NeedsSignal(s) && SignalReady(steps, s, ms) {
      var m := NextSignal(steps, s, ms);
      ChannelSelects(ms, steps[s.index].signal);
      assert m in Channel(ms, steps[s.index].signal);
      MessageCarries(steps, s, m, ms);
      DriveCarries(steps, OnMessage(steps, s, m), rs, ms);
    }
  }

  /** The internal endpoint records nothing but verified emails. */
  predicate OnlyVerifies(moves: seq<Move>) {
    forall m :: m in moves && m.RecordStep? ==> m.step == EMAIL_VERIFIED
  }

  ghost predicate InputsAccepted(s: Sys) {
    forall u :: u in s.runs ==> AcceptedOnly(Signals(s.runs[u].history))
  }

  lemma {:induction false} ChannelsDiffer()
    ensures EMAIL_VERIFIED != ORGANISATION_CREATED
  {
    assert EMAIL_VERIFIED[0] == 'E' && ORGANISATION_CREATED[0] == 'O';
  }

  lemma {:induction false} SignalKeepsAccepted(s: Sys, u: string, channel: string, p: Payload)
    requires Runnable(s.catalog, s.runs) && InputsAccepted(s)
    requires channel == ORGANISATION_CREATED ==> ValidOrganisation(p)
    ensures InputsAccepted(AfterSignal(s, u, channel, p))
  {
    var t := AfterSignal(s, u, channel, p);
    forall v | v in t.runs
      ensures AcceptedOnly(Signals(t.runs[v].history))
    {
      SignalIsAppended(s, u, channel, p, v);
      HistorySnoc(s.runs[v].history, Event.Signalled(Message(channel, p, s.now)));
      assert AcceptedOnly(Signals(s.runs[v].history));
    }
  }

  lemma {:induction false} AdvancedAddsNoSignal(c: Versions, run: Run, stage: Stage, now: Time)
    requires Placed(StepsOf(c, run), run.live.exec) && Flying(run)
    ensures Signals(Advanced(c, run, stage, now).history) == Signals(run.history)
  {
    if stage.Over? {
      var r := stage.result;
      HistorySnoc(run.history, Replied(if r.Done? then Success(r.value.orgId, r.value.email, now) else Failure(now)));
    }
  }

  lemma {:induction false} ProceedKeepsAccepted(s: Sys, u: string)
    requires Runnable(s.catalog, s.runs) && Can(s, Proceed(u)) && InputsAccepted(s)
    ensures InputsAccepted(AfterProceed(s, u))
  {
    FlightAfter(s, u);
    AdvancedAddsNoSignal(s.catalog, s.runs[u], Call(s.world, s.runs[u].flight.value).1, s.now);
    assert AcceptedOnly(Signals(s.runs[u].history));
  }

  lemma {:induction false} NextKeepsAccepted(s: Sys, m: Move)
    requires Runnable(s.catalog, s.runs) && Can(s, m) && InputsAccepted(s)
    requires m.RecordStep? ==> m.step == EMAIL_VERIFIED
    ensures InputsAccepted(Next(s, m))
  {
    ChannelsDiffer();
    match m
    case Tick(_) =>
    case Deploy(_) =>
    case Reload(_) =>
    case StartRun(_) =>
    case VerifyEmail(u) => SignalKeepsAccepted(s, u, EMAIL_VERIFIED, NO_PAYLOAD);
    case RecordStep(u, step) =>
      SignalKeepsAccepted(s.(runs := WithRun(s.catalog, s.runs, u, s.now)), u, step, NO_PAYLOAD);
    case ReadState(_, _, _, _) =>
    case Conclude(id) =>
      var v := VerdictOf(s, s.tickets[id]);
      if v.Send? {
        SignalKeepsAccepted(s, s.tickets[id].user, s.tickets[id].step, v.payload);
      }
    case Depart(_, _) =>
    case Proceed(u) => ProceedKeepsAccepted(s, u);
  }

  lemma {:induction false} AlwaysAccepted(s: Sys, moves: seq<Move>, t: Sys)
    requires Initial(s) && Plays(s, moves, t) && OnlyVerifies(moves)
    ensures InputsAccepted(t)
    decreases |moves|
  {
    if moves != [] {
      var mid: Sys :|
        && Plays(s, moves[..|moves| - 1], mid) && Runnable(mid.catalog, mid.runs)
        && Can(mid, moves[|moves| - 1]) && t == Next(mid, moves[|moves| - 1]);
      AlwaysAccepted(s, moves[..|moves| - 1], mid);
      NextKeepsAccepted(mid, moves[|moves| - 1]);
    }
  }

  lemma {:induction false} V1Asks()
    ensures OrganisationAsks(V1)
  {
    V1Actions();
  }

  lemma {:induction false} RunCarries(c: Versions, u: string, run: Run)
    requires Faithful(c, u, run) && OrganisationAsks(StepsOf(c, run)) && AcceptedOnly(Signals(run.history))
    ensures AllCarry(run.live.exec.issued, Signals(run.history))
  {
    var steps := StepsOf(c, run);
    ReplayMatchesLive(steps, run.input, run.started, run.history);
    assert AllCarry(Begin(steps, run.input, run.started).issued, Signals(run.history));
    DriveCarries(steps, Begin(steps, run.input, run.started), Replies(run.history), Signals(run.history));
  }

  /** In every reachable state, as long as the internal endpoint records only verified
      emails, each call that creates an organisation carries the display name and the
      acceptance of terms of one recorded signal whose input the validator accepted,
      so neither is blank, whatever other steps' inputs carried. */
  lemma {:induction false} ValidatedInputReachesAction(s: Sys, moves: seq<Move>, t: Sys, user: string, k: nat)
    requires Initial(s) && Plays(s, moves, t) && OnlyVerifies(moves)
    requires user in t.runs && OrganisationAsks(StepsOf(t.catalog, t.runs[user]))
    requires k < |t.runs[user].live.exec.issued|
    requires var c := t.runs[user].live.exec.issued[k]; c.Act? && c.action == CREATE_ORGANISATION
    ensures var input := t.runs[user].live.exec.issued[k].input;
            && HasText(input.displayName) && HasText(input.tncAccepted)
            && exists m :: m in Signals(t.runs[user].history) && CarriedBy(input, m)
  {
    AlwaysInv(s, moves, t);
    AlwaysAccepted(s, moves, t);
    var run := t.runs[user];
    assert RunSound(t.catalog, t.world, user, run);
    RunCarries(t.catalog, user, run);
    assert Carries(run.live.exec.issued[k], Signals(run.history));
    BlankHasNoText(run.live.exec.issued[k].input.displayName);
    BlankHasNoText(run.live.exec.issued[k].input.tncAccepted);
  }
}
