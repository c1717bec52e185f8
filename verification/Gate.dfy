/** The step endpoint: what it answers from the journey it reads, and when it signals. */
module Gate {
  import opened Domain
  import opened Catalog
  import opened Faults
  import opened Stores
  import opened Server
  import Verticals

  /** The request's opaque input: fields that may be absent, or text that does not
      decode. */
  datatype Body =
    | Malformed
    | Input(displayName: Option<string>, verticalName: Option<string>, tncAccepted: Option<string>)

  function OrEmpty(x: Option<string>): string {
    if x.Some? then x.value else ""
  }

  function PayloadOf(b: Body): Payload
    requires b.Input?
  {
    Payload(OrEmpty(b.displayName), OrEmpty(b.verticalName), OrEmpty(b.tncAccepted))
  }

  /** Unicode white space. */
  predicate IsSpace(c: char) {
    || '\t' <= c <= '\r' || c == ' ' || c == '\U{85}' || c == '\U{A0}' || c == '\U{1680}'
    || '\U{2000}' <= c <= '\U{200A}' || c == '\U{2028}' || c == '\U{2029}' || c == '\U{202F}'
    || c == '\U{205F}' || c == '\U{3000}'
  }

  /** Nothing is left of the string once white space is trimmed. */
  predicate Blank(s: string) {
    forall c :: c in s ==> IsSpace(c)
  }

  /** The characters of Unicode's White_Space property. */
  const WHITE_SPACE := "\t\n\U{0B}\U{0C}\r \U{85}\U{A0}\U{1680}\U{2000}\U{2001}\U{2002}\U{2003}\U{2004}\U{2005}" +
                       "\U{2006}\U{2007}\U{2008}\U{2009}\U{200A}\U{2028}\U{2029}\U{202F}\U{205F}\U{3000}"

  /** Some character of the string is no white space. */
  predicate HasText(s: string) {
    exists c :: c in s && c !in WHITE_SPACE
  }

  lemma {:induction false} SpacesAreListed(c: char)
    ensures IsSpace(c) <==> c in WHITE_SPACE
  {
    assert |WHITE_SPACE| == 25;
    assert c in WHITE_SPACE <==> exists i :: 0 <= i < 25 && WHITE_SPACE[i] == c;
  }

  lemma {:induction false} BlankHasNoText(s: string)
    ensures Blank(s) <==> !HasText(s)
  {
    forall c | c in s
      ensures IsSpace(c) <==> c in WHITE_SPACE
    {
      SpacesAreListed(c);
    }
  }

  predicate ValidOrganisation(p: Payload) {
    !Blank(p.displayName) && !Blank(p.tncAccepted)
  }

  predicate ValidVertical(p: Payload, verticals: set<string>) {
    !Blank(p.verticalName) && p.verticalName in verticals
  }

  /** The validator registry: two steps have validators, the others take any input. */
  predicate Validates(step: string, p: Payload, verticals: set<string>) {
    if step == ORGANISATION_CREATED then ValidOrganisation(p)
    else if step == VERTICAL_SELECTED then ValidVertical(p, verticals)
    else true
  }

  /** The journey shown to a user: the stored one, or the first step. */
  ghost function StateOf(c: Versions, doc: Option<Doc>, user: string): Journey {
    if doc.Some? then doc.value.journey
    else Journey(user, "", FirstStep(c), InProgress, "", 0, [], 0, None)
  }

  predicate StepCompleted(j: Journey, step: string) {
    exists x :: x in j.steps && x.name == step && x.status == Completed
  }

  datatype Verdict = NoChange | NotCurrent | BadRequest | Send(payload: Payload)

  /** The endpoint's decision, from the journey read at the start of the request. */
  function Decide(c: Versions, verticals: set<string>, j: Journey, step: string, body: Body): Verdict {
    if j.status == Completed || StepCompleted(j, step) then NoChange
    else if !StepInCatalog(c, j.version, step) || step != j.currentStep then NotCurrent
    else if body.Malformed? || !Validates(step, PayloadOf(body), verticals) then BadRequest
    else Send(PayloadOf(body))
  }

  class OnboardingService {
    const journeys: JourneyRepo
    const cache: CatalogCache

    constructor (journeys: JourneyRepo, cache: CatalogCache)
      ensures this.journeys == journeys && this.cache == cache
    {
      this.journeys, this.cache := journeys, cache;
    }

    /** The stored journey, or a synthetic one at the first step. */
    method GetState(user: string, order: seq<int>, f: Fault) returns (r: Result<Journey>)
      requires Ranges(order, cache.versions)
      ensures r == if !f.Fine? then Stop(f)
                   else Done(StateOf(cache.versions,
                                     if user in journeys.docs then Some(journeys.docs[user]) else None, user))
    {
      var found := journeys.FindByUserID(user, f);
      if !found.Done? {
        return if found.Crashed? then Crashed else Erred;
      }
      if found.value.Some? {
        return Done(found.value.value.journey);
      }
      var latest := cache.LatestVersion(order);
      var steps := Steps(cache.versions, latest);
      var first := if |steps| == 0 then V1[0].name else steps[0].name;
      r := Done(Journey(user, "", first, InProgress, "", 0, [], 0, None));
    }
  }

  class ValidatorRegistry {
    const verticals: Verticals.VerticalCache

    constructor (verticals: Verticals.VerticalCache)
      ensures this.verticals == verticals
    {
      this.verticals := verticals;
    }

    ghost function Known(): set<string>
      reads verticals`snap
    {
      verticals.snap.byName.Keys
    }

    method Validate(step: string, p: Payload) returns (ok: bool)
      modifies verticals`misses
      ensures ok <==> Validates(step, p, Known())
      ensures ok <==>
                && (step == ORGANISATION_CREATED ==> HasText(p.displayName) && HasText(p.tncAccepted))
                && (step == VERTICAL_SELECTED ==> HasText(p.verticalName) && p.verticalName in Known())
    {
      BlankHasNoText(p.displayName);
      BlankHasNoText(p.tncAccepted);
      BlankHasNoText(p.verticalName);
      if step == ORGANISATION_CREATED {
        ok := !Blank(p.displayName) && !Blank(p.tncAccepted);
      } else if step == VERTICAL_SELECTED {
        if Blank(p.verticalName) {
          return false;
        }
        var found := verticals.Find(p.verticalName);
        ok := found.Some?;
      } else {
        ok := true;
      }
    }
  }

  datatype Response = State(currentStep: string, status: Status) | Conflict | Rejected | ServerError

  class OnboardingController {
    const svc: OnboardingService
    const starter: Starter
    const validators: ValidatorRegistry

    constructor (svc: OnboardingService, starter: Starter, validators: ValidatorRegistry)
      ensures this.svc == svc && this.starter == starter && this.validators == validators
    {
      this.svc, this.starter, this.validators := svc, starter, validators;
    }

    method WriteState(user: string, order: seq<int>, f: Fault) returns (r: Response)
      requires Ranges(order, svc.cache.versions)
      ensures var doc := if user in svc.journeys.docs then Some(svc.journeys.docs[user]) else None;
              var j := StateOf(svc.cache.versions, doc, user);
              r == if f.Fine? then State(j.currentStep, j.status) else ServerError
    {
      var j := svc.GetState(user, order, f);
      r := if j.Done? then State(j.value.currentStep, j.value.status) else ServerError;
    }

    /** Search the journey's summary for the step. */
    method FindCompleted(j: Journey, step: string) returns (found: bool)
      ensures found <==> StepCompleted(j, step)
    {
      for k := 0 to |j.steps|
        invariant forall i :: 0 <= i < k ==> !(j.steps[i].name == step && j.steps[i].status == Completed)
      {
        if j.steps[k].name == step && j.steps[k].status == Completed {
          return true;
        }
      }
      found := false;
    }

    /** The journey to answer from. */
    ghost function Shown(user: string): Journey
      reads svc.journeys
    {
      StateOf(svc.cache.versions, if user in svc.journeys.docs then Some(svc.journeys.docs[user]) else None, user)
    }

    ghost function Reply(user: string, f: Fault): Response
      reads svc.journeys
    {
      if f.Fine? then State(Shown(user).currentStep, Shown(user).status) else ServerError
    }

    /** The end of an advance: signal, then answer with a second read. */
    method SendAndAnswer(user: string, step: string, p: Payload, now: Time, order: seq<int>, send: Fault, again: Fault)
      returns (r: Response)
      requires svc.cache == starter.cache && Ranges(order, svc.cache.versions)
      requires Runnable(starter.cache.versions, starter.client.runs)
      modifies starter.client
      ensures var c, runs := svc.cache.versions, old(starter.client.runs);
              && starter.client.runs
                == (if send.Lands() then Signalling(c, runs, user, Message(step, p, now)) else runs)
              && r == if send.Fine? && IsOpen(runs, user) then Reply(user, again) else ServerError
    {
      var sent := starter.SignalStep(user, step, p, now, send);
      if !sent {
        return ServerError;
      }
      r := WriteState(user, order, again);
    }

    /** What follows once the journey is known neither to be completed nor to record the
        step. */
    method AdvanceCurrent(journey: Journey, user: string, step: string, body: Body, now: Time, order: seq<int>,
                          send: Fault, again: Fault) returns (r: Response)
      requires svc.cache == starter.cache && Ranges(order, svc.cache.versions)
      requires Runnable(starter.cache.versions, starter.client.runs)
      requires journey.status == InProgress && !StepCompleted(journey, step)
      modifies starter.client, validators.verticals`misses
      ensures var c, runs := svc.cache.versions, old(starter.client.runs);
              var v := Decide(c, validators.Known(), journey, step, body);
              && (!v.Send? ==> starter.client.runs == runs && r == if v.NotCurrent? then Response.Conflict
                else Rejected)
              && (v.Send? ==>
                    && starter.client.runs
                       == (if send.Lands() then Signalling(c, runs, user, Message(step, v.payload, now)) else runs)
                    && r == if send.Fine? && IsOpen(runs, user) then Reply(user, again) else ServerError)
    {
      if !StepInCatalog(svc.cache.versions, journey.version, step) || step != journey.currentStep {
        return Response.Conflict;
      }
      if body.Malformed? {
        return Rejected;
      }
      var valid := validators.Validate(step, PayloadOf(body));
      if !valid {
        return Rejected;
      }
      r := SendAndAnswer(user, step, PayloadOf(body), now, order, send, again);
    }

    /** Advance a step: read, decide, signal the step's own channel if the decision is
        to send, and answer with a second read. Nothing else changes. */
    method AdvanceStep(user: string, step: string, body: Body, now: Time, order: seq<int>,
                       read: Fault, send: Fault, again: Fault) returns (r: Response)
      requires svc.cache == starter.cache && Ranges(order, svc.cache.versions)
      requires Runnable(starter.cache.versions, starter.client.runs)
      modifies starter.client, validators.verticals`misses
      ensures var c := svc.cache.versions;
              var runs := old(starter.client.runs);
              if !read.Fine? then starter.client.runs == runs && r == ServerError
              else
                match Decide(c, validators.Known(), Shown(user), step, body)
                case NoChange => starter.client.runs == runs && r == Reply(user, again)
                case NotCurrent => starter.client.runs == runs && r == Response.Conflict
                case BadRequest => starter.client.runs == runs && r == Rejected
                case Send(p) =>
                  && starter.client.runs
                    == (if send.Lands() then Signalling(c, runs, user, Message(step, p, now)) else runs)
                  && r == if send.Fine? && IsOpen(runs, user) then Reply(user, again) else ServerError
      ensures user in svc.journeys.docs && svc.journeys.docs[user].journey.status == Completed && read.Fine? ==>
                && starter.client.runs == old(starter.client.runs)
                && r == if again.Fine? then State(svc.journeys.docs[user].journey.currentStep, Completed)
                  else ServerError
    {
      var got := svc.GetState(user, order, read);
      if !got.Done? {
        return ServerError;
      }
      var journey := got.value;
      var done := journey.status == Completed;
      if !done {
        done := FindCompleted(journey, step);
      }
      if done {
        r := WriteState(user, order, again);
        return;
      }
      r := AdvanceCurrent(journey, user, step, body, now, order, send, again);
    }

    /** The journey entry point: start if absent, signal a verified email, answer with
        the state. Between its two calls the server moves on to `between`, where the run
        may have closed. */
    method StartAndReturnState(user: string, emailVerified: bool, now: Time, order: seq<int>, between: Runs,
                               start: Fault, signal: Fault, read: Fault) returns (r: Response)
      requires svc.cache == starter.cache && Ranges(order, svc.cache.versions)
      requires Runnable(starter.cache.versions, starter.client.runs) && Runnable(starter.cache.versions, between)
      modifies starter.client
      ensures var c := svc.cache.versions;
              var runs := old(starter.client.runs);
              var m := Message(EMAIL_VERIFIED, NO_PAYLOAD, now);
              if !start.Fine? || !emailVerified then
                && starter.client.runs == (if start.Lands() then WithRun(c, runs, user, now) else runs)
                && r == if start.Fine? then Reply(user, read) else ServerError
              else
                && starter.client.runs == (if signal.Lands() then Signalling(c, between, user, m) else between)
                && r == if signal.Fine? && IsOpen(between, user) then Reply(user, read) else ServerError
    {
      var started := starter.Start(user, now, order, start);
      if !started {
        return ServerError;
      }
      if emailVerified {
        starter.client.MoveOn(between);
        var sent := starter.SignalEmailVerified(user, now, signal);
        if !sent {
          return ServerError;
        }
      }
      r := WriteState(user, order, read);
    }
  }

  /** For a user with no journey the endpoint sends exactly when the catalog has a version
      0 that lists the first step of the latest version, the request names that step,
      and its input passes. No shipped catalog has a version 0, and without one every
      request is out of order. */
  lemma {:induction false} AbsentJourneySends(c: Versions, verticals: set<string>, user: string, step: string,
                                              body: Body)
    ensures Decide(c, verticals, StateOf(c, None, user), step, body).Send? <==>
              && StepInCatalog(c, 0, FirstStep(c)) && step == FirstStep(c)
              && body.Input? && Validates(step, PayloadOf(body), verticals)
    ensures 0 !in c ==> Decide(c, verticals, StateOf(c, None, user), step, body) == NotCurrent
  {
  }

  /** A user with no journey is shown the first step of the latest version, in progress. */
  lemma {:induction false} AbsentJourneyIsAtTheFirst(c: Versions, user: string)
    ensures var j, steps := StateOf(c, None, user), Steps(c, Latest(c));
            && j.status == InProgress && j.steps == [] && j.orgId == ""
            && j.currentStep == if steps == [] then "USER_SIGNED_UP" else steps[0].name
  {
  }

  /** A completed journey is left alone, whatever step the request names and whatever it
      carries. */
  lemma {:induction false} CompletedIsLeftAlone(c: Versions, verticals: set<string>, j: Journey, step: string,
                                                body: Body)
    requires j.status == Completed
    ensures Decide(c, verticals, j, step, body) == NoChange
  {
  }

  /** What a request must carry to be let through at the step the user stands at. */
  predicate Accepts(step: string, body: Body, verticals: set<string>) {
    && body.Input?
    && (step == "ORGANISATION_CREATED" ==> Says(body.displayName) && Says(body.tncAccepted))
    && (step == "VERTICAL_SELECTED" ==> Says(body.verticalName) && body.verticalName.value in verticals)
  }

  predicate Says(x: Option<string>) {
    x.Some? && HasText(x.value)
  }

  lemma {:induction false} AcceptedIsValid(step: string, body: Body, verticals: set<string>)
    ensures Accepts(step, body, verticals) <==> body.Input? && Validates(step, PayloadOf(body), verticals)
  {
    if body.Input? {
      BlankHasNoText(OrEmpty(body.displayName));
      BlankHasNoText(OrEmpty(body.tncAccepted));
      BlankHasNoText(OrEmpty(body.verticalName));
    }
  }
}
