/** The service as shipped, with catalog version 1 alone: every promise that depends on
    the catalog holds of it. */
module Shipped {
  import opened Domain
  import opened Catalog
  import opened ReadModel
  import opened Faults
  import opened Provisioning
  import opened Auth0
  import opened Server
  import opened Gate
  import opened System
  import opened Safety
  import opened Guarantees
  import opened Walks
  import opened Naming
  import opened Completion
  import opened Stranding
  import opened Delivery
  import opened Inputs

  const SHIPPED: Versions := map[CATALOG_VERSION := V1]

  /** A state that moves without a deployment lead to from the shipped start. */
  ghost predicate Reachable(s: Sys, moves: seq<Move>, t: Sys) {
    Initial(s) && s.catalog == SHIPPED && Plays(s, moves, t) && NoDeploys(moves)
  }

  lemma {:induction false} ShippedRuns(s: Sys, moves: seq<Move>, t: Sys, user: string)
    requires Reachable(s, moves, t)
    ensures Inv(t) && t.catalog == SHIPPED
    ensures user in t.runs ==> StepsOf(t.catalog, t.runs[user]) == V1
  {
    AlwaysInv(s, moves, t);
    CatalogStays(s, moves, t);
    if user in t.runs {
      RunFacts(t, user);
      RunIsOrderly(t.catalog, user, t.runs[user]);
    }
  }

  /** No record is falsely completed: a completed one lists all four resources, and each
      exists. */
  lemma {:induction false} ShippedCompletion(s: Sys, moves: seq<Move>, t: Sys, org: string, r: Resource)
    requires Reachable(s, moves, t) && org in t.world.recs && t.world.recs[org].completed
    ensures KeyOf(r) in t.world.recs[org].resources && Provisioned(t.world.vendors, r, org)
  {
    ShippedRuns(s, moves, t, "");
    V1CompletesLast();
    CompletedMeansProvisioned(s, moves, t, org, r);
  }

  /** While the internal endpoint records only verified emails, the organisation is made
      with the name and acceptance of one validated signal; and each signal is read by
      the step it names, or by none. */
  lemma {:induction false} ShippedSignals(s: Sys, moves: seq<Move>, t: Sys, user: string, k: nat)
    requires Reachable(s, moves, t) && user in t.runs && k < |t.runs[user].live.exec.issued|
    ensures var c := t.runs[user].live.exec.issued[k];
            && (c.Act? ==> c.action in RegisteredActions)
            && (OnlyVerifies(moves) && c.Act? && c.action == CREATE_ORGANISATION ==>
                  HasText(c.input.displayName) && HasText(c.input.tncAccepted))
    ensures forall x :: x in ReceiptsOf(t.catalog, t.runs[user]) && x.message.channel != "" ==>
              x.step < |V1| && V1[x.step].name == x.message.channel
  {
    ShippedRuns(s, moves, t, user);
    V1IsSound();
    V1Asks();
    ActionsAreRegistered(t, user, k);
    SignalsReachTheirStep(t, user);
    var c := t.runs[user].live.exec.issued[k];
    if OnlyVerifies(moves) && c.Act? && c.action == CREATE_ORGANISATION {
      ValidatedInputReachesAction(s, moves, t, user, k);
    }
  }

  /** A request that reads no stored journey, or a completed one, sends nothing. */
  lemma {:induction false} ShippedGate(s: Sys, moves: seq<Move>, t: Sys, id: nat)
    requires Reachable(s, moves, t) && id in t.tickets
    ensures VerdictOf(t, t.tickets[id]).Send? ==>
              && t.tickets[id].doc.Some? && t.tickets[id].doc.value.journey.status == InProgress
              && t.tickets[id].doc.value.journey.version == CATALOG_VERSION
              && |t.tickets[id].doc.value.journey.steps| < |V1|
              && t.tickets[id].step == V1[|t.tickets[id].doc.value.journey.steps|].name
  {
    ShippedRuns(s, moves, t, "");
    if VerdictOf(t, t.tickets[id]).Send? {
      SendsAreDue(t, id);
      assert TicketOk(t.catalog, t.tickets[id]);
    }
  }

  lemma {:induction false} ShippedIsLatest()
    ensures CATALOG_VERSION in SHIPPED && Steps(SHIPPED, Latest(SHIPPED)) == V1
  {
    OnlyVersion(V1);
  }

  /** The organisation step is the first and only one, and awaits its own signal. */
  lemma {:induction false} ShippedNames()
    ensures FirstCreates(V1, 2) && NameArrives(V1, 2) && WellNamed(V1, 9)
  {
    V1Actions();
    assert V1[2].signal == V1[2].name && V1[2].signal != "" && !Marked(V1, 2);
  }

  /** No play at all of the shipped version ends in a false completion, */
  lemma {:induction false} ShippedNeverGoesFalse()
    ensures !CanGoFalse(SHIPPED)
  {
    ShippedIsLatest();
    V1IsSound();
    V1CompletesLast();
    FalseCompletionExactly(SHIPPED);
  }

  /** while some play completes the record of a named organisation, which then lists all
      four resources. */
  lemma {:induction false} ShippedCompletes() returns (t: Sys, org: string)
    ensures Reaches(Newborn(SHIPPED), t) && org != "" && org in t.world.recs && t.world.recs[org].completed
    ensures forall r: Resource :: KeyOf(r) in t.world.recs[org].resources
  {
    ShippedIsLatest();
    ShippedNames();
    V1IsSound();
    V1CompletesLast();
    V1Actions();
    t, org := TrueCompletionIsReached(SHIPPED, V1, 9);
  }

  /** And a single crash of a worker strands a user of the shipped version. */
  lemma {:induction false} ShippedStrands() returns (s: Sys, t: Sys, u: string)
    ensures Reaches(Newborn(SHIPPED), s) && OrgsOf(s.world.tenant, u) == {} && Homes(s, t, u, Crashed, false)
    ensures Reaches(s, t) && Inv(t) && Abandoned(t, u)
  {
    ShippedIsLatest();
    ShippedNames();
    V1IsSound();
    s, t, u := CrashStrands(SHIPPED, V1, 2);
  }
}
