/** A crash between making the organisation and storing its id, played out from a service
    that nobody has come to yet. */
module Stranding {
  import opened Domain
  import opened Catalog
  import opened Executor
  import opened Replay
  import opened Faults
  import opened Auth0
  import opened Activities
  import opened Attempts
  import opened System
  import opened Safety
  import opened Guarantees
  import opened Walks
  import opened Naming
  import opened Completion

  /** Every call answers but the one that stores the id, which finds its worker dead. */
  ghost predicate Crashes(plan: Plan) {
    plan.letters == {} && plan.At(SET_ORG) == CrashBefore && forall k: nat :: k != SET_ORG ==> plan.At(k).Fine?
  }

  lemma {:induction false} CrashingPlan(t: Tenant) returns (plan: Plan)
    ensures Crashes(plan) && CanMint(t, plan.orgId)
  {
    var org := FreshOrg(t);
    plan := Plan([Fine, Fine, Fine, Fine, Fine, Fine, Fine, CrashBefore], {}, org, "", "");
  }

  lemma {:induction false} CrashStrandsWorld(w: World, input: ActionInput, plan: Plan, now: Time)
    requires Consistent(w) && OrgsOf(w.tenant, input.userId) == {} && Good(input.displayName)
    requires Crashes(plan) && CanMint(w.tenant, plan.orgId)
    ensures var (w', r) := Attempt(w, Act(CREATE_ORGANISATION, input), plan, now);
            r == Crashed && Stranded(w', input.userId)
  {
    StoredIdIsHeld(w, input.userId);
    StrandsExactlyWhen(w, input, plan, now);
  }

  /** A run that has come to an organisation step asks for it with a good name. */
  lemma {:induction false} AsksWithName(s: Sys, u: string, steps: seq<StepDef>, f: nat, goal: Goal)
    requires f < |steps| && steps[f].action == CREATE_ORGANISATION
    requires There(s, u, Target(f, true)) && Walking(s, u, steps, Target(f, true), goal)
    ensures Busy(s.runs[u]) && Good(s.runs[u].live.exec.ctx.displayName)
    ensures Pending(s.runs[u].live.exec) == Act(CREATE_ORGANISATION, InputOf(s.runs[u].live.exec))
    ensures InputOf(s.runs[u].live.exec).userId == u
  {
    RunFacts(s, u);
    var run := s.runs[u];
    PendingIs(steps, FreshJourney(run.input, run.started), run.live.exec);
    assert !Coming(steps, run.live, Heard(run.live.exec), f);
  }

  lemma {:induction false} CrashedHome(s: Sys, t: Sys, u: string)
    requires Homes(s, t, u, Crashed, false) && s.runs[u].live.exec.phase.Acting? && Stranded(t.world, u)
    ensures Abandoned(t, u)
  {
  }

  /** In a service whose first organisation step can get a name, a user with no
      organisation has one made, the worker dies before its id is stored, and the user is
      stranded for good. */
  lemma {:induction false} CrashStrands(c: Versions, steps: seq<StepDef>, f: nat) returns (s: Sys, t: Sys, u: string)
    requires CATALOG_VERSION in c && steps == Steps(c, Latest(c)) && Registered(steps, RegisteredActions)
    requires FirstCreates(steps, f) && NameArrives(steps, f)
    ensures Reaches(Newborn(c), s) && OrgsOf(s.world.tenant, u) == {} && Homes(s, t, u, Crashed, false)
    ensures Reaches(s, t) && Inv(t) && Abandoned(t, u)
  {
    ActionsDiffer();
    u := "u";
    var to := Target(f, true);
    NewbornIsSound(c, u);
    OrglessWay(steps, u, f);
    s := ComeNamed(Newborn(c), u, steps, to, Orgless(u));
    AsksWithName(s, u, steps, f, Orgless(u));
    var plan := CrashingPlan(s.world.tenant);
    CrashStrandsWorld(s.world, InputOf(s.runs[u].live.exec), plan, s.now);
    t := Serve(s, u, plan);
    CrashedHome(s, t, u);
  }

  lemma {:induction false} OrglessWay(steps: seq<StepDef>, u: string, f: nat)
    requires FirstCreates(steps, f) && Registered(steps, RegisteredActions)
    ensures Way(Orgless(u), steps, Target(f, true)) && WellNamed(steps, f)
  {
    ActionsDiffer();
    forall k | 0 <= k < f
      ensures Passable(Orgless(u), steps, k)
    {
      assert steps[k] in steps;
    }
    UnorganisedIsWellNamed(steps, f);
  }
}
