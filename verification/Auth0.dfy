/** The Auth0 tenant, reduced to organisations and memberships, and the service's
    organisation creator. */
module Auth0 {
  import opened Faults

  /** Pairs are (org, user). `minted` holds every id ever handed out. */
  datatype Tenant = Tenant(orgs: set<string>, members: set<(string, string)>, owners: set<(string, string)>,
                           minted: set<string>)

  /** Auth0 hands out ids that are not empty and never seen before. */
  predicate CanMint(t: Tenant, org: string) {
    org != "" && org !in t.minted
  }

  function OrgsOf(t: Tenant, user: string): set<string> {
    set m | m in t.members && m.1 == user :: m.0
  }

  function Created(t: Tenant, org: string, f: Fault): Tenant {
    if f.Lands() then t.(orgs := t.orgs + {org}, minted := t.minted + {org}) else t
  }

  function Joined(t: Tenant, org: string, user: string, f: Fault): Tenant {
    if f.Lands() then t.(members := t.members + {(org, user)}) else t
  }

  function Owned(t: Tenant, org: string, user: string, f: Fault): Tenant {
    if f.Lands() then t.(owners := t.owners + {(org, user)}) else t
  }

  /** Deleting an organisation ends its memberships. */
  function Deleted(t: Tenant, org: string, f: Fault): Tenant {
    if f.Lands() then
      t.(orgs := t.orgs - {org},
         members := (set m | m in t.members && m.0 != org),
         owners := (set m | m in t.owners && m.0 != org))
    else t
  }

  class Auth0Client {
    var tenant: Tenant

    constructor (tenant: Tenant)
      ensures this.tenant == tenant
    {
      this.tenant := tenant;
    }

    method UserOrgs(user: string, f: Fault) returns (r: Result<set<string>>)
      ensures r == if f.Fine? then Done(OrgsOf(tenant, user)) else Stop(f)
    {
      r := if f.Fine? then Done(OrgsOf(tenant, user)) else Stop(f);
    }

    method CreateOrg(org: string, f: Fault) returns (r: Result<string>)
      modifies this
      ensures tenant == Created(old(tenant), org, f) && r == if f.Fine? then Done(org) else Stop(f)
    {
      tenant := Created(tenant, org, f);
      r := if f.Fine? then Done(org) else Stop(f);
    }

    method AddMember(org: string, user: string, f: Fault) returns (r: Result<()>)
      modifies this
      ensures tenant == Joined(old(tenant), org, user, f) && r == if f.Fine? then Done(()) else Stop(f)
    {
      tenant := Joined(tenant, org, user, f);
      r := if f.Fine? then Done(()) else Stop(f);
    }

    method AddOwnerRole(org: string, user: string, f: Fault) returns (r: Result<()>)
      modifies this
      ensures tenant == Owned(old(tenant), org, user, f) && r == if f.Fine? then Done(()) else Stop(f)
    {
      tenant := Owned(tenant, org, user, f);
      r := if f.Fine? then Done(()) else Stop(f);
    }

    method DeleteOrg(org: string, f: Fault) returns (r: Result<()>)
      modifies this
      ensures tenant == Deleted(old(tenant), org, f) && r == if f.Fine? then Done(()) else Stop(f)
    {
      tenant := Deleted(tenant, org, f);
      r := if f.Fine? then Done(()) else Stop(f);
    }
  }

  /** Positions of the creator's calls in a plan. */
  const TOKEN := 1
  const LIST := 2
  const CREATE := 3
  const MEMBER := 4
  const ROLE := 5
  const DELETE := 6

  /** Cleanup after a failed membership call: a crash skips it, and its own failure is
      ignored. */
  function CleanUp(t: Tenant, plan: Plan, f: Fault): (Tenant, Result<string>) {
    if f.Kills() then (t, Crashed)
    else (Deleted(t, plan.orgId, plan.At(DELETE)), if plan.At(DELETE).Kills() then Crashed else Erred)
  }

  predicate IsAlphanumeric(c: char, letters: set<char>) {
    '0' <= c <= '9' || 'A' <= c <= 'Z' || 'a' <= c <= 'z' || (c > '\U{7F}' && c in letters)
  }

  /** The name rule: 2 to 100 characters, letters and digits with spaces, underscores and
      dashes between them. */
  predicate ValidDisplayName(name: string, letters: set<char>) {
    && 2 <= |name| <= 100
    && IsAlphanumeric(name[0], letters) && IsAlphanumeric(name[|name| - 1], letters)
    && forall c :: c in name ==> IsAlphanumeric(c, letters) || c in " _-"
  }

  function CreateOrgSpec(t: Tenant, user: string, name: string, plan: Plan): (Tenant, Result<string>) {
    if !ValidDisplayName(name, plan.letters) then (t, Erred)
    else if !plan.At(TOKEN).Fine? then (t, Stop(plan.At(TOKEN)))
    else if !plan.At(LIST).Fine? then (t, Stop(plan.At(LIST)))
    else if OrgsOf(t, user) != {} then (t, Erred)
    else
      var t1 := Created(t, plan.orgId, plan.At(CREATE));
      if !plan.At(CREATE).Fine? then (t1, Stop(plan.At(CREATE)))
      else
        var t2 := Joined(t1, plan.orgId, user, plan.At(MEMBER));
        if !plan.At(MEMBER).Fine? then CleanUp(t2, plan, plan.At(MEMBER))
        else
          var t3 := Owned(t2, plan.orgId, user, plan.At(ROLE));
          if !plan.At(ROLE).Fine? then CleanUp(t3, plan, plan.At(ROLE))
          else (t3, Done(plan.orgId))
  }

  class HTTPOrgCreator {
    const client: Auth0Client

    constructor (client: Auth0Client)
      ensures this.client == client
    {
      this.client := client;
    }

    method CreateOrganisation(user: string, name: string, plan: Plan) returns (r: Result<string>)
      modifies client
      ensures (client.tenant, r) == CreateOrgSpec(old(client.tenant), user, name, plan)
    {
      if !ValidDisplayName(name, plan.letters) {
        return Erred;
      }
      if !plan.At(TOKEN).Fine? {
        return Stop(plan.At(TOKEN));
      }
      var owns := client.UserOrgs(user, plan.At(LIST));
      if !owns.Done? {
        return if owns.Crashed? then Crashed else Erred;
      }
      if owns.value != {} {
        return Erred;
      }
      var created := client.CreateOrg(plan.orgId, plan.At(CREATE));
      if !created.Done? {
        return created;
      }
      var added := AddUserToOrg(created.value, user, plan);
      if added.Crashed? {
        return Crashed;
      }
      if added.Erred? {
        var cleaned := client.DeleteOrg(created.value, plan.At(DELETE));
        return if cleaned.Crashed? then Crashed else Erred;
      }
      r := created;
    }

    method AddUserToOrg(org: string, user: string, plan: Plan) returns (r: Result<()>)
      modifies client
      ensures var t2 := Joined(old(client.tenant), org, user, plan.At(MEMBER));
              if !plan.At(MEMBER).Fine? then client.tenant == t2 && r == Stop(plan.At(MEMBER))
              else client.tenant == Owned(t2, org, user, plan.At(ROLE))
                   && r == if plan.At(ROLE).Fine? then Done(()) else Stop(plan.At(ROLE))
    {
      r := client.AddMember(org, user, plan.At(MEMBER));
      if !r.Done? {
        return;
      }
      r := client.AddOwnerRole(org, user, plan.At(ROLE));
    }
  }

  const DIGITS := "0123456789"
  const CAPITALS := "ABCDEFGHIJKLMNOPQRSTUVWXYZ"
  const SMALL_LETTERS := "abcdefghijklmnopqrstuvwxyz"

  /** A letter or digit, of ASCII or of the rest of Unicode. */
  predicate LetterOrDigit(c: char, letters: set<char>) {
    c in DIGITS || c in CAPITALS || c in SMALL_LETTERS || (128 <= c as int && c in letters)
  }

  lemma {:induction false} RunIsListed(s: string, low: char, c: char)
    requires forall i :: 0 <= i < |s| ==> s[i] as int == low as int + i
    ensures c in s <==> low as int <= c as int < low as int + |s|
  {
    if low as int <= c as int < low as int + |s| {
      assert s[c as int - low as int] == c;
    }
  }

  lemma {:induction false} AlphanumericsAreListed(c: char, letters: set<char>)
    ensures IsAlphanumeric(c, letters) <==> LetterOrDigit(c, letters)
  {
    RunIsListed(DIGITS, '0', c);
    RunIsListed(CAPITALS, 'A', c);
    RunIsListed(SMALL_LETTERS, 'a', c);
  }

  /** name is first, then mid, then last, as the name rule's expression reads it. */
  predicate Reads(name: string, first: char, mid: string, last: char, letters: set<char>) {
    && name == [first] + mid + [last] && |mid| <= 98
    && LetterOrDigit(first, letters) && LetterOrDigit(last, letters)
    && forall c :: c in mid ==> LetterOrDigit(c, letters) || c == ' ' || c == '_' || c == '-'
  }

  lemma {:induction false} InnerIsListed(name: string, letters: set<char>, c: char)
    requires ValidDisplayName(name, letters) && c in name
    ensures LetterOrDigit(c, letters) || c == ' ' || c == '_' || c == '-'
  {
    AlphanumericsAreListed(c, letters);
    SeparatorsAreListed(c);
  }

  lemma {:induction false} EndsAreListed(name: string, letters: set<char>)
    requires ValidDisplayName(name, letters)
    ensures LetterOrDigit(name[0], letters) && LetterOrDigit(name[|name| - 1], letters)
  {
    AlphanumericsAreListed(name[0], letters);
    AlphanumericsAreListed(name[|name| - 1], letters);
  }

  lemma {:induction false} ValidNameReads(name: string, letters: set<char>)
    requires ValidDisplayName(name, letters)
    ensures Reads(name, name[0], name[1..|name| - 1], name[|name| - 1], letters)
  {
    var mid := name[1..|name| - 1];
    EndsAreListed(name, letters);
    forall c | c in mid
      ensures LetterOrDigit(c, letters) || c == ' ' || c == '_' || c == '-'
    {
      InnerIsListed(name, letters, c);
    }
    assert name == [name[0]] + mid + [name[|name| - 1]];
  }

  lemma {:induction false} SeparatorsAreListed(c: char)
    ensures c in " _-" <==> c == ' ' || c == '_' || c == '-'
  {
    assert " _-"[0] == ' ' && " _-"[1] == '_' && " _-"[2] == '-';
  }

  lemma {:induction false} ReadNameIsValid(name: string, first: char, mid: string, last: char, letters: set<char>)
    requires Reads(name, first, mid, last, letters)
    ensures ValidDisplayName(name, letters)
  {
    assert name[0] == first && name[|name| - 1] == last;
    forall c | c in name
      ensures IsAlphanumeric(c, letters) || c in " _-"
      ensures c == first || c == last ==> IsAlphanumeric(c, letters)
    {
      AlphanumericsAreListed(c, letters);
      assert c == first || c in mid || c == last;
    }
  }

  /** The names accepted are those that match the rule's regular expression. */
  lemma {:induction false} NameRuleIsExpression(name: string, letters: set<char>)
    ensures ValidDisplayName(name, letters) <==> exists first, mid, last :: Reads(name, first, mid, last, letters)
  {
    if ValidDisplayName(name, letters) {
      ValidNameReads(name, letters);
    } else if first, mid, last :| Reads(name, first, mid, last, letters) {
      ReadNameIsValid(name, first, mid, last, letters);
    }
  }

  /** Memberships name ids that were minted, owners are members, and every user is in at
      most one org. */
  predicate OneOrgEach(t: Tenant) {
    && (forall m :: m in t.owners ==> m in t.members)
    && (forall m :: m in t.members ==> m.0 in t.minted)
    && (forall o :: o in t.orgs ==> o in t.minted)
    && (forall m, n :: m in t.members && n in t.members && m.1 == n.1 ==> m == n)
  }

  /** org exists and the user is its member and owner. */
  predicate Holds(t: Tenant, org: string, user: string) {
    org in t.orgs && (org, user) in t.members && (org, user) in t.owners
  }

  /** Whatever fails or crashes in an attempt, and whether or not the cleanup works,
      every user is in at most one organisation; organisations made before the attempt
      keep their members and owners; no other user's memberships change; and an
      attempt that answers has made the caller member and owner of a new organisation. */
  lemma {:induction false} CreateOrgIsSafe(t: Tenant, user: string, name: string, plan: Plan)
    requires OneOrgEach(t) && CanMint(t, plan.orgId)
    ensures var (t', r) := CreateOrgSpec(t, user, name, plan);
            && OneOrgEach(t')
            && t.minted <= t'.minted <= t.minted + {plan.orgId}
            && (forall o, u :: Holds(t, o, u) ==> Holds(t', o, u))
            && (forall m :: m in t'.members ==> m in t.members || m == (plan.orgId, user))
            && (forall m :: m in t.members ==> m in t'.members)
            && (r.Done? ==> r.value == plan.orgId && Holds(t', plan.orgId, user))
            && (r.Done? || t'.members != t.members ==> OrgsOf(t, user) == {})
  {
    var (t', r) := CreateOrgSpec(t, user, name, plan);
    assert forall m | m in t.members && m.1 == user :: m.0 in OrgsOf(t, user);
  }

  /** An attempt that does not answer leaves the tenant as it was, but for the spent id,
      exactly when it leaves no new organisation behind; and it leaves one exactly when
      the creation took effect and no cleanup did: it failed or crashed after its effect,
      or a later call crashed, or the cleanup failed. */
  lemma {:induction false} CleanupRestores(t: Tenant, user: string, name: string, plan: Plan)
    requires OneOrgEach(t) && CanMint(t, plan.orgId) && !CreateOrgSpec(t, user, name, plan).1.Done?
    ensures var t' := CreateOrgSpec(t, user, name, plan).0;
            && (plan.orgId !in t'.orgs <==> t' == t.(minted := t'.minted))
            && (plan.orgId in t'.orgs <==>
                  && ValidDisplayName(name, plan.letters)
                  && plan.At(TOKEN).Fine? && plan.At(LIST).Fine? && OrgsOf(t, user) == {}
                  && plan.At(CREATE).Lands()
                  && var late := if plan.At(MEMBER).Fine? then plan.At(ROLE) else plan.At(MEMBER);
                     plan.At(CREATE).Fine? ==> late.Kills() || !plan.At(DELETE).Lands())
  {
    assert forall m :: m in t.members ==> m.0 != plan.orgId;
  }
}
