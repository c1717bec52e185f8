/** The cache of verticals and their questions, rebuilt as a whole on every reload. */
module Verticals {
  import opened Domain

  datatype Vertical = Vertical(name: string, description: string, tags: seq<string>)
  datatype Question = Question(key: string, text: string, kind: string, options: seq<string>)
  datatype VerticalQuestions = VerticalQuestions(verticalName: string, questions: seq<Question>)

  /** The two configuration values at a reload, parsed; the questions may be blank. */
  datatype Parsed<+T> = Bad | Empty | Good(value: seq<T>)
  datatype Config = Config(verticals: Parsed<Vertical>, questions: Parsed<VerticalQuestions>)

  datatype Snapshot = Snapshot(
    verticals: seq<Vertical>,
    byName: map<string, Vertical>,
    questions: map<string, VerticalQuestions>)

  const EMPTY := Snapshot([], map[], map[])

  /** A list indexed by key, later entries over earlier ones. */
  function Indexed<T>(xs: seq<T>, key: T -> string): map<string, T> {
    if xs == [] then map[]
    else Indexed(xs[..|xs| - 1], key)[key(xs[|xs| - 1]) := xs[|xs| - 1]]
  }

  function VerticalKey(v: Vertical): string { v.name }
  function QuestionsKey(q: VerticalQuestions): string { q.verticalName }

  function Built(verticals: seq<Vertical>, questions: seq<VerticalQuestions>): Snapshot {
    Snapshot(verticals, Indexed(verticals, VerticalKey), Indexed(questions, QuestionsKey))
  }

  function ListOf<T>(p: Parsed<T>): seq<T>
    requires !p.Bad?
  {
    if p.Good? then p.value else []
  }

  /** An index finds exactly the keys of its list, and for each the last entry. */
  ghost predicate Finds<T>(index: map<string, T>, xs: seq<T>, key: T -> string) {
    && (forall name :: name in index <==> exists i :: 0 <= i < |xs| && key(xs[i]) == name)
    && (forall name :: name in index ==> exists k :: IsLast(xs, key, name, k) && index[name] == xs[k])
  }

  /** Both values must parse; only the questions may be blank. */
  predicate Loads(c: Config) {
    c.verticals.Good? && !c.questions.Bad?
  }

  function Reloaded(s: Snapshot, c: Config): Snapshot {
    if Loads(c) then Built(c.verticals.value, ListOf(c.questions)) else s
  }

  /** The snapshot after a sequence of reloads, failed ones included. */
  function AfterReloads(configs: seq<Config>): Snapshot {
    if configs == [] then EMPTY
    else Reloaded(AfterReloads(configs[..|configs| - 1]), configs[|configs| - 1])
  }

  class VerticalCache {
    var snap: Snapshot
    var misses: nat

    constructor ()
      ensures snap == EMPTY && misses == 0
    {
      snap, misses := EMPTY, 0;
    }

    /** Build both indexes, then swap the whole snapshot. */
    method Replace(verticals: seq<Vertical>, questions: seq<VerticalQuestions>)
      modifies this`snap
      ensures snap == Built(verticals, questions)
      ensures snap.verticals == verticals
      ensures Finds(snap.byName, verticals, VerticalKey) && Finds(snap.questions, questions, QuestionsKey)
    {
      var byName: map<string, Vertical> := map[];
      for k := 0 to |verticals|
        invariant byName == Indexed(verticals[..k], VerticalKey)
      {
        assert verticals[..k + 1][..k] == verticals[..k];
        byName := byName[verticals[k].name := verticals[k]];
      }
      var byVertical: map<string, VerticalQuestions> := map[];
      for k := 0 to |questions|
        invariant byVertical == Indexed(questions[..k], QuestionsKey)
      {
        assert questions[..k + 1][..k] == questions[..k];
        byVertical := byVertical[questions[k].verticalName := questions[k]];
      }
      assert verticals[..|verticals|] == verticals && questions[..|questions|] == questions;
      IndexFinds(verticals, VerticalKey);
      IndexFinds(questions, QuestionsKey);
      snap := Snapshot(verticals, byName, byVertical);
    }

    /** A reload that does not parse keeps the previous snapshot. */
    method Reload(c: Config) returns (ok: bool)
      modifies this`snap
      ensures ok <==> Loads(c)
      ensures snap == Reloaded(old(snap), c)
    {
      if !c.verticals.Good? {
        return false;
      }
      var questions: seq<VerticalQuestions> := [];
      if !c.questions.Empty? {
        if c.questions.Bad? {
          return false;
        }
        questions := c.questions.value;
      }
      Replace(c.verticals.value, questions);
      ok := true;
    }

    method Find(name: string) returns (found: Option<Vertical>)
      modifies this`misses
      ensures found == if name in snap.byName then Some(snap.byName[name]) else None
      ensures misses == old(misses) + if found == None then 1 else 0
    {
      found := if name in snap.byName then Some(snap.byName[name]) else None;
      if found == None {
        misses := misses + 1;
      }
    }

    method Questions(name: string) returns (found: Option<VerticalQuestions>)
      modifies this`misses
      ensures found == if name in snap.questions then Some(snap.questions[name]) else None
      ensures misses == old(misses) + if found == None then 1 else 0
    {
      found := if name in snap.questions then Some(snap.questions[name]) else None;
      if found == None {
        misses := misses + 1;
      }
    }
  }

  /** The k-th entry is the last with this key. */
  predicate IsLast<T>(xs: seq<T>, key: T -> string, name: string, k: int) {
    0 <= k < |xs| && key(xs[k]) == name && forall j :: k < j < |xs| ==> key(xs[j]) != name
  }

  /** An index finds exactly the keys of its list, and for each the last entry. */
  lemma {:induction false} IndexFindsLast<T>(xs: seq<T>, key: T -> string, name: string)
    ensures name in Indexed(xs, key) <==> exists i :: 0 <= i < |xs| && key(xs[i]) == name
    ensures name in Indexed(xs, key) ==> exists k :: IsLast(xs, key, name, k) && Indexed(xs, key)[name] == xs[k]
  {
    if xs != [] {
      var rest, n := xs[..|xs| - 1], |xs| - 1;
      IndexFindsLast(rest, key, name);
      if key(xs[n]) == name {
        assert IsLast(xs, key, name, n);
      } else if name in Indexed(rest, key) {
        var k :| IsLast(rest, key, name, k) && Indexed(rest, key)[name] == rest[k];
        assert IsLast(xs, key, name, k) && xs[k] == rest[k];
      }
    }
  }

  lemma {:induction false} IndexFinds<T>(xs: seq<T>, key: T -> string)
    ensures Finds(Indexed(xs, key), xs, key)
  {
    forall name: string
      ensures name in Indexed(xs, key) <==> exists i :: 0 <= i < |xs| && key(xs[i]) == name
      ensures name in Indexed(xs, key) ==> exists k :: IsLast(xs, key, name, k) && Indexed(xs, key)[name] == xs[k]
    {
      IndexFindsLast(xs, key, name);
    }
  }

  /** The list, the index and the questions all come from the last reload that parsed. */
  lemma {:induction false} SnapshotIsOneReload(configs: seq<Config>)
    ensures var s := AfterReloads(configs);
            || (s == EMPTY && forall i :: 0 <= i < |configs| ==> !Loads(configs[i]))
            || exists k :: && 0 <= k < |configs| && Loads(configs[k])
                           && s == Built(configs[k].verticals.value, ListOf(configs[k].questions))
                           && forall i :: k < i < |configs| ==> !Loads(configs[i])
  {
    if configs != [] {
      var n := |configs| - 1;
      var before := configs[..n];
      SnapshotIsOneReload(before);
      if Loads(configs[n]) {
        assert AfterReloads(configs) == Built(configs[n].verticals.value, ListOf(configs[n].questions));
      } else if k :| && 0 <= k < |before| && Loads(before[k])
                     && AfterReloads(before) == Built(before[k].verticals.value, ListOf(before[k].questions))
                     && forall i :: k < i < |before| ==> !Loads(before[i]) {
        assert configs[k] == before[k];
        forall i | k < i < |configs|
          ensures !Loads(configs[i])
        {
          if i < n {
            assert configs[i] == before[i];
          }
        }
      } else {
        forall i | 0 <= i < |configs|
          ensures !Loads(configs[i])
        {
          if i < n {
            assert configs[i] == before[i];
          }
        }
      }
    }
  }

  /** The k-th reload is the last whose verticals parsed and whose questions parsed or were
      blank. */
  predicate LastGood(configs: seq<Config>, k: int) {
    && 0 <= k < |configs| && configs[k].verticals.Good? && configs[k].questions != Bad
    && forall i :: k < i < |configs| ==> !configs[i].verticals.Good? || configs[i].questions == Bad
  }

  lemma {:induction false} LastGoodIsShown(configs: seq<Config>, k: nat)
    requires LastGood(configs, k)
    ensures var questions := if configs[k].questions == Empty then [] else configs[k].questions.value;
            AfterReloads(configs)
            == Snapshot(configs[k].verticals.value, Indexed(configs[k].verticals.value, VerticalKey),
                        Indexed(questions, QuestionsKey))
  {
    var n := |configs| - 1;
    if k < n {
      assert forall i :: k <= i < n ==> configs[..n][i] == configs[i];
      LastGoodIsShown(configs[..n], k);
    }
  }

  /** After any reloads, failed ones included, the list of verticals is that of the last
      good one, and a vertical is found exactly when that list has its name, as its last
      entry of the name. */
  lemma {:induction false} LookupAgreesWithList(configs: seq<Config>, k: nat, name: string)
    requires LastGood(configs, k)
    ensures var s, vs := AfterReloads(configs), configs[k].verticals.value;
            && s.verticals == vs
            && (name in s.byName <==> exists i :: 0 <= i < |vs| && vs[i].name == name)
            && (name in s.byName ==>
                  exists i :: && 0 <= i < |vs| && vs[i].name == name && s.byName[name] == vs[i]
                              && forall j :: i < j < |vs| ==> vs[j].name != name)
  {
    LastGoodIsShown(configs, k);
    var vs := configs[k].verticals.value;
    IndexFindsLast(vs, VerticalKey, name);
    if i :| 0 <= i < |vs| && vs[i].name == name {
      assert VerticalKey(vs[i]) == name;
    }
    var index := Indexed(vs, VerticalKey);
    if i :| IsLast(vs, VerticalKey, name, i) && name in index && index[name] == vs[i] {
      assert forall j :: i < j < |vs| ==> VerticalKey(vs[j]) == vs[j].name;
    }
  }

  /** The same of the questions; none are found when that reload's were blank. */
  lemma {:induction false} QuestionsAgreeWithList(configs: seq<Config>, k: nat, name: string)
    requires LastGood(configs, k)
    ensures configs[k].questions == Empty ==> name !in AfterReloads(configs).questions
    ensures configs[k].questions != Empty ==>
              var s, qs := AfterReloads(configs), configs[k].questions.value;
              && (name in s.questions <==> exists i :: 0 <= i < |qs| && qs[i].verticalName == name)
              && (name in s.questions ==>
                    exists i :: && 0 <= i < |qs| && qs[i].verticalName == name && s.questions[name] == qs[i]
                                && forall j :: i < j < |qs| ==> qs[j].verticalName != name)
  {
    LastGoodIsShown(configs, k);
    if configs[k].questions != Empty {
      var qs := configs[k].questions.value;
      IndexFindsLast(qs, QuestionsKey, name);
      if i :| 0 <= i < |qs| && qs[i].verticalName == name {
        assert QuestionsKey(qs[i]) == name;
      }
      var index := Indexed(qs, QuestionsKey);
      if i :| IsLast(qs, QuestionsKey, name, i) && name in index && index[name] == qs[i] {
        assert forall j :: i < j < |qs| ==> QuestionsKey(qs[j]) == qs[j].verticalName;
      }
    }
  }

  /** Until a reload is good nothing is found. */
  lemma {:induction false} NothingBeforeTheFirst(configs: seq<Config>, name: string)
    requires forall k :: 0 <= k < |configs| ==> !configs[k].verticals.Good? || configs[k].questions == Bad
    ensures var s := AfterReloads(configs); s.verticals == [] && name !in s.byName && name !in s.questions
  {
    if configs != [] {
      NothingBeforeTheFirst(configs[..|configs| - 1], name);
    }
  }
}
