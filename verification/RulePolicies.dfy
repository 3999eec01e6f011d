/** One access policy per rule, made from whatever policies the account holds
  * (backend/internal/netbird/client.go). */
module RulePolicies {
  import opened Text
  import opened Netbird

  /** The policies under one name prefix, between two groups. */
  datatype Plan = Plan(prefix: string, source: Id, destination: Id)

  predicate HasPrefix(s: string, prefix: string) { prefix <= s }

  /** Ours to change: named "<prefix> <something>". */
  predicate Owned(plan: Plan, name: string) { HasPrefix(name, plan.prefix + " ") }

  function NameOf(plan: Plan, i: nat): string { plan.prefix + " " + Itoa(i + 1) }

  function Body(plan: Plan, rules: seq<PolicyRule>, i: nat): Policy
    requires i < |rules|
  {
    Policy(NameOf(plan, i), [Access({plan.source}, {plan.destination}, false, rules[i])])
  }

  // ---- what policies let through ---------------------------------------------

  ghost predicate AccessAdmits(a: Access, source: Id, destination: Id, f: Flow) {
    && ((source in a.sources && destination in a.destinations)
        || (a.bidirectional && destination in a.sources && source in a.destinations))
    && RuleAdmits(a.what, f)
  }

  ghost predicate PolicyAdmits(plan: Plan, p: Policy, f: Flow) {
    exists i :: 0 <= i < |p.rules| && AccessAdmits(p.rules[i], plan.source, plan.destination, f)
  }

  /** What the owned policies let through from the source to the destination. */
  ghost predicate OwnedAdmit(plan: Plan, ps: map<Id, Policy>, f: Flow) {
    exists id :: id in ps && Owned(plan, ps[id].name) && PolicyAdmits(plan, ps[id], f)
  }

  ghost predicate UniqueNames(plan: Plan, ps: map<Id, Policy>) {
    forall a, b :: a in ps && b in ps && a != b && Owned(plan, ps[a].name) ==> ps[a].name != ps[b].name
  }

  // ---- the states on the way -------------------------------------------------

  ghost predicate IsBody(plan: Plan, rules: seq<PolicyRule>, n: nat, p: Policy)
    requires n <= |rules|
  {
    exists k :: 0 <= k < n && p == Body(plan, rules, k)
  }

  /** Every policy is one from before, or one of the first n wanted ones; the
    * foreign ones are all there, as they were. */
  ghost predicate Between(plan: Plan, rules: seq<PolicyRule>, n: nat, before: map<Id, Policy>, ps: map<Id, Policy>)
    requires n <= |rules|
  {
    && (forall id :: id in ps ==> (id in before && ps[id] == before[id]) || IsBody(plan, rules, n, ps[id]))
    && (forall id :: id in before && !Owned(plan, before[id].name) ==> id in ps && ps[id] == before[id])
  }

  lemma {:induction false} NameOwned(plan: Plan, i: nat)
    ensures Owned(plan, NameOf(plan, i))
  {
  }

  lemma {:induction false} NameInjective(plan: Plan, i: nat, j: nat)
    requires NameOf(plan, i) == NameOf(plan, j)
    ensures i == j
  {
    var p := plan.prefix + " ";
    assert NameOf(plan, i)[|p|..] == Itoa(i + 1) && NameOf(plan, j)[|p|..] == Itoa(j + 1);
    ItoaInjective(i + 1, j + 1);
  }

  lemma {:induction false} BodyAdmits(plan: Plan, rules: seq<PolicyRule>, i: nat, f: Flow)
    requires i < |rules|
    ensures PolicyAdmits(plan, Body(plan, rules, i), f) <==> RuleAdmits(rules[i], f)
  {
    var p := Body(plan, rules, i);
    assert p.rules[0].what == rules[i];
    if RuleAdmits(rules[i], f) {
      assert AccessAdmits(p.rules[0], plan.source, plan.destination, f);
    }
  }

  /** On the way, nothing is let through that neither the old policies nor the new
    * rules let through. */
  lemma {:induction false} BetweenAdmits(plan: Plan, rules: seq<PolicyRule>, n: nat, before: map<Id, Policy>,
          ps: map<Id, Policy>, f: Flow)
    requires n <= |rules| && Between(plan, rules, n, before, ps)
    requires OwnedAdmit(plan, ps, f)
    ensures OwnedAdmit(plan, before, f) || RulesAdmit(rules, f)
  {
    var id :| id in ps && Owned(plan, ps[id].name) && PolicyAdmits(plan, ps[id], f);
    if IsBody(plan, rules, n, ps[id]) {
      var k :| 0 <= k < n && ps[id] == Body(plan, rules, k);
      BodyAdmits(plan, rules, k, f);
    } else {
      assert id in before && before[id] == ps[id];
    }
  }

  /** A wanted policy lets nothing through the other way. */
  lemma {:induction false} NothingBack(plan: Plan, rules: seq<PolicyRule>, i: nat, f: Flow)
    requires i < |rules| && plan.source != plan.destination
    ensures !PolicyAdmits(Plan(plan.prefix, plan.destination, plan.source), Body(plan, rules, i), f)
    ensures Body(plan, rules, i).name == plan.prefix + " " + Itoa(i + 1)
  {
  }

  ghost predicate Carried(plan: Plan, rules: seq<PolicyRule>, k: nat, ps: map<Id, Policy>)
    requires k < |rules|
  {
    exists id :: id in ps && ps[id] == Body(plan, rules, k)
  }

  /** Where a finished run leaves the account: the foreign policies as they were,
    * the owned ones those of the rules; and, when names were unique, nothing else
    * under a wanted name. */
  ghost predicate Settled(plan: Plan, rules: seq<PolicyRule>, before: map<Id, Policy>, ps: map<Id, Policy>) {
    && Between(plan, rules, |rules|, before, ps)
    && (forall k :: 0 <= k < |rules| ==> Carried(plan, rules, k, ps))
    && (forall id :: id in ps && Owned(plan, ps[id].name)
                     ==> exists k :: 0 <= k < |rules| && ps[id].name == NameOf(plan, k))
  }

  /** With unique names the owned policies are then exactly one per rule. */
  lemma {:induction false} SettledIsExact(plan: Plan, rules: seq<PolicyRule>, before: map<Id, Policy>, ps: map<Id,
          Policy>)
    requires Settled(plan, rules, before, ps) && UniqueNames(plan, ps)
    ensures forall id :: id in ps && Owned(plan, ps[id].name) ==> IsBody(plan, rules, |rules|, ps[id])
  {
    forall id | id in ps && Owned(plan, ps[id].name) ensures IsBody(plan, rules, |rules|, ps[id]) {
      var k :| 0 <= k < |rules| && ps[id].name == NameOf(plan, k);
      assert Carried(plan, rules, k, ps);
      var other :| other in ps && ps[other] == Body(plan, rules, k);
      assert other == id;
    }
  }

  /** And admit exactly what the rules admit. */
  lemma {:induction false} SettledAdmits(plan: Plan, rules: seq<PolicyRule>, before: map<Id, Policy>, ps: map<Id,
          Policy>, f: Flow)
    requires Settled(plan, rules, before, ps) && UniqueNames(plan, ps)
    ensures OwnedAdmit(plan, ps, f) <==> RulesAdmit(rules, f)
  {
    SettledIsExact(plan, rules, before, ps);
    if OwnedAdmit(plan, ps, f) {
      var id :| id in ps && Owned(plan, ps[id].name) && PolicyAdmits(plan, ps[id], f);
      var k :| 0 <= k < |rules| && ps[id] == Body(plan, rules, k);
      BodyAdmits(plan, rules, k, f);
    }
    if RulesAdmit(rules, f) {
      var k :| 0 <= k < |rules| && RuleAdmits(rules[k], f);
      assert Carried(plan, rules, k, ps);
      var id :| id in ps && ps[id] == Body(plan, rules, k);
      BodyAdmits(plan, rules, k, f);
      NameOwned(plan, k);
    }
  }

  // ---- the calls -------------------------------------------------------------

  /** What every state from the n-th call on is like, compared with `before`: only
    * policies have changed, and those as Between says. */
  ghost predicate Kept(plan: Plan, rules: seq<PolicyRule>, before: State, s: State) {
    && WellFormed(s)
    && s == before.(policies := s.policies, nextId := s.nextId)
    && Between(plan, rules, |rules|, before.policies, s.policies)
    && (UniqueNames(plan, before.policies) ==> UniqueNames(plan, s.policies))
  }

  ghost predicate AllKept(plan: Plan, rules: seq<PolicyRule>, before: State, past: seq<State>, n: nat) {
    forall i :: n <= i < |past| ==> Kept(plan, rules, before, past[i])
  }

  lemma {:induction false} DropKeeps(plan: Plan, rules: seq<PolicyRule>, before: State, s: State, id: Id)
    requires Kept(plan, rules, before, s) && id in s.policies && Owned(plan, s.policies[id].name)
    ensures Kept(plan, rules, before, DropPolicy(s, id))
  {
    var s' := DropPolicy(s, id);
    forall a | a in s'.policies
      ensures (a in before.policies && s'.policies[a] == before.policies[a])
              || IsBody(plan, rules, |rules|, s'.policies[a])
    {
      assert s'.policies[a] == s.policies[a];
    }
  }

  lemma {:induction false} KeptStep(plan: Plan, rules: seq<PolicyRule>, before: State, past: seq<State>, n: nat,
          s: State)
    requires AllKept(plan, rules, before, past, n) && Kept(plan, rules, before, s)
    ensures AllKept(plan, rules, before, past + [s], n)
  {
  }

  method DropOne(nb: Account, plan: Plan, id: Id, ghost rules: seq<PolicyRule>, ghost before: State) returns (ok: bool)
    requires Kept(plan, rules, before, nb.now)
    requires id in nb.now.policies ==> Owned(plan, nb.now.policies[id].name)
    modifies nb
    ensures nb.failures >= old(nb.failures) && (ok <==> nb.failures == old(nb.failures))
    ensures nb.past == old(nb.past) + [nb.now] && Kept(plan, rules, before, nb.now)
    ensures nb.now == old(nb.now) || nb.now == DropPolicy(old(nb.now), id)
    ensures ok ==> nb.now == DropPolicy(old(nb.now), id)
  {
    if id in nb.now.policies {
      DropKeeps(plan, rules, before, nb.now, id);
    } else {
      assert DropPolicy(nb.now, id) == nb.now;
    }
    ok := nb.Do(DropPolicy(nb.now, id));
  }

  /** While the i-th listed policy is next: of those before it the owned ones are gone but
    * those to keep. */
  ghost predicate Deleting(plan: Plan, keep: set<string>, listed: map<Id, Policy>, ids: seq<Id>, i: nat,
          ps: map<Id, Policy>)
    requires i <= |ids| && forall id :: id in ids ==> id in listed
  {
    && (forall id :: id in ps ==> id in listed && ps[id] == listed[id])
    && (forall id :: id in listed && (listed[id].name in keep || !Owned(plan, listed[id].name)) ==> id in ps)
    && (forall j :: 0 <= j < i && ids[j] in ps && Owned(plan, listed[ids[j]].name) ==> listed[ids[j]].name in keep)
  }

  lemma {:induction false} DeletingNext(plan: Plan, keep: set<string>, listed: map<Id, Policy>, ids: seq<Id>, i: nat,
          ps: map<Id, Policy>)
    requires i < |ids| && Lists(ids, listed) && Deleting(plan, keep, listed, ids, i, ps)
    ensures var name := listed[ids[i]].name;
            if Owned(plan, name) && name !in keep then Deleting(plan, keep, listed, ids, i + 1, ps - {ids[i]})
            else Deleting(plan, keep, listed, ids, i + 1, ps)
  {
  }

  /** DeletePoliciesWithPrefix: everything owned goes but the names to keep. */
  method DeletePoliciesWithPrefix(nb: Account, plan: Plan, keep: set<string>, ghost rules: seq<PolicyRule>,
          ghost before: State) returns (ok: bool)
    requires Kept(plan, rules, before, nb.now)
    requires forall k :: 0 <= k < |rules| ==> NameOf(plan, k) in keep
    modifies nb
    ensures nb.failures >= old(nb.failures) && (ok <==> nb.failures == old(nb.failures))
    ensures old(nb.past) <= nb.past && AllKept(plan, rules, before, nb.past, |old(nb.past)|)
    ensures Kept(plan, rules, before, nb.now)
    ensures nb.now == old(nb.now).(policies := nb.now.policies)
    ensures forall id :: id in nb.now.policies
                         ==> id in old(nb.now.policies) && nb.now.policies[id] == old(nb.now.policies[id])
    ensures forall id :: id in old(nb.now.policies)
                         && (old(nb.now.policies[id]).name in keep || !Owned(plan, old(nb.now.policies[id]).name))
                         ==> id in nb.now.policies
    ensures ok ==> forall id :: id in nb.now.policies && Owned(plan, nb.now.policies[id].name)
                                ==> nb.now.policies[id].name in keep
  {
    var listed := nb.now.policies;
    var ids;
    ok, ids := nb.List(listed);
    if !ok {
      return;
    }
    for i := 0 to |ids|
      invariant nb.failures == old(nb.failures)
      invariant old(nb.past) <= nb.past && AllKept(plan, rules, before, nb.past, |old(nb.past)|)
      invariant Kept(plan, rules, before, nb.now) && nb.now == old(nb.now).(policies := nb.now.policies)
      invariant Deleting(plan, keep, listed, ids, i, nb.now.policies)
    {
      var name := listed[ids[i]].name;
      DeletingNext(plan, keep, listed, ids, i, nb.now.policies);
      if Owned(plan, name) && name !in keep {
        ghost var past := nb.past;
        ok := DropOne(nb, plan, ids[i], rules, before);
        KeptStep(plan, rules, before, past, |old(nb.past)|, nb.now);
        if !ok {
          return;
        }
      }
    }
    ok := true;
  }

  // ---- writing the wanted policies -------------------------------------------

  lemma {:induction false} BetweenMore(plan: Plan, rules: seq<PolicyRule>, m: nat, n: nat, before: map<Id, Policy>,
          ps: map<Id, Policy>)
    requires m <= n <= |rules| && Between(plan, rules, m, before, ps)
    ensures Between(plan, rules, n, before, ps)
  {
    forall id | id in ps ensures (id in before && ps[id] == before[id]) || IsBody(plan, rules, n, ps[id]) {
      assert (id in before && ps[id] == before[id]) || IsBody(plan, rules, m, ps[id]);
    }
  }

  /** While rule i is next: the first i are in place under their names, and every
    * policy from before is still there under its own. */
  ghost predicate Writing(plan: Plan, rules: seq<PolicyRule>, i: nat, before: State, s: State)
    requires i <= |rules|
  {
    && WellFormed(s)
    && s == before.(policies := s.policies, nextId := s.nextId)
    && Between(plan, rules, i, before.policies, s.policies)
    && (forall id :: id in before.policies ==> id in s.policies && s.policies[id].name == before.policies[id].name)
    && (forall k :: 0 <= k < i ==> Carried(plan, rules, k, s.policies))
    && (UniqueNames(plan, before.policies) ==> UniqueNames(plan, s.policies))
  }

  lemma {:induction false} WritingKept(plan: Plan, rules: seq<PolicyRule>, i: nat, before: State, s: State)
    requires i <= |rules| && Writing(plan, rules, i, before, s)
    ensures Kept(plan, rules, before, s)
  {
    BetweenMore(plan, rules, i, |rules|, before.policies, s.policies);
  }

  /** Policies carried under other names are not touched by writing this one. */
  lemma {:induction false} StillCarried(plan: Plan, rules: seq<PolicyRule>, i: nat, ps: map<Id, Policy>, id: Id,
          ps': map<Id, Policy>)
    requires i < |rules| && ps' == ps[id := Body(plan, rules, i)]
             && (forall k :: 0 <= k < i ==> Carried(plan, rules, k, ps))
    requires id in ps ==> ps[id].name == NameOf(plan, i)
    ensures forall k :: 0 <= k <= i ==> Carried(plan, rules, k, ps')
  {
    forall k | 0 <= k <= i ensures Carried(plan, rules, k, ps') {
      if k < i {
        assert Carried(plan, rules, k, ps);
        var a :| a in ps && ps[a] == Body(plan, rules, k);
        if a == id {
          NameInjective(plan, k, i);
        }
        assert ps'[a] == Body(plan, rules, k);
      } else {
        assert ps'[id] == Body(plan, rules, k);
      }
    }
  }

  lemma {:induction false} PutBetween(plan: Plan, rules: seq<PolicyRule>, i: nat, before: map<Id, Policy>, ps: map<Id,
          Policy>, id: Id)
    requires i < |rules| && Between(plan, rules, i, before, ps)
    requires id in before ==> Owned(plan, before[id].name)
    ensures Between(plan, rules, i + 1, before, ps[id := Body(plan, rules, i)])
  {
    var ps' := ps[id := Body(plan, rules, i)];
    BetweenMore(plan, rules, i, i + 1, before, ps);
    assert IsBody(plan, rules, i + 1, Body(plan, rules, i));
    forall a | a in ps' ensures (a in before && ps'[a] == before[a]) || IsBody(plan, rules, i + 1, ps'[a]) {
      assert a != id ==> ps'[a] == ps[a];
    }
  }

  lemma {:induction false} PutWriting(plan: Plan, rules: seq<PolicyRule>, i: nat, before: State, s: State, id: Id)
    requires i < |rules| && Writing(plan, rules, i, before, s)
    requires id in before.policies && before.policies[id].name == NameOf(plan, i)
    requires WellFormed(before)
    ensures Writing(plan, rules, i + 1, before, PutPolicy(s, id, Body(plan, rules, i)))
  {
    NameOwned(plan, i);
    PutBetween(plan, rules, i, before.policies, s.policies, id);
    StillCarried(plan, rules, i, s.policies, id, s.policies[id := Body(plan, rules, i)]);
  }

  lemma {:induction false} AddWriting(plan: Plan, rules: seq<PolicyRule>, i: nat, before: State, s: State)
    requires i < |rules| && Writing(plan, rules, i, before, s)
    requires WellFormed(before) && forall id :: id in before.policies ==> before.policies[id].name != NameOf(plan, i)
    ensures Writing(plan, rules, i + 1, before, AddPolicy(s, Body(plan, rules, i)))
  {
    assert s.nextId !in s.policies;
    PutBetween(plan, rules, i, before.policies, s.policies, s.nextId);
    StillCarried(plan, rules, i, s.policies, s.nextId, s.policies[s.nextId := Body(plan, rules, i)]);
    forall id | id in s.policies ensures s.policies[id].name != NameOf(plan, i) {
      if id !in before.policies {
        assert IsBody(plan, rules, i, s.policies[id]);
        var k :| 0 <= k < i && s.policies[id] == Body(plan, rules, k);
        if NameOf(plan, k) == NameOf(plan, i) {
          NameInjective(plan, k, i);
        }
      }
    }
  }

  // ---- exactly what is left --------------------------------------------------

  /** The last policy listed under each name. */
  function LastListed(ps: map<Id, Policy>, ids: seq<Id>): map<string, Id>
    requires forall i :: 0 <= i < |ids| ==> ids[i] in ps
  {
    if ids == [] then map[]
    else
      var last := ids[|ids| - 1];
      LastListed(ps, ids[..|ids| - 1])[ps[last].name := last]
  }

  /** One policy of each name. */
  ghost predicate Picks(existing: map<string, Id>, ps: map<Id, Policy>) {
    && (forall name :: name in existing ==> existing[name] in ps && ps[existing[name]].name == name)
    && (forall id :: id in ps ==> ps[id].name in existing)
  }

  lemma {:induction false} LastListedPicks(ps: map<Id, Policy>, ids: seq<Id>)
    requires forall i :: 0 <= i < |ids| ==> ids[i] in ps
    ensures forall name :: name in LastListed(ps, ids) ==>
              LastListed(ps, ids)[name] in ps && ps[LastListed(ps, ids)[name]].name == name
    ensures forall i :: 0 <= i < |ids| ==> ps[ids[i]].name in LastListed(ps, ids)
    ensures Lists(ids, ps) ==> Picks(LastListed(ps, ids), ps)
  {
    if ids != [] {
      LastListedPicks(ps, ids[..|ids| - 1]);
    }
  }

  /** The first n rules written, each over the policy picked for its name or as a new
    * one. */
  function Written(plan: Plan, rules: seq<PolicyRule>, existing: map<string, Id>, s: State, n: nat): State
    requires n <= |rules|
  {
    if n == 0 then s
    else
      var s', name := Written(plan, rules, existing, s, n - 1), NameOf(plan, n - 1);
      if name in existing then PutPolicy(s', existing[name], Body(plan, rules, n - 1))
      else AddPolicy(s', Body(plan, rules, n - 1))
  }

  ghost predicate IsWanted(plan: Plan, rules: seq<PolicyRule>, name: string) {
    exists k :: 0 <= k < |rules| && name == NameOf(plan, k)
  }

  /** And then without the owned ones of other names. */
  ghost function Final(plan: Plan, rules: seq<PolicyRule>, existing: map<string, Id>, s: State): State {
    var w := Written(plan, rules, existing, s, |rules|);
    w.(policies := map id | id in w.policies
        && (Owned(plan, w.policies[id].name) ==> IsWanted(plan, rules, w.policies[id].name))
                     :: w.policies[id])
  }

  /** A twin: of a wanted name, but not the one picked. */
  ghost predicate Survives(plan: Plan, rules: seq<PolicyRule>, existing: map<string, Id>, ps: map<Id, Policy>, id: Id) {
    id in ps && IsWanted(plan, rules, ps[id].name) && ps[id].name in existing && existing[ps[id].name] != id
  }

  lemma {:induction false} WrittenWriting(plan: Plan, rules: seq<PolicyRule>, existing: map<string, Id>, s: State,
          n: nat)
    requires n <= |rules| && WellFormed(s) && Picks(existing, s.policies)
    ensures Writing(plan, rules, n, s, Written(plan, rules, existing, s, n))
  {
    if n > 0 {
      var name, mid := NameOf(plan, n - 1), Written(plan, rules, existing, s, n - 1);
      WrittenWriting(plan, rules, existing, s, n - 1);
      if name in existing {
        PutWriting(plan, rules, n - 1, s, mid, existing[name]);
      } else {
        AddWriting(plan, rules, n - 1, s, mid);
      }
    }
  }

  /** What is not picked stays as it was. */
  lemma {:induction false} NotPicked(plan: Plan, rules: seq<PolicyRule>, existing: map<string, Id>, s: State, n: nat,
          id: Id)
    requires n <= |rules| && WellFormed(s) && Picks(existing, s.policies)
    requires id in s.policies && existing[s.policies[id].name] != id
    ensures var w := Written(plan, rules, existing, s, n);
            s.nextId <= w.nextId && id in w.policies && w.policies[id] == s.policies[id]
  {
    if n > 0 {
      NotPicked(plan, rules, existing, s, n - 1, id);
    }
  }

  /** Every policy written over, or new, is one of the wanted. */
  lemma {:induction false} Picked(plan: Plan, rules: seq<PolicyRule>, existing: map<string, Id>, s: State, n: nat,
          id: Id)
    requires n <= |rules| && WellFormed(s) && Picks(existing, s.policies)
    requires id in Written(plan, rules, existing, s, n).policies
    ensures var p := Written(plan, rules, existing, s, n).policies[id];
            IsBody(plan, rules, n, p) || (id in s.policies && p == s.policies[id])
    ensures id in s.policies && existing[s.policies[id].name] == id
            && (exists k :: 0 <= k < n && s.policies[id].name == NameOf(plan, k))
            ==> IsBody(plan, rules, n, Written(plan, rules, existing, s, n).policies[id])
  {
    if n > 0 {
      var mid, name := Written(plan, rules, existing, s, n - 1), NameOf(plan, n - 1);
      assert IsBody(plan, rules, n, Body(plan, rules, n - 1));
      if id in mid.policies {
        Picked(plan, rules, existing, s, n - 1, id);
        assert IsBody(plan, rules, n - 1, mid.policies[id]) ==> IsBody(plan, rules, n, mid.policies[id]);
      }
    }
  }

  /** A finished run lets through what the rules do. */
  lemma {:induction false} FinalAdmitsRules(plan: Plan, rules: seq<PolicyRule>, existing: map<string, Id>, s: State,
          f: Flow)
    requires WellFormed(s) && Picks(existing, s.policies) && RulesAdmit(rules, f)
    ensures OwnedAdmit(plan, Final(plan, rules, existing, s).policies, f)
  {
    WrittenWriting(plan, rules, existing, s, |rules|);
    var w := Written(plan, rules, existing, s, |rules|).policies;
    var k :| 0 <= k < |rules| && RuleAdmits(rules[k], f);
    assert Carried(plan, rules, k, w);
    var id :| id in w && w[id] == Body(plan, rules, k);
    BodyAdmits(plan, rules, k, f);
    NameOwned(plan, k);
    assert IsWanted(plan, rules, w[id].name);
    assert Final(plan, rules, existing, s).policies[id] == w[id];
  }

  /** And what a twin does that was not picked. */
  lemma {:induction false} FinalAdmitsTwin(plan: Plan, rules: seq<PolicyRule>, existing: map<string, Id>, s: State,
          f: Flow, id: Id)
    requires WellFormed(s) && Picks(existing, s.policies)
    requires Survives(plan, rules, existing, s.policies, id) && PolicyAdmits(plan, s.policies[id], f)
    ensures OwnedAdmit(plan, Final(plan, rules, existing, s).policies, f)
  {
    NotPicked(plan, rules, existing, s, |rules|, id);
    var k :| 0 <= k < |rules| && s.policies[id].name == NameOf(plan, k);
    NameOwned(plan, k);
    assert Final(plan, rules, existing, s).policies[id] == s.policies[id];
  }

  /** A finished run lets through exactly what the rules do, and what a twin does that
    * was not picked. */
  lemma {:induction false} FinalAdmits(plan: Plan, rules: seq<PolicyRule>, existing: map<string, Id>, s: State, f: Flow)
    requires WellFormed(s) && Picks(existing, s.policies)
    ensures OwnedAdmit(plan, Final(plan, rules, existing, s).policies, f) <==>
            RulesAdmit(rules, f)
            || exists id :: Survives(plan, rules, existing, s.policies, id) && PolicyAdmits(plan, s.policies[id], f)
  {
    if RulesAdmit(rules, f) {
      FinalAdmitsRules(plan, rules, existing, s, f);
    } else if id :| Survives(plan, rules, existing, s.policies, id) && PolicyAdmits(plan, s.policies[id], f) {
      FinalAdmitsTwin(plan, rules, existing, s, f, id);
    } else if OwnedAdmit(plan, Final(plan, rules, existing, s).policies, f) {
      var ps := Final(plan, rules, existing, s).policies;
      var id :| id in ps && Owned(plan, ps[id].name) && PolicyAdmits(plan, ps[id], f);
      Picked(plan, rules, existing, s, |rules|, id);
      if IsBody(plan, rules, |rules|, ps[id]) {
        var j :| 0 <= j < |rules| && ps[id] == Body(plan, rules, j);
        BodyAdmits(plan, rules, j, f);
      } else {
        assert Survives(plan, rules, existing, s.policies, id);
      }
    }
  }

  // ---- when that is exactly the rules ----------------------------------------

  ghost predicate Exact(plan: Plan, rules: seq<PolicyRule>, ps: map<Id, Policy>) {
    forall f :: OwnedAdmit(plan, ps, f) <==> RulesAdmit(rules, f)
  }

  ghost predicate Harmless(plan: Plan, rules: seq<PolicyRule>, p: Policy) {
    forall f :: PolicyAdmits(plan, p, f) ==> RulesAdmit(rules, f)
  }

  /** Of a wanted name that another policy has too. */
  ghost predicate MaySurvive(plan: Plan, rules: seq<PolicyRule>, ps: map<Id, Policy>, id: Id) {
    id in ps && IsWanted(plan, rules, ps[id].name)
    && exists other :: other in ps && other != id && ps[other].name == ps[id].name
  }

  /** A listing of the account that ends in this policy. */
  lemma {:induction false} ListingEndingIn(keys: set<Id>, last: Id) returns (ids: seq<Id>)
    requires last in keys
    ensures forall i, j :: 0 <= i < j < |ids| ==> ids[i] != ids[j]
    ensures forall id :: id in ids <==> id in keys
    ensures ids != [] && ids[|ids| - 1] == last
    decreases |keys|
  {
    if other :| other in keys && other != last {
      var rest := ListingEndingIn(keys - {other}, last);
      ids := [other] + rest;
      forall i, j | 0 <= i < j < |ids| ensures ids[i] != ids[j] {
        assert ids[j] in rest;
      }
      forall id ensures id in ids <==> id in keys {
        assert id in ids <==> id == other || id in rest;
      }
    } else {
      ids := [last];
    }
  }

  ghost predicate ExactFor(plan: Plan, rules: seq<PolicyRule>, s: State, ids: seq<Id>)
    requires Lists(ids, s.policies)
  {
    Exact(plan, rules, Final(plan, rules, LastListed(s.policies, ids), s).policies)
  }

  /** Whatever order the account's policies are listed in, the policies left let
    * through exactly what the rules do: that is so if and only if no policy that
    * shares its wanted name with another lets through more than the rules. */
  lemma {:induction false} ExactIff(plan: Plan, rules: seq<PolicyRule>, s: State)
    requires WellFormed(s)
    ensures (forall ids :: Lists(ids, s.policies) ==> ExactFor(plan, rules, s, ids))
       <==> (forall id :: MaySurvive(plan, rules, s.policies, id) ==> Harmless(plan, rules, s.policies[id]))
  {
    if forall id :: MaySurvive(plan, rules, s.policies, id) ==> Harmless(plan, rules, s.policies[id]) {
      forall ids | Lists(ids, s.policies) ensures ExactFor(plan, rules, s, ids) {
        HarmlessIsExact(plan, rules, s, ids);
      }
    }
    if forall ids :: Lists(ids, s.policies) ==> ExactFor(plan, rules, s, ids) {
      forall id | MaySurvive(plan, rules, s.policies, id) ensures Harmless(plan, rules, s.policies[id]) {
        TwinIsHarmless(plan, rules, s, id);
      }
    }
  }

  lemma {:induction false} HarmlessIsExact(plan: Plan, rules: seq<PolicyRule>, s: State, ids: seq<Id>)
    requires WellFormed(s) && Lists(ids, s.policies)
    requires forall id :: MaySurvive(plan, rules, s.policies, id) ==> Harmless(plan, rules, s.policies[id])
    ensures ExactFor(plan, rules, s, ids)
  {
    var existing := LastListed(s.policies, ids);
    LastListedPicks(s.policies, ids);
    forall f ensures OwnedAdmit(plan, Final(plan, rules, existing, s).policies, f) <==> RulesAdmit(rules, f) {
      FinalAdmits(plan, rules, existing, s, f);
      if id :| Survives(plan, rules, existing, s.policies, id) && PolicyAdmits(plan, s.policies[id], f) {
        assert MaySurvive(plan, rules, s.policies, id) by {
          assert existing[s.policies[id].name] in s.policies;
        }
      }
    }
  }

  lemma {:induction false} TwinIsHarmless(plan: Plan, rules: seq<PolicyRule>, s: State, id: Id)
    requires WellFormed(s) && MaySurvive(plan, rules, s.policies, id)
    requires forall ids :: Lists(ids, s.policies) ==> ExactFor(plan, rules, s, ids)
    ensures Harmless(plan, rules, s.policies[id])
  {
    var other :| other in s.policies && other != id && s.policies[other].name == s.policies[id].name;
    var ids := ListingEndingIn(s.policies.Keys, other);
    assert ExactFor(plan, rules, s, ids);
    var existing := LastListed(s.policies, ids);
    LastListedPicks(s.policies, ids);
    assert Survives(plan, rules, existing, s.policies, id);
    forall f | PolicyAdmits(plan, s.policies[id], f) ensures RulesAdmit(rules, f) {
      FinalAdmitsTwin(plan, rules, existing, s, f, id);
    }
  }

  /** Two policies of one wanted name, one of them letting through what the rules no
    * longer do: a finished run that lists the other last leaves it in force. */
  lemma {:induction false} StaleTwin(plan: Plan, old1: PolicyRule, rule: PolicyRule, f: Flow)
    returns (s: State, ids: seq<Id>)
    requires RuleAdmits(old1, f) && !RuleAdmits(rule, f)
    ensures WellFormed(s) && Lists(ids, s.policies) && !RulesAdmit([rule], f)
    ensures OwnedAdmit(plan, Final(plan, [rule], LastListed(s.policies, ids), s).policies, f)
  {
    var twin := Body(plan, [old1], 0);
    s := State(map[1 := twin, 2 := twin], map[], map[], map[], map[], 3);
    ids := [1, 2];
    LastListedPicks(s.policies, ids);
    BodyAdmits(plan, [old1], 0, f);
    assert IsWanted(plan, [rule], twin.name);
    var existing := LastListed(s.policies, ids);
    assert existing[twin.name] == 2;
    assert Survives(plan, [rule], existing, s.policies, 1);
    FinalAdmits(plan, [rule], existing, s, f);
  }

  // ---- the calls that write them ---------------------------------------------

  method ByName(listed: map<Id, Policy>, ids: seq<Id>) returns (existing: map<string, Id>)
    requires Lists(ids, listed)
    ensures existing == LastListed(listed, ids)
  {
    existing := map[];
    for i := 0 to |ids|
      invariant existing == LastListed(listed, ids[..i])
    {
      assert ids[..i + 1][..i] == ids[..i];
      existing := existing[listed[ids[i]].name := ids[i]];
    }
    assert ids[..|ids|] == ids;
  }

  /** One rule's policy: the existing one of that name is replaced, or it is new. */
  method WriteOne(nb: Account, plan: Plan, rules: seq<PolicyRule>, i: nat, existing: map<string, Id>,
          ghost before: State) returns (ok: bool)
    requires i < |rules| && WellFormed(before) && Writing(plan, rules, i, before, nb.now)
    requires Picks(existing, before.policies) && nb.now == Written(plan, rules, existing, before, i)
    modifies nb
    ensures nb.failures >= old(nb.failures) && (ok <==> nb.failures == old(nb.failures))
    ensures nb.past == old(nb.past) + [nb.now] && Kept(plan, rules, before, nb.now)
    ensures ok ==> Writing(plan, rules, i + 1, before, nb.now)
                   && nb.now == Written(plan, rules, existing, before, i + 1)
  {
    WritingKept(plan, rules, i, before, nb.now);
    var name := NameOf(plan, i);
    var next: State;
    if name in existing {
      next := PutPolicy(nb.now, existing[name], Body(plan, rules, i));
      PutWriting(plan, rules, i, before, nb.now, existing[name]);
    } else {
      next := AddPolicy(nb.now, Body(plan, rules, i));
      AddWriting(plan, rules, i, before, nb.now);
    }
    WritingKept(plan, rules, i + 1, before, next);
    ok := nb.Do(next);
  }

  /** Every rule's policy in turn. */
  method WriteAll(nb: Account, plan: Plan, rules: seq<PolicyRule>, existing: map<string, Id>, ghost before: State)
    returns (ok: bool, wanted: set<string>)
    requires WellFormed(before) && nb.now == before
    requires Picks(existing, before.policies)
    modifies nb
    ensures nb.failures >= old(nb.failures) && (ok <==> nb.failures == old(nb.failures))
    ensures old(nb.past) <= nb.past && AllKept(plan, rules, before, nb.past, |old(nb.past)|)
    ensures Kept(plan, rules, before, nb.now)
    ensures ok ==> nb.now == Written(plan, rules, existing, before, |rules|)
    ensures ok ==> forall name :: name in wanted <==> IsWanted(plan, rules, name)
    ensures ok ==> forall k :: 0 <= k < |rules| ==> Carried(plan, rules, k, nb.now.policies)
  {
    wanted := {};
    ok := true;
    WritingKept(plan, rules, 0, before, nb.now);
    for i := 0 to |rules|
      invariant old(nb.past) <= nb.past && AllKept(plan, rules, before, nb.past, |old(nb.past)|)
      invariant ok && nb.failures == old(nb.failures)
      invariant Writing(plan, rules, i, before, nb.now) && Kept(plan, rules, before, nb.now)
      invariant nb.now == Written(plan, rules, existing, before, i)
      invariant forall name :: name in wanted <==> exists k :: 0 <= k < i && name == NameOf(plan, k)
    {
      wanted := wanted + {NameOf(plan, i)};
      ghost var past := nb.past;
      ok := WriteOne(nb, plan, rules, i, existing, before);
      KeptStep(plan, rules, before, past, |old(nb.past)|, nb.now);
      if !ok {
        return;
      }
    }
  }

  /** SetRulePolicies. Only owned policies change, at every call; a finished run
    * leaves exactly what the order of the listing makes final. */
  method SetRulePolicies(nb: Account, plan: Plan, rules: seq<PolicyRule>) returns (ok: bool, ghost ids: seq<Id>)
    requires WellFormed(nb.now)
    modifies nb
    ensures nb.failures >= old(nb.failures) && (ok <==> nb.failures == old(nb.failures))
    ensures old(nb.past) <= nb.past && AllKept(plan, rules, old(nb.now), nb.past, |old(nb.past)|)
    ensures Kept(plan, rules, old(nb.now), nb.now)
    ensures ok ==> Lists(ids, old(nb.now.policies))
                   && nb.now == Final(plan, rules, LastListed(old(nb.now.policies), ids), old(nb.now))
    ensures ok ==> Settled(plan, rules, old(nb.now.policies), nb.now.policies)
  {
    ghost var before := nb.now;
    var listed := nb.now.policies;
    var order;
    ok, order := nb.List(listed);
    ids := order;
    if !ok {
      return;
    }
    var existing := ByName(listed, order);
    LastListedPicks(listed, order);
    var wanted;
    ok, wanted := WriteAll(nb, plan, rules, existing, before);
    if !ok {
      return;
    }
    ghost var written, past := nb.now, nb.past;
    ok := DeletePoliciesWithPrefix(nb, plan, wanted, rules, before);
    AllKeptJoin(plan, rules, before, past, nb.past, |old(nb.past)|);
    if ok {
      IsFinal(plan, rules, existing, before, nb.now);
      FinalSettled(plan, rules, existing, before);
    }
  }

  lemma {:induction false} IsFinal(plan: Plan, rules: seq<PolicyRule>, existing: map<string, Id>, before: State,
          s: State)
    requires var w := Written(plan, rules, existing, before, |rules|);
             && s == w.(policies := s.policies)
             && (forall id :: id in s.policies ==> id in w.policies && s.policies[id] == w.policies[id])
             && (forall id :: id in w.policies ==> (id in s.policies <==>
                   (Owned(plan, w.policies[id].name) ==> IsWanted(plan, rules, w.policies[id].name))))
    ensures s == Final(plan, rules, existing, before)
  {
    assert s.policies == Final(plan, rules, existing, before).policies;
  }

  lemma {:induction false} FinalSettled(plan: Plan, rules: seq<PolicyRule>, existing: map<string, Id>, s: State)
    requires WellFormed(s) && Picks(existing, s.policies)
    ensures Settled(plan, rules, s.policies, Final(plan, rules, existing, s).policies)
  {
    var w := Written(plan, rules, existing, s, |rules|);
    WrittenWriting(plan, rules, existing, s, |rules|);
    forall k | 0 <= k < |rules| ensures Carried(plan, rules, k, Final(plan, rules, existing, s).policies) {
      assert Carried(plan, rules, k, w.policies);
      var id :| id in w.policies && w.policies[id] == Body(plan, rules, k);
      assert Final(plan, rules, existing, s).policies[id] == Body(plan, rules, k);
    }
  }

  lemma {:induction false} AllKeptJoin(plan: Plan, rules: seq<PolicyRule>, before: State, past: seq<State>,
          past': seq<State>, n: nat)
    requires past <= past' && AllKept(plan, rules, before, past, n) && AllKept(plan, rules, before, past', |past|)
    ensures AllKept(plan, rules, before, past', n)
  {
    forall i | n <= i < |past'| ensures Kept(plan, rules, before, past'[i]) {
      assert i < |past| ==> past'[i] == past[i];
    }
  }
}
