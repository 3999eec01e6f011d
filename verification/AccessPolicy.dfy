/** Closing the VPN to devices nobody approved, without cutting off the ones already
  * enrolled (backend/internal/api/vpn.go). What must hold at every call is that the
  * enrolled devices stay joined by one policy or another; each call is shown to keep
  * that, and a run is a sequence of such calls. */
module AccessPolicy {
  import opened Text
  import opened Netbird

  const APPROVED_GROUP := "vpn-approved"
  const APPROVED_POLICY := "approved devices"
  const DEFAULT := "Default"

  // ---- who reaches whom ------------------------------------------------------

  ghost predicate In(s: State, gs: set<Id>, p: Id) {
    exists g :: g in gs && g in s.groups && p in s.groups[g].peers
  }

  /** The rule lets p open any connection to q. */
  ghost predicate Allows(s: State, a: Access, p: Id, q: Id) {
    && a.what.protocol == "all"
    && ((In(s, a.sources, p) && In(s, a.destinations, q))
        || (a.bidirectional && In(s, a.destinations, p) && In(s, a.sources, q)))
  }

  ghost predicate ReachBy(s: State, pol: Policy, p: Id, q: Id) {
    exists i :: 0 <= i < |pol.rules| && Allows(s, pol.rules[i], p, q)
  }

  ghost predicate Reach(s: State, p: Id, q: Id) {
    exists id :: id in s.policies && ReachBy(s, s.policies[id], p, q)
  }

  /** Policy id lets all these peers reach each other. */
  ghost predicate Connects(s: State, id: Id, peers: set<Id>) {
    id in s.policies && forall p, q :: p in peers && q in peers ==> ReachBy(s, s.policies[id], p, q)
  }

  ghost predicate Connected(s: State, peers: set<Id>) {
    forall p, q :: p in peers && q in peers ==> Reach(s, p, q)
  }

  function AllowPolicy(g: Id): Policy {
    Policy(APPROVED_POLICY, [Access({g}, {g}, true, PolicyRule("all", [], []))])
  }

  // ---- what is assumed of the account ----------------------------------------

  ghost predicate NoSuchPolicy(s: State, name: string) { forall id :: id in s.policies ==> s.policies[id].name != name }

  ghost predicate NoApprovedGroup(s: State) { forall id :: id in s.groups ==> s.groups[id].name != APPROVED_GROUP }

  ghost predicate IsApproved(s: State, g: Id) { g in s.groups && s.groups[g].name == APPROVED_GROUP }

  ghost predicate OneApproved(s: State) { forall a, b :: IsApproved(s, a) && IsApproved(s, b) ==> a == b }

  ghost predicate OneDefault(s: State) {
    forall a, b :: a in s.policies && b in s.policies && s.policies[a].name == DEFAULT && s.policies[b].name == DEFAULT
      ==> a == b
  }

  /** There is one approved group at most, and a policy for approved devices, where
    * there is one, is the policy for that group. */
  ghost predicate ApprovedRight(s: State) {
    && OneApproved(s)
    && (forall id :: id in s.policies && s.policies[id].name == APPROVED_POLICY
                     ==> exists g :: IsApproved(s, g) && s.policies[id] == AllowPolicy(g))
  }

  /** All these peers are connected by the Default policy or by the approved one. */
  ghost predicate Joined(s: State, peers: set<Id>) {
    exists id :: Connects(s, id, peers) && (s.policies[id].name == DEFAULT || s.policies[id].name == APPROVED_POLICY)
  }

  /** What every state keeps. */
  ghost predicate Safe(before: State, s: State) {
    && WellFormed(s)
    && s == before.(policies := s.policies, groups := s.groups, nextId := s.nextId)
    && (ApprovedRight(before) && Joined(before, before.peers.Keys) ==> ApprovedRight(s) && Joined(s, before.peers.Keys))
    && (OneApproved(before) ==> OneApproved(s))
    && (forall id :: id in before.policies && before.policies[id].name != DEFAULT
                     ==> id in s.policies && s.policies[id] == before.policies[id])
    && (forall id :: id in s.policies ==>
                       || (id in before.policies && s.policies[id] == before.policies[id])
                       || s.policies[id].name == APPROVED_POLICY)
    && (forall id :: id in before.groups && before.groups[id].name != APPROVED_GROUP
                     ==> id in s.groups && s.groups[id] == before.groups[id])
  }

  ghost predicate AllSafe(before: State, past: seq<State>, n: nat) {
    forall i :: n <= i < |past| ==> Safe(before, past[i])
  }

  lemma {:induction false} JoinedConnected(s: State, peers: set<Id>)
    requires Joined(s, peers)
    ensures Connected(s, peers)
  {
  }

  // ---- reach only grows ------------------------------------------------------

  /** Every group keeps the members it has among these peers. */
  ghost predicate GroupsGrow(s: State, s': State, peers: set<Id>) {
    forall g, p :: g in s.groups && p in s.groups[g].peers && p in peers ==> g in s'.groups && p in s'.groups[g].peers
  }

  lemma {:induction false} ReachGrows(s: State, s': State, pol: Policy, peers: set<Id>, p: Id, q: Id)
    requires GroupsGrow(s, s', peers) && p in peers && q in peers && ReachBy(s, pol, p, q)
    ensures ReachBy(s', pol, p, q)
  {
    var i :| 0 <= i < |pol.rules| && Allows(s, pol.rules[i], p, q);
    var a := pol.rules[i];
    InGrows(s, s', a.sources, peers, p);
    InGrows(s, s', a.sources, peers, q);
    InGrows(s, s', a.destinations, peers, p);
    InGrows(s, s', a.destinations, peers, q);
    assert Allows(s', a, p, q);
  }

  lemma {:induction false} InGrows(s: State, s': State, gs: set<Id>, peers: set<Id>, p: Id)
    requires GroupsGrow(s, s', peers) && p in peers
    ensures In(s, gs, p) ==> In(s', gs, p)
  {
    if In(s, gs, p) {
      var g :| g in gs && g in s.groups && p in s.groups[g].peers;
      assert g in s'.groups && p in s'.groups[g].peers;
    }
  }

  lemma {:induction false} JoinedGrows(s: State, s': State, peers: set<Id>)
    requires GroupsGrow(s, s', peers) && Joined(s, peers)
    requires forall id :: id in s.policies && (s.policies[id].name == DEFAULT || s.policies[id].name == APPROVED_POLICY)
                          ==> id in s'.policies && s'.policies[id] == s.policies[id]
    ensures Joined(s', peers)
  {
    var id :| Connects(s, id, peers) && (s.policies[id].name == DEFAULT || s.policies[id].name == APPROVED_POLICY);
    forall p, q | p in peers && q in peers ensures ReachBy(s', s'.policies[id], p, q) {
      ReachGrows(s, s', s.policies[id], peers, p, q);
    }
    assert Connects(s', id, peers);
  }

  /** A group with everybody in it, and the policy for that group. */
  lemma {:induction false} AllowConnects(s: State, id: Id, g: Id, peers: set<Id>)
    requires id in s.policies && s.policies[id] == AllowPolicy(g) && g in s.groups && peers <= s.groups[g].peers
    ensures Connects(s, id, peers)
  {
    forall p, q | p in peers && q in peers ensures ReachBy(s, s.policies[id], p, q) {
      assert In(s, {g}, p) && In(s, {g}, q);
      assert Allows(s, s.policies[id].rules[0], p, q);
    }
  }

  // ---- the calls, one by one -------------------------------------------------

  lemma {:induction false} SafeSelf(s: State)
    requires WellFormed(s)
    ensures Safe(s, s)
  {
  }

  lemma {:induction false} AddGroupSafe(s: State)
    requires WellFormed(s) && NoApprovedGroup(s)
    ensures Safe(s, AddGroup(s, APPROVED_GROUP))
  {
    var s' := AddGroup(s, APPROVED_GROUP);
    if ApprovedRight(s) && Joined(s, s.peers.Keys) {
      JoinedGrows(s, s', s.peers.Keys);
    }
  }

  /** Which groups are approved is decided by their names. */
  lemma {:induction false} SameApproved(s: State, s': State)
    requires s'.groups.Keys == s.groups.Keys && forall g :: g in s.groups ==> s'.groups[g].name == s.groups[g].name
    ensures forall g :: IsApproved(s', g) <==> IsApproved(s, g)
    ensures OneApproved(s) ==> OneApproved(s')
  {
  }

  lemma {:induction false} AddPolicySafe(before: State, s: State, g: Id)
    requires Safe(before, s) && IsApproved(s, g)
    ensures Safe(before, AddPolicy(s, AllowPolicy(g)))
  {
    var s' := AddPolicy(s, AllowPolicy(g));
    SameApproved(s, s');
    if ApprovedRight(s) && Joined(s, before.peers.Keys) {
      JoinedGrows(s, s', before.peers.Keys);
      ApprovedAfterAdd(s, g);
    }
  }

  lemma {:induction false} ApprovedAfterAdd(s: State, g: Id)
    requires WellFormed(s) && ApprovedRight(s) && IsApproved(s, g)
    ensures ApprovedRight(AddPolicy(s, AllowPolicy(g)))
  {
    var s' := AddPolicy(s, AllowPolicy(g));
    forall id | id in s'.policies && s'.policies[id].name == APPROVED_POLICY
      ensures exists g :: IsApproved(s', g) && s'.policies[id] == AllowPolicy(g)
    {
      if id in s.policies {
        var o :| IsApproved(s, o) && s.policies[id] == AllowPolicy(o);
        assert IsApproved(s', o) && s'.policies[id] == AllowPolicy(o);
      } else {
        assert IsApproved(s', g) && s'.policies[id] == AllowPolicy(g);
      }
    }
    forall a, b | IsApproved(s', a) && IsApproved(s', b) ensures a == b {
      assert IsApproved(s, a) && IsApproved(s, b);
    }
  }

  lemma {:induction false} PutGroupSafe(before: State, s: State, g: Id)
    requires Safe(before, s) && IsApproved(s, g)
    ensures Safe(before, PutGroup(s, g, Group(APPROVED_GROUP, before.peers.Keys)))
  {
    var s' := PutGroup(s, g, Group(APPROVED_GROUP, before.peers.Keys));
    SameApproved(s, s');
    if ApprovedRight(s) && Joined(s, before.peers.Keys) {
      JoinedGrows(s, s', before.peers.Keys);
    }
  }

  /** Deleting Default is safe once everybody is in the approved group and the
    * policy for it is there. */
  lemma {:induction false} DropDefaultSafe(before: State, s: State, g: Id, pid: Id, d: Id)
    requires Safe(before, s) && IsApproved(s, g) && s.groups[g].peers == before.peers.Keys
    requires pid in s.policies && s.policies[pid].name == APPROVED_POLICY
    requires d in s.policies && s.policies[d].name == DEFAULT
    ensures Safe(before, DropPolicy(s, d))
  {
    var s' := DropPolicy(s, d);
    SameApproved(s, s');
    if ApprovedRight(s) {
      var o :| IsApproved(s, o) && s.policies[pid] == AllowPolicy(o);
      AllowConnects(s', pid, g, before.peers.Keys);
      forall id | id in s'.policies && s'.policies[id].name == APPROVED_POLICY
        ensures exists g :: IsApproved(s', g) && s'.policies[id] == AllowPolicy(g)
      {
        var u :| IsApproved(s, u) && s.policies[id] == AllowPolicy(u);
        assert IsApproved(s', u);
      }
    }
  }

  // ---- the whole -------------------------------------------------------------

  /** The state a finished run leaves: an approved group, a policy for it where
    * there was none, and, when a Default policy was found, everybody in the group
    * and that policy gone. */
  ghost predicate Finished(before: State, s: State, group: Id) {
    exists mid, d :: FinishedBy(before, mid, d, s, group)
  }

  ghost predicate FinishedBy(before: State, mid: State, d: Id, s: State, group: Id) {
    && Opened(before, mid, group)
    && if NoSuchPolicy(before, DEFAULT) then s == mid
       else d in before.policies && before.policies[d].name == DEFAULT
            && s == DropPolicy(PutGroup(mid, group, Group(APPROVED_GROUP, before.peers.Keys)), d)
  }

  /** The group and the policy are there; nothing is closed yet. */
  ghost predicate Opened(before: State, mid: State, group: Id) {
    && IsApproved(mid, group)
    && (mid == (var s := if NoApprovedGroup(before) then AddGroup(before, APPROVED_GROUP) else before;
                if NoSuchPolicy(before, APPROVED_POLICY) then AddPolicy(s, AllowPolicy(group)) else s))
  }

  /** One safe call. */
  method SafeCall(nb: Account, next: State, ghost before: State, ghost n: nat) returns (ok: bool)
    requires n <= |nb.past| && AllSafe(before, nb.past, n) && Safe(before, nb.now) && Safe(before, next)
    modifies nb
    ensures nb.failures >= old(nb.failures) && (ok <==> nb.failures == old(nb.failures))
    ensures old(nb.past) <= nb.past && AllSafe(before, nb.past, n) && Safe(before, nb.now)
    ensures ok ==> nb.now == next
  {
    ok := nb.Do(next);
  }

  /** The approved group: found by name, or new. */
  method EnsureGroup(nb: Account) returns (ok: bool, group: Id)
    requires WellFormed(nb.now)
    modifies nb
    ensures nb.failures >= old(nb.failures) && (ok <==> nb.failures == old(nb.failures))
    ensures old(nb.past) <= nb.past && AllSafe(old(nb.now), nb.past, |old(nb.past)|) && Safe(old(nb.now), nb.now)
    ensures ok ==> IsApproved(nb.now, group)
    ensures ok ==> nb.now == if NoApprovedGroup(old(nb.now)) then AddGroup(old(nb.now), APPROVED_GROUP) else old(nb.now)
  {
    SafeSelf(nb.now);
    var ids;
    group := 0;
    ok, ids := nb.List(nb.now.groups);
    if !ok {
      return;
    }
    var found;
    found, group := FindByName(nb.now.groups, ids, (g: Group) => g.name, APPROVED_GROUP);
    if !found {
      AddGroupSafe(nb.now);
      group := nb.now.nextId;
      ok := SafeCall(nb, AddGroup(nb.now, APPROVED_GROUP), nb.now, |nb.past|);
    }
  }

  /** ensureAccessPolicy. At every call the enrolled peers stay joined, if they were
    * and an existing policy for approved devices is for the approved group; other
    * groups and policies are left alone. Running it again after a failure is just
    * another run from such a state. */
  method EnsureAccessPolicy(nb: Account) returns (ok: bool, group: Id)
    requires WellFormed(nb.now)
    modifies nb
    ensures nb.failures >= old(nb.failures) && (ok <==> nb.failures == old(nb.failures))
    ensures old(nb.past) <= nb.past && AllSafe(old(nb.now), nb.past, |old(nb.past)|) && Safe(old(nb.now), nb.now)
    ensures ok ==> Finished(old(nb.now), nb.now, group)
  {
    ghost var before, n := nb.now, |nb.past|;
    ok, group := EnsureGroup(nb);
    if !ok {
      return;
    }
    ok := SwapPolicies(nb, group, before, n);
  }

  /** The policy for the approved group, where there is none, and then Default. */
  method SwapPolicies(nb: Account, group: Id, ghost before: State, ghost n: nat) returns (ok: bool)
    requires n <= |nb.past| && AllSafe(before, nb.past, n) && Safe(before, nb.now)
    requires IsApproved(nb.now, group) && nb.now == if NoApprovedGroup(before) then AddGroup(before, APPROVED_GROUP)
             else before
    modifies nb
    ensures nb.failures >= old(nb.failures) && (ok <==> nb.failures == old(nb.failures))
    ensures old(nb.past) <= nb.past && AllSafe(before, nb.past, n) && Safe(before, nb.now)
    ensures ok ==> Finished(before, nb.now, group)
  {
    var ids;
    ok, ids := nb.List(nb.now.policies);
    if !ok {
      return;
    }
    assert nb.now.policies == before.policies;
    var hasApproved, pid := FindPolicy(nb.now, ids, APPROVED_POLICY);
    var hasDefault, d := FindPolicy(nb.now, ids, DEFAULT);
    if !hasApproved {
      ok, pid := Allow(nb, group, before, n);
      if !ok {
        return;
      }
    }
    OpenedNow(before, nb.now, group);
    ghost var mid := nb.now;
    if hasDefault {
      ok := AdmitAll(nb, group, pid, d, before, n);
    }
    if ok {
      ClosedNow(before, mid, d, nb.now, group);
    }
  }

  lemma {:induction false} OpenedNow(before: State, mid: State, group: Id)
    requires IsApproved(mid, group)
    requires var s := if NoApprovedGroup(before) then AddGroup(before, APPROVED_GROUP) else before;
             mid == if NoSuchPolicy(before, APPROVED_POLICY) then AddPolicy(s, AllowPolicy(group)) else s
    ensures Opened(before, mid, group)
  {
  }

  lemma {:induction false} ClosedNow(before: State, mid: State, d: Id, s: State, group: Id)
    requires Opened(before, mid, group)
    requires if NoSuchPolicy(before, DEFAULT) then s == mid
             else d in before.policies && before.policies[d].name == DEFAULT
                  && s == DropPolicy(PutGroup(mid, group, Group(APPROVED_GROUP, before.peers.Keys)), d)
    ensures Finished(before, s, group)
  {
    assert FinishedBy(before, mid, d, s, group);
  }

  method FindPolicy(s: State, ids: seq<Id>, name: string) returns (found: bool, id: Id)
    requires Lists(ids, s.policies)
    ensures found <==> !NoSuchPolicy(s, name)
    ensures found ==> id in s.policies && s.policies[id].name == name
  {
    found, id := FindByName(s.policies, ids, (p: Policy) => p.name, name);
  }

  /** A policy for the approved group. */
  method Allow(nb: Account, group: Id, ghost before: State, ghost n: nat) returns (ok: bool, pid: Id)
    requires n <= |nb.past| && AllSafe(before, nb.past, n) && Safe(before, nb.now) && IsApproved(nb.now, group)
    modifies nb
    ensures nb.failures >= old(nb.failures) && (ok <==> nb.failures == old(nb.failures))
    ensures old(nb.past) <= nb.past && AllSafe(before, nb.past, n) && Safe(before, nb.now)
    ensures ok ==> nb.now == AddPolicy(old(nb.now), AllowPolicy(group)) && IsApproved(nb.now, group)
    ensures ok ==> pid in nb.now.policies && nb.now.policies[pid].name == APPROVED_POLICY
    ensures ok ==> forall id :: id in old(nb.now.policies)
                                ==> id in nb.now.policies && nb.now.policies[id] == old(nb.now.policies)[id]
  {
    AddPolicySafe(before, nb.now, group);
    pid := nb.now.nextId;
    ok := SafeCall(nb, AddPolicy(nb.now, AllowPolicy(group)), before, n);
  }

  /** Everybody into the group, then Default deleted. */
  method AdmitAll(nb: Account, group: Id, ghost pid: Id, d: Id, ghost before: State, ghost n: nat) returns (ok: bool)
    requires n <= |nb.past| && AllSafe(before, nb.past, n) && Safe(before, nb.now) && IsApproved(nb.now, group)
    requires pid in nb.now.policies && nb.now.policies[pid].name == APPROVED_POLICY
    requires d in nb.now.policies && nb.now.policies[d].name == DEFAULT
    modifies nb
    ensures nb.failures >= old(nb.failures) && (ok <==> nb.failures == old(nb.failures))
    ensures old(nb.past) <= nb.past && AllSafe(before, nb.past, n) && Safe(before, nb.now)
    ensures ok ==> nb.now == DropPolicy(PutGroup(old(nb.now), group, Group(APPROVED_GROUP, before.peers.Keys)), d)
  {
    var ids;
    ok, ids := nb.List(nb.now.peers);
    if !ok {
      return;
    }
    var all := set id | id in ids;
    assert all == before.peers.Keys;
    PutGroupSafe(before, nb.now, group);
    ok := SafeCall(nb, PutGroup(nb.now, group, Group(nb.now.groups[group].name, all)), before, n);
    if !ok {
      return;
    }
    DropDefaultSafe(before, nb.now, group, pid, d);
    ok := SafeCall(nb, DropPolicy(nb.now, d), before, n);
  }

  /** So whatever the outcome, at every call all who could reach each other at the
    * start still can. */
  lemma {:induction false} EnrolledStayConnected(before: State, past: seq<State>, n: nat, i: nat)
    requires AllSafe(before, past, n) && n <= i < |past| && ApprovedRight(before) && Joined(before, before.peers.Keys)
    ensures Connected(past[i], before.peers.Keys)
  {
    assert Safe(before, past[i]);
    JoinedConnected(past[i], before.peers.Keys);
  }

  // ---- what a finished run means ---------------------------------------------

  /** p reaches q by the approved or the Default policy. */
  ghost predicate ReachByThese(s: State, p: Id, q: Id) {
    exists id :: id in s.policies && (s.policies[id].name == DEFAULT || s.policies[id].name == APPROVED_POLICY)
        && ReachBy(s, s.policies[id], p, q)
  }

  lemma {:induction false} NoDefaultLeft(before: State, mid: State, s: State, group: Id, d: Id)
    requires WellFormed(before) && OneDefault(before) && Opened(before, mid, group)
    requires if NoSuchPolicy(before, DEFAULT) then s == mid
             else d in before.policies && before.policies[d].name == DEFAULT && s.policies == mid.policies - {d}
    ensures NoSuchPolicy(s, DEFAULT)
  {
    forall id | id in s.policies ensures s.policies[id].name != DEFAULT {
      assert id in before.policies && before.policies[id].name == DEFAULT ==> id == d;
    }
  }

  /** Where the assumption about the approved group and policy holds at the start, it
    * holds at the end, for the group the run answers with. */
  lemma {:induction false} FinishedApproved(before: State, s: State, group: Id)
    requires WellFormed(before) && ApprovedRight(before) && Finished(before, s, group)
    ensures ApprovedRight(s) && IsApproved(s, group)
  {
    var mid, d :| FinishedBy(before, mid, d, s, group);
    OpenedApproved(before, mid, group);
    forall g ensures IsApproved(s, g) <==> IsApproved(mid, g) {
    }
    forall id | id in s.policies && s.policies[id].name == APPROVED_POLICY
      ensures exists g :: IsApproved(s, g) && s.policies[id] == AllowPolicy(g)
    {
      var g :| IsApproved(mid, g) && mid.policies[id] == AllowPolicy(g);
      assert IsApproved(s, g);
    }
  }

  lemma {:induction false} OpenedApproved(before: State, mid: State, group: Id)
    requires WellFormed(before) && ApprovedRight(before) && Opened(before, mid, group)
    ensures ApprovedRight(mid) && IsApproved(mid, group)
  {
    var s := if NoApprovedGroup(before) then AddGroup(before, APPROVED_GROUP) else before;
    assert ApprovedRight(s) by {
      if NoApprovedGroup(before) {
        NewGroupApproved(before);
      }
    }
    if NoSuchPolicy(before, APPROVED_POLICY) {
      ApprovedAfterAdd(s, group);
    }
  }

  lemma {:induction false} NewGroupApproved(before: State)
    requires WellFormed(before) && ApprovedRight(before) && NoApprovedGroup(before)
    ensures ApprovedRight(AddGroup(before, APPROVED_GROUP))
  {
    var s := AddGroup(before, APPROVED_GROUP);
    forall g ensures IsApproved(s, g) <==> g == before.nextId {
    }
    forall id | id in before.policies ensures before.policies[id].name != APPROVED_POLICY {
    }
  }

  /** With one Default policy at most, none is left, and by these policies only
    * members of the approved group reach each other. */
  lemma {:induction false} OnlyApprovedReach(before: State, s: State, group: Id, p: Id, q: Id)
    requires WellFormed(before) && OneDefault(before) && ApprovedRight(before) && Finished(before, s, group)
    ensures NoSuchPolicy(s, DEFAULT) && IsApproved(s, group)
    ensures ReachByThese(s, p, q) ==> p in s.groups[group].peers && q in s.groups[group].peers
  {
    FinishedApproved(before, s, group);
    var mid, d :| FinishedBy(before, mid, d, s, group);
    NoDefaultLeft(before, mid, s, group, d);
    if ReachByThese(s, p, q) {
      ReachMeansMember(s, group, p, q);
    }
  }

  lemma {:induction false} ReachMeansMember(s: State, group: Id, p: Id, q: Id)
    requires ApprovedRight(s) && IsApproved(s, group) && NoSuchPolicy(s, DEFAULT) && ReachByThese(s, p, q)
    ensures p in s.groups[group].peers && q in s.groups[group].peers
  {
    var id :| id in s.policies && s.policies[id].name == APPROVED_POLICY && ReachBy(s, s.policies[id], p, q);
    var g :| IsApproved(s, g) && s.policies[id] == AllowPolicy(g);
    var i :| 0 <= i < |s.policies[id].rules| && Allows(s, s.policies[id].rules[i], p, q);
    assert g == group;
  }

  /** And every peer that was enrolled under a Default policy is such a member. */
  lemma {:induction false} EnrolledAreApproved(before: State, s: State, group: Id)
    requires WellFormed(before) && Finished(before, s, group) && !NoSuchPolicy(before, DEFAULT)
    ensures IsApproved(s, group) && s.groups[group].peers == before.peers.Keys
  {
  }

  // ---- when the enrolled stay connected --------------------------------------

  /** The account as it was, but with every enrolled peer in the approved group. */
  function Everybody(before: State, group: Id): State {
    PutGroup(before, group, Group(APPROVED_GROUP, before.peers.Keys))
  }

  /** Who reaches whom by a policy is decided by the groups. */
  lemma {:induction false} SameGroupsReach(s: State, s': State, pol: Policy, p: Id, q: Id)
    requires s.groups == s'.groups
    ensures ReachBy(s, pol, p, q) <==> ReachBy(s', pol, p, q)
  {
    forall gs, r ensures In(s, gs, r) <==> In(s', gs, r) {
    }
    forall a ensures Allows(s, a, p, q) <==> Allows(s', a, p, q) {
    }
  }

  /** What is there once nothing is closed yet; `made` is the new policy's id. */
  lemma {:induction false} OpenedIs(before: State, mid: State, group: Id) returns (made: Id)
    requires WellFormed(before) && Opened(before, mid, group)
    ensures if NoApprovedGroup(before) then group == before.nextId
            && mid.groups == before.groups[group := Group(APPROVED_GROUP, {})]
            else mid.groups == before.groups
    ensures made >= before.nextId
    ensures mid.policies == if NoSuchPolicy(before, APPROVED_POLICY) then before.policies[made := AllowPolicy(group)]
                            else before.policies
  {
    made := if NoApprovedGroup(before) then before.nextId + 1 else before.nextId;
  }

  /** And what a run leaves that found the Default policy d. */
  lemma {:induction false} ClosedIs(before: State, mid: State, d: Id, s: State, group: Id) returns (made: Id)
    requires WellFormed(before) && FinishedBy(before, mid, d, s, group) && !NoSuchPolicy(before, DEFAULT)
    ensures d in before.policies && s.groups == Everybody(before, group).groups
    ensures made >= before.nextId
    ensures s.policies == (if NoSuchPolicy(before, APPROVED_POLICY) then before.policies[made := AllowPolicy(group)]
                           else before.policies) - {d}
  {
    made := OpenedIs(before, mid, group);
  }

  /** After a run that found the Default policy d, two enrolled peers reach each other
    * if and only if there was no "approved devices" policy, so that the right one was
    * made, or some other policy that was there lets them, once everybody is in the
    * approved group. */
  lemma {:induction false} StillReachIff(before: State, mid: State, d: Id, s: State, group: Id, p: Id, q: Id)
    requires WellFormed(before) && FinishedBy(before, mid, d, s, group) && !NoSuchPolicy(before, DEFAULT)
    requires p in before.peers && q in before.peers
    ensures Reach(s, p, q) <==>
            || NoSuchPolicy(before, APPROVED_POLICY)
            || exists id :: id in before.policies && id != d
                && ReachBy(Everybody(before, group), before.policies[id], p, q)
  {
    var made := ClosedIs(before, mid, d, s, group);
    forall pol ensures ReachBy(s, pol, p, q) <==> ReachBy(Everybody(before, group), pol, p, q) {
      SameGroupsReach(s, Everybody(before, group), pol, p, q);
    }
    if NoSuchPolicy(before, APPROVED_POLICY) {
      assert s.policies[made] == AllowPolicy(group);
      AllowConnects(s, made, group, before.peers.Keys);
    } else {
      assert forall id :: id in s.policies <==> id in before.policies && id != d;
      assert forall id :: id in s.policies ==> s.policies[id] == before.policies[id];
    }
  }

  /** And with no other Default policy, all enrolled peers stay joined if and only if
    * there was no "approved devices" policy, or one of those there connects them once
    * everybody is in the approved group. */
  lemma {:induction false} StayJoinedIff(before: State, mid: State, d: Id, s: State, group: Id)
    requires WellFormed(before) && OneDefault(before) && !NoSuchPolicy(before, DEFAULT)
    requires FinishedBy(before, mid, d, s, group)
    ensures Joined(s, before.peers.Keys) <==>
            || NoSuchPolicy(before, APPROVED_POLICY)
            || exists id :: id in before.policies && before.policies[id].name == APPROVED_POLICY
                            && Connects(Everybody(before, group), id, before.peers.Keys)
  {
    var peers, all := before.peers.Keys, Everybody(before, group);
    var made := ClosedIs(before, mid, d, s, group);
    if NoSuchPolicy(before, APPROVED_POLICY) {
      assert s.policies[made] == AllowPolicy(group);
      AllowConnects(s, made, group, peers);
    } else {
      assert forall id :: id in s.policies <==> id in before.policies && id != d;
      assert forall id :: id in s.policies ==> s.policies[id].name != DEFAULT && s.policies[id] == before.policies[id];
      forall id | id in s.policies ensures Connects(s, id, peers) <==> Connects(all, id, peers) {
        SameGroupsConnect(s, all, id, peers);
      }
    }
  }

  lemma {:induction false} SameGroupsConnect(s: State, s': State, id: Id, peers: set<Id>)
    requires s.groups == s'.groups && id in s.policies && id in s'.policies && s.policies[id] == s'.policies[id]
    ensures Connects(s, id, peers) <==> Connects(s', id, peers)
  {
    forall p, q ensures ReachBy(s, s.policies[id], p, q) <==> ReachBy(s', s.policies[id], p, q) {
      SameGroupsReach(s, s', s.policies[id], p, q);
    }
  }

  /** For a policy of the platform's own form that is: it is for the approved group, or
    * for a group that has everybody already. */
  lemma {:induction false} OwnFormConnectsIff(before: State, group: Id, id: Id, g: Id)
    requires id in before.policies && before.policies[id] == AllowPolicy(g)
    ensures Connects(Everybody(before, group), id, before.peers.Keys) <==>
            || g == group || before.peers.Keys == {}
            || (g in before.groups && before.peers.Keys <= before.groups[g].peers)
  {
    var all, peers := Everybody(before, group), before.peers.Keys;
    if g in all.groups && peers <= all.groups[g].peers {
      AllowConnects(all, id, g, peers);
    } else if Connects(all, id, peers) && peers != {} {
      forall p | p in peers ensures g in all.groups && p in all.groups[g].peers {
        assert ReachBy(all, before.policies[id], p, p);
        assert In(all, {g}, p);
      }
      assert false;
    }
  }

  /** The assumption is needed: where "approved devices" names another group, a
    * finished run cuts off two enrolled peers that reached each other before. */
  lemma {:induction false} WrongGroupCutsOff(a: Id, b: Id) returns (before: State, s: State)
    requires a != b
    ensures WellFormed(before) && OneDefault(before) && Joined(before, {a, b}) && before.peers.Keys == {a, b}
    ensures Finished(before, s, 1) && !Reach(s, a, b)
  {
    var everyone := Access({3}, {3}, true, PolicyRule("all", [], []));
    var groups: map<Id, Group> := map[1 := Group(APPROVED_GROUP, {}), 2 := Group("other", {}),
      3 := Group("All", {a, b})];
    var other := Policy(APPROVED_POLICY, AllowPolicy(2).rules);
    before := State(map[4 := Policy(DEFAULT, [everyone]), 5 := other], groups, map[a := "", b := ""], map[], map[], 6);
    s := DropPolicy(PutGroup(before, 1, Group(APPROVED_GROUP, before.peers.Keys)), 4);
    assert before.policies[4].name == DEFAULT && before.policies[5].name == APPROVED_POLICY;
    assert Opened(before, before, 1);
    assert FinishedBy(before, before, 4, s, 1);
    forall p, q | p in {a, b} && q in {a, b} ensures ReachBy(before, before.policies[4], p, q) {
      assert In(before, {3}, p) && In(before, {3}, q);
      assert Allows(before, before.policies[4].rules[0], p, q);
    }
    assert Connects(before, 4, {a, b});
    assert s.policies == map[5 := other] && s.groups[2].peers == {};
    forall i | 0 <= i < |other.rules| ensures !Allows(s, other.rules[i], a, b) {
      assert !In(s, {2}, a);
    }
  }
}
