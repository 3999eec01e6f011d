/** The office network made to match the settings: one router, one address range,
  * and policies for exactly the listed ports (backend/internal/api/gateway.go). The
  * network is put right first, in calls that leave the policies alone, and then the
  * policies, in calls that leave the network alone. */
module OfficeSync {
  import opened Text
  import opened Netbird
  import opened OfficePorts
  import opened RulePolicies

  const OFFICE := "office"
  const OFFICE_GROUP := "office-lan"
  const OFFICE_POLICY := "office access"

  // ---- what may change -------------------------------------------------------

  ghost predicate AtMostOneOffice(ns: map<Id, Network>) {
    forall a, b :: a in ns && b in ns && ns[a].name == OFFICE && ns[b].name == OFFICE ==> a == b
  }

  ghost predicate ForeignNetworksSame(before: map<Id, Network>, after: map<Id, Network>) {
    && (forall id :: id in before && before[id].name != OFFICE ==> id in after && after[id] == before[id])
    && (forall id :: id in after && after[id].name != OFFICE ==> id in before && before[id] == after[id])
  }

  /** Groups stay as they are; an empty office-lan group may be new. */
  ghost predicate GroupsSame(before: map<Id, Group>, after: map<Id, Group>) {
    && (forall id :: id in before ==> id in after && after[id] == before[id])
    && (forall id :: id in after && id !in before ==> after[id] == Group(OFFICE_GROUP, {}))
  }

  /** The office network is there once, with one router and one address range. */
  ghost predicate OfficeRight(ns: map<Id, Network>, gateway: Id, cidr: string) {
    && AtMostOneOffice(ns)
    && exists id :: id in ns && ns[id].name == OFFICE && OneRouter(ns[id].routers, gateway)
        && OneResource(ns[id].resources, cidr)
  }

  ghost predicate OneRouter(routers: map<Id, Id>, gateway: Id) { exists r :: routers == map[r := gateway] }

  ghost predicate OneResource(resources: map<Id, Resource>, cidr: string) {
    exists r: Id, groups :: resources == map[r := Resource(cidr, groups)]
  }

  /** The range is reached through the office-lan group. */
  ghost predicate InLan(s: State, r: Resource) {
    exists g :: g in s.groups && s.groups[g].name == OFFICE_GROUP && r.groups == [g]
  }

  ghost predicate HasRange(ranges: map<Id, Resource>, cidr: string) {
    exists r :: r in ranges && ranges[r].address == cidr
  }

  ghost predicate NewRange(ranges: map<Id, Resource>, cidr: string, lan: Id) {
    exists r: Id :: ranges == map[r := Resource(cidr, [lan])]
  }

  /** Of the ranges there were, one with that address is left if there was any;
    * otherwise there is a new one, in this group. */
  ghost predicate RangeFilled(before: map<Id, Resource>, after: map<Id, Resource>, cidr: string, lan: Id) {
    exists r: Id, res ::
      && after == map[r := res] && res.address == cidr
      && if HasRange(before, cidr) then r in before && before[r] == res else res == Resource(cidr, [lan])
  }

  /** Every range of the office network is one from before, or in that group. */
  ghost predicate RangesFrom(before: State, s: State) {
    forall id, r :: id in s.networks && s.networks[id].name == OFFICE && r in s.networks[id].resources
      ==> RangeFrom(before, id, r, s.networks[id].resources[r]) || InLan(s, s.networks[id].resources[r])
  }

  ghost predicate RangeFrom(before: State, id: Id, r: Id, resource: Resource) {
    id in before.networks && r in before.networks[id].resources && before.networks[id].resources[r] == resource
  }

  /** Before the policies are written: only the office network and its group have
    * changed, and the network not even that if it was right. */
  ghost predicate NetOnly(right: bool, before: State, s: State) {
    && WellFormed(s)
    && s == before.(networks := s.networks, groups := s.groups, nextId := s.nextId)
    && AtMostOneOffice(s.networks)
    && ForeignNetworksSame(before.networks, s.networks)
    && GroupsSame(before.groups, s.groups) && RangesFrom(before, s)
    && (right ==> s.networks == before.networks)
  }

  ghost predicate AllNetOnly(right: bool, before: State, past: seq<State>, n: nat) {
    forall i :: n <= i < |past| ==> NetOnly(right, before, past[i])
  }

  lemma {:induction false} AllNetOnlyStep(right: bool, before: State, past: seq<State>, n: nat, s: State)
    requires AllNetOnly(right, before, past, n) && NetOnly(right, before, s)
    ensures AllNetOnly(right, before, past + [s], n)
  {
  }

  /** A changed office network. */
  lemma {:induction false} PutOffice(before: State, s: State, id: Id, n: Network, nextId: Id)
    requires NetOnly(false, before, s) && id in s.networks && s.networks[id].name == OFFICE && n.name == OFFICE
    requires s.nextId <= nextId && (forall r :: r in n.routers ==> r < nextId)
             && (forall r :: r in n.resources ==> r < nextId)
    requires forall r :: r in n.resources ==> RangeFrom(s, id, r, n.resources[r]) || InLan(s, n.resources[r])
    ensures NetOnly(false, before, PutNetwork(s, id, n).(nextId := nextId))
  {
    PutOfficeRanges(before, s, id, n, nextId);
  }

  lemma {:induction false} PutOfficeRanges(before: State, s: State, id: Id, n: Network, nextId: Id)
    requires RangesFrom(before, s) && id in s.networks && s.networks[id].name == OFFICE
    requires forall r :: r in n.resources ==> RangeFrom(s, id, r, n.resources[r]) || InLan(s, n.resources[r])
    ensures RangesFrom(before, PutNetwork(s, id, n).(nextId := nextId))
  {
    var s' := PutNetwork(s, id, n).(nextId := nextId);
    SameLan(s, s');
    forall i, r | i in s'.networks && s'.networks[i].name == OFFICE && r in s'.networks[i].resources
      ensures RangeFrom(before, i, r, s'.networks[i].resources[r]) || InLan(s', s'.networks[i].resources[r])
    {
      if i == id {
        assert s'.networks[i] == n;
      } else {
        assert s'.networks[i] == s.networks[i];
      }
    }
  }

  /** Groups of that name stay. */
  lemma {:induction false} SameLan(s: State, s': State)
    requires forall g :: g in s.groups && s.groups[g].name == OFFICE_GROUP
                         ==> g in s'.groups && s'.groups[g] == s.groups[g]
    ensures forall r :: InLan(s, r) ==> InLan(s', r)
  {
  }

  // ---- keeping one of many ---------------------------------------------------

  /** After the first i: all dropped but the one kept, the first good one. */
  ghost predicate OneKept<V>(before: map<Id, V>, good: set<Id>, ids: seq<Id>, i: nat, now: map<Id, V>, have: bool,
          kept: Id)
    requires i <= |ids|
  {
    && (forall id :: id in now ==> id in before && now[id] == before[id])
    && (forall j :: i <= j < |ids| ==> ids[j] in now)
    && (forall j :: 0 <= j < i ==> (ids[j] in now <==> have && ids[j] == kept))
    && (if have then kept in good && kept in now else forall j :: 0 <= j < i ==> ids[j] !in good)
  }

  lemma {:induction false} OneKeptDrop<V>(before: map<Id, V>, good: set<Id>, ids: seq<Id>, i: nat, now: map<Id, V>,
          have: bool, kept: Id)
    requires i < |ids| && Lists(ids, before) && OneKept(before, good, ids, i, now, have, kept)
    requires have ==> exists j :: 0 <= j < i && ids[j] == kept
    requires ids[i] !in good || have
    ensures OneKept(before, good, ids, i + 1, now - {ids[i]}, have, kept)
  {
  }

  lemma {:induction false} OneKeptTake<V>(before: map<Id, V>, good: set<Id>, ids: seq<Id>, i: nat, now: map<Id, V>,
          kept: Id)
    requires i < |ids| && Lists(ids, before) && OneKept(before, good, ids, i, now, false, kept) && ids[i] in good
    ensures OneKept(before, good, ids, i + 1, now, true, ids[i])
  {
  }

  lemma {:induction false} OneKeptEnd<V>(before: map<Id, V>, good: set<Id>, ids: seq<Id>, now: map<Id, V>, have: bool,
          kept: Id)
    requires Lists(ids, before) && OneKept(before, good, ids, |ids|, now, have, kept)
    ensures if have then kept in before && kept in good && now == map[kept := before[kept]] else now == map[]
  {
    forall id | id in now ensures have && id == kept {
      assert id in ids;
    }
    if have {
      assert now == map[kept := before[kept]];
    }
  }

  ghost predicate SingleGood(keys: set<Id>, good: set<Id>) { exists only :: keys == {only} && only in good }

  /** A drop means there was not just the one object, a good one. */
  lemma {:induction false} DropMeansMany<V>(before: map<Id, V>, good: set<Id>, ids: seq<Id>, i: nat, now: map<Id, V>,
          have: bool, kept: Id)
    requires i < |ids| && Lists(ids, before) && OneKept(before, good, ids, i, now, have, kept)
    requires have ==> exists j :: 0 <= j < i && ids[j] == kept
    requires ids[i] !in good || have
    ensures !SingleGood(before.Keys, good)
  {
    assert ids[i] in before.Keys;
    if ids[i] in good {
      var j :| 0 <= j < i && ids[j] == kept;
      assert ids[j] in before.Keys && ids[j] != ids[i];
    }
  }

  // ---- the steps -------------------------------------------------------------

  ghost predicate IsOffice(s: State, id: Id) { id in s.networks && s.networks[id].name == OFFICE }

  /** Some routers or address ranges of network id are gone, and nothing else. */
  ghost predicate Fewer(start: State, id: Id, s: State)
    requires id in start.networks
  {
    && id in s.networks && s == PutNetwork(start, id, s.networks[id])
    && s.networks[id].name == start.networks[id].name
    && s.networks[id].routers.Keys <= start.networks[id].routers.Keys
    && (forall r :: r in s.networks[id].resources ==> RangeFrom(start, id, r, s.networks[id].resources[r]))
  }

  ghost predicate AllFewer(start: State, id: Id, past: seq<State>, n: nat)
    requires id in start.networks
  {
    forall i :: n <= i < |past| ==> Fewer(start, id, past[i])
  }

  lemma {:induction false} AllFewerStep(start: State, id: Id, past: seq<State>, n: nat, s: State)
    requires id in start.networks && AllFewer(start, id, past, n) && Fewer(start, id, s)
    ensures AllFewer(start, id, past + [s], n)
  {
  }

  lemma {:induction false} FewerKeeps(before: State, start: State, id: Id, s: State)
    requires NetOnly(false, before, start) && IsOffice(start, id) && Fewer(start, id, s)
    ensures NetOnly(false, before, s)
  {
    assert forall r :: r in s.networks[id].resources ==> r in start.networks[id].resources;
    PutOffice(before, start, id, s.networks[id], start.nextId);
  }

  method DropOneRouter(nb: Account, id: Id, router: Id, ghost start: State) returns (ok: bool)
    requires id in start.networks && Fewer(start, id, nb.now)
    modifies nb
    ensures nb.failures >= old(nb.failures) && (ok <==> nb.failures == old(nb.failures))
    ensures nb.past == old(nb.past) + [nb.now] && Fewer(start, id, nb.now)
    ensures nb.now.networks[id].resources == old(nb.now.networks[id].resources)
    ensures ok ==> nb.now.networks[id].routers == old(nb.now.networks[id].routers) - {router}
  {
    ok := nb.Do(DropRouter(nb.now, id, router));
  }

  /** Drops every router but the first through the gateway. */
  method ClearRouters(nb: Account, id: Id, gateway: Id) returns (ok: bool, haveRouter: bool)
    requires IsOffice(nb.now, id)
    modifies nb
    ensures nb.failures >= old(nb.failures) && (ok <==> nb.failures == old(nb.failures))
    ensures old(nb.past) <= nb.past && AllFewer(old(nb.now), id, nb.past, |old(nb.past)|)
    ensures Fewer(old(nb.now), id, nb.now) && nb.now.networks[id].resources == old(nb.now).networks[id].resources
    ensures ok ==> if haveRouter then OneRouter(nb.now.networks[id].routers, gateway)
            else nb.now.networks[id].routers == map[]
    ensures old(OneRouter(nb.now.networks[id].routers, gateway))
            ==> nb.past == old(nb.past) && nb.now == old(nb.now) && (ok ==> haveRouter)
  {
    var routers, ids := nb.now.networks[id].routers, [];
    ghost var start, good := nb.now, set r | r in routers && routers[r] == gateway;
    haveRouter := false;
    ok, ids := nb.List(routers);
    if !ok {
      return;
    }
    ghost var kept := 0;
    NotRight(routers, good, gateway);
    for i := 0 to |ids|
      invariant ok && nb.failures == old(nb.failures)
      invariant old(nb.past) <= nb.past && AllFewer(start, id, nb.past, |old(nb.past)|)
      invariant Fewer(start, id, nb.now) && nb.now.networks[id].resources == start.networks[id].resources
      invariant OneKept(routers, good, ids, i, nb.now.networks[id].routers, haveRouter, kept)
      invariant haveRouter ==> exists j :: 0 <= j < i && ids[j] == kept
      invariant SingleGood(routers.Keys, good) ==> nb.past == old(nb.past) && nb.now == start
    {
      if routers[ids[i]] == gateway && !haveRouter {
        OneKeptTake(routers, good, ids, i, nb.now.networks[id].routers, kept);
        haveRouter, kept := true, ids[i];
        continue;
      }
      DropMeansMany(routers, good, ids, i, nb.now.networks[id].routers, haveRouter, kept);
      OneKeptDrop(routers, good, ids, i, nb.now.networks[id].routers, haveRouter, kept);
      ghost var past := nb.past;
      ok := DropOneRouter(nb, id, ids[i], start);
      AllFewerStep(start, id, past, |old(nb.past)|, nb.now);
      if !ok {
        return;
      }
    }
    OneRouterLeft(routers, good, ids, nb.now.networks[id].routers, haveRouter, kept, gateway);
  }

  lemma {:induction false} OneRouterLeft(routers: map<Id, Id>, good: set<Id>, ids: seq<Id>, now: map<Id, Id>,
          have: bool, kept: Id, gateway: Id)
    requires Lists(ids, routers) && OneKept(routers, good, ids, |ids|, now, have, kept)
    requires good == set r | r in routers && routers[r] == gateway
    ensures if have then OneRouter(now, gateway) else now == map[]
  {
    OneKeptEnd(routers, good, ids, now, have, kept);
  }

  lemma {:induction false} NotRight(routers: map<Id, Id>, good: set<Id>, gateway: Id)
    requires good == set r | r in routers && routers[r] == gateway
    ensures OneRouter(routers, gateway) ==> SingleGood(routers.Keys, good) && routers != map[]
  {
    if r :| routers == map[r := gateway] {
      assert routers.Keys == {r} && r in good;
    }
  }

  method DropOneResource(nb: Account, id: Id, resource: Id, ghost start: State) returns (ok: bool)
    requires id in start.networks && Fewer(start, id, nb.now)
    modifies nb
    ensures nb.failures >= old(nb.failures) && (ok <==> nb.failures == old(nb.failures))
    ensures nb.past == old(nb.past) + [nb.now] && Fewer(start, id, nb.now)
    ensures nb.now.networks[id].routers == old(nb.now.networks[id].routers)
    ensures ok ==> nb.now.networks[id].resources == old(nb.now.networks[id].resources) - {resource}
  {
    ok := nb.Do(DropResource(nb.now, id, resource));
  }

  /** Drops every address range but the first of this one. */
  method ClearResources(nb: Account, id: Id, cidr: string) returns (ok: bool, haveResource: bool)
    requires IsOffice(nb.now, id)
    modifies nb
    ensures nb.failures >= old(nb.failures) && (ok <==> nb.failures == old(nb.failures))
    ensures old(nb.past) <= nb.past && AllFewer(old(nb.now), id, nb.past, |old(nb.past)|)
    ensures Fewer(old(nb.now), id, nb.now) && nb.now.networks[id].routers == old(nb.now).networks[id].routers
    ensures ok ==> haveResource == HasRange(old(nb.now).networks[id].resources, cidr)
    ensures ok ==> if haveResource then OneResource(nb.now.networks[id].resources, cidr)
            else nb.now.networks[id].resources == map[]
    ensures old(OneResource(nb.now.networks[id].resources, cidr))
            ==> nb.past == old(nb.past) && nb.now == old(nb.now) && (ok ==> haveResource)
  {
    var resources, ids := nb.now.networks[id].resources, [];
    ghost var start, good := nb.now, set r | r in resources && resources[r].address == cidr;
    haveResource := false;
    ok, ids := nb.List(resources);
    if !ok {
      return;
    }
    ghost var kept := 0;
    NotRightResource(resources, good, cidr);
    for i := 0 to |ids|
      invariant ok && nb.failures == old(nb.failures)
      invariant old(nb.past) <= nb.past && AllFewer(start, id, nb.past, |old(nb.past)|)
      invariant Fewer(start, id, nb.now) && nb.now.networks[id].routers == start.networks[id].routers
      invariant OneKept(resources, good, ids, i, nb.now.networks[id].resources, haveResource, kept)
      invariant haveResource ==> exists j :: 0 <= j < i && ids[j] == kept
      invariant SingleGood(resources.Keys, good) ==> nb.past == old(nb.past) && nb.now == start
    {
      if resources[ids[i]].address == cidr && !haveResource {
        OneKeptTake(resources, good, ids, i, nb.now.networks[id].resources, kept);
        haveResource, kept := true, ids[i];
        continue;
      }
      DropMeansMany(resources, good, ids, i, nb.now.networks[id].resources, haveResource, kept);
      OneKeptDrop(resources, good, ids, i, nb.now.networks[id].resources, haveResource, kept);
      ghost var past := nb.past;
      ok := DropOneResource(nb, id, ids[i], start);
      AllFewerStep(start, id, past, |old(nb.past)|, nb.now);
      if !ok {
        return;
      }
    }
    OneResourceLeft(resources, good, ids, nb.now.networks[id].resources, haveResource, kept, cidr);
  }

  lemma {:induction false} OneResourceLeft(resources: map<Id, Resource>, good: set<Id>, ids: seq<Id>, now: map<Id,
          Resource>, have: bool, kept: Id,
                                           cidr: string)
    requires Lists(ids, resources) && OneKept(resources, good, ids, |ids|, now, have, kept)
    requires good == set r | r in resources && resources[r].address == cidr
    ensures if have then OneResource(now, cidr) else now == map[]
    ensures have == HasRange(resources, cidr)
  {
    OneKeptEnd(resources, good, ids, now, have, kept);
    if have {
      assert resources[kept] == Resource(cidr, resources[kept].groups);
    }
  }

  lemma {:induction false} NotRightResource(resources: map<Id, Resource>, good: set<Id>, cidr: string)
    requires good == set r | r in resources && resources[r].address == cidr
    ensures OneResource(resources, cidr) ==> SingleGood(resources.Keys, good) && resources != map[]
  {
    if r: Id, groups :| resources == map[r := Resource(cidr, groups)] {
      assert resources.Keys == {r} && r in good;
    }
  }

  /** The office network given its one router and its one address range. */
  method FillOffice(nb: Account, id: Id, gateway: Id, cidr: string, lan: Id, ghost right: bool, ghost before: State)
    returns (ok: bool)
    requires NetOnly(right, before, nb.now) && IsOffice(nb.now, id)
    requires lan in nb.now.groups && nb.now.groups[lan].name == OFFICE_GROUP
    requires right ==> OfficeRight(nb.now.networks, gateway, cidr)
    modifies nb
    ensures nb.failures >= old(nb.failures) && (ok <==> nb.failures == old(nb.failures))
    ensures old(nb.past) <= nb.past && AllNetOnly(right, before, nb.past, |old(nb.past)|)
            && NetOnly(right, before, nb.now)
    ensures nb.now.groups == old(nb.now.groups)
    ensures ok ==> OfficeRight(nb.now.networks, gateway, cidr)
    ensures ok ==> IsOffice(nb.now, id)
                   && RangeFilled(old(nb.now.networks[id].resources), nb.now.networks[id].resources, cidr, lan)
  {
    ok := FillRouters(nb, id, gateway, right, before);
    if !ok {
      return;
    }
    ghost var past := nb.past;
    ok := FillResources(nb, id, cidr, lan, right, before);
    AllNetOnlyJoin(right, before, past, nb.past, |old(nb.past)|);
  }

  lemma {:induction false} AllNetOnlyJoin(right: bool, before: State, past: seq<State>, past': seq<State>, n: nat)
    requires past <= past' && AllNetOnly(right, before, past, n) && AllNetOnly(right, before, past', |past|)
    ensures AllNetOnly(right, before, past', n)
  {
    forall i | n <= i < |past'| ensures NetOnly(right, before, past'[i]) {
      assert i < |past| ==> past'[i] == past[i];
    }
  }

  lemma {:induction false} AllFewerKeeps(right: bool, before: State, start: State, id: Id, past: seq<State>, n: nat)
    requires NetOnly(right, before, start) && IsOffice(start, id) && AllFewer(start, id, past, n)
    requires right ==> n == |past|
    ensures AllNetOnly(right, before, past, n)
  {
    forall i | n <= i < |past| ensures NetOnly(right, before, past[i]) {
      FewerKeeps(before, start, id, past[i]);
    }
  }

  method FillRouters(nb: Account, id: Id, gateway: Id, ghost right: bool, ghost before: State) returns (ok: bool)
    requires NetOnly(right, before, nb.now) && IsOffice(nb.now, id)
    requires right ==> OneRouter(nb.now.networks[id].routers, gateway)
    modifies nb
    ensures nb.failures >= old(nb.failures) && (ok <==> nb.failures == old(nb.failures))
    ensures old(nb.past) <= nb.past && AllNetOnly(right, before, nb.past, |old(nb.past)|)
            && NetOnly(right, before, nb.now)
    ensures nb.now.groups == old(nb.now.groups) && IsOffice(nb.now, id)
    ensures nb.now.networks[id].resources == old(nb.now.networks[id].resources)
    ensures ok ==> OneRouter(nb.now.networks[id].routers, gateway)
  {
    ghost var start := nb.now;
    var haveRouter;
    ok, haveRouter := ClearRouters(nb, id, gateway);
    AllFewerKeeps(right, before, start, id, nb.past, |old(nb.past)|);
    FewerKeeps(before, start, id, nb.now);
    if ok && !haveRouter {
      ghost var past := nb.past;
      ok := AddOneRouter(nb, id, gateway, before);
      AllNetOnlyStep(right, before, past, |old(nb.past)|, nb.now);
    }
  }

  method AddOneRouter(nb: Account, id: Id, gateway: Id, ghost before: State) returns (ok: bool)
    requires NetOnly(false, before, nb.now) && IsOffice(nb.now, id) && nb.now.networks[id].routers == map[]
    modifies nb
    ensures nb.failures >= old(nb.failures) && (ok <==> nb.failures == old(nb.failures))
    ensures nb.past == old(nb.past) + [nb.now] && NetOnly(false, before, nb.now) && IsOffice(nb.now, id)
    ensures nb.now.groups == old(nb.now.groups) && nb.now.networks[id].resources == old(nb.now.networks[id].resources)
    ensures ok ==> OneRouter(nb.now.networks[id].routers, gateway)
  {
    ghost var s := nb.now;
    PutOffice(before, s, id, s.networks[id].(routers := s.networks[id].routers[s.nextId := gateway]), s.nextId + 1);
    ok := nb.Do(AddRouter(nb.now, id, gateway));
    assert ok ==> nb.now.networks[id].routers == map[s.nextId := gateway];
  }

  method FillResources(nb: Account, id: Id, cidr: string, lan: Id, ghost right: bool, ghost before: State)
    returns (ok: bool)
    requires NetOnly(right, before, nb.now) && IsOffice(nb.now, id)
    requires lan in nb.now.groups && nb.now.groups[lan].name == OFFICE_GROUP
    requires right ==> OneResource(nb.now.networks[id].resources, cidr)
    modifies nb
    ensures nb.failures >= old(nb.failures) && (ok <==> nb.failures == old(nb.failures))
    ensures old(nb.past) <= nb.past && AllNetOnly(right, before, nb.past, |old(nb.past)|)
            && NetOnly(right, before, nb.now)
    ensures nb.now.groups == old(nb.now.groups) && IsOffice(nb.now, id)
    ensures nb.now.networks[id].routers == old(nb.now.networks[id].routers)
    ensures ok ==> OneResource(nb.now.networks[id].resources, cidr)
    ensures ok ==> RangeFilled(old(nb.now.networks[id].resources), nb.now.networks[id].resources, cidr, lan)
  {
    ghost var start := nb.now;
    var haveResource;
    ok, haveResource := ClearResources(nb, id, cidr);
    AllFewerKeeps(right, before, start, id, nb.past, |old(nb.past)|);
    FewerKeeps(before, start, id, nb.now);
    if ok && haveResource {
      RangeLeft(start, id, nb.now, cidr, lan);
    } else if ok {
      ghost var past := nb.past;
      ok := AddOneResource(nb, id, cidr, lan, before);
      AllNetOnlyStep(right, before, past, |old(nb.past)|, nb.now);
      if ok {
        RangeNew(start.networks[id].resources, nb.now.networks[id].resources, cidr, lan);
      }
    }
  }

  lemma {:induction false} RangeLeft(start: State, id: Id, s: State, cidr: string, lan: Id)
    requires id in start.networks && Fewer(start, id, s) && OneResource(s.networks[id].resources, cidr)
    ensures RangeFilled(start.networks[id].resources, s.networks[id].resources, cidr, lan)
  {
    var r: Id, groups :| s.networks[id].resources == map[r := Resource(cidr, groups)];
    assert RangeFrom(start, id, r, s.networks[id].resources[r]);
    assert start.networks[id].resources[r].address == cidr;
  }

  lemma {:induction false} RangeNew(before: map<Id, Resource>, after: map<Id, Resource>, cidr: string, lan: Id)
    requires !HasRange(before, cidr) && NewRange(after, cidr, lan)
    ensures RangeFilled(before, after, cidr, lan)
  {
    var r: Id :| after == map[r := Resource(cidr, [lan])];
    assert after[r].address == cidr;
  }

  method AddOneResource(nb: Account, id: Id, cidr: string, lan: Id, ghost before: State) returns (ok: bool)
    requires NetOnly(false, before, nb.now) && IsOffice(nb.now, id) && nb.now.networks[id].resources == map[]
    requires lan in nb.now.groups && nb.now.groups[lan].name == OFFICE_GROUP
    modifies nb
    ensures nb.failures >= old(nb.failures) && (ok <==> nb.failures == old(nb.failures))
    ensures nb.past == old(nb.past) + [nb.now] && NetOnly(false, before, nb.now) && IsOffice(nb.now, id)
    ensures nb.now.groups == old(nb.now.groups) && nb.now.networks[id].routers == old(nb.now.networks[id].routers)
    ensures ok ==> OneResource(nb.now.networks[id].resources, cidr)
    ensures ok ==> NewRange(nb.now.networks[id].resources, cidr, lan)
  {
    var r := Resource(cidr, [lan]);
    ghost var s := nb.now;
    assert InLan(s, r);
    PutOffice(before, s, id, s.networks[id].(resources := s.networks[id].resources[s.nextId := r]), s.nextId + 1);
    ok := nb.Do(AddResource(nb.now, id, r));
    assert ok ==> nb.now.networks[id].resources == map[s.nextId := r];
  }

  // ---- the whole -------------------------------------------------------------

  ghost predicate NoOffice(ns: map<Id, Network>) { forall id :: id in ns ==> ns[id].name != OFFICE }

  /** What the settings ask for: nothing, or the network as above. */
  ghost predicate Wanted(ns: map<Id, Network>, gateway: Id, cidr: string) {
    if cidr == "" then NoOffice(ns) else OfficeRight(ns, gateway, cidr)
  }

  /** What any state on the way may differ in: the office network, an office-lan
    * group, and the office policies, each from before or one of the wanted. */
  ghost predicate Touched(right: bool, before: State, plan: Plan, rules: seq<PolicyRule>, s: State) {
    && WellFormed(s)
    && s.routes == before.routes && s.peers == before.peers
    && AtMostOneOffice(s.networks) && ForeignNetworksSame(before.networks, s.networks)
        && GroupsSame(before.groups, s.groups)
    && RangesFrom(before, s)
    && (right ==> s.networks == before.networks)
    && Between(plan, rules, |rules|, before.policies, s.policies)
    && (UniqueNames(plan, before.policies) ==> UniqueNames(plan, s.policies))
  }

  ghost predicate AllTouched(right: bool, before: State, plan: Plan, rules: seq<PolicyRule>, past: seq<State>, n: nat) {
    forall i :: n <= i < |past| ==> Touched(right, before, plan, rules, past[i])
  }

  lemma {:induction false} NetTouched(right: bool, before: State, plan: Plan, rules: seq<PolicyRule>, s: State)
    requires NetOnly(right, before, s)
    ensures Touched(right, before, plan, rules, s)
  {
  }

  lemma {:induction false} KeptTouched(right: bool, before: State, plan: Plan, rules: seq<PolicyRule>, mid: State,
          s: State)
    requires NetOnly(right, before, mid) && Kept(plan, rules, mid, s)
    ensures Touched(right, before, plan, rules, s)
  {
  }

  /** A stretch of network changes, then one of policy changes. */
  lemma {:induction false} PhasesTouched(right: bool, before: State, plan: Plan, rules: seq<PolicyRule>, mid: State,
                                         past: seq<State>, past': seq<State>, n: nat)
    requires past <= past' && AllNetOnly(right, before, past, n)
    requires NetOnly(right, before, mid) && AllKept(plan, rules, mid, past', |past|)
    ensures AllTouched(right, before, plan, rules, past', n)
  {
    forall i | n <= i < |past'| ensures Touched(right, before, plan, rules, past'[i]) {
      if i < |past| {
        assert past'[i] == past[i];
        NetTouched(right, before, plan, rules, past[i]);
      } else {
        KeptTouched(right, before, plan, rules, mid, past'[i]);
      }
    }
  }

  /** The group the office resource is in: found by name, or new. */
  method EnsureGroup(nb: Account, ghost right: bool, ghost before: State) returns (ok: bool, lan: Id)
    requires NetOnly(right, before, nb.now)
    modifies nb
    ensures nb.failures >= old(nb.failures) && (ok <==> nb.failures == old(nb.failures))
    ensures old(nb.past) <= nb.past && AllNetOnly(right, before, nb.past, |old(nb.past)|)
            && NetOnly(right, before, nb.now)
    ensures nb.now.networks == old(nb.now.networks)
    ensures ok ==> lan in nb.now.groups && nb.now.groups[lan].name == OFFICE_GROUP
  {
    var ids;
    lan := 0;
    ok, ids := nb.List(nb.now.groups);
    if !ok {
      return;
    }
    var found;
    found, lan := FindByName(nb.now.groups, ids, (g: Group) => g.name, OFFICE_GROUP);
    if !found {
      ghost var past := nb.past;
      lan := nb.now.nextId;
      ok := nb.Do(AddGroup(nb.now, OFFICE_GROUP));
      AllNetOnlyStep(right, before, past, |old(nb.past)|, nb.now);
    }
  }

  method EnsureNetwork(nb: Account, found: bool, id: Id, ghost right: bool, ghost before: State)
    returns (ok: bool, network: Id)
    requires NetOnly(right, before, nb.now)
    requires if found then IsOffice(nb.now, id) else NoOffice(nb.now.networks)
    requires right ==> found
    modifies nb
    ensures nb.failures >= old(nb.failures) && (ok <==> nb.failures == old(nb.failures))
    ensures old(nb.past) <= nb.past && AllNetOnly(right, before, nb.past, |old(nb.past)|)
            && NetOnly(right, before, nb.now)
    ensures nb.now.groups == old(nb.now.groups) && (ok ==> IsOffice(nb.now, network))
    ensures right ==> nb.now.networks == old(nb.now.networks)
    ensures ok ==> if found then network == id && nb.now.networks == old(nb.now.networks)
            else nb.now.networks[network].resources == map[]
  {
    ok, network := true, id;
    if !found {
      ghost var past := nb.past;
      NewOffice(before, nb.now);
      network := nb.now.nextId;
      ok := nb.Do(AddNetwork(nb.now, OFFICE));
      AllNetOnlyStep(right, before, past, |old(nb.past)|, nb.now);
    }
  }

  lemma {:induction false} NewOffice(before: State, s: State)
    requires NetOnly(false, before, s) && NoOffice(s.networks)
    ensures NetOnly(false, before, AddNetwork(s, OFFICE))
  {
    NewOfficeRanges(before, s);
  }

  lemma {:induction false} NewOfficeRanges(before: State, s: State)
    requires RangesFrom(before, s) && NoOffice(s.networks)
    ensures RangesFrom(before, AddNetwork(s, OFFICE))
  {
    assert AddNetwork(s, OFFICE).networks[s.nextId].resources == map[];
  }

  method DropOffice(nb: Account, found: bool, id: Id) returns (ok: bool)
    requires WellFormed(nb.now) && AtMostOneOffice(nb.now.networks)
    requires if found then IsOffice(nb.now, id) else NoOffice(nb.now.networks)
    modifies nb
    ensures nb.failures >= old(nb.failures) && (ok <==> nb.failures == old(nb.failures))
    ensures old(nb.past) <= nb.past && AllNetOnly(!found, old(nb.now), nb.past, |old(nb.past)|)
    ensures NetOnly(!found, old(nb.now), nb.now) && nb.now.policies == old(nb.now.policies)
    ensures ok ==> NoOffice(nb.now.networks)
  {
    ok := true;
    if found {
      ok := nb.Do(DropNetwork(nb.now, id));
    }
  }

  /** The office network switched off. */
  method RemoveOffice(nb: Account, found: bool, id: Id, approved: Id) returns (ok: bool)
    requires WellFormed(nb.now) && AtMostOneOffice(nb.now.networks)
    requires if found then IsOffice(nb.now, id) else NoOffice(nb.now.networks)
    modifies nb
    ensures nb.failures >= old(nb.failures) && (ok <==> nb.failures == old(nb.failures))
    ensures (var right, plan := !found, Plan(OFFICE_POLICY, approved, 0);
             old(nb.past) <= nb.past && AllTouched(right, old(nb.now), plan, [], nb.past, |old(nb.past)|)
                 && Touched(right, old(nb.now), plan, [], nb.now)
             && (ok ==> NoOffice(nb.now.networks) && Settled(plan, [], old(nb.now.policies), nb.now.policies)))
  {
    ghost var before, right := nb.now, !found;
    var plan := Plan(OFFICE_POLICY, approved, 0);
    ok := DropOffice(nb, found, id);
    ghost var mid, past := nb.now, nb.past;
    if ok {
      ok := DeletePoliciesWithPrefix(nb, plan, {}, [], mid);
    }
    PhasesTouched(right, before, plan, [], mid, past, nb.past, |old(nb.past)|);
    KeptTouched(right, before, plan, [], mid, nb.now);
  }

  /** What a finished run leaves: the network as wanted, and policies under the
    * office name that let through exactly what the list says. */
  ghost predicate OfficeDone(plan: Plan, gateway: Id, cidr: string, ports: string, before: State, s: State) {
    && Wanted(s.networks, gateway, cidr)
    && (cidr != "" ==> GoodList(ports) && plan.destination in s.groups
                       && s.groups[plan.destination].name == OFFICE_GROUP)
    && (UniqueNames(plan, before.policies) ==>
          forall f :: OwnedAdmit(plan, s.policies, f) <==> cidr != "" && ListAdmits(ports, f))
  }

  lemma {:induction false} DoneOff(plan: Plan, gateway: Id, ports: string, before: State, s: State)
    requires Settled(plan, [], before.policies, s.policies) && NoOffice(s.networks)
    requires UniqueNames(plan, before.policies) ==> UniqueNames(plan, s.policies)
    ensures OfficeDone(plan, gateway, "", ports, before, s)
  {
    if UniqueNames(plan, before.policies) {
      forall f ensures !OwnedAdmit(plan, s.policies, f) {
        SettledAdmits(plan, [], before.policies, s.policies, f);
      }
    }
  }

  lemma {:induction false} DoneOn(plan: Plan, gateway: Id, cidr: string, ports: string, rules: seq<PolicyRule>,
          before: State, s: State)
    requires Settled(plan, rules, before.policies, s.policies) && OfficeRight(s.networks, gateway, cidr) && cidr != ""
             && GoodList(ports)
    requires plan.destination in s.groups && s.groups[plan.destination].name == OFFICE_GROUP
    requires UniqueNames(plan, before.policies) ==> UniqueNames(plan, s.policies)
    requires forall f :: RulesAdmit(rules, f) <==> ListAdmits(ports, f)
    ensures OfficeDone(plan, gateway, cidr, ports, before, s)
  {
    if UniqueNames(plan, before.policies) {
      forall f ensures OwnedAdmit(plan, s.policies, f) <==> ListAdmits(ports, f) {
        SettledAdmits(plan, rules, before.policies, s.policies, f);
      }
    }
  }

  /** The address ranges of the office network, if there is one. */
  ghost predicate OfficeRanges(ns: map<Id, Network>, ranges: map<Id, Resource>) {
    if NoOffice(ns) then ranges == map[]
    else exists id :: id in ns && ns[id].name == OFFICE && ns[id].resources == ranges
  }

  /** The range of a finished run: one from before with that address, or a new one in
    * the group the policies lead to. */
  ghost predicate RangeDone(lan: Id, cidr: string, before: map<Id, Network>, after: map<Id, Network>) {
    exists was, left :: OfficeRanges(before, was) && OfficeRanges(after, left) && RangeFilled(was, left, cidr, lan)
  }

  /** The network phase of a run with the office network on. */
  method BuildOffice(nb: Account, found: bool, office: Id, gateway: Id, cidr: string, ghost right: bool)
    returns (ok: bool, lan: Id)
    requires WellFormed(nb.now) && AtMostOneOffice(nb.now.networks)
    requires if found then IsOffice(nb.now, office) else NoOffice(nb.now.networks)
    requires right ==> OfficeRight(nb.now.networks, gateway, cidr)
    modifies nb
    ensures nb.failures >= old(nb.failures) && (ok <==> nb.failures == old(nb.failures))
    ensures old(nb.past) <= nb.past && AllNetOnly(right, old(nb.now), nb.past, |old(nb.past)|)
            && NetOnly(right, old(nb.now), nb.now)
    ensures ok ==> OfficeRight(nb.now.networks, gateway, cidr) && lan in nb.now.groups
                   && nb.now.groups[lan].name == OFFICE_GROUP
    ensures ok ==> RangeDone(lan, cidr, old(nb.now.networks), nb.now.networks)
  {
    ghost var before, n := nb.now, |nb.past|;
    ok, lan := EnsureGroup(nb, right, before);
    if !ok {
      return;
    }
    ghost var past := nb.past;
    var network;
    ok, network := EnsureNetwork(nb, found, office, right, before);
    AllNetOnlyJoin(right, before, past, nb.past, n);
    if !ok {
      return;
    }
    past := nb.past;
    ghost var was := nb.now.networks[network].resources;
    ok := FillOffice(nb, network, gateway, cidr, lan, right, before);
    AllNetOnlyJoin(right, before, past, nb.past, n);
    if ok {
      assert OfficeRanges(before.networks, was);
      assert OfficeRanges(nb.now.networks, nb.now.networks[network].resources);
    }
  }

  /** The range of a finished run is in the group the policies lead to if and only if
    * the ones from before with that address are (all or none of them; there being none
    * at all, it is). */
  lemma {:induction false} RangeReachedIff(lan: Id, cidr: string, before: map<Id, Network>, after: map<Id, Network>,
          was: map<Id, Resource>, left: map<Id, Resource>)
    requires RangeDone(lan, cidr, before, after) && AtMostOneOffice(before) && AtMostOneOffice(after)
    requires OfficeRanges(before, was) && OfficeRanges(after, left)
    requires forall a, b :: a in was && b in was && was[a].address == was[b].address == cidr
                            ==> (was[a].groups == [lan] <==> was[b].groups == [lan])
    ensures (forall r :: r in left ==> left[r].groups == [lan])
            <==> forall r :: r in was && was[r].address == cidr ==> was[r].groups == [lan]
  {
    if r: Id, res :| left == map[r := res] && r in was && was[r] == res && res.address == cidr {
      assert r in left && left[r] == res;
    }
  }

  /** syncOfficeNetwork. Every state on the way leaves foreign objects, routes and
    * peers alone, and lets nothing through that neither the policies from before
    * nor the list does; a network that is right is not touched; a finished run has
    * done what OfficeDone says. A list with a bad item changes nothing. */
  method SyncOffice(nb: Account, approved: Id, gateway: Id, cidr: string, ports: string)
    returns (ok: bool, ghost plan: Plan, ghost rules: seq<PolicyRule>)
    requires WellFormed(nb.now) && AtMostOneOffice(nb.now.networks)
    modifies nb
    ensures plan.prefix == OFFICE_POLICY && plan.source == approved
    ensures nb.failures >= old(nb.failures)
            && (ok <==> nb.failures == old(nb.failures) && (cidr == "" || GoodList(ports)))
    ensures old(nb.past) <= nb.past
    ensures AllTouched(old(Wanted(nb.now.networks, gateway, cidr)), old(nb.now), plan, rules, nb.past, |old(nb.past)|)
    ensures Touched(old(Wanted(nb.now.networks, gateway, cidr)), old(nb.now), plan, rules, nb.now)
    ensures forall f :: RulesAdmit(rules, f) ==> cidr != "" && ListAdmits(ports, f)
    ensures ok ==> OfficeDone(plan, gateway, cidr, ports, old(nb.now), nb.now)
    ensures ok && cidr != "" ==> RangeDone(plan.destination, cidr, old(nb.now.networks), nb.now.networks)
    ensures cidr != "" && !GoodList(ports) ==> !ok && nb.now == old(nb.now) && nb.past == old(nb.past)
  {
    ghost var before, n, right := nb.now, |nb.past|, Wanted(nb.now.networks, gateway, cidr);
    plan, rules := Plan(OFFICE_POLICY, approved, 0), [];
    NetTouched(right, before, plan, rules, before);
    var ids;
    ok, ids := nb.List(nb.now.networks);
    if !ok {
      return;
    }
    var found, office := FindByName(nb.now.networks, ids, (w: Network) => w.name, OFFICE);
    if cidr == "" {
      ok := RemoveOffice(nb, found, office, approved);
      if ok {
        DoneOff(plan, gateway, ports, before, nb.now);
      }
      return;
    }
    var parsed := ParseOfficePorts(ports);
    if parsed.BadItem? {
      ok := false;
      return;
    }
    rules := parsed.rules;
    ok, plan := KeepOffice(nb, approved, gateway, cidr, parsed.rules, found, office, right);
    if ok {
      DoneOn(plan, gateway, cidr, ports, rules, before, nb.now);
    }
  }

  /** The office network switched on: the network first, then the policies. */
  method KeepOffice(nb: Account, approved: Id, gateway: Id, cidr: string, rules: seq<PolicyRule>, found: bool,
          office: Id, ghost right: bool)
    returns (ok: bool, ghost plan: Plan)
    requires WellFormed(nb.now) && AtMostOneOffice(nb.now.networks)
    requires if found then IsOffice(nb.now, office) else NoOffice(nb.now.networks)
    requires right ==> OfficeRight(nb.now.networks, gateway, cidr)
    modifies nb
    ensures nb.failures >= old(nb.failures) && (ok <==> nb.failures == old(nb.failures))
    ensures plan.prefix == OFFICE_POLICY && plan.source == approved
    ensures old(nb.past) <= nb.past && AllTouched(right, old(nb.now), plan, rules, nb.past, |old(nb.past)|)
    ensures Touched(right, old(nb.now), plan, rules, nb.now)
    ensures ok ==> Settled(plan, rules, old(nb.now.policies), nb.now.policies)
                   && OfficeRight(nb.now.networks, gateway, cidr) && plan.destination in nb.now.groups
                   && nb.now.groups[plan.destination].name == OFFICE_GROUP
                   && RangeDone(plan.destination, cidr, old(nb.now.networks), nb.now.networks)
  {
    ghost var before, n := nb.now, |nb.past|;
    var lan;
    ok, lan := BuildOffice(nb, found, office, gateway, cidr, right);
    plan := Plan(OFFICE_POLICY, approved, lan);
    ghost var mid, past := nb.now, nb.past;
    if ok {
      ghost var listed;
      ok, listed := SetRulePolicies(nb, Plan(OFFICE_POLICY, approved, lan), rules);
    }
    PhasesTouched(right, before, plan, rules, mid, past, nb.past, n);
    KeptSelf(plan, rules, mid, nb.now);
    KeptTouched(right, before, plan, rules, mid, nb.now);
  }

  lemma {:induction false} KeptSelf(plan: Plan, rules: seq<PolicyRule>, mid: State, s: State)
    requires WellFormed(mid) && (s == mid || Kept(plan, rules, mid, s))
    ensures Kept(plan, rules, mid, s)
  {
  }
}
