/** Routes through the internal gateway, made to match the settings from whatever the
  * account holds (backend/internal/api/gateway.go). The listed routes are gone
  * through one by one: one wanted route is kept under each name, the others of ours
  * are deleted, and what is then missing is created. */
module GatewaySync {
  import opened Text
  import opened Netbird
  import opened OfficePorts
  import opened RulePolicies

  const INTERNAL_SERVICES := "internal-services"
  const OFFICE_ROUTE := "office-network"
  const INTERNAL_CIDR := "10.201.28.2/32"

  // ---- routes ----------------------------------------------------------------

  predicate OurRoute(r: Route) { r.networkId == INTERNAL_SERVICES || r.networkId == OFFICE_ROUTE }

  function WantedRoute(peer: Id, group: Id): Route { Route(INTERNAL_SERVICES, INTERNAL_CIDR, peer, [group]) }

  /** What a name that is not wanted is compared with: the map's zero value. */
  function WantedCIDR(networkId: string): string { if networkId == INTERNAL_SERVICES then INTERNAL_CIDR else "" }

  predicate Matches(r: Route, peer: Id, group: Id) {
    WantedCIDR(r.networkId) == r.network && r.peer == peer && r.groups == [group]
  }

  /** An office-network route with an empty network looks wanted, and stays. */
  predicate BlankOffice(r: Route, peer: Id, group: Id) { r == Route(OFFICE_ROUTE, "", peer, [group]) }

  /** Exactly one route for the internal services, as wanted, and no other of ours. */
  ghost predicate RoutesRight(routes: map<Id, Route>, peer: Id, group: Id) {
    exists id :: id in routes && routes[id] == Route("internal-services", "10.201.28.2/32", peer, [group])
                 && forall o :: o in routes && OurRoute(routes[o]) ==> o == id
  }

  /** What a sync leaves as it is: every route of ours looks wanted, with one for each
    * name and one for the internal services. */
  ghost predicate RoutesSettled(routes: map<Id, Route>, peer: Id, group: Id) {
    && (forall id :: id in routes && OurRoute(routes[id]) ==> Matches(routes[id], peer, group))
    && (forall a, b :: a in routes && b in routes && OurRoute(routes[a]) && routes[a].networkId == routes[b].networkId
                       ==> a == b)
    && exists id :: id in routes && routes[id].networkId == INTERNAL_SERVICES
  }

  /** Right is settled with no blank office-network route. */
  lemma {:induction false} RightIffSettled(routes: map<Id, Route>, peer: Id, group: Id)
    ensures RoutesRight(routes, peer, group)
            <==> RoutesSettled(routes, peer, group)
                 && !exists id :: id in routes && BlankOffice(routes[id], peer, group)
  {
    if RoutesSettled(routes, peer, group) && !exists id :: id in routes && BlankOffice(routes[id], peer, group) {
      var id :| id in routes && routes[id].networkId == INTERNAL_SERVICES;
      assert routes[id] == WantedRoute(peer, group);
      forall o | o in routes && OurRoute(routes[o]) ensures o == id {
        assert Matches(routes[o], peer, group) && !BlankOffice(routes[o], peer, group);
      }
    }
    if RoutesRight(routes, peer, group) {
      assert forall id :: id in routes && BlankOffice(routes[id], peer, group) ==> OurRoute(routes[id]);
    }
  }

  ghost predicate ForeignRoutesSame(before: map<Id, Route>, after: map<Id, Route>) {
    && (forall id :: id in before && !OurRoute(before[id]) ==> id in after && after[id] == before[id])
    && (forall id :: id in after && !OurRoute(after[id]) ==> id in before && before[id] == after[id])
  }

  /** No office-network route is new. */
  ghost predicate NoNewOffice(before: map<Id, Route>, after: map<Id, Route>) {
    forall id :: id in after && after[id].networkId == OFFICE_ROUTE ==> id in before && before[id] == after[id]
  }

  /** Only routes have changed, and of those only ours. */
  ghost predicate RoutesOnly(before: State, s: State) {
    && WellFormed(s) && s == before.(routes := s.routes, nextId := s.nextId)
    && ForeignRoutesSame(before.routes, s.routes) && NoNewOffice(before.routes, s.routes)
  }

  ghost predicate AllRoutesOnly(before: State, past: seq<State>, n: nat) {
    forall i :: n <= i < |past| ==> RoutesOnly(before, past[i])
  }

  /** One wanted route kept under each name in `have`. */
  ghost predicate Haves(routes: map<Id, Route>, have: map<string, Id>, peer: Id, group: Id) {
    forall name :: name in have
                   ==> have[name] in routes && routes[have[name]].networkId == name
                       && Matches(routes[have[name]], peer, group)
  }

  /** Of the routes named, every one of ours is the one `have` holds, and a matching
    * one has put its name there. */
  ghost predicate Seen(routes: map<Id, Route>, now: map<Id, Route>, have: map<string, Id>, peer: Id, group: Id, id: Id)
    requires id in routes
  {
    var name := routes[id].networkId;
    OurRoute(routes[id]) ==> && (id in now ==> name in have && have[name] == id)
                             && (Matches(routes[id], peer, group) ==> name in have)
  }

  /** After the first i listed routes. */
  ghost predicate Swept(routes: map<Id, Route>, ids: seq<Id>, i: nat, now: map<Id, Route>, have: map<string, Id>,
          peer: Id, group: Id)
    requires i <= |ids| && forall id :: id in ids ==> id in routes
  {
    && (forall id :: id in now ==> id in routes && now[id] == routes[id])
    && (forall j :: i <= j < |ids| ==> ids[j] in now)
    && Haves(now, have, peer, group)
    && (forall name :: name in have ==> have[name] in ids[..i])
    && (forall j :: 0 <= j < i ==> Seen(routes, now, have, peer, group, ids[j]))
  }

  lemma {:induction false} SweptDrop(routes: map<Id, Route>, ids: seq<Id>, i: nat, now: map<Id, Route>,
          have: map<string, Id>, peer: Id, group: Id)
    requires i < |ids| && Lists(ids, routes) && Swept(routes, ids, i, now, have, peer, group)
    requires Matches(routes[ids[i]], peer, group) ==> routes[ids[i]].networkId in have
    ensures Swept(routes, ids, i + 1, now - {ids[i]}, have, peer, group)
  {
    var now' := now - {ids[i]};
    forall name | name in have ensures have[name] in now' && have[name] in ids[..i + 1] {
      assert have[name] in ids[..i];
    }
    forall j | 0 <= j < i + 1 ensures Seen(routes, now', have, peer, group, ids[j]) {
      assert j < i ==> Seen(routes, now, have, peer, group, ids[j]);
    }
  }

  lemma {:induction false} SweptPass(routes: map<Id, Route>, ids: seq<Id>, i: nat, now: map<Id, Route>,
          have: map<string, Id>, peer: Id, group: Id)
    requires i < |ids| && Lists(ids, routes) && Swept(routes, ids, i, now, have, peer, group)
    ensures !OurRoute(routes[ids[i]]) ==> Swept(routes, ids, i + 1, now, have, peer, group)
    ensures OurRoute(routes[ids[i]]) && Matches(routes[ids[i]], peer, group) && routes[ids[i]].networkId !in have
            ==> Swept(routes, ids, i + 1, now, have[routes[ids[i]].networkId := ids[i]], peer, group)
  {
    forall x | x in ids[..i] ensures x in ids[..i + 1] {
      var j :| 0 <= j < i && ids[j] == x;
      assert ids[..i + 1][j] == x;
    }
    assert ids[..i + 1][i] == ids[i];
    var r := routes[ids[i]];
    if OurRoute(r) && Matches(r, peer, group) && r.networkId !in have {
      var have' := have[r.networkId := ids[i]];
      forall j | 0 <= j < i + 1 ensures Seen(routes, now, have', peer, group, ids[j]) {
        if j < i {
          assert Seen(routes, now, have, peer, group, ids[j]);
        }
      }
    } else if !OurRoute(r) {
      forall j | 0 <= j < i + 1 ensures Seen(routes, now, have, peer, group, ids[j]) {
        if j < i {
          assert Seen(routes, now, have, peer, group, ids[j]);
        }
      }
    }
  }

  /** A route of ours to be dropped means the routes were not settled. */
  lemma {:induction false} DropMeansWrong(routes: map<Id, Route>, ids: seq<Id>, i: nat, now: map<Id, Route>,
          have: map<string, Id>, peer: Id, group: Id)
    requires i < |ids| && Lists(ids, routes) && Swept(routes, ids, i, now, have, peer, group)
             && OurRoute(routes[ids[i]])
    requires !Matches(routes[ids[i]], peer, group) || routes[ids[i]].networkId in have
    ensures !RoutesSettled(routes, peer, group)
  {
    var name := routes[ids[i]].networkId;
    if Matches(routes[ids[i]], peer, group) {
      assert have[name] in ids[..i];
      var j :| 0 <= j < i && ids[..i][j] == have[name];
      assert ids[j] != ids[i] && OurRoute(routes[ids[j]]);
    }
  }

  /** What clearing leaves when it ends well. */
  ghost predicate Cleared(before: map<Id, Route>, now: map<Id, Route>, have: map<string, Id>, peer: Id, group: Id) {
    && Haves(now, have, peer, group)
    && (forall id :: id in now ==> id in before && now[id] == before[id])
    && (forall id :: id in before ==> Seen(before, now, have, peer, group, id))
  }

  lemma {:induction false} DropOurRoute(before: State, s: State, id: Id)
    requires RoutesOnly(before, s) && id in s.routes && OurRoute(s.routes[id])
    ensures RoutesOnly(before, DropRoute(s, id))
  {
  }

  lemma {:induction false} AllRoutesOnlyStep(before: State, past: seq<State>, n: nat, s: State)
    requires AllRoutesOnly(before, past, n) && RoutesOnly(before, s)
    ensures AllRoutesOnly(before, past + [s], n)
  {
  }

  method DropOurs(nb: Account, id: Id, ghost before: State) returns (ok: bool)
    requires RoutesOnly(before, nb.now) && id in nb.now.routes && OurRoute(nb.now.routes[id])
    modifies nb
    ensures nb.failures >= old(nb.failures) && (ok <==> nb.failures == old(nb.failures))
    ensures nb.past == old(nb.past) + [nb.now] && RoutesOnly(before, nb.now)
    ensures ok ==> nb.now == DropRoute(old(nb.now), id)
  {
    DropOurRoute(before, nb.now, id);
    ok := nb.Do(DropRoute(nb.now, id));
  }

  /** Deletes what is not wanted, or wanted twice; `have` says which stay. */
  method ClearRoutes(nb: Account, peer: Id, group: Id) returns (ok: bool, have: map<string, Id>)
    requires WellFormed(nb.now)
    modifies nb
    ensures nb.failures >= old(nb.failures) && (ok <==> nb.failures == old(nb.failures))
    ensures old(nb.past) <= nb.past && AllRoutesOnly(old(nb.now), nb.past, |old(nb.past)|)
            && RoutesOnly(old(nb.now), nb.now)
    ensures ok ==> Cleared(old(nb.now.routes), nb.now.routes, have, peer, group)
    ensures old(RoutesSettled(nb.now.routes, peer, group)) ==> nb.past == old(nb.past) && nb.now == old(nb.now)
  {
    var routes, ids := nb.now.routes, [];
    ghost var before := nb.now;
    have := map[];
    ok, ids := nb.List(routes);
    if !ok {
      return;
    }
    for i := 0 to |ids|
      invariant ok && nb.failures == old(nb.failures)
      invariant old(nb.past) <= nb.past && AllRoutesOnly(before, nb.past, |old(nb.past)|)
                && RoutesOnly(before, nb.now)
      invariant Swept(routes, ids, i, nb.now.routes, have, peer, group)
      invariant RoutesSettled(routes, peer, group) ==> nb.past == old(nb.past) && nb.now == before
    {
      var r := routes[ids[i]];
      SweptPass(routes, ids, i, nb.now.routes, have, peer, group);
      if r.networkId != INTERNAL_SERVICES && r.networkId != OFFICE_ROUTE {
        continue;
      }
      if WantedCIDR(r.networkId) == r.network && r.peer == peer && |r.groups| == 1 && r.groups[0] == group
        && r.networkId !in have {
        have := have[r.networkId := ids[i]];
        continue;
      }
      SweptDrop(routes, ids, i, nb.now.routes, have, peer, group);
      DropMeansWrong(routes, ids, i, nb.now.routes, have, peer, group);
      ghost var past := nb.past;
      ok := DropOurs(nb, ids[i], before);
      AllRoutesOnlyStep(before, past, |old(nb.past)|, nb.now);
      if !ok {
        return;
      }
    }
  }

  lemma {:induction false} AddWanted(before: State, s: State, peer: Id, group: Id)
    requires RoutesOnly(before, s)
    ensures RoutesOnly(before, AddRoute(s, WantedRoute(peer, group)))
  {
  }

  /** With what is missing added, the routes are settled. */
  lemma {:induction false} SettledAfter(before: map<Id, Route>, now: map<Id, Route>, have: map<string, Id>, peer: Id,
          group: Id, added: Id)
    requires Cleared(before, now, have, peer, group) && added !in now
    ensures RoutesSettled(if INTERNAL_SERVICES in have then now else now[added := WantedRoute(peer, group)],
                          peer, group)
  {
    var end := if INTERNAL_SERVICES in have then now else now[added := WantedRoute(peer, group)];
    forall id | id in now && OurRoute(now[id])
      ensures Matches(now[id], peer, group) && now[id].networkId in have && have[now[id].networkId] == id
    {
      assert Seen(before, now, have, peer, group, id);
    }
    assert end[if INTERNAL_SERVICES in have then have[INTERNAL_SERVICES] else added].networkId == INTERNAL_SERVICES;
  }

  /** The name of the office-network route is had exactly when a blank one matched: such
    * a one compares equal to the missing entry for its name, and is kept. */
  lemma {:induction false} BlankKept(before: map<Id, Route>, now: map<Id, Route>, have: map<string, Id>, peer: Id,
          group: Id)
    requires Cleared(before, now, have, peer, group)
    ensures OFFICE_ROUTE in have <==> exists id :: id in before && BlankOffice(before[id], peer, group)
    ensures OFFICE_ROUTE in have ==> exists id :: id in now && BlankOffice(now[id], peer, group)
  {
    if id :| id in before && BlankOffice(before[id], peer, group) {
      assert Seen(before, now, have, peer, group, id) && OurRoute(before[id]);
    }
    if OFFICE_ROUTE in have {
      assert BlankOffice(now[have[OFFICE_ROUTE]], peer, group);
    }
  }

  lemma {:induction false} RightAfter(before: map<Id, Route>, now: map<Id, Route>, have: map<string, Id>, peer: Id,
          group: Id, added: Id, end: map<Id, Route>)
    requires Cleared(before, now, have, peer, group) && added !in now
    requires end == if INTERNAL_SERVICES in have then now else now[added := WantedRoute(peer, group)]
    ensures RoutesSettled(end, peer, group)
    ensures RoutesRight(end, peer, group) <==> !exists id :: id in before && BlankOffice(before[id], peer, group)
  {
    SettledAfter(before, now, have, peer, group, added);
    BlankKept(before, now, have, peer, group);
    RightIffSettled(end, peer, group);
    forall id ensures id in end && BlankOffice(end[id], peer, group)
                      <==> id in now && BlankOffice(now[id], peer, group)
    {
    }
    if id :| id in now && BlankOffice(now[id], peer, group) {
      assert id in before && BlankOffice(before[id], peer, group);
    }
  }

  /** The routes half of the sync. A finished run leaves the routes settled, and right
    * if and only if there was no blank office-network route; a run on settled routes
    * makes no change at all; foreign routes are never touched. */
  method SyncRoutes(nb: Account, peer: Id, group: Id) returns (ok: bool)
    requires WellFormed(nb.now)
    modifies nb
    ensures nb.failures >= old(nb.failures) && (ok <==> nb.failures == old(nb.failures))
    ensures old(nb.past) <= nb.past && AllRoutesOnly(old(nb.now), nb.past, |old(nb.past)|)
            && RoutesOnly(old(nb.now), nb.now)
    ensures ok ==> RoutesSettled(nb.now.routes, peer, group)
    ensures ok ==> (RoutesRight(nb.now.routes, peer, group)
                    <==> !exists id :: id in old(nb.now.routes) && BlankOffice(old(nb.now.routes[id]), peer, group))
    ensures old(RoutesSettled(nb.now.routes, peer, group)) ==> nb.past == old(nb.past) && nb.now == old(nb.now)
  {
    ghost var before := nb.now;
    var have;
    ok, have := ClearRoutes(nb, peer, group);
    if !ok {
      return;
    }
    ghost var cleared := nb.now;
    AddWanted(before, cleared, peer, group);
    ghost var end := if INTERNAL_SERVICES in have then cleared.routes
    else cleared.routes[cleared.nextId := WantedRoute(peer, group)];
    RightAfter(before.routes, cleared.routes, have, peer, group, cleared.nextId, end);
    if INTERNAL_SERVICES !in have {
      RightIsHad(before.routes, cleared.routes, have, peer, group);
      ok := nb.Do(AddRoute(nb.now, WantedRoute(peer, group)));
    }
  }

  lemma {:induction false} RightIsHad(before: map<Id, Route>, now: map<Id, Route>, have: map<string, Id>, peer: Id,
          group: Id)
    requires Cleared(before, now, have, peer, group) && INTERNAL_SERVICES !in have
    ensures !RoutesSettled(before, peer, group)
  {
    forall id | id in before && Matches(before[id], peer, group) ensures before[id].networkId != INTERNAL_SERVICES {
      assert Seen(before, now, have, peer, group, id);
    }
  }
}
