/** One sync of everything the gateway needs: the access policy, the routes, the
  * office network, in this order, and the retries around it
  * (backend/internal/api/gateway.go). Each part says what every state on its way is
  * like; here these are put into one statement about every state of a whole run. */
module Gateway {
  import opened Text
  import opened Netbird
  import opened OfficePorts
  import opened RulePolicies
  import opened GatewaySync
  import opened OfficeSync
  import opened AccessPolicy

  /** What the platform owns by name; everything else is foreign. */
  predicate OurPolicy(name: string) {
    name == DEFAULT || name == APPROVED_POLICY || Owned(Plan(OFFICE_POLICY, 0, 0), name)
  }

  ghost predicate ForeignSame(before: State, s: State) {
    && s.peers == before.peers
    && ForeignRoutesSame(before.routes, s.routes)
    && ForeignNetworksSame(before.networks, s.networks)
    && (forall id :: id in before.policies && !OurPolicy(before.policies[id].name)
                     ==> id in s.policies && s.policies[id] == before.policies[id])
    && (forall id :: id in before.groups && before.groups[id].name != APPROVED_GROUP
                     ==> id in s.groups && s.groups[id] == before.groups[id])
  }

  const OURS := Plan(OFFICE_POLICY, 0, 0)

  /** Enrolled devices that reach each other go on doing so. */
  ghost predicate StayJoined(before: State, s: State) {
    ApprovedRight(before) && Joined(before, before.peers.Keys) ==> ApprovedRight(s) && Joined(s, before.peers.Keys)
  }

  /** What every state of a sync is like; `right` says that it leaves routes and networks
    * as they are. */
  ghost predicate Synced(right: bool, before: State, s: State) {
    && WellFormed(s) && AtMostOneOffice(s.networks) && ForeignSame(before, s) && StayJoined(before, s)
    && NoNewOffice(before.routes, s.routes) && RangesFrom(before, s)
    && (UniqueNames(OURS, before.policies) ==> UniqueNames(OURS, s.policies))
    && (OneApproved(before) ==> OneApproved(s)) && (OneDefault(before) ==> OneDefault(s))
    && (right ==> s.routes == before.routes && s.networks == before.networks)
  }

  ghost predicate AllSynced(right: bool, before: State, past: seq<State>, n: nat) {
    forall i :: n <= i < |past| ==> Synced(right, before, past[i])
  }

  /** By name: every state of a sync has every policy, group, network and route of the
    * account that goes by another name than the platform's few, as it was. */
  lemma {:induction false} OthersStay(right: bool, before: State, s: State, id: Id)
    requires Synced(right, before, s)
    ensures id in before.policies && before.policies[id].name != "Default"
            && before.policies[id].name != "approved devices" && !("office access " <= before.policies[id].name)
            ==> id in s.policies && s.policies[id] == before.policies[id]
    ensures id in before.groups && before.groups[id].name != "vpn-approved"
            ==> id in s.groups && s.groups[id] == before.groups[id]
    ensures id in before.networks && before.networks[id].name != "office"
            ==> id in s.networks && s.networks[id] == before.networks[id]
    ensures id in before.routes && !ByName(before.routes[id]) ==> id in s.routes && s.routes[id] == before.routes[id]
    ensures s.peers == before.peers
  {
    assert OURS.prefix + " " == "office access ";
  }

  lemma {:induction false} NotOffice()
    ensures !Owned(OURS, DEFAULT) && !Owned(OURS, APPROVED_POLICY)
  {
    var p := OFFICE_POLICY + " ";
    assert DEFAULT[0] != p[0] && APPROVED_POLICY[0] != p[0];
  }

  lemma {:induction false} SafeSynced(right: bool, before: State, s: State)
    requires WellFormed(before) && AtMostOneOffice(before.networks) && Safe(before, s)
    ensures Synced(right, before, s)
  {
    NotOffice();
    if OneDefault(before) {
      DefaultsFrom(before, s);
    }
  }

  /** No policy named Default is new. */
  lemma {:induction false} DefaultsFrom(before: State, s: State)
    requires OneDefault(before)
    requires forall id :: id in s.policies && s.policies[id].name == DEFAULT
                          ==> id in before.policies && before.policies[id].name == DEFAULT
    ensures OneDefault(s)
  {
  }

  /** Reach is decided by policies and groups alone. */
  lemma {:induction false} SameReach(s: State, s': State, peers: set<Id>)
    requires s'.policies == s.policies && s'.groups == s.groups
    ensures ApprovedRight(s) ==> ApprovedRight(s')
    ensures Joined(s, peers) ==> Joined(s', peers)
    ensures OneApproved(s) ==> OneApproved(s')
    ensures OneDefault(s) ==> OneDefault(s')
  {
    SameApproved(s, s');
    if Joined(s, peers) {
      JoinedGrows(s, s', peers);
    }
    if ApprovedRight(s) {
      forall id | id in s'.policies && s'.policies[id].name == APPROVED_POLICY
        ensures exists g :: IsApproved(s', g) && s'.policies[id] == AllowPolicy(g)
      {
        var g :| IsApproved(s, g) && s.policies[id] == AllowPolicy(g);
        assert IsApproved(s', g);
      }
    }
  }

  lemma {:induction false} RoutesSynced(right: bool, before: State, mid: State, s: State)
    requires Synced(right, before, mid) && RoutesOnly(mid, s) && (right ==> s.routes == mid.routes)
    ensures Synced(right, before, s)
  {
    SameReach(mid, s, before.peers.Keys);
    RoutesForeign(before, mid, s);
    SameLan(mid, s);
    assert RangesFrom(before, s);
  }

  lemma {:induction false} RoutesForeign(before: State, mid: State, s: State)
    requires ForeignSame(before, mid) && NoNewOffice(before.routes, mid.routes) && RoutesOnly(mid, s)
    ensures ForeignSame(before, s) && NoNewOffice(before.routes, s.routes)
  {
  }

  /** The office policies and group do not decide who reaches whom. */
  lemma {:induction false} OfficeReach(mid: State, plan: Plan, rules: seq<PolicyRule>, s: State, still: bool,
          peers: set<Id>)
    requires Touched(still, mid, plan, rules, s) && plan.prefix == OFFICE_POLICY
    ensures ApprovedRight(mid) ==> ApprovedRight(s)
    ensures Joined(mid, peers) ==> Joined(s, peers)
  {
    NotOffice();
    if Joined(mid, peers) {
      JoinedGrows(mid, s, peers);
    }
    if ApprovedRight(mid) {
      OfficeApproved(mid, plan, rules, s, still);
    }
  }

  lemma {:induction false} OfficeApproved(mid: State, plan: Plan, rules: seq<PolicyRule>, s: State, still: bool)
    requires Touched(still, mid, plan, rules, s) && plan.prefix == OFFICE_POLICY && ApprovedRight(mid)
    ensures ApprovedRight(s)
  {
    NotOffice();
    forall g ensures IsApproved(s, g) <==> IsApproved(mid, g) {
    }
    forall k | 0 <= k < |rules| ensures Body(plan, rules, k).name != APPROVED_POLICY {
      NameOwned(plan, k);
      assert Owned(OURS, NameOf(plan, k));
    }
    forall id | id in s.policies && s.policies[id].name == APPROVED_POLICY
      ensures exists g :: IsApproved(s, g) && s.policies[id] == AllowPolicy(g)
    {
      assert id in mid.policies && mid.policies[id] == s.policies[id];
      var g :| IsApproved(mid, g) && mid.policies[id] == AllowPolicy(g);
      assert IsApproved(s, g);
    }
  }

  /** The office part neither makes nor unmakes an approved group or a Default policy. */
  lemma {:induction false} OfficeNames(mid: State, plan: Plan, rules: seq<PolicyRule>, s: State, still: bool)
    requires Touched(still, mid, plan, rules, s) && plan.prefix == OFFICE_POLICY
    ensures forall g :: IsApproved(s, g) <==> IsApproved(mid, g)
    ensures forall id :: id in s.policies && s.policies[id].name == DEFAULT
                         ==> id in mid.policies && mid.policies[id].name == DEFAULT
    ensures OneApproved(mid) ==> OneApproved(s)
    ensures OneDefault(mid) ==> OneDefault(s)
  {
    NotOffice();
    forall k | 0 <= k < |rules| ensures Body(plan, rules, k).name != DEFAULT {
      NameOwned(plan, k);
      assert Owned(OURS, NameOf(plan, k));
    }
    if OneDefault(mid) {
      DefaultsFrom(mid, s);
    }
  }

  lemma {:induction false} OfficeForeign(before: State, mid: State, plan: Plan, rules: seq<PolicyRule>, s: State,
          still: bool)
    requires ForeignSame(before, mid) && Touched(still, mid, plan, rules, s) && plan.prefix == OFFICE_POLICY
    ensures ForeignSame(before, s)
  {
    forall id | id in before.policies && !OurPolicy(before.policies[id].name)
      ensures id in s.policies && s.policies[id] == before.policies[id]
    {
      assert id in mid.policies && mid.policies[id] == before.policies[id];
    }
    forall id | id in before.groups && before.groups[id].name != APPROVED_GROUP
      ensures id in s.groups && s.groups[id] == before.groups[id]
    {
      assert id in mid.groups && mid.groups[id] == before.groups[id];
    }
  }

  lemma {:induction false} SameUnique(plan: Plan, ps: map<Id, Policy>)
    requires plan.prefix == OFFICE_POLICY
    ensures UniqueNames(plan, ps) <==> UniqueNames(OURS, ps)
  {
    assert forall name :: Owned(plan, name) <==> Owned(OURS, name);
  }

  lemma {:induction false} OfficeSynced(right: bool, before: State, mid: State, plan: Plan, rules: seq<PolicyRule>,
          s: State, still: bool)
    requires Synced(right, before, mid) && Touched(still, mid, plan, rules, s) && (right ==> still)
    requires plan.prefix == OFFICE_POLICY
    ensures Synced(right, before, s)
  {
    OfficeForeign(before, mid, plan, rules, s, still);
    OfficeReach(mid, plan, rules, s, still, before.peers.Keys);
    OfficeNames(mid, plan, rules, s, still);
    SameUnique(plan, mid.policies);
    SameUnique(plan, s.policies);
  }

  ghost predicate HasPeer(s: State, hostname: string) { exists id :: id in s.peers && s.peers[id] == hostname }

  /** What a sync needs to go through, besides calls that end well. */
  ghost predicate Able(s: State, hostname: string, cidr: string, ports: string) {
    HasPeer(s, hostname) && (cidr == "" || GoodList(ports))
  }

  /** The gateway's own peer, known by its host name; an error if there is none. */
  method GatewayPeer(nb: Account, hostname: string) returns (ok: bool, peer: Id)
    modifies nb`failures
    ensures nb.failures >= old(nb.failures)
    ensures ok <==> nb.failures == old(nb.failures) && HasPeer(nb.now, hostname)
    ensures ok ==> peer in nb.now.peers && nb.now.peers[peer] == hostname
  {
    var ids;
    peer := 0;
    ok, ids := nb.List(nb.now.peers);
    if !ok {
      return;
    }
    for i := 0 to |ids|
      invariant nb.failures == old(nb.failures) && forall j :: 0 <= j < i ==> nb.now.peers[ids[j]] != hostname
    {
      if nb.now.peers[ids[i]] == hostname {
        return true, ids[i];
      }
    }
    ok := false;
  }

  ghost predicate GatewayIs(s: State, hostname: string, peer: Id) {
    forall id :: id in s.peers && s.peers[id] == hostname ==> id == peer
  }

  ghost predicate ApprovedIs(s: State, group: Id) {
    IsApproved(s, group) && forall g :: IsApproved(s, g) ==> g == group
  }

  /** Routes and networks are as the settings want them. */
  ghost predicate AllRight(s: State, hostname: string, cidr: string, peer: Id, group: Id) {
    && GatewayIs(s, hostname, peer) && ApprovedIs(s, group)
    && RoutesRight(s.routes, peer, group) && Wanted(s.networks, peer, cidr)
  }

  /** A sync for this peer and group has nothing to create or delete among them. */
  ghost predicate Still(s: State, cidr: string, peer: Id, group: Id) {
    RoutesSettled(s.routes, peer, group) && Wanted(s.networks, peer, cidr)
  }

  ghost predicate NoBlankOffice(s: State) {
    forall id :: id in s.routes && s.routes[id].networkId == OFFICE_ROUTE ==> s.routes[id].network != ""
  }

  /** What a finished sync leaves of routes, office network and office policies; all
    * of it under the assumptions each part has. */
  ghost predicate RestDone(peer: Id, group: Id, cidr: string, ports: string, before: State, s: State) {
    && (NoBlankOffice(before) ==> RoutesRight(s.routes, peer, group))
    && Still(s, cidr, peer, group)
    && exists plan: Plan :: plan.source == group && plan.prefix == OFFICE_POLICY
        && OfficeDone(plan, peer, cidr, ports, before, s)
  }

  /** And of the access policy: the approved group, and no Default policy. */
  ghost predicate SyncDone(peer: Id, group: Id, cidr: string, ports: string, before: State, s: State) {
    && RestDone(peer, group, cidr, ports, before, s)
    && IsApproved(s, group) && (OneDefault(before) ==> NoSuchPolicy(s, DEFAULT))
  }

  predicate ByName(r: Route) { r.networkId == "internal-services" || r.networkId == "office-network" }

  /** The same by name, for an account with one of each and no blank office route: one
    * route to the platform's services, through the gateway and for the approved group;
    * the office network with one router and its one range, or none; no policy Default;
    * and office policies for exactly the listed ports, out of a group that is approved. */
  lemma {:induction false} DoneByName(before: State, s: State, cidr: string, ports: string, peer: Id, group: Id)
    requires SyncDone(peer, group, cidr, ports, before, s) && NoBlankOffice(before) && OneDefault(before)
    requires UniqueNames(OURS, before.policies)
    ensures exists id :: id in s.routes && s.routes[id] == Route("internal-services", "10.201.28.2/32", peer, [group])
                         && forall o :: o in s.routes && ByName(s.routes[o]) ==> o == id
    ensures if cidr == "" then forall id :: id in s.networks ==> s.networks[id].name != "office"
            else exists id :: id in s.networks && s.networks[id].name == "office"
                   && s.networks[id].routers.Values == {peer} && |s.networks[id].routers| == 1
                   && |s.networks[id].resources| == 1
                   && forall r :: r in s.networks[id].resources ==> s.networks[id].resources[r].address == cidr
    ensures forall id :: id in s.policies ==> s.policies[id].name != "Default"
    ensures group in s.groups && s.groups[group].name == "vpn-approved"
    ensures exists plan: Plan :: plan.source == group && plan.prefix == "office access"
              && (cidr != "" ==> plan.destination in s.groups && s.groups[plan.destination].name == "office-lan")
              && forall f :: OwnedAdmit(plan, s.policies, f) <==> cidr != "" && ListAdmits(ports, f)
  {
    var plan: Plan :| plan.source == group && plan.prefix == OFFICE_POLICY
      && OfficeDone(plan, peer, cidr, ports, before, s);
    SameUnique(plan, before.policies);
    if cidr != "" {
      var id :| id in s.networks && s.networks[id].name == OFFICE && OneRouter(s.networks[id].routers, peer)
                && OneResource(s.networks[id].resources, cidr);
      OneEach(s.networks[id], peer, cidr);
    }
  }

  lemma {:induction false} OneEach(n: Network, peer: Id, cidr: string)
    requires OneRouter(n.routers, peer) && OneResource(n.resources, cidr)
    ensures n.routers.Values == {peer} && |n.routers| == 1 && |n.resources| == 1
    ensures forall r :: r in n.resources ==> n.resources[r].address == cidr
  {
    var r :| n.routers == map[r := peer];
    var q: Id, groups :| n.resources == map[q := Resource(cidr, groups)];
    assert n.routers[r] == peer;
  }

  /** What is assumed of an account for a sync to bring it to rest: one peer at most of
    * the gateway's host name, one approved group at most, and no office-network route
    * with an empty network. */
  ghost predicate Clear(s: State, hostname: string) {
    && (forall a, b :: a in s.peers && b in s.peers && s.peers[a] == hostname && s.peers[b] == hostname ==> a == b)
    && OneApproved(s) && NoBlankOffice(s)
  }

  /** From such an account a finished sync leaves everything right, so that the next
    * one has nothing to create or delete. */
  lemma {:induction false} DoneIsRight(before: State, s: State, hostname: string, cidr: string, ports: string,
          peer: Id, group: Id)
    requires Clear(before, hostname) && Synced(false, before, s) && SyncDone(peer, group, cidr, ports, before, s)
    requires peer in s.peers && s.peers[peer] == hostname
    ensures Clear(s, hostname) && AllRight(s, hostname, cidr, peer, group)
  {
    forall id | id in s.routes && s.routes[id].networkId == OFFICE_ROUTE ensures s.routes[id].network != "" {
      assert before.routes[id] == s.routes[id];
    }
  }

  /** syncGatewayRoutes. From any account with at most one network named office: it ends
    * well if and only if every call does, the gateway's peer is there and the list of
    * ports, if the office network is on, is good; every state on the way leaves foreign
    * objects alone and keeps enrolled devices connected; a finished run has the access
    * policy, the routes and the office network as wanted, and leaves a clear account right. If routes and network are
    * settled for some peer and group, the run creates and deletes no route, network,
    * router or address range, unless it gets as far as picking another peer or group:
    * these are the only ones where there is one of each. */
  method SyncGatewayRoutes(nb: Account, hostname: string, cidr: string, ports: string, ghost gateway: Id,
          ghost approved: Id)
    returns (ok: bool, peer: Id, group: Id, ghost picked: bool, ghost secured: State)
    requires WellFormed(nb.now) && AtMostOneOffice(nb.now.networks)
    modifies nb
    ensures nb.failures >= old(nb.failures)
    ensures ok <==> nb.failures == old(nb.failures) && old(Able(nb.now, hostname, cidr, ports))
    ensures old(nb.past) <= nb.past && (ok ==> picked)
    ensures (var right := old(Still(nb.now, cidr, gateway, approved))
                          && (picked ==> peer == gateway && group == approved);
             AllSynced(right, old(nb.now), nb.past, |old(nb.past)|) && Synced(right, old(nb.now), nb.now))
    ensures picked ==> peer in nb.now.peers && nb.now.peers[peer] == hostname && IsApproved(nb.now, group)
    ensures picked && old(GatewayIs(nb.now, hostname, gateway)) ==> peer == gateway
    ensures picked && old(ApprovedIs(nb.now, approved)) ==> group == approved
    ensures ok ==>
      && peer in nb.now.peers && nb.now.peers[peer] == hostname
      && Finished(old(nb.now), secured, group) && SyncDone(peer, group, cidr, ports, old(nb.now), nb.now)
    ensures ok && Clear(old(nb.now), hostname) ==> AllRight(nb.now, hostname, cidr, peer, group)
  {
    ghost var before, n, still := nb.now, |nb.past|, Still(nb.now, cidr, gateway, approved);
    ok, peer, group := PickPeers(nb, hostname, approved);
    secured, picked := nb.now, ok;
    if !ok {
      return;
    }
    ghost var right := still && peer == gateway && group == approved;
    ok := SyncRest(nb, peer, group, cidr, ports, right, before, n);
    if ok {
      AllDone(before, secured, nb.now, hostname, cidr, ports, peer, group);
    }
  }

  /** The access policy first, and then who the routes are for. */
  method PickPeers(nb: Account, hostname: string, ghost approved: Id) returns (ok: bool, peer: Id, group: Id)
    requires WellFormed(nb.now) && AtMostOneOffice(nb.now.networks)
    modifies nb
    ensures nb.failures >= old(nb.failures)
    ensures ok <==> nb.failures == old(nb.failures) && old(HasPeer(nb.now, hostname))
    ensures old(nb.past) <= nb.past
    ensures AllSynced(true, old(nb.now), nb.past, |old(nb.past)|)
    ensures AllSynced(false, old(nb.now), nb.past, |old(nb.past)|)
    ensures Synced(true, old(nb.now), nb.now) && Synced(false, old(nb.now), nb.now)
    ensures ok ==>
      && peer in nb.now.peers && nb.now.peers[peer] == hostname
      && Finished(old(nb.now), nb.now, group) && IsApproved(nb.now, group)
      && (old(ApprovedIs(nb.now, approved)) ==> group == approved)
  {
    ghost var before, n := nb.now, |nb.past|;
    peer := 0;
    ok, group := EnsureAccessPolicy(nb);
    SafeAllSynced(before, nb.past, n, nb.now);
    if ok {
      SameGroup(before, nb.now, group, approved);
      ok, peer := GatewayPeer(nb, hostname);
    }
  }

  lemma {:induction false} AllDone(before: State, secured: State, s: State, hostname: string, cidr: string,
          ports: string, peer: Id, group: Id)
    requires Synced(false, before, secured) && Synced(false, before, s) && peer in s.peers && s.peers[peer] == hostname
    requires WellFormed(before) && Finished(before, secured, group) && RestDone(peer, group, cidr, ports, secured, s)
    requires IsApproved(s, group) && (NoSuchPolicy(secured, DEFAULT) ==> NoSuchPolicy(s, DEFAULT))
    ensures SyncDone(peer, group, cidr, ports, before, s)
    ensures Clear(before, hostname) ==> AllRight(s, hostname, cidr, peer, group)
  {
    FinishedClosed(before, secured, group);
    RestDoneFrom(peer, group, cidr, ports, before, secured, s);
    if Clear(before, hostname) {
      DoneIsRight(before, s, hostname, cidr, ports, peer, group);
    }
  }

  lemma {:induction false} FinishedClosed(before: State, s: State, group: Id)
    requires WellFormed(before) && Finished(before, s, group)
    ensures IsApproved(s, group) && (OneDefault(before) ==> NoSuchPolicy(s, DEFAULT))
  {
    var mid, d :| FinishedBy(before, mid, d, s, group);
    if OneDefault(before) {
      NoDefaultLeft(before, mid, s, group, d);
    }
  }

  /** Done from a state on the way is done from the start. */
  lemma {:induction false} RestDoneFrom(peer: Id, group: Id, cidr: string, ports: string, before: State, mid: State,
          s: State)
    requires RestDone(peer, group, cidr, ports, mid, s)
    requires NoNewOffice(before.routes, mid.routes)
    requires UniqueNames(OURS, before.policies) ==> UniqueNames(OURS, mid.policies)
    ensures RestDone(peer, group, cidr, ports, before, s)
  {
    var plan: Plan :| plan.source == group && plan.prefix == OFFICE_POLICY
      && OfficeDone(plan, peer, cidr, ports, mid, s);
    SameUnique(plan, before.policies);
    SameUnique(plan, mid.policies);
    assert OfficeDone(plan, peer, cidr, ports, before, s);
  }

  lemma {:induction false} DoneFrom(peer: Id, group: Id, cidr: string, ports: string, before: State, mid: State,
          s: State)
    requires Synced(false, before, mid) && SyncDone(peer, group, cidr, ports, mid, s)
    ensures SyncDone(peer, group, cidr, ports, before, s)
  {
    RestDoneFrom(peer, group, cidr, ports, before, mid, s);
  }

  lemma {:induction false} RangesTwice(before: State, mid: State, s: State)
    requires RangesFrom(before, mid) && RangesFrom(mid, s) && ForeignSame(mid, s)
             && ForeignNetworksSame(mid.networks, s.networks)
    ensures RangesFrom(before, s)
  {
    forall id, r | id in s.networks && s.networks[id].name == OFFICE && r in s.networks[id].resources
      ensures RangeFrom(before, id, r, s.networks[id].resources[r]) || InLan(s, s.networks[id].resources[r])
    {
      var res := s.networks[id].resources[r];
      if !InLan(s, res) {
        assert RangeFrom(mid, id, r, res);
        SameLan(mid, s);
        assert RangeFrom(before, id, r, res) || InLan(mid, res);
      }
    }
  }

  lemma {:induction false} ForeignTwice(before: State, mid: State, s: State)
    requires ForeignSame(before, mid) && ForeignSame(mid, s)
    ensures ForeignSame(before, s)
  {
    forall id | id in before.policies && !OurPolicy(before.policies[id].name)
      ensures id in s.policies && s.policies[id] == before.policies[id]
    {
      assert id in mid.policies && mid.policies[id] == before.policies[id];
    }
    forall id | id in before.groups && before.groups[id].name != APPROVED_GROUP
      ensures id in s.groups && s.groups[id] == before.groups[id]
    {
      assert id in mid.groups && mid.groups[id] == before.groups[id];
    }
  }

  lemma {:induction false} SyncedTwice(before: State, mid: State, s: State, right: bool)
    requires Synced(false, before, mid) && Synced(right, mid, s)
    ensures Synced(false, before, s)
  {
    ForeignTwice(before, mid, s);
    RangesTwice(before, mid, s);
  }

  lemma {:induction false} AllSyncedTwice(before: State, mid: State, past: seq<State>, past': seq<State>, n: nat,
          s: State, right: bool)
    requires n <= |past| && past <= past' && AllSynced(false, before, past, n)
    requires Synced(false, before, mid) && AllSynced(right, mid, past', |past|) && Synced(right, mid, s)
    ensures AllSynced(false, before, past', n) && Synced(false, before, s)
  {
    SyncedTwice(before, mid, s, right);
    forall i | n <= i < |past'| ensures Synced(false, before, past'[i]) {
      if i < |past| {
        assert past'[i] == past[i];
      } else {
        SyncedTwice(before, mid, past'[i], right);
      }
    }
  }

  /** The bootstrap's retries: up to ten runs, each from where the last one failed; where
    * the peer and a good list are there, only ten failed calls make it give up. Through all of
    * them foreign objects stay and enrolled devices stay connected;
    * when one succeeds the result is that of a single run from the start, its own
    * result for the access policy among it, and a clear account is right. */
  method SyncUntilDone(nb: Account, hostname: string, cidr: string, ports: string)
    returns (ok: bool, peer: Id, group: Id, ghost start: State, ghost secured: State)
    requires WellFormed(nb.now) && AtMostOneOffice(nb.now.networks)
    modifies nb
    ensures nb.failures >= old(nb.failures) && (ok ==> old(Able(nb.now, hostname, cidr, ports)))
    ensures !ok && old(Able(nb.now, hostname, cidr, ports)) ==> nb.failures >= old(nb.failures) + 10
    ensures old(nb.past) <= nb.past && AllSynced(false, old(nb.now), nb.past, |old(nb.past)|)
    ensures Synced(false, old(nb.now), nb.now)
    ensures ok ==>
      && peer in nb.now.peers && nb.now.peers[peer] == hostname
      && Synced(false, old(nb.now), start) && Finished(start, secured, group)
      && SyncDone(peer, group, cidr, ports, old(nb.now), nb.now)
    ensures ok && Clear(old(nb.now), hostname) ==>
              Clear(nb.now, hostname) && AllRight(nb.now, hostname, cidr, peer, group)
  {
    ghost var before, n := nb.now, |nb.past|;
    ok, peer, group := false, 0, 0;
    start, secured := nb.now, nb.now;
    for attempt := 0 to 10
      invariant old(nb.past) <= nb.past && AllSynced(false, before, nb.past, n) && Synced(false, before, nb.now) && !ok
      invariant nb.failures >= old(nb.failures)
      invariant Able(before, hostname, cidr, ports) ==> nb.failures >= old(nb.failures) + attempt
    {
      ghost var past := nb.past;
      start := nb.now;
      ghost var picked;
      ok, peer, group, picked, secured := SyncGatewayRoutes(nb, hostname, cidr, ports, 0, 0);
      ghost var right := Still(start, cidr, 0, 0) && (picked ==> peer == 0 && group == 0);
      AllSyncedTwice(before, start, past, nb.past, n, nb.now, right);
      if ok {
        DoneFrom(peer, group, cidr, ports, before, start, nb.now);
        break;
      }
    }
    if ok && Clear(before, hostname) {
      DoneIsRight(before, nb.now, hostname, cidr, ports, peer, group);
    }
  }

  /** A sync until one is done, and then another with the same settings: from any account,
    * after any failures on the way, the second creates and deletes no route, network,
    * router or address range, at any of its calls and whether it ends well or not,
    * unless it gets as far as picking another peer or group than the first. There must
    * then be more than one: from a clear account it does not, and when it ends well all
    * is right. */
  method SyncTwice(nb: Account, hostname: string, cidr: string, ports: string)
    returns (done: bool, again: bool, peer: Id, group: Id, ghost between: State, ghost n: nat,
            ghost picked: bool, ghost peer2: Id, ghost group2: Id)
    requires WellFormed(nb.now) && AtMostOneOffice(nb.now.networks)
    modifies nb
    ensures nb.failures >= old(nb.failures)
    ensures nb.failures == old(nb.failures) && old(Able(nb.now, hostname, cidr, ports)) ==> done && again
    ensures old(nb.past) <= nb.past && n <= |nb.past| && (again ==> done)
    ensures done ==> SyncDone(peer, group, cidr, ports, old(nb.now), between)
    ensures picked ==> done && peer2 in nb.now.peers && nb.now.peers[peer2] == hostname && IsApproved(nb.now, group2)
    ensures done && (picked ==> peer2 == peer && group2 == group) ==>
      && (forall i :: n <= i < |nb.past| ==>
            nb.past[i].routes == between.routes && nb.past[i].networks == between.networks)
      && nb.now.routes == between.routes && nb.now.networks == between.networks
    ensures done && Clear(old(nb.now), hostname) ==>
              (picked ==> peer2 == peer && group2 == group) && AllRight(between, hostname, cidr, peer, group)
    ensures again && Clear(old(nb.now), hostname) ==> AllRight(nb.now, hostname, cidr, peer, group)
  {
    ghost var start, secured;
    done, peer, group, start, secured := SyncUntilDone(nb, hostname, cidr, ports);
    between, n, again, picked, peer2, group2 := nb.now, |nb.past|, false, false, 0, 0;
    if done {
      var p, g;
      again, p, g, picked, secured := SyncGatewayRoutes(nb, hostname, cidr, ports, peer, group);
      peer2, group2 := p, g;
      if picked ==> p == peer && g == group {
        forall i | n <= i < |nb.past| ensures nb.past[i].routes == between.routes
          && nb.past[i].networks == between.networks
        {
          assert Synced(true, between, nb.past[i]);
        }
      }
    }
  }

  /** The routes and the office network, once the access policy is in place. */
  method SyncRest(nb: Account, peer: Id, group: Id, cidr: string, ports: string, ghost right: bool,
          ghost before: State, ghost n: nat)
    returns (ok: bool)
    requires n <= |nb.past| && AllSynced(right, before, nb.past, n) && Synced(right, before, nb.now)
    requires right ==> Still(nb.now, cidr, peer, group)
    requires IsApproved(nb.now, group)
    modifies nb
    ensures nb.failures >= old(nb.failures)
            && (ok <==> nb.failures == old(nb.failures) && (cidr == "" || GoodList(ports)))
    ensures old(nb.past) <= nb.past && AllSynced(right, before, nb.past, n) && Synced(right, before, nb.now)
    ensures IsApproved(nb.now, group) && (NoSuchPolicy(old(nb.now), DEFAULT) ==> NoSuchPolicy(nb.now, DEFAULT))
    ensures ok ==> RestDone(peer, group, cidr, ports, old(nb.now), nb.now)
  {
    ghost var start := nb.now;
    ghost var past := nb.past;
    ok := SyncRoutes(nb, peer, group);
    RoutesAllSynced(right, before, start, past, nb.past, n);
    RoutesSynced(right, before, start, nb.now);
    if !ok {
      return;
    }
    ghost var routed, plan, rules := nb.now, Plan("", 0, 0), [];
    past := nb.past;
    ok, plan, rules := SyncOffice(nb, group, peer, cidr, ports);
    ghost var still := Wanted(routed.networks, peer, cidr);
    OfficeAllSynced(right, before, routed, plan, rules, still, past, nb.past, n);
    OfficeSynced(right, before, routed, plan, rules, nb.now, still);
    OfficeNames(routed, plan, rules, nb.now, still);
    if ok {
      SamePolicies(plan, peer, cidr, ports, routed, start, nb.now);
    }
  }

  lemma {:induction false} SamePolicies(plan: Plan, peer: Id, cidr: string, ports: string, a: State, b: State, s: State)
    requires OfficeDone(plan, peer, cidr, ports, a, s) && a.policies == b.policies
    ensures OfficeDone(plan, peer, cidr, ports, b, s)
  {
  }

  lemma {:induction false} SafeAllSynced(before: State, past: seq<State>, n: nat, s: State)
    requires WellFormed(before) && AtMostOneOffice(before.networks) && AllSafe(before, past, n) && Safe(before, s)
    ensures AllSynced(true, before, past, n) && AllSynced(false, before, past, n)
    ensures Synced(true, before, s) && Synced(false, before, s)
  {
    SafeSynced(true, before, s);
    forall i | n <= i < |past| ensures Synced(true, before, past[i]) {
      SafeSynced(true, before, past[i]);
    }
  }

  lemma {:induction false} RoutesAllSynced(right: bool, before: State, mid: State, past: seq<State>, past': seq<State>,
          n: nat)
    requires past <= past' && AllSynced(right, before, past, n) && Synced(right, before, mid)
    requires AllRoutesOnly(mid, past', |past|) && (right ==> past' == past)
    ensures AllSynced(right, before, past', n)
  {
    forall i | n <= i < |past'| ensures Synced(right, before, past'[i]) {
      if i < |past| {
        assert past'[i] == past[i];
      } else {
        RoutesSynced(right, before, mid, past'[i]);
      }
    }
  }

  lemma {:induction false} OfficeAllSynced(right: bool, before: State, mid: State, plan: Plan, rules: seq<PolicyRule>,
          still: bool,
                                           past: seq<State>, past': seq<State>, n: nat)
    requires past <= past' && AllSynced(right, before, past, n) && Synced(right, before, mid)
    requires AllTouched(still, mid, plan, rules, past', |past|) && (right ==> still) && plan.prefix == OFFICE_POLICY
    ensures AllSynced(right, before, past', n)
  {
    forall i | n <= i < |past'| ensures Synced(right, before, past'[i]) {
      if i < |past| {
        assert past'[i] == past[i];
      } else {
        OfficeSynced(right, before, mid, plan, rules, past'[i], still);
      }
    }
  }

  /** The access policy finds the approved group that is there. */
  lemma {:induction false} SameGroup(before: State, secured: State, group: Id, approved: Id)
    requires WellFormed(before) && Finished(before, secured, group)
    ensures IsApproved(secured, group) && (ApprovedIs(before, approved) ==> group == approved)
  {
    FinishedClosed(before, secured, group);
    if ApprovedIs(before, approved) {
      var mid, d :| FinishedBy(before, mid, d, secured, group);
      OpenedGroup(before, mid, group, approved);
    }
  }

  lemma {:induction false} OpenedGroup(before: State, mid: State, group: Id, approved: Id)
    requires Opened(before, mid, group) && ApprovedIs(before, approved)
    ensures group == approved
  {
    assert before.groups[approved].name == APPROVED_GROUP;
    assert !NoApprovedGroup(before);
    assert mid.groups == before.groups;
    assert IsApproved(before, group);
  }
}
