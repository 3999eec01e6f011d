/** The VPN account as the platform sees it through its API
  * (backend/internal/netbird/client.go): objects by id, one call at a time, any
  * of which may fail with or without having taken effect. */
module Netbird {
  import opened Text

  type Id = nat

  datatype PortRange = PortRange(start: int, end: int)

  /** What a policy lets through: one protocol, on the listed ports if any. */
  datatype PolicyRule = PolicyRule(protocol: string, ports: seq<string>, ranges: seq<PortRange>)

  /** One rule of a policy, between groups of devices. */
  datatype Access = Access(sources: set<Id>, destinations: set<Id>, bidirectional: bool, what: PolicyRule)

  datatype Policy = Policy(name: string, rules: seq<Access>)

  datatype Group = Group(name: string, peers: set<Id>)

  datatype Route = Route(networkId: string, network: string, peer: Id, groups: seq<Id>)

  datatype Resource = Resource(address: string, groups: seq<Id>)

  datatype Network = Network(name: string, routers: map<Id, Id>, resources: map<Id, Resource>)

  /** Everything in the account. Peers are kept with their host names. */
  datatype State = State(
    policies: map<Id, Policy>,
    groups: map<Id, Group>,
    peers: map<Id, string>,
    routes: map<Id, Route>,
    networks: map<Id, Network>,
    nextId: Id)

  /** Ids handed out so far are below the next one. */
  ghost predicate WellFormed(s: State) {
    && (forall id :: id in s.policies ==> id < s.nextId)
    && (forall id :: id in s.groups ==> id < s.nextId)
    && (forall id :: id in s.routes ==> id < s.nextId)
    && (forall id :: id in s.networks ==> id < s.nextId)
    && (forall id, r :: id in s.networks && r in s.networks[id].routers ==> r < s.nextId)
    && (forall id, r :: id in s.networks && r in s.networks[id].resources ==> r < s.nextId)
  }

  // ---- what the calls do -----------------------------------------------------

  function AddPolicy(s: State, p: Policy): State { s.(policies := s.policies[s.nextId := p], nextId := s.nextId + 1) }

  function PutPolicy(s: State, id: Id, p: Policy): State { s.(policies := s.policies[id := p]) }

  function DropPolicy(s: State, id: Id): State { s.(policies := s.policies - {id}) }

  function AddGroup(s: State, name: string): State {
    s.(groups := s.groups[s.nextId := Group(name, {})], nextId := s.nextId + 1)
  }

  function PutGroup(s: State, id: Id, g: Group): State { s.(groups := s.groups[id := g]) }

  function AddRoute(s: State, r: Route): State { s.(routes := s.routes[s.nextId := r], nextId := s.nextId + 1) }

  function DropRoute(s: State, id: Id): State { s.(routes := s.routes - {id}) }

  function AddNetwork(s: State, name: string): State {
    s.(networks := s.networks[s.nextId := Network(name, map[], map[])], nextId := s.nextId + 1)
  }

  function DropNetwork(s: State, id: Id): State { s.(networks := s.networks - {id}) }

  function PutNetwork(s: State, id: Id, n: Network): State { s.(networks := s.networks[id := n]) }

  function AddRouter(s: State, id: Id, peer: Id): State
    requires id in s.networks
  {
    var n := s.networks[id];
    PutNetwork(s, id, n.(routers := n.routers[s.nextId := peer])).(nextId := s.nextId + 1)
  }

  function DropRouter(s: State, id: Id, router: Id): State
    requires id in s.networks
  {
    var n := s.networks[id];
    PutNetwork(s, id, n.(routers := n.routers - {router}))
  }

  function AddResource(s: State, id: Id, r: Resource): State
    requires id in s.networks
  {
    var n := s.networks[id];
    PutNetwork(s, id, n.(resources := n.resources[s.nextId := r])).(nextId := s.nextId + 1)
  }

  function DropResource(s: State, id: Id, resource: Id): State
    requires id in s.networks
  {
    var n := s.networks[id];
    PutNetwork(s, id, n.(resources := n.resources - {resource}))
  }

  // ---- the account -----------------------------------------------------------

  /** A call is done, is refused, or is done and its answer lost. */
  datatype Outcome = Done | Refused | Lost

  class Account {
    var now: State
    /** The state after each changing call so far. */
    ghost var past: seq<State>
    /** How many calls, changing or not, did not end well. */
    ghost var failures: nat

    constructor (s: State)
      ensures now == s && past == [] && failures == 0
    {
      now, past, failures := s, [], 0;
    }

    /** One changing call, and how it went. */
    method Do(effect: State) returns (ok: bool)
      modifies this
      ensures now == effect || now == old(now)
      ensures ok ==> now == effect
      ensures past == old(past) + [now]
      ensures failures == old(failures) + if ok then 0 else 1
    {
      var outcome: Outcome := *;
      if outcome != Refused {
        now := effect;
      }
      past := past + [now];
      ok := outcome == Done;
      failures := failures + if ok then 0 else 1;
    }

    /** A listing: every object once, in no promised order; or an error. */
    method List<V>(m: map<Id, V>) returns (ok: bool, ids: seq<Id>)
      modifies this`failures
      ensures failures == old(failures) + if ok then 0 else 1
      ensures ok ==> Lists(ids, m)
    {
      ok := *;
      ids := AnyOrder(m);
      failures := failures + if ok then 0 else 1;
    }
  }

  ghost predicate Lists<V>(ids: seq<Id>, m: map<Id, V>) {
    && (forall i, j :: 0 <= i < j < |ids| ==> ids[i] != ids[j])
    && (forall id :: id in ids <==> id in m)
  }

  method AnyOrder<V>(m: map<Id, V>) returns (ids: seq<Id>)
    ensures Lists(ids, m)
  {
    ids := [];
    var left := m.Keys;
    while left != {}
      invariant left <= m.Keys
      invariant forall i, j :: 0 <= i < j < |ids| ==> ids[i] != ids[j]
      invariant forall i :: 0 <= i < |ids| ==> ids[i] !in left
      invariant forall id :: id in m ==> id in left || id in ids
      invariant forall i :: 0 <= i < |ids| ==> ids[i] in m
    {
      var id :| id in left;
      ids := ids + [id];
      left := left - {id};
    }
  }

  /** The object of that name listed last, if any. */
  method FindByName<V>(m: map<Id, V>, ids: seq<Id>, name: V -> string, wanted: string) returns (found: bool, id: Id)
    requires Lists(ids, m)
    ensures found ==> id in m && name(m[id]) == wanted
    ensures !found ==> forall o :: o in m ==> name(m[o]) != wanted
  {
    found, id := false, 0;
    for i := 0 to |ids|
      invariant found ==> id in m && name(m[id]) == wanted
      invariant !found ==> forall j :: 0 <= j < i ==> name(m[ids[j]]) != wanted
    {
      if name(m[ids[i]]) == wanted {
        found, id := true, ids[i];
      }
    }
  }

  // ---- flows -----------------------------------------------------------------

  /** A protocol and, for tcp and udp, a port. */
  datatype Flow = Flow(proto: string, port: nat)

  ghost predicate InRange(r: PortRange, port: nat) { r.start <= port <= r.end }

  ghost predicate Names(r: PolicyRule, port: nat) {
    Itoa(port) in r.ports || exists i :: 0 <= i < |r.ranges| && InRange(r.ranges[i], port)
  }

  /** Every port when none is listed. */
  ghost predicate RuleAdmits(r: PolicyRule, f: Flow) {
    r.protocol == "all" || (r.protocol == f.proto && ((r.ports == [] && r.ranges == []) || Names(r, f.port)))
  }

  ghost predicate RulesAdmit(rules: seq<PolicyRule>, f: Flow) {
    exists i :: 0 <= i < |rules| && RuleAdmits(rules[i], f)
  }
}
