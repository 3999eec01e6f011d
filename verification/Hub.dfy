/** Who is connected, and the queue of each connection
  * (modules/chat/service/internal/hub/hub.go). */
module Hub {

  const ROOM := 32

  datatype Conn = Conn(username: string, id: nat)

  /** An event put in a queue, unless it is full: then it is dropped. */
  function Offered<E>(queue: seq<E>, e: E): seq<E> { if |queue| < ROOM then queue + [e] else queue }

  function OfferedTimes<E>(queue: seq<E>, e: E, n: nat): (r: seq<E>)
    ensures queue <= r && (|queue| <= ROOM ==> |r| <= ROOM)
  {
    if n == 0 then queue else Offered(OfferedTimes(queue, e, n - 1), e)
  }

  function Times(users: seq<string>, u: string): nat {
    if users == [] then 0
    else Times(users[..|users| - 1], u) + if users[|users| - 1] == u then 1 else 0
  }

  /** Offered n times: it is there n times more, or as often as brings the queue to 32. */
  lemma {:induction false} OfferedTimesIs<E>(queue: seq<E>, e: E, n: nat)
    requires |queue| <= 32
    ensures var r := OfferedTimes(queue, e, n);
            && queue <= r && |r| == (if |queue| + n <= 32 then |queue| + n else 32)
            && forall i :: |queue| <= i < |r| ==> r[i] == e
  {
    if n > 0 {
      OfferedTimesIs(queue, e, n - 1);
    }
  }

  /** How often a user is named, in a list in two parts. */
  lemma {:induction false} TimesSplit(a: seq<string>, u: string, b: seq<string>)
    ensures Times(a + [u] + b, u) == Times(a, u) + 1 + Times(b, u)
    ensures forall v :: v != u ==> Times(a + [u] + b, v) == Times(a, v) + Times(b, v)
  {
    if b == [] {
      assert a + [u] + b == a + [u] && (a + [u])[..|a|] == a;
    } else {
      TimesSplit(a, u, b[..|b| - 1]);
      var all := a + [u] + b;
      assert all[..|all| - 1] == a + [u] + b[..|b| - 1];
    }
  }

  lemma {:induction false} TimesStep(users: seq<string>, i: nat, u: string)
    requires i < |users|
    ensures Times(users[..i + 1], u) == Times(users[..i], u) + if users[i] == u then 1 else 0
  {
    assert users[..i + 1][..i] == users[..i];
  }

  lemma {:induction false} TimesDistinct(users: seq<string>, u: string)
    requires forall i, j :: 0 <= i < j < |users| ==> users[i] != users[j]
    ensures Times(users, u) == if u in users then 1 else 0
  {
    if users != [] {
      TimesDistinct(users[..|users| - 1], u);
      assert users == users[..|users| - 1] + [users[|users| - 1]];
    }
  }

  class Hub<E> {
    var conns: map<string, set<Conn>>
    var queues: map<Conn, seq<E>>
    var nextId: nat

    /** Every connection is filed under its user and has a queue with a limit; a user
      * without connections is not filed at all. */
    ghost predicate Valid()
      reads this
    {
      && (forall u :: u in conns ==> conns[u] != {})
      && (forall u, c :: u in conns && c in conns[u] ==> c.username == u && c in queues)
      && (forall c :: c in queues ==> c.username in conns && c in conns[c.username] && c.id < nextId
                                      && |queues[c]| <= ROOM)
    }

    constructor ()
      ensures Valid() && conns == map[] && queues == map[]
    {
      conns, queues, nextId := map[], map[], 0;
    }

    /** Online: those with a connection. */
    function Online(): (r: set<string>)
      requires Valid()
      reads this
      ensures forall u :: u in r <==> exists c :: c in queues && c.username == u
    {
      assert forall u :: u in conns ==> exists c :: c in conns[u] && c in queues;
      conns.Keys
    }

    method Register(username: string) returns (c: Conn)
      requires Valid()
      modifies this
      ensures Valid() && c.username == username && c !in old(queues)
      ensures queues == old(queues)[c := []]
    {
      c := Conn(username, nextId);
      nextId := nextId + 1;
      var mine := if username in conns then conns[username] else {};
      conns := conns[username := mine + {c}];
      queues := queues[c := []];
    }

    /** Whether it was the user's last connection; only that connection goes. */
    method Unregister(c: Conn) returns (last: bool)
      requires Valid() && c in queues
      modifies this
      ensures Valid() && queues == old(queues) - {c}
      ensures last <==> forall o :: o in queues ==> o.username != c.username
    {
      var rest := conns[c.username] - {c};
      last := rest == {};
      conns := if last then conns - {c.username} else conns[c.username := rest];
      queues := queues - {c};
      if !last {
        ghost var o :| o in rest;
        assert o in queues && o.username == c.username;
      }
    }

    /** Offers the event to each of the given connections. */
    method Offer(to: set<Conn>, e: E)
      requires Valid() && forall c :: c in to ==> c in queues
      modifies this`queues
      ensures Valid() && queues.Keys == old(queues).Keys
      ensures forall c :: c in queues ==> queues[c] == if c in to then Offered(old(queues)[c], e) else old(queues)[c]
    {
      var left := to;
      while left != {}
        invariant left <= to && queues.Keys == old(queues).Keys
        invariant forall c :: c in queues
                              ==> queues[c] == if c in to - left then Offered(old(queues)[c], e) else old(queues)[c]
      {
        var c :| c in left;
        left := left - {c};
        if |queues[c]| < ROOM {
          queues := queues[c := queues[c] + [e]];
        }
      }
    }

    method OfferUser(u: string, e: E)
      requires Valid()
      modifies this`queues
      ensures Valid() && queues.Keys == old(queues).Keys
      ensures forall c :: c in queues
                          ==> queues[c] == if c.username == u then Offered(old(queues)[c], e) else old(queues)[c]
    {
      Offer(if u in conns then conns[u] else {}, e);
    }

    /** SendTo: once for each time a user is named; nobody else gets anything, what is
      * queued stays in front, and a full queue holds nobody else up. */
    method SendTo(users: seq<string>, e: E)
      requires Valid()
      modifies this`queues
      ensures Valid() && queues.Keys == old(queues).Keys
      ensures forall c :: c in queues ==> queues[c] == OfferedTimes(old(queues)[c], e, Times(users, c.username))
    {
      for i := 0 to |users|
        invariant Valid() && queues.Keys == old(queues).Keys
        invariant forall c :: c in queues
                              ==> queues[c] == OfferedTimes(old(queues)[c], e, Times(users[..i], c.username))
      {
        ghost var before := queues;
        OfferUser(users[i], e);
        forall c | c in queues ensures queues[c] == OfferedTimes(old(queues)[c], e, Times(users[..i + 1], c.username)) {
          TimesStep(users, i, c.username);
          assert before[c] == OfferedTimes(old(queues)[c], e, Times(users[..i], c.username));
        }
      }
      assert users[..|users|] == users;
    }

    /** Broadcast: once to every connection. */
    method Broadcast(e: E)
      requires Valid()
      modifies this`queues
      ensures Valid() && queues.Keys == old(queues).Keys
      ensures forall c :: c in queues ==> queues[c] == Offered(old(queues)[c], e)
    {
      Offer(queues.Keys, e);
    }
  }
}
