/** The chat page's threads and their names, and the server's idea of what belongs in
  * one (frontend/src/stores/chat.ts). */
module Chat {
  import opened Text
  import opened ChatDelivery
  import opened Options

  /** A message goes to a channel, to a private group or to one person: the other
    * two of these fields are blank. */
  datatype Message = Message(id: nat, sender: string, group: string, recipient: string, custom: nat, content: string)

  datatype Kind = Channel | Private | Direct

  datatype Target = Target(kind: Kind, name: string)

  // ---- naming a thread -------------------------------------------------------

  function KindText(k: Kind): string {
    match k
    case Channel => "group"
    case Private => "custom"
    case Direct => "dm"
  }

  function TargetKey(t: Target): string { KindText(t.kind) + ":" + t.name }

  function KindOf(s: string): Kind { if s == "group" then Channel else if s == "custom" then Private else Direct }

  /** How backfill takes a key apart. */
  function KeyTarget(key: string): Target { Target(KindOf(Before(key, ':')), After(key, ':')) }

  function KeyForMessage(m: Message, me: string): string {
    if m.group != "" then TargetKey(Target(Channel, m.group))
    else if m.custom != 0 then TargetKey(Target(Private, Itoa(m.custom)))
    else TargetKey(Target(Direct, if m.sender == me then m.recipient else m.sender))
  }

  /** A key gives back the thread it was made of, whatever the name holds. */
  lemma {:induction false} KeyRoundTrip(t: Target)
    ensures KeyTarget(TargetKey(t)) == t
  {
    var k := KindText(t.kind);
    assert ':' !in k;
    BeforeAfter(k, t.name, ':');
    assert k + [':'] + t.name == TargetKey(t);
  }

  // ---- what the server puts in it --------------------------------------------

  /** What the request for a thread asks for: one of group, with and custom_group. */
  datatype Query = Query(group: string, with: string, custom: nat)

  function TargetParam(t: Target): Query
    requires t.kind.Private? ==> AllDigits(t.name)
  {
    match t.kind
    case Channel => Query(t.name, "", 0)
    case Private => Query("", "", NatValue(t.name))
    case Direct => Query("", t.name, 0)
  }

  /** The WHERE clause of fetchMessages. */
  predicate Selects(q: Query, me: string, m: Message) {
    if q.group != "" then m.group == q.group
    else if q.custom != 0 then m.custom == q.custom
    else
      && m.recipient != ""
      && ((m.sender == me && m.recipient == q.with) || (m.sender == q.with && m.recipient == me))
  }

  function One(b: bool): nat { if b then 1 else 0 }

  /** What the server accepts: exactly one target. */
  predicate WellAddressed(m: Message) {
    m.sender != "" && One(m.group != "") + One(m.custom != 0) + One(m.recipient != "") == 1
  }

  /** Channel and group members, and the two people of a direct thread. */
  predicate Concerns(m: Message, me: string) { m.recipient != "" ==> m.sender == me || m.recipient == me }

  ghost predicate GoodTarget(t: Target) {
    t.name != "" && (t.kind.Private? ==> exists n: nat :: n > 0 && t.name == Itoa(n))
  }

  /** For everything that reaches a person, the page and the server agree on which
    * thread it is in: what is pushed to a thread is what its history returns. */
  lemma {:induction false} KeyAgrees(t: Target, m: Message, me: string)
    requires GoodTarget(t) && WellAddressed(m) && Concerns(m, me) && me != ""
    ensures t.kind.Private? ==> AllDigits(t.name)
    ensures KeyForMessage(m, me) == TargetKey(t) <==> Selects(TargetParam(t), me, m)
  {
    KeyRoundTrip(t);
    if m.group != "" {
      KeyRoundTrip(Target(Channel, m.group));
    } else if m.custom != 0 {
      KeyRoundTrip(Target(Private, Itoa(m.custom)));
    } else {
      KeyRoundTrip(Target(Direct, if m.sender == me then m.recipient else m.sender));
    }
    if t.kind.Private? {
      var n: nat :| n > 0 && t.name == Itoa(n);
      NatRoundTrip(n);
      if m.custom != 0 {
        NatRoundTrip(m.custom);
      }
    }
  }

  // ---- the page's threads ----------------------------------------------------

  function Ids(list: seq<Message>): seq<nat> {
    if list == [] then [] else Ids(list[..|list| - 1]) + [list[|list| - 1].id]
  }

  lemma {:induction false} IdsAt(list: seq<Message>)
    ensures |Ids(list)| == |list| && forall i :: 0 <= i < |list| ==> Ids(list)[i] == list[i].id
  {
    if list != [] {
      IdsAt(list[..|list| - 1]);
    }
  }

  lemma {:induction false} IdsAppend(a: seq<Message>, b: seq<Message>)
    ensures Ids(a + b) == Ids(a) + Ids(b)
  {
    IdsAt(a);
    IdsAt(b);
    IdsAt(a + b);
  }

  lemma {:induction false} IdsSnoc(a: seq<Message>, m: Message)
    ensures Ids(a + [m]) == Ids(a) + [m.id]
  {
    assert (a + [m])[..|a + [m]| - 1] == a;
  }

  lemma {:induction false} AddedAllSnoc(list: seq<nat>, rows: seq<nat>, id: nat)
    ensures AddedAll(list, rows + [id]) == Added(AddedAll(list, rows), id)
  {
    assert (rows + [id])[..|rows + [id]| - 1] == rows;
  }

  class ChatStore {
    var me: string
    var threads: map<string, seq<Message>>
    var hasMore: map<string, bool>
    var unread: map<string, nat>
    var activeKey: string

    constructor (username: string)
      ensures me == username && threads == map[] && hasMore == map[] && unread == map[] && activeKey == ""
    {
      me, threads, hasMore, unread, activeKey := username, map[], map[], map[], "";
    }

    /** addMessage: false if the thread holds it already. A thread that was not
      * opened stays unopened. */
    method AddMessage(m: Message) returns (isNew: bool)
      modifies this`threads
      ensures threads.Keys == old(threads).Keys
      ensures (var key := KeyForMessage(m, me);
               (isNew <==> (key in old(threads) ==> m.id !in Ids(old(threads)[key])))
               && (forall k :: k in threads && k != key ==> threads[k] == old(threads)[k])
               && (key in threads ==> threads[key] == (if isNew then old(threads)[key] + [m] else old(threads)[key])
                                      && Ids(threads[key]) == Added(Ids(old(threads)[key]), m.id)))
    {
      var key := KeyForMessage(m, me);
      if key !in threads {
        return true;
      }
      var list := threads[key];
      IdsAt(list);
      for i := 0 to |list|
        invariant forall j :: 0 <= j < i ==> list[j].id != m.id
      {
        if list[i].id == m.id {
          return false;
        }
      }
      IdsSnoc(list, m);
      threads := threads[key := list + [m]];
      isNew := true;
    }

    /** fetchHistory, once its page has come. */
    method FetchHistory(t: Target, page: seq<Message>)
      modifies this`threads, this`hasMore
      ensures threads == old(threads)[TargetKey(t) := page]
      ensures hasMore == old(hasMore)[TargetKey(t) := |page| >= 50]
    {
      threads := threads[TargetKey(t) := page];
      hasMore := hasMore[TargetKey(t) := |page| >= PAGE];
    }

    /** fetchOlder, up to its request: nothing is asked on a thread with no messages. */
    method AskOlder(t: Target) returns (asked: bool, before: nat)
      ensures asked <==> TargetKey(t) in threads && threads[TargetKey(t)] != []
      ensures asked ==> before == threads[TargetKey(t)][0].id
    {
      var key := TargetKey(t);
      if key !in threads || threads[key] == [] {
        return false, 0;
      }
      asked, before := true, threads[key][0].id;
    }

    /** fetchOlder, once its page has come. It goes in front of the list object that was
      * there at the request: the thread's, with what was pushed onto it since; or, when
      * history was reloaded in between, the one from before that, as it then was. */
    method FetchOlder(t: Target, older: seq<Message>, reloaded: Option<seq<Message>>)
      requires TargetKey(t) in threads
      modifies this`threads, this`hasMore
      ensures (var key := TargetKey(t);
               var current := if reloaded.Some? then reloaded.value else old(threads)[key];
               && threads.Keys == old(threads).Keys && hasMore == old(hasMore)[key := |older| >= 50]
               && Ids(threads[key]) == Ids(older) + Ids(current) && threads[key] == older + current
               && forall k :: k in threads && k != key ==> threads[k] == old(threads)[k])
    {
      var key := TargetKey(t);
      var current := if reloaded.Some? then reloaded.value else threads[key];
      IdsAppend(older, current);
      threads := threads[key := older + current];
      hasMore := hasMore[key := |older| >= PAGE];
    }

    /** One thread's backfill, once its rows have come: each goes through AddMessage,
      * and all of them belong in this thread. */
    method Backfill(t: Target, rows: seq<Message>)
      requires GoodTarget(t) && TargetKey(t) in threads && me != ""
      requires t.kind.Private? ==> AllDigits(t.name)
      requires forall i :: 0 <= i < |rows|
                           ==> WellAddressed(rows[i]) && Concerns(rows[i], me) && Selects(TargetParam(t), me, rows[i])
      modifies this`threads
      ensures threads.Keys == old(threads).Keys
      ensures Ids(threads[TargetKey(t)]) == AddedAll(Ids(old(threads)[TargetKey(t)]), Ids(rows))
      ensures forall k :: k in threads && k != TargetKey(t) ==> threads[k] == old(threads)[k]
    {
      var key := TargetKey(t);
      for i := 0 to |rows|
        invariant threads.Keys == old(threads).Keys
        invariant Ids(threads[key]) == AddedAll(Ids(old(threads)[key]), Ids(rows[..i]))
        invariant forall k :: k in threads && k != key ==> threads[k] == old(threads)[k]
      {
        KeyAgrees(t, rows[i], me);
        var isNew := AddMessage(rows[i]);
        assert rows[..i + 1] == rows[..i] + [rows[i]];
        IdsSnoc(rows[..i], rows[i]);
        AddedAllSnoc(Ids(old(threads)[key]), Ids(rows[..i]), rows[i].id);
      }
      assert rows[..|rows|] == rows;
    }

    /** A message event: added, and counted unless it is known, one's own, or being
      * looked at. */
    method OnMessage(m: Message, visible: bool)
      modifies this`threads, this`unread
      ensures threads.Keys == old(threads).Keys
      ensures forall k :: k in threads ==>
        threads[k] == if k == KeyForMessage(m, me) && m.id !in Ids(old(threads)[k]) then old(threads)[k] + [m]
            else old(threads)[k]
      ensures (var key := KeyForMessage(m, me);
               var known := key in old(threads) && m.id in Ids(old(threads)[key]);
               var before := if key in old(unread) then old(unread)[key] else 0;
               unread == if known || m.sender == me then old(unread)
                         else old(unread)[key := if key == activeKey && visible then 0 else before + 1])
    {
      var key := KeyForMessage(m, me);
      var isNew := AddMessage(m);
      if !isNew || m.sender == me {
        return;
      }
      if key == activeKey && visible {
        unread := unread[key := 0];
      } else {
        unread := unread[key := (if key in unread then unread[key] else 0) + 1];
      }
    }

    /** An edit or a deletion replaces the message where it stands; no id moves. */
    method OnUpdated(m: Message)
      modifies this`threads
      ensures threads.Keys == old(threads).Keys
      ensures forall k :: k in threads && k != KeyForMessage(m, me) ==> threads[k] == old(threads)[k]
      ensures forall k :: k in threads ==> Ids(threads[k]) == Ids(old(threads)[k])
      ensures KeyForMessage(m, me) in threads ==>
        (var list, was := threads[KeyForMessage(m, me)], old(threads)[KeyForMessage(m, me)];
         |list| == |was| && forall i :: 0 <= i < |list| ==>
           list[i] == if was[i].id == m.id && (forall j :: 0 <= j < i ==> was[j].id != m.id) then m else was[i])
    {
      var key := KeyForMessage(m, me);
      if key !in threads {
        return;
      }
      var list := threads[key];
      for i := 0 to |list|
        invariant forall j :: 0 <= j < i ==> list[j].id != m.id
      {
        if list[i].id == m.id {
          var list' := list[i := m];
          IdsAt(list);
          IdsAt(list');
          assert Ids(list') == Ids(list);
          threads := threads[key := list'];
          return;
        }
      }
    }
  }
}
