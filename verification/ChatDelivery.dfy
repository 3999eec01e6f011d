/** How one open chat page keeps one thread complete over a socket that may drop
  * (frontend/src/stores/chat.ts, modules/chat/service). */
module ChatDelivery {

  const PAGE := 50
  const BACKFILL := 500

  // ---- what the server answers -----------------------------------------------

  ghost predicate Ascending(s: seq<nat>) { forall i, j :: 0 <= i < j < |s| ==> s[i] < s[j] }

  /** How many of the ids are below x. */
  function Below(ids: seq<nat>, x: nat): (n: nat)
    ensures n <= |ids|
    ensures Ascending(ids) ==> forall i :: 0 <= i < |ids| ==> (ids[i] < x <==> i < n)
  {
    if ids == [] || ids[|ids| - 1] < x then |ids| else Below(ids[..|ids| - 1], x)
  }

  function LastOf(ids: seq<nat>, n: nat): (r: seq<nat>)
    ensures |ids| >= n ==> |r| == n
  {
    if |ids| <= n then ids else ids[|ids| - n..]
  }

  /** The three shapes of fetchMessages, on a thread's ids in order. */
  function Latest(ids: seq<nat>): seq<nat> { LastOf(ids, PAGE) }

  function Older(ids: seq<nat>, before: nat): seq<nat> { LastOf(ids[..Below(ids, before)], PAGE) }

  function Newer(ids: seq<nat>, after: nat): seq<nat> {
    var rest := ids[Below(ids, after + 1)..];
    if |rest| <= BACKFILL then rest else rest[..BACKFILL]
  }

  // ---- what the page does with it --------------------------------------------

  /** addMessage on a loaded thread. */
  function Added(list: seq<nat>, id: nat): seq<nat> { if id in list then list else list + [id] }

  function AddedAll(list: seq<nat>, rows: seq<nat>): seq<nat> {
    if rows == [] then list else Added(AddedAll(list, rows[..|rows| - 1]), rows[|rows| - 1])
  }

  // ---- the system ------------------------------------------------------------

  /** A backfill of this thread: asked for, or answered and not yet taken in. */
  datatype Fetch = NoFetch | Asked(after: nat) | Answered(rows: seq<nat>)

  /** A page of older messages on its way. It will be put in front of the list object
    * held when it was asked for: that is the page's list, with all that is pushed onto
    * it meanwhile, unless history was reloaded and the page now holds another. */
  datatype Paging = NoPaging | Wanted(first: nat) | Stale(first: nat, was: seq<nat>)

  datatype State = State(
    thread: seq<nat>,     // committed rows, in id order
    toPush: seq<nat>,     // inserted by a sender who has not pushed yet
    wire: seq<nat>,       // in the connection's queue or on the network, first in first out
    up: bool,             // the hub knows the connection
    isOpen: bool,         // the page knows it
    loaded: bool,
    list: seq<nat>,       // the thread as the page holds it
    hasMore: bool,
    fetch: Fetch,
    paging: Paging)

  const START := State([], [], [], false, false, false, [], false, NoFetch, NoPaging)

  datatype Step =
    | Insert(id: nat)                      // a sender's row is committed
    | Push(i: nat, dropped: bool)          // the i-th waiting sender pushes; a full queue drops it
    | Register                             // the hub takes the new connection
    | Open                                 // the page sees it open and starts its backfill
    | Deliver                              // the page receives the first event on the wire
    | Answer                               // the backfill query runs
    | Finish                               // its rows are added
    | GiveUp                               // the backfill fails
    | Disconnect
    | History                              // fetchHistory
    | PageAsk                              // fetchOlder, up to its request; it is only called while hasMore
    | PageAnswer                           // and from its answer on
    | PageFail

  function Without(s: seq<nat>, i: nat): seq<nat>
    requires i < |s|
  {
    s[..i] + s[i + 1..]
  }

  /** One step; a step that is not possible changes nothing. */
  function Next(s: State, st: Step): State {
    match st
    case Insert(id) => if id in s.thread then s else s.(thread := Inserted(s.thread, id), toPush := s.toPush + [id])
    case Push(i, dropped) =>
      if i >= |s.toPush| then s
      else s.(toPush := Without(s.toPush, i), wire := if s.up && !dropped then s.wire + [s.toPush[i]] else s.wire)
    case Register => if s.up then s else s.(up := true, wire := [])
    case Open =>
      if s.isOpen then s
      else s.(isOpen := true, fetch := if s.loaded && s.list != [] then Asked(s.list[|s.list| - 1]) else NoFetch)
    case Deliver =>
      if s.isOpen && s.wire != []
      then s.(wire := s.wire[1..], list := if s.loaded then Added(s.list, s.wire[0]) else s.list)
      else s
    case Answer => if s.fetch.Asked? then s.(fetch := Answered(Newer(s.thread, s.fetch.after))) else s
    case Finish => if s.fetch.Answered? then s.(fetch := NoFetch, list := AddedAll(s.list, s.fetch.rows)) else s
    case GiveUp => s.(fetch := NoFetch)
    case Disconnect => s.(up := false, isOpen := false, wire := [])
    case History =>
      var page := Latest(s.thread);
      s.(loaded := true, list := page, hasMore := |page| >= PAGE,
         paging := if s.paging.Wanted? then Stale(s.paging.first, s.list) else s.paging)
    case PageAsk =>
      if !s.loaded || s.list == [] || !s.hasMore || !s.paging.NoPaging? then s else s.(paging := Wanted(s.list[0]))
    case PageAnswer =>
      if s.paging.NoPaging? then s
      else
        var older := Older(s.thread, s.paging.first);
        var current := if s.paging.Stale? then s.paging.was else s.list;
        s.(list := older + current, hasMore := |older| >= PAGE, paging := NoPaging)
    case PageFail => s.(paging := NoPaging)
  }

  function Inserted(thread: seq<nat>, id: nat): seq<nat> {
    thread[..Below(thread, id)] + [id] + thread[Below(thread, id)..]
  }

  function Run(s: State, steps: seq<Step>): State {
    if steps == [] then s else Next(Run(s, steps[..|steps| - 1]), steps[|steps| - 1])
  }

  // ---- what is assumed of a run ----------------------------------------------

  /** Ids still to reach the page over the socket. */
  function Coming(s: State): seq<nat> { s.wire + s.toPush }

  /** Everything that may yet be added to the loaded list. */
  ghost predicate MayCome(s: State, id: nat) {
    || id in Coming(s)
    || (s.fetch.Answered? && id in s.fetch.rows)
    || (s.fetch.Asked? && id in s.thread && id > s.fetch.after)
  }

  /** The steps the completeness rests on: rows are inserted and pushed in id order
    * and none is dropped; the hub knows a connection before the page does; a
    * backfill has a list to start from, fits in one answer and ends before the
    * connection does; history is not reloaded while something older than its page, or
    * an older page, is still on the way. */
  ghost predicate Careful(s: State, st: Step) {
    match st
    case Insert(id) => forall x :: x in s.thread ==> x < id
    case Push(i, dropped) => i == 0 && !(dropped && s.up)
    case Open => s.up && (s.loaded && s.list == [] ==> forall id :: id in s.thread ==> id in Coming(s))
    case Answer => s.fetch.Asked? ==> |s.thread| - Below(s.thread, s.fetch.after + 1) <= 500
    case GiveUp => s.fetch.NoFetch?
    case Disconnect => s.fetch.NoFetch?
    case History => s.paging.NoPaging? && forall id :: MayCome(s, id) ==> id in Latest(s.thread)
    case _ => true
  }

  // ---- what every careful run keeps ------------------------------------------

  ghost predicate Distinct(s: seq<nat>) { forall i, j :: 0 <= i < j < |s| ==> s[i] != s[j] }

  /** The thread's id belongs in the list: it is not older than the oldest loaded. */
  ghost predicate Due(s: State, id: nat) { id in s.thread && (s.list == [] || s.list[0] <= id) }

  ghost predicate Missing(s: State, id: nat) { Due(s, id) && id !in s.list }

  function Rows(s: State): seq<nat> { if s.fetch.Answered? then s.fetch.rows else [] }

  ghost predicate Plain(s: State) {
    && Ascending(s.thread)
    && Ascending(Coming(s))
    && (forall id :: id in Coming(s) ==> id in s.thread)
    && (!s.up ==> s.wire == [])
    && (!s.loaded ==> s.list == [] && s.fetch.NoFetch?)
    && (!s.fetch.NoFetch? ==> s.isOpen && s.list != [])
    && (s.list == [] ==> !s.hasMore)
  }

  ghost predicate ListOK(s: State) {
    && Distinct(s.list)
    && (forall id :: id in s.list ==> id in s.thread && s.list[0] <= id)
    && (forall id :: id in Rows(s) ==> id in s.thread && s.list != [] && s.list[0] <= id)
    && (s.fetch.Asked? ==> s.fetch.after in s.thread)
    && (s.fetch.Asked? ==> forall id :: id in s.thread && id > s.fetch.after ==> s.list != [] && s.list[0] <= id)
  }

  /** In the list, or about to be by a backfill, or what the backfill starts from. */
  ghost predicate Held(s: State, x: nat) { x in s.list || x in Rows(s) || s.fetch == Asked(x) }

  /** What comes over the socket is in the list already, or newer than all of it; and
    * than all that is about to be, unless it is about to be itself. */
  ghost predicate InOrder(s: State) { forall y: nat, x: nat :: Follows(s, y, x) ==> x < y }

  ghost predicate Follows(s: State, y: nat, x: nat) {
    y in Coming(s) && y !in s.list && Held(s, x) && (y !in Rows(s) || x in s.list)
  }

  /** Where a missing id will come from. */
  ghost predicate Covered(s: State, id: nat) {
    match s.fetch
    case Answered(rows) => id in rows || id in Coming(s)
    case Asked(after) => id > after
    case NoFetch => id in Coming(s) || (!s.isOpen && s.list != [] && id > s.list[|s.list| - 1])
  }

  ghost predicate Complete(s: State) {
    s.loaded && (s.list == [] ==> s.isOpen) ==> forall id :: Missing(s, id) ==> Covered(s, id)
  }

  /** No older page means nothing older. */
  ghost predicate Whole(s: State) {
    s.loaded && !s.hasMore && s.list != [] ==> forall id :: id in s.thread ==> s.list[0] <= id
  }

  /** A page on its way is for the list the page holds, and for its front. */
  ghost predicate Paged(s: State) {
    s.paging.NoPaging? || (s.paging.Wanted? && s.loaded && s.list != [] && s.list[0] == s.paging.first)
  }

  /** What holds of ids and their order however much is lost. */
  ghost predicate Ordered(s: State) { Plain(s) && ListOK(s) && InOrder(s) && Paged(s) }

  /** And that nothing is. */
  ghost predicate Inv(s: State) { Ordered(s) && (s.isOpen ==> s.up) && Complete(s) && Whole(s) }

  /** The steps that keep the order: rows are inserted and pushed in id order, and a
    * backfill has ended when the connection does. Pushes may be dropped, backfills fail
    * or be cut off, and the page may know a connection before the hub does. A reload
    * starts afresh and is left out. */
  ghost predicate Orderly(s: State, st: Step) {
    match st
    case Insert(id) => forall x :: x in s.thread ==> x < id
    case Push(i, _) => i == 0
    case Disconnect => s.fetch.NoFetch?
    case History => false
    case _ => true
  }

  // ---- the pages -------------------------------------------------------------

  lemma {:induction false} LatestHas(ids: seq<nat>, id: nat)
    requires Ascending(ids)
    ensures id in Latest(ids) ==> id in ids
    ensures Latest(ids) == [] ==> ids == []
    ensures id in ids && Latest(ids) != [] && Latest(ids)[0] <= id ==> id in Latest(ids)
    ensures id in Latest(ids) ==> Latest(ids)[0] <= id
    ensures |Latest(ids)| == if |ids| < 50 then |ids| else 50
    ensures |Latest(ids)| < 50 && id in ids ==> id in Latest(ids)
  {
    var page := Latest(ids);
    if id in ids && page != [] && page[0] <= id {
      var i :| 0 <= i < |ids| && ids[i] == id;
      var k := |ids| - |page|;
      assert page[0] == ids[k];
      assert i >= k;
      assert page[i - k] == id;
    }
  }

  lemma {:induction false} LatestDistinct(ids: seq<nat>)
    requires Ascending(ids)
    ensures Distinct(Latest(ids)) && Ascending(Latest(ids))
  {
  }

  lemma {:induction false} OlderHas(ids: seq<nat>, before: nat, id: nat)
    requires Ascending(ids)
    ensures (var page := Older(ids, before);
             (id in page ==> id in ids && id < before && page[0] <= id)
             && (page != [] && id in ids && page[0] <= id < before ==> id in page)
             && |page| == (if Below(ids, before) < 50 then Below(ids, before) else 50)
             && (|page| < 50 && id in ids && id < before ==> id in page))
  {
    var n, page := Below(ids, before), Older(ids, before);
    if id in ids && id < before {
      var i :| 0 <= i < |ids| && ids[i] == id;
      assert i < n;
      var k := n - |page|;
      if i >= k {
        assert page[i - k] == id;
      } else {
        assert page[0] == ids[k];
      }
    }
    if id in page {
      var j :| 0 <= j < |page| && page[j] == id;
      assert ids[n - |page| + j] == id && page[0] == ids[n - |page|];
    }
  }

  lemma {:induction false} OlderDistinct(ids: seq<nat>, before: nat)
    requires Ascending(ids)
    ensures Distinct(Older(ids, before))
  {
  }

  lemma {:induction false} NewerHas(ids: seq<nat>, after: nat, id: nat)
    requires Ascending(ids)
    ensures id in Newer(ids, after) ==> id in ids && id > after
    ensures |ids| - Below(ids, after + 1) <= 500 && id in ids && id > after ==> id in Newer(ids, after)
  {
    var n := Below(ids, after + 1);
    var rest := ids[n..];
    if id in ids && id > after {
      var i :| 0 <= i < |ids| && ids[i] == id;
      assert rest[i - n] == id;
    }
    if id in Newer(ids, after) {
      var j :| 0 <= j < |Newer(ids, after)| && Newer(ids, after)[j] == id;
      assert ids[n + j] == id;
    }
  }

  lemma {:induction false} BelowAt(ids: seq<nat>, i: nat)
    requires Ascending(ids) && i < |ids|
    ensures Below(ids, ids[i]) == i
  {
    assert i == 0 || ids[i - 1] < ids[i];
  }

  /** A backfill that is cut off has the oldest of what it was asked for. */
  lemma {:induction false} NewerCut(ids: seq<nat>, after: nat, x: nat, y: nat)
    requires Ascending(ids) && x in Newer(ids, after) && y in ids && y > after && y !in Newer(ids, after)
    ensures x < y
  {
    var n, page := Below(ids, after + 1), Newer(ids, after);
    var j :| 0 <= j < |page| && page[j] == x;
    assert ids[n + j] == x;
    var i :| 0 <= i < |ids| && ids[i] == y;
    NewerIff(ids, after, y);
    BelowAt(ids, i);
    assert n + j < i;
  }

  /** An id is in it if and only if it is newer and fewer than five hundred stand between. */
  lemma {:induction false} NewerIff(ids: seq<nat>, after: nat, id: nat)
    requires Ascending(ids) && id in ids
    ensures id in Newer(ids, after) <==> id > after && Below(ids, id) < Below(ids, after + 1) + 500
  {
    var n, page := Below(ids, after + 1), Newer(ids, after);
    var i :| 0 <= i < |ids| && ids[i] == id;
    BelowAt(ids, i);
    if id > after && i < n + 500 {
      assert page[i - n] == id;
    }
    if id in page {
      var j :| 0 <= j < |page| && page[j] == id;
      assert ids[n + j] == id;
    }
  }

  lemma {:induction false} AddedAllHas(list: seq<nat>, rows: seq<nat>)
    ensures Distinct(list) ==> Distinct(AddedAll(list, rows))
    ensures forall id :: id in AddedAll(list, rows) <==> id in list || id in rows
    ensures var l := AddedAll(list, rows); list <= l && (l == list || (l[|l| - 1] in rows && l[|l| - 1] !in list))
  {
    if rows != [] {
      AddedAllHas(list, rows[..|rows| - 1]);
      assert rows == rows[..|rows| - 1] + [rows[|rows| - 1]];
    }
  }

  // ---- one step keeps it -----------------------------------------------------

  lemma {:induction false} AppendAscending(s: seq<nat>, id: nat)
    requires Ascending(s) && forall x :: x in s ==> x < id
    ensures Ascending(s + [id])
  {
    forall i, j | 0 <= i < j < |s + [id]| ensures (s + [id])[i] < (s + [id])[j] {
      assert s[i] in s;
    }
  }

  /** Which ids the thread and the socket hold, before and after a step. */
  ghost predicate Grows(s: State, s': State, id: nat) {
    && s' == s.(thread := s'.thread, toPush := s'.toPush)
    && (forall x :: x in s'.thread <==> x in s.thread || x == id)
    && (forall x :: x in Coming(s') <==> x in Coming(s) || x == id)
  }

  lemma {:induction false} InsertGrows(s: State, id: nat)
    requires Plain(s) && Orderly(s, Insert(id)) && id !in s.thread
    ensures Grows(s, Next(s, Insert(id)), id) && Plain(Next(s, Insert(id)))
  {
    var s' := Next(s, Insert(id));
    InsertedLast(s.thread, id);
    ComingNext(s.wire, s.toPush, id);
    AppendAscending(s.thread, id);
    AppendAscending(Coming(s), id);
    assert Coming(s') == Coming(s) + [id];
    assert Grows(s, s', id) && Plain(s');
  }

  lemma {:induction false} InsertedLast(thread: seq<nat>, id: nat)
    requires Ascending(thread) && forall x :: x in thread ==> x < id
    ensures Inserted(thread, id) == thread + [id]
  {
    assert thread != [] ==> thread[|thread| - 1] in thread;
    assert Below(thread, id) == |thread|;
  }

  lemma {:induction false} ComingNext(wire: seq<nat>, toPush: seq<nat>, id: nat)
    ensures wire + (toPush + [id]) == wire + toPush + [id]
  {
  }

  lemma {:induction false} GrowsKeepsList(s: State, s': State, id: nat)
    requires Plain(s) && ListOK(s) && InOrder(s) && Grows(s, s', id) && forall x :: x in s.thread ==> x < id
    ensures ListOK(s') && InOrder(s')
  {
    assert s.list != [] ==> s.list[0] in s.list;
    assert Rows(s') == Rows(s) && s'.list == s.list;
    if s.fetch.Asked? {
      assert s.fetch.after in s'.thread && s.list != [];
    }
    assert ListOK(s');
    forall y: nat, x: nat | Follows(s', y, x) ensures x < y {
      assert Held(s, x) && x in s.thread;
      assert y in Coming(s) ==> Follows(s, y, x);
    }
  }

  lemma {:induction false} GrowsKeepsComplete(s: State, s': State, id: nat)
    requires Plain(s) && ListOK(s) && Complete(s) && Whole(s) && Grows(s, s', id)
    requires forall x :: x in s.thread ==> x < id
    ensures Complete(s') && Whole(s')
  {
    assert s.list != [] ==> s.list[0] in s.list;
    forall m | s'.loaded && (s'.list == [] ==> s'.isOpen) && Missing(s', m) ensures Covered(s', m) {
      if m != id {
        assert Missing(s, m) && Covered(s, m);
      }
    }
  }

  lemma {:induction false} InsertOrdered(s: State, id: nat)
    requires Ordered(s) && Orderly(s, Insert(id))
    ensures Ordered(Next(s, Insert(id)))
  {
    if id !in s.thread {
      InsertGrows(s, id);
      GrowsKeepsList(s, Next(s, Insert(id)), id);
    }
  }

  /** The connection, its queue and the senders change, and nothing new is to come. */
  ghost predicate FewerComing(s: State, s': State) {
    && s' == s.(toPush := s'.toPush, wire := s'.wire, up := s'.up, isOpen := s'.isOpen)
    && (s.fetch.NoFetch? || s'.isOpen == s.isOpen) && (!s'.up ==> s'.wire == [])
    && Ascending(Coming(s')) && forall x :: x in Coming(s') ==> x in Coming(s)
  }

  lemma {:induction false} FewerOrdered(s: State, s': State)
    requires Ordered(s) && FewerComing(s, s')
    ensures Ordered(s')
  {
    assert Rows(s') == Rows(s);
    forall y: nat, x: nat | Follows(s', y, x) ensures x < y {
      assert Follows(s, y, x);
    }
  }

  lemma {:induction false} FirstPushed(wire: seq<nat>, toPush: seq<nat>)
    requires toPush != []
    ensures Without(toPush, 0) == toPush[1..]
    ensures wire + [toPush[0]] + toPush[1..] == wire + toPush
  {
  }

  /** One left out of an ascending sequence. */
  lemma {:induction false} LeftOut(wire: seq<nat>, toPush: seq<nat>)
    requires toPush != [] && Ascending(wire + toPush)
    ensures Ascending(wire + toPush[1..])
    ensures forall x :: x in wire + toPush[1..] ==> x in wire + toPush
  {
    var all, less := wire + toPush, wire + toPush[1..];
    forall i | 0 <= i < |less| ensures less[i] == all[if i < |wire| then i else i + 1] {
    }
  }

  lemma {:induction false} PushFewer(s: State, dropped: bool)
    requires Plain(s) && s.toPush != []
    ensures FewerComing(s, Next(s, Push(0, dropped)))
    ensures s.up && !dropped ==> Coming(Next(s, Push(0, dropped))) == Coming(s)
  {
    FirstPushed(s.wire, s.toPush);
    LeftOut(s.wire, s.toPush);
  }

  lemma {:induction false} DisconnectFewer(s: State)
    requires Plain(s) && s.fetch.NoFetch?
    ensures FewerComing(s, Next(s, Disconnect))
  {
    assert s.toPush == Coming(s)[|s.wire|..];
    assert Coming(Next(s, Disconnect)) == s.toPush;
  }

  /** The same ids still to come, by whatever stage. */
  lemma {:induction false} SameComplete(s: State, s': State)
    requires Inv(s) && FewerComing(s, s') && Coming(s') == Coming(s) && s'.isOpen == s.isOpen
    ensures Complete(s') && Whole(s')
  {
    forall m | s'.loaded && (s'.list == [] ==> s'.isOpen) && Missing(s', m) ensures Covered(s', m) {
      assert Missing(s, m) && Covered(s, m);
    }
  }

  /** Some of what was to come is lost while the page is not connected: it is newer
    * than the list, and will be asked for. */
  lemma {:induction false} AwayComplete(s: State, s': State)
    requires Inv(s) && s.fetch.NoFetch? && FewerComing(s, s') && !s'.isOpen
    ensures Complete(s') && Whole(s')
  {
    forall m | s'.loaded && s'.list != [] && Missing(s', m) ensures Covered(s', m) {
      assert Missing(s, m) && Covered(s, m);
      assert m in Coming(s) ==> Follows(s, m, s.list[|s.list| - 1]);
    }
  }

  lemma {:induction false} PushComplete(s: State, i: nat, dropped: bool)
    requires Inv(s) && Careful(s, Push(i, dropped))
    ensures Complete(Next(s, Push(i, dropped))) && Whole(Next(s, Push(i, dropped)))
  {
    if s.toPush != [] {
      PushFewer(s, dropped);
      if s.up {
        SameComplete(s, Next(s, Push(0, dropped)));
      } else {
        AwayComplete(s, Next(s, Push(0, dropped)));
      }
    }
  }

  lemma {:induction false} OpenOrdered(s: State)
    requires Ordered(s)
    ensures Ordered(Next(s, Open))
  {
    var s' := Next(s, Open);
    if !s.isOpen {
      if s.list != [] {
        var last := s.list[|s.list| - 1];
        assert last in s.list && Held(s, last);
      }
      assert Rows(s) == [] && Coming(s') == Coming(s);
      forall y: nat, x: nat | Follows(s', y, x) ensures x < y {
        assert Follows(s, y, x);
      }
    }
  }

  lemma {:induction false} OpenComplete(s: State)
    requires Inv(s) && Careful(s, Open)
    ensures Complete(Next(s, Open)) && Whole(Next(s, Open))
  {
    var s' := Next(s, Open);
    if !s.isOpen {
      assert Coming(s') == Coming(s);
      forall m | s'.loaded && Missing(s', m) ensures Covered(s', m) {
        if s.list != [] {
          assert Missing(s, m) && Covered(s, m);
          assert m in Coming(s) ==> Follows(s, m, s.list[|s.list| - 1]);
        }
      }
    }
  }

  /** The first event comes off the wire. */
  ghost predicate Took(s: State, s': State, id: nat) {
    && s.isOpen && s.wire != [] && id == s.wire[0] && id in Coming(s) && Ascending(Coming(s'))
    && (forall x :: x in Coming(s') ==> x in Coming(s) && id < x)
    && (forall x :: x in Coming(s) ==> x == id || x in Coming(s'))
  }

  lemma {:induction false} DeliverTook(s: State)
    requires Plain(s) && s.isOpen && s.wire != []
    ensures Took(s, Next(s, Deliver), s.wire[0])
  {
    var s' := Next(s, Deliver);
    assert Coming(s)[0] == s.wire[0] && Coming(s') == Coming(s)[1..];
  }

  ghost predicate TookNew(s: State, s': State, id: nat) {
    && Took(s, s', id) && s.loaded && id !in s.list
    && s' == s.(wire := s'.wire, list := s.list + [id])
    && (s.list != [] ==> s.list[0] in s.list && s'.list[0] == s.list[0])
    && (forall x :: x in s'.list <==> x in s.list || x == id)
  }

  lemma {:induction false} TookNewList(s: State, s': State, id: nat)
    requires Ordered(s) && TookNew(s, s', id)
    ensures ListOK(s')
  {
    assert Rows(s') == Rows(s);
    if s.list != [] {
      assert Follows(s, id, s.list[0]);
    }
  }

  lemma {:induction false} TookNewOrder(s: State, s': State, id: nat)
    requires Ordered(s) && TookNew(s, s', id)
    ensures InOrder(s')
  {
    assert Rows(s') == Rows(s);
    forall y: nat, x: nat | Follows(s', y, x) ensures x < y {
      if x != id {
        assert Follows(s, y, x);
      }
    }
  }

  lemma {:induction false} DeliverOrdered(s: State)
    requires Ordered(s)
    ensures Ordered(Next(s, Deliver))
  {
    var s' := Next(s, Deliver);
    if s.isOpen && s.wire != [] {
      var id := s.wire[0];
      DeliverTook(s);
      if s.loaded && id !in s.list {
        assert TookNew(s, s', id);
        TookNewList(s, s', id);
        TookNewOrder(s, s', id);
      } else {
        FewerOrdered(s, s');
      }
    }
  }

  lemma {:induction false} TookNewComplete(s: State, s': State, id: nat)
    requires Inv(s) && TookNew(s, s', id)
    ensures Complete(s') && Whole(s')
  {
    if s.list == [] {
      forall m | m in s.thread ensures id <= m {
        if m != id {
          assert Missing(s, m) && Covered(s, m);
        }
      }
    }
    forall m | Missing(s', m) ensures Covered(s', m) {
      assert Missing(s, m) && Covered(s, m);
    }
  }

  lemma {:induction false} DeliverComplete(s: State)
    requires Inv(s)
    ensures Complete(Next(s, Deliver)) && Whole(Next(s, Deliver))
  {
    var s' := Next(s, Deliver);
    if s.isOpen && s.wire != [] {
      var id := s.wire[0];
      DeliverTook(s);
      if s.loaded && id !in s.list {
        assert TookNew(s, s', id);
        TookNewComplete(s, s', id);
      } else {
        forall m | s'.loaded && Missing(s', m) ensures Covered(s', m) {
          assert Missing(s, m) && Covered(s, m);
        }
      }
    }
  }

  lemma {:induction false} AnswerOrdered(s: State)
    requires Ordered(s)
    ensures Ordered(Next(s, Answer))
  {
    var s' := Next(s, Answer);
    if s.fetch.Asked? {
      var after := s.fetch.after;
      forall id: nat | id in Rows(s') ensures id in s.thread && id > after {
        NewerHas(s.thread, after, id);
      }
      assert Held(s, after);
      forall y: nat, x: nat | Follows(s', y, x) ensures x < y {
        assert Follows(s, y, after);
        if x in s.list {
          assert Follows(s, y, x);
        } else {
          NewerCut(s.thread, after, x, y);
        }
      }
    }
  }

  lemma {:induction false} AnswerComplete(s: State)
    requires Inv(s) && Careful(s, Answer)
    ensures Complete(Next(s, Answer)) && Whole(Next(s, Answer))
  {
    var s' := Next(s, Answer);
    if s.fetch.Asked? {
      forall id: nat ensures id in Rows(s') <==> id in s.thread && id > s.fetch.after {
        NewerHas(s.thread, s.fetch.after, id);
      }
      forall m | Missing(s', m) ensures Covered(s', m) {
        assert Missing(s, m) && Covered(s, m);
      }
    }
  }

  /** The rows of a backfill are in the list. */
  ghost predicate Merged(s: State, s': State) {
    && s.fetch.Answered? && s' == s.(fetch := NoFetch, list := s'.list)
    && s.list != [] && s'.list != [] && s.list <= s'.list && Distinct(s'.list)
    && (forall id :: id in s'.list <==> id in s.list || id in s.fetch.rows)
  }

  lemma {:induction false} FinishMerged(s: State)
    requires Ordered(s) && s.fetch.Answered?
    ensures Merged(s, Next(s, Finish))
  {
    AddedAllHas(s.list, s.fetch.rows);
  }

  lemma {:induction false} MergedOrdered(s: State, s': State)
    requires Ordered(s) && Merged(s, s')
    ensures Ordered(s')
  {
    assert Rows(s') == [] && Rows(s) == s.fetch.rows && Coming(s') == Coming(s);
    assert s'.list[0] == s.list[0];
    assert Plain(s');
    assert ListOK(s');
    forall y: nat, x: nat | Follows(s', y, x) ensures x < y {
      assert Follows(s, y, x);
    }
  }

  lemma {:induction false} MergedComplete(s: State, s': State)
    requires Inv(s) && Merged(s, s')
    ensures Complete(s') && Whole(s')
  {
    assert s'.list[0] == s.list[0];
    forall m | Missing(s', m) ensures Covered(s', m) {
      assert Missing(s, m) && Covered(s, m);
    }
  }

  lemma {:induction false} HistoryKeeps(s: State)
    requires Inv(s) && Careful(s, History)
    ensures Inv(Next(s, History))
  {
    var s' := Next(s, History);
    LatestDistinct(s.thread);
    forall id ensures id in s'.list ==> id in s.thread && s'.list[0] <= id {
      LatestHas(s.thread, id);
    }
    ReloadBringsAll(s);
    forall id | id in s.thread ensures s'.list != [] && (!s'.hasMore ==> s'.list[0] <= id) {
      LatestHas(s.thread, id);
    }
    forall id | MayCome(s, id) ensures id in s'.list {
    }
    assert s.list != [] ==> s.list[0] in s.list;
    assert forall id :: id in Coming(s) ==> MayCome(s, id);
    assert Rows(s') == Rows(s);
    forall id | id in Rows(s') ensures id in s'.list {
      assert MayCome(s, id);
    }
  }

  /** A reload leaves nothing missing, whatever was. */
  lemma {:induction false} ReloadBringsAll(s: State)
    requires Ascending(s.thread)
    ensures forall id :: !Missing(Next(s, History), id)
  {
    forall id ensures !Missing(Next(s, History), id) {
      LatestHas(s.thread, id);
    }
  }

  /** An older page has been put in front. */
  ghost predicate PutInFront(s: State, s': State, older: seq<nat>) {
    && s.paging.Wanted? && s.list != [] && s.paging.first == s.list[0]
    && older == Older(s.thread, s.list[0]) && Distinct(older)
    && s' == s.(list := older + s.list, hasMore := |older| >= PAGE, paging := NoPaging)
    && (forall id :: id in older ==> id in s.thread && id < s.list[0] && older[0] <= id)
    && s'.list[0] <= s.list[0] && s'.list[|s'.list| - 1] == s.list[|s.list| - 1]
  }

  lemma {:induction false} PageAnswerPuts(s: State)
    requires Ordered(s) && s.paging.Wanted?
    ensures PutInFront(s, Next(s, PageAnswer), Older(s.thread, s.list[0]))
  {
    var first := s.list[0];
    var older := Older(s.thread, first);
    OlderDistinct(s.thread, first);
    forall id ensures id in older ==> id in s.thread && id < first && older[0] <= id {
      OlderHas(s.thread, first, id);
    }
    assert older != [] ==> older[0] in older;
  }

  lemma {:induction false} PutOrdered(s: State, s': State, older: seq<nat>)
    requires Ordered(s) && PutInFront(s, s', older)
    ensures Ordered(s')
  {
    assert s.list[0] in s.list && Held(s, s.list[0]);
    assert forall x :: x in s'.list <==> x in older || x in s.list;
    assert older != [] ==> older[0] in older;
    forall i, j | 0 <= i < j < |s'.list| ensures s'.list[i] != s'.list[j] {
      if i < |older| <= j {
        assert s'.list[i] in older && s'.list[j] in s.list;
      }
    }
    forall y: nat, x: nat | Follows(s', y, x) ensures x < y {
      assert Follows(s, y, s.list[0]);
      assert x in older || Follows(s, y, x);
    }
  }

  lemma {:induction false} PutComplete(s: State, s': State, older: seq<nat>)
    requires Inv(s) && PutInFront(s, s', older)
    ensures Complete(s') && Whole(s')
  {
    forall m | Missing(s', m) ensures Covered(s', m) {
      OlderHas(s.thread, s.list[0], m);
      assert Missing(s, m) && Covered(s, m);
    }
    forall id | id in s.thread && !s'.hasMore ensures s'.list[0] <= id {
      OlderHas(s.thread, s.list[0], id);
    }
  }

  lemma {:induction false} PagingOrdered(s: State, st: Step)
    requires Ordered(s) && (st.PageAsk? || st.PageFail?)
    ensures Ordered(Next(s, st))
  {
    var s' := Next(s, st);
    assert Coming(s') == Coming(s) && Rows(s') == Rows(s);
    forall y: nat, x: nat | Follows(s', y, x) ensures x < y {
      assert Follows(s, y, x);
    }
  }

  lemma {:induction false} GiveUpOrdered(s: State)
    requires Ordered(s)
    ensures Ordered(Next(s, GiveUp))
  {
    var s' := Next(s, GiveUp);
    assert Coming(s') == Coming(s) && Rows(s') == [];
    forall y: nat, x: nat | Follows(s', y, x) ensures x < y {
      assert Follows(s, y, x);
    }
  }

  /** The order of ids is kept by every orderly step. */
  lemma {:induction false} StepOrdered(s: State, st: Step)
    requires Ordered(s) && Orderly(s, st)
    ensures Ordered(Next(s, st))
  {
    match st {
      case Insert(id) => InsertOrdered(s, id);
      case Push(i, dropped) =>
        if s.toPush != [] {
          PushFewer(s, dropped);
          FewerOrdered(s, Next(s, st));
        }
      case Register => FewerOrdered(s, Next(s, st));
      case Open => OpenOrdered(s);
      case Deliver => DeliverOrdered(s);
      case Answer => AnswerOrdered(s);
      case Finish =>
        if s.fetch.Answered? {
          FinishMerged(s);
          MergedOrdered(s, Next(s, st));
        }
      case Disconnect =>
        DisconnectFewer(s);
        FewerOrdered(s, Next(s, st));
      case PageAnswer =>
        if s.paging.Wanted? {
          PageAnswerPuts(s);
          PutOrdered(s, Next(s, st), Older(s.thread, s.list[0]));
        }
      case GiveUp => GiveUpOrdered(s);
      case _ => PagingOrdered(s, st);
    }
  }

  lemma {:induction false} StepComplete(s: State, st: Step)
    requires Inv(s) && Careful(s, st) && !st.History?
    ensures Complete(Next(s, st)) && Whole(Next(s, st))
  {
    match st {
      case Insert(id) =>
        if id !in s.thread {
          InsertGrows(s, id);
          GrowsKeepsComplete(s, Next(s, st), id);
        }
      case Push(i, dropped) => PushComplete(s, i, dropped);
      case Register => SameComplete(s, Next(s, st));
      case Open => OpenComplete(s);
      case Deliver => DeliverComplete(s);
      case Answer => AnswerComplete(s);
      case Finish =>
        if s.fetch.Answered? {
          FinishMerged(s);
          MergedComplete(s, Next(s, st));
        }
      case Disconnect =>
        DisconnectFewer(s);
        AwayComplete(s, Next(s, st));
      case PageAnswer =>
        if s.paging.Wanted? {
          PageAnswerPuts(s);
          PutComplete(s, Next(s, st), Older(s.thread, s.list[0]));
        }
      case _ => PagingComplete(s, st);
    }
  }

  lemma {:induction false} PagingComplete(s: State, st: Step)
    requires Inv(s) && Careful(s, st) && (st.PageAsk? || st.PageFail? || st.GiveUp?)
    ensures Complete(Next(s, st)) && Whole(Next(s, st))
  {
    var s' := Next(s, st);
    forall m | s'.loaded && (s'.list == [] ==> s'.isOpen) && Missing(s', m) ensures Covered(s', m) {
      assert Missing(s, m) && Covered(s, m);
    }
  }

  lemma {:induction false} StepKeeps(s: State, st: Step)
    requires Inv(s) && Careful(s, st)
    ensures Inv(Next(s, st))
  {
    if st.History? {
      HistoryKeeps(s);
    } else {
      StepOrdered(s, st);
      StepComplete(s, st);
    }
  }

  // ---- whole runs ------------------------------------------------------------

  /** Every step of the run is careful when it happens. */
  ghost predicate CarefulRun(steps: seq<Step>) {
    steps != [] ==>
      var init := steps[..|steps| - 1];
      CarefulRun(init) && Careful(Run(START, init), steps[|steps| - 1])
  }

  lemma {:induction false} StartInv()
    ensures Inv(START)
  {
    assert Coming(START) == [] && Rows(START) == [];
    assert Ordered(START);
  }

  lemma {:induction false} RunKeeps(steps: seq<Step>)
    requires CarefulRun(steps)
    ensures Inv(Run(START, steps))
  {
    if steps != [] {
      var init := steps[..|steps| - 1];
      RunKeeps(init);
      StepKeeps(Run(START, init), steps[|steps| - 1]);
    } else {
      StartInv();
    }
  }

  /** Connected, nothing on its way, no backfill. */
  ghost predicate Quiet(s: State) { s.isOpen && s.loaded && s.fetch.NoFetch? && Coming(s) == [] }

  lemma {:induction false} QuietIsComplete(s: State)
    requires Inv(s) && Quiet(s)
    ensures forall id :: Due(s, id) ==> id in s.list
    ensures !s.hasMore ==> forall id :: id in s.thread ==> id in s.list
  {
    forall id | Due(s, id) ensures id in s.list {
      assert !Covered(s, id) && !Missing(s, id);
    }
    forall id | id in s.thread && !s.hasMore ensures Due(s, id) {
    }
  }

  /** In every careful run a loaded thread never holds an id twice; whenever the page
    * is connected and quiet it holds every id from its oldest loaded one on; and
    * when it says there is nothing older it holds the whole thread. */
  lemma {:induction false} ThreadStaysComplete(steps: seq<Step>)
    requires CarefulRun(steps)
    ensures Distinct(Run(START, steps).list)
    ensures forall id :: id in Run(START, steps).list ==> id in Run(START, steps).thread
    ensures Quiet(Run(START, steps)) ==> forall id :: Due(Run(START, steps), id) ==> id in Run(START, steps).list
    ensures Quiet(Run(START, steps)) && !Run(START, steps).hasMore
            ==> forall id :: id in Run(START, steps).thread ==> id in Run(START, steps).list
  {
    RunKeeps(steps);
    if Quiet(Run(START, steps)) {
      QuietIsComplete(Run(START, steps));
    }
  }

  // ---- what a reconnect brings back ------------------------------------------

  /** The connection is made, and its backfill asked for, answered and taken in. */
  function Reopened(s: State): State { Next(Next(Next(Next(s, Register), Open), Answer), Finish) }

  lemma {:induction false} ReopenedIs(s: State)
    requires Plain(s) && s.loaded && !s.isOpen
    ensures var rows := if s.list == [] then [] else Newer(s.thread, s.list[|s.list| - 1]);
            Reopened(s) == s.(up := true, isOpen := true, fetch := NoFetch, list := AddedAll(s.list, rows))
  {
    var s1 := Next(s, Register);
    var s2 := Next(s1, Open);
    assert s2 == s.(up := true, isOpen := true,
                    fetch := if s.list == [] then NoFetch else Asked(s.list[|s.list| - 1]));
    var s3 := Next(s2, Answer);
    assert s.list == [] ==> s3 == s2;
  }

  /** Which missing messages a page that is away has after its next reconnect, or has
    * still to come: those that were to come already, and those newer than the last one
    * in its list with fewer than five hundred between. */
  lemma {:induction false} ReconnectIff(s: State, id: nat)
    requires Ordered(s) && s.loaded && !s.isOpen && id in s.thread && id !in s.list
    ensures id in Reopened(s).list || id in Coming(Reopened(s)) <==>
            || id in Coming(s)
            || (s.list != [] && id > s.list[|s.list| - 1]
                && Below(s.thread, id) < Below(s.thread, s.list[|s.list| - 1] + 1) + 500)
  {
    ReopenedIs(s);
    assert Coming(Reopened(s)) == Coming(s);
    if s.list != [] {
      AddedAllHas(s.list, Newer(s.thread, s.list[|s.list| - 1]));
      NewerIff(s.thread, s.list[|s.list| - 1], id);
    }
  }

  // ---- lost for good ---------------------------------------------------------

  /** What may happen after a message is missed: everything but a reload, as long as no
    * older message is committed after it and a backfill has ended when the page's next
    * connection starts another. Pushes may leave in any order. */
  ghost predicate Ordinary(s: State, st: Step, id: nat) {
    match st
    case Insert(x) => id < x
    case Open => s.fetch.NoFetch?
    case History => false
    case _ => true
  }

  ghost predicate OrdinaryRun(s: State, steps: seq<Step>, id: nat) {
    steps != [] ==>
      var init := steps[..|steps| - 1];
      OrdinaryRun(s, init, id) && Ordinary(Run(s, init), steps[|steps| - 1], id)
  }

  /** No run without a reload brings it into the list: any number of inserts, pushes,
    * losses, reconnects and older pages. */
  ghost predicate Lost(s: State, id: nat) {
    forall steps :: OrdinaryRun(s, steps, id) ==> id !in Run(s, steps).list
  }

  /** What holds in any order. */
  ghost predicate Sound(s: State) {
    && Ascending(s.thread) && Paged(s)
    && (s.list == [] ==> !s.hasMore)
    && (!s.fetch.NoFetch? ==> s.loaded && s.list != [])
  }

  /** A page of messages that the list has, from the k-th of the thread on, all older
    * than id. */
  ghost predicate Block(s: State, id: nat, k: nat) {
    && k + 500 <= |s.thread| && s.thread[k + 500 - 1] < id
    && forall j :: k <= j < k + 500 ==> s.thread[j] in s.list
  }

  /** A backfill from x on does not bring id: it starts after it, or ends before it with
    * a block that takes it no further. */
  ghost predicate Short(s: State, id: nat, k: nat, x: nat) { id < x || (Block(s, id, k) && x < s.thread[k]) }

  /** A message that is not in the list and not on its way, where every backfill that is
    * on its way or may start falls short; and it is not older than the list, or the list
    * says that it has all. */
  ghost predicate Overtaken(s: State, id: nat, k: nat) {
    && s.loaded && id in s.thread && id !in s.list
    && (forall y :: y in Coming(s) ==> y in s.list || id < y)
    && (forall r :: r in Rows(s) ==> r in s.list || Short(s, id, k, r))
    && (s.fetch.Asked? ==> Short(s, id, k, s.fetch.after))
    && (s.list != [] ==> Short(s, id, k, s.list[|s.list| - 1]))
    && ((s.list != [] && s.list[0] <= id) || (!s.hasMore && s.paging.NoPaging?))
  }

  /** The threads agree on what is older than id, and nothing has left the list. */
  ghost predicate SameBefore(s: State, s': State, id: nat) {
    && (forall j :: 0 <= j < |s.thread| && s.thread[j] < id ==> j < |s'.thread| && s'.thread[j] == s.thread[j])
    && (forall m :: m in s.list ==> m in s'.list)
  }

  lemma {:induction false} ShortStays(s: State, s': State, id: nat, k: nat)
    requires Ascending(s.thread) && SameBefore(s, s', id)
    ensures forall x :: Short(s, id, k, x) ==> Short(s', id, k, x)
  {
    if Block(s, id, k) {
      assert Block(s', id, k);
    }
  }

  ghost predicate PutAt(thread: seq<nat>, id: nat, n: nat, more: seq<nat>) {
    && n <= |thread| && |more| == |thread| + 1 && more[n] == id
    && (forall j :: 0 <= j < n ==> more[j] == thread[j])
    && (forall j :: n < j < |more| ==> more[j] == thread[j - 1])
  }

  lemma {:induction false} PutAtHas(thread: seq<nat>, id: nat, n: nat, more: seq<nat>)
    requires PutAt(thread, id, n, more)
    ensures forall x :: x in more <==> x in thread || x == id
  {
    forall x | x in thread || x == id ensures x in more {
      if x in thread {
        var j :| 0 <= j < |thread| && thread[j] == x;
        assert more[if j < n then j else j + 1] == x;
      }
    }
  }

  lemma {:induction false} InsertedHas(thread: seq<nat>, id: nat)
    requires Ascending(thread) && id !in thread
    ensures Ascending(Inserted(thread, id))
    ensures forall x :: x in Inserted(thread, id) <==> x in thread || x == id
    ensures forall j :: 0 <= j < |thread| && thread[j] < id ==> Inserted(thread, id)[j] == thread[j]
  {
    var n, more := Below(thread, id), Inserted(thread, id);
    assert PutAt(thread, id, n, more);
    PutAtHas(thread, id, n, more);
    forall j | n <= j < |thread| ensures id < thread[j] {
      assert thread[j] in thread;
    }
  }

  lemma {:induction false} InsertOvertaken(s: State, x: nat, id: nat, k: nat)
    requires Sound(s) && Overtaken(s, id, k) && id < x && x !in s.thread
    ensures Sound(Next(s, Insert(x))) && Overtaken(Next(s, Insert(x)), id, k)
  {
    var s' := Next(s, Insert(x));
    InsertedHas(s.thread, x);
    assert SameBefore(s, s', id);
    ShortStays(s, s', id, k);
    ComingNext(s.wire, s.toPush, x);
    assert Rows(s') == Rows(s) && Coming(s') == Coming(s) + [x];
  }

  /** At most the connection has changed, and what is coming over it has become less. */
  ghost predicate NoMoreComing(s: State, s': State) {
    && s' == s.(toPush := s'.toPush, wire := s'.wire, up := s'.up, isOpen := s'.isOpen)
    && forall x :: x in Coming(s') ==> x in Coming(s)
  }

  lemma {:induction false} FewerOvertaken(s: State, s': State, id: nat, k: nat)
    requires Sound(s) && Overtaken(s, id, k) && NoMoreComing(s, s')
    ensures Sound(s') && Overtaken(s', id, k)
  {
    ShortStays(s, s', id, k);
    assert Rows(s') == Rows(s);
  }

  lemma {:induction false} PushNoMore(s: State, i: nat, dropped: bool)
    ensures NoMoreComing(s, Next(s, Push(i, dropped)))
  {
    if i < |s.toPush| {
      var s' := Next(s, Push(i, dropped));
      forall x | x in Coming(s') ensures x in Coming(s) {
        assert x in s.wire || x in s.toPush[..i] || x in s.toPush[i + 1..] || x == s.toPush[i];
      }
    }
  }

  lemma {:induction false} DeliverOvertaken(s: State, id: nat, k: nat)
    requires Sound(s) && Overtaken(s, id, k) && s.isOpen && s.wire != []
    ensures Sound(Next(s, Deliver)) && Overtaken(Next(s, Deliver), id, k)
  {
    var s', y := Next(s, Deliver), s.wire[0];
    assert Coming(s)[0] == y && Coming(s') == Coming(s)[1..];
    assert y in Coming(s) && Rows(s') == Rows(s);
    ShortStays(s, s', id, k);
  }

  lemma {:induction false} AnswerOvertaken(s: State, id: nat, k: nat)
    requires Sound(s) && Overtaken(s, id, k) && s.fetch.Asked?
    ensures Sound(Next(s, Answer)) && Overtaken(Next(s, Answer), id, k)
  {
    var s' := Next(s, Answer);
    ShortStays(s, s', id, k);
    forall r | r in Rows(s') ensures r in s.list || Short(s, id, k, r) {
      NewerHas(s.thread, s.fetch.after, r);
      if id >= s.fetch.after {
        BeforeBlock(s, id, k, s.fetch.after, r);
      }
    }
  }

  /** A backfill that starts before a block ends before the block does. */
  lemma {:induction false} BeforeBlock(s: State, id: nat, k: nat, after: nat, r: nat)
    requires Ascending(s.thread) && Block(s, id, k) && after < s.thread[k] && r in Newer(s.thread, after)
    ensures r in s.list || r < s.thread[k]
  {
    var n := Below(s.thread, after + 1);
    var j :| 0 <= j < |Newer(s.thread, after)| && Newer(s.thread, after)[j] == r;
    assert s.thread[n + j] == r && n <= k;
  }

  lemma {:induction false} FetchOvertaken(s: State, st: Step, id: nat, k: nat)
    requires Sound(s) && Overtaken(s, id, k) && (st.Open? || st.GiveUp?)
    ensures Sound(Next(s, st)) && Overtaken(Next(s, st), id, k)
  {
    var s' := Next(s, st);
    ShortStays(s, s', id, k);
    assert Coming(s') == Coming(s);
  }

  lemma {:induction false} FinishOvertaken(s: State, id: nat, k: nat)
    requires Sound(s) && Overtaken(s, id, k) && s.fetch.Answered?
    ensures Sound(Next(s, Finish)) && Overtaken(Next(s, Finish), id, k)
  {
    var s' := Next(s, Finish);
    AddedAllHas(s.list, s.fetch.rows);
    ShortStays(s, s', id, k);
    assert Rows(s') == [] && Rows(s) == s.fetch.rows && Coming(s') == Coming(s);
    assert s'.list[0] == s.list[0];
  }

  lemma {:induction false} PagingOvertaken(s: State, st: Step, id: nat, k: nat)
    requires Sound(s) && Overtaken(s, id, k) && (st.PageAsk? || st.PageAnswer? || st.PageFail?)
    ensures Sound(Next(s, st)) && Overtaken(Next(s, st), id, k)
  {
    var s' := Next(s, st);
    assert Coming(s') == Coming(s) && Rows(s') == Rows(s);
    if st.PageAnswer? && s.paging.Wanted? {
      OlderInFront(s.thread, s.list[0], id);
    }
    ShortStays(s, s', id, k);
  }

  lemma {:induction false} OlderInFront(thread: seq<nat>, first: nat, id: nat)
    requires Ascending(thread) && first <= id
    ensures id !in Older(thread, first) && (Older(thread, first) != [] ==> Older(thread, first)[0] < first)
  {
    OlderHas(thread, first, id);
    if Older(thread, first) != [] {
      OlderHas(thread, first, Older(thread, first)[0]);
    }
  }

  lemma {:induction false} StepOvertaken(s: State, st: Step, id: nat, k: nat)
    requires Sound(s) && Overtaken(s, id, k) && Ordinary(s, st, id)
    ensures Sound(Next(s, st)) && Overtaken(Next(s, st), id, k)
  {
    match st {
      case Insert(x) =>
        if x !in s.thread {
          InsertOvertaken(s, x, id, k);
        }
      case Push(i, dropped) =>
        PushNoMore(s, i, dropped);
        FewerOvertaken(s, Next(s, st), id, k);
      case Register => FewerOvertaken(s, Next(s, st), id, k);
      case Disconnect => FewerOvertaken(s, Next(s, st), id, k);
      case Deliver =>
        if s.isOpen && s.wire != [] {
          DeliverOvertaken(s, id, k);
        }
      case Answer =>
        if s.fetch.Asked? {
          AnswerOvertaken(s, id, k);
        }
      case Finish =>
        if s.fetch.Answered? {
          FinishOvertaken(s, id, k);
        }
      case PageAsk => PagingOvertaken(s, st, id, k);
      case PageAnswer => PagingOvertaken(s, st, id, k);
      case PageFail => PagingOvertaken(s, st, id, k);
      case _ => FetchOvertaken(s, st, id, k);
    }
  }

  lemma {:induction false} RunOvertaken(s: State, steps: seq<Step>, id: nat, k: nat)
    requires Sound(s) && Overtaken(s, id, k) && OrdinaryRun(s, steps, id)
    ensures Sound(Run(s, steps)) && Overtaken(Run(s, steps), id, k)
  {
    if steps != [] {
      var init := steps[..|steps| - 1];
      RunOvertaken(s, init, id, k);
      StepOvertaken(Run(s, init), steps[|steps| - 1], id, k);
    }
  }

  /** An overtaken message is lost for good: only a reload brings it, and a reload does
    * (ReloadBringsAll). */
  lemma {:induction false} OvertakenIsLost(s: State, id: nat, k: nat)
    requires Sound(s) && Overtaken(s, id, k)
    ensures Lost(s, id)
  {
    forall steps | OrdinaryRun(s, steps, id) ensures id !in Run(s, steps).list {
      RunOvertaken(s, steps, id, k);
    }
  }

  /** The connection drops, and is made again. */
  function Reconnected(s: State): State { Reopened(Next(s, Disconnect)) }

  /** That is a run of ordinary steps. */
  lemma {:induction false} ReconnectRun(s: State, id: nat) returns (steps: seq<Step>)
    requires s.fetch.NoFetch?
    ensures OrdinaryRun(s, steps, id) && Run(s, steps) == Reconnected(s)
  {
    steps := [];
    steps := OneMore(s, steps, Disconnect, id);
    steps := OneMore(s, steps, Register, id);
    steps := OneMore(s, steps, Open, id);
    steps := OneMore(s, steps, Answer, id);
    steps := OneMore(s, steps, Finish, id);
  }

  lemma {:induction false} OneMore(s: State, steps: seq<Step>, st: Step, id: nat) returns (more: seq<Step>)
    requires OrdinaryRun(s, steps, id) && Ordinary(Run(s, steps), st, id)
    ensures OrdinaryRun(s, more, id) && Run(s, more) == Next(Run(s, steps), st)
  {
    more := steps + [st];
    assert more[..|more| - 1] == steps;
  }

  lemma {:induction false} ReconnectedIs(s: State)
    requires Ordered(s) && Quiet(s) && s.list != []
    ensures Reconnected(s) == s.(up := true, list := AddedAll(s.list, Newer(s.thread, s.list[|s.list| - 1])))
    ensures Ordered(Reconnected(s)) && Quiet(Reconnected(s))
  {
    DisconnectFewer(s);
    ReopenedIs(Next(s, Disconnect));
    assert s.wire == [] && s.toPush == [];
    assert Reconnected(s) == s.(up := true, list := AddedAll(s.list, Newer(s.thread, s.list[|s.list| - 1])));
    ReconnectedOrdered(s);
  }

  lemma {:induction false} ReconnectedOrdered(s: State)
    requires Ordered(s) && s.fetch.NoFetch?
    ensures Ordered(Reconnected(s))
  {
    var s1 := Next(s, Disconnect);
    StepOrdered(s, Disconnect);
    StepOrdered(s1, Register);
    StepOrdered(Next(s1, Register), Open);
    var s2 := Next(Next(s1, Register), Open);
    StepOrdered(s2, Answer);
    StepOrdered(Next(s2, Answer), Finish);
  }

  lemma {:induction false} ReconnectedHas(s: State, id: nat)
    requires Ordered(s) && Quiet(s) && Missing(s, id) && s.list != []
    ensures id in Reconnected(s).list <==>
            || id in s.list
            || (id > s.list[|s.list| - 1]
                && Below(s.thread, id) < Below(s.thread, s.list[|s.list| - 1] + 1) + 500)
  {
    ReconnectedIs(s);
    AddedAllHas(s.list, Newer(s.thread, s.list[|s.list| - 1]));
    NewerIff(s.thread, s.list[|s.list| - 1], id);
  }

  /** What is new in the list ends with the newest of it. */
  ghost predicate EndsNewest(l: seq<nat>, list: seq<nat>) {
    l != [] && forall id :: id in l ==> id in list || id <= l[|l| - 1]
  }

  lemma {:induction false} AddedAllLast(list: seq<nat>, rows: seq<nat>)
    requires Ascending(rows) && Distinct(list) && list != []
    ensures var l := AddedAll(list, rows);
            EndsNewest(l, list) && (l == list || (l[|l| - 1] in rows && l[|l| - 1] !in list))
  {
    if rows != [] {
      var init, last := rows[..|rows| - 1], rows[|rows| - 1];
      AddedAllLast(list, init);
      var l := AddedAll(list, init);
      forall x | x in init ensures x in rows && x < last {
        var i :| 0 <= i < |init| && init[i] == x;
        assert rows[i] == x;
      }
      if last !in l {
        var l' := AddedAll(list, rows);
        assert l' == l + [last] && list[0] in list;
        forall id | id in l' ensures id in list || id <= l'[|l'| - 1] {
        }
        assert last !in list by {
          AddedAllHas(list, init);
        }
      }
    }
  }

  /** A page cut off before id is a page long, and one of it is not in the list yet, as
    * it is no block. */
  lemma {:induction false} NextPage(s: State, id: nat, after: nat) returns (x: nat)
    requires Ascending(s.thread) && id in s.thread && id > after && id !in Newer(s.thread, after)
    requires forall k: nat :: Block(s, id, k) ==> s.thread[k] <= after
    ensures x in Newer(s.thread, after) && x !in s.list
  {
    var n, rows := Below(s.thread, after + 1), Newer(s.thread, after);
    FullPage(s.thread, after, id);
    var j := NotAllThere(s, id, n);
    assert rows[j - n] == s.thread[j];
    x := s.thread[j];
  }

  lemma {:induction false} FullPage(ids: seq<nat>, after: nat, id: nat)
    requires Ascending(ids) && id in ids && id > after && id !in Newer(ids, after)
    ensures var n := Below(ids, after + 1);
            |Newer(ids, after)| == 500 && n + 500 <= |ids| && ids[n + 500 - 1] < id && after < ids[n]
            && forall k :: n <= k < n + 500 ==> Newer(ids, after)[k - n] == ids[k]
  {
    var i :| 0 <= i < |ids| && ids[i] == id;
    NewerIff(ids, after, id);
    BelowAt(ids, i);
  }

  lemma {:induction false} NotAllThere(s: State, id: nat, n: nat) returns (j: nat)
    requires n + 500 <= |s.thread| && s.thread[n + 500 - 1] < id && !Block(s, id, n)
    ensures n <= j < n + 500 && s.thread[j] !in s.list
  {
    j :| n <= j < n + 500 && s.thread[j] !in s.list;
  }

  lemma {:induction false} NewerAscending(ids: seq<nat>, after: nat)
    requires Ascending(ids)
    ensures Ascending(Newer(ids, after))
  {
  }

  /** What was added is no newer than the end of the list, so it makes no block there. */
  lemma {:induction false} NoNewBlock(s: State, s': State, id: nat, last': nat, k: nat)
    requires Ascending(s.thread) && s'.thread == s.thread && EndsNewest(s'.list, s.list)
    requires last' == s'.list[|s'.list| - 1] && Block(s', id, k)
    ensures s.thread[k] <= last' || Block(s, id, k)
  {
    if last' < s.thread[k] {
      forall j | k <= j < k + 500 ensures s.thread[j] in s.list {
        assert s.thread[j] in s'.list && s.thread[k] <= s.thread[j];
      }
    }
  }

  /** Where no block stands between, a reconnect that does not bring a message takes
    * the end of the list nearer to it, and leaves no block between either. */
  lemma {:induction false} ReconnectNearer(s: State, s': State, id: nat, last: nat, last': nat)
    requires Ascending(s.thread) && Distinct(s.list) && id in s.thread && s.list != [] && last < id
    requires last == s.list[|s.list| - 1] && s'.thread == s.thread
    requires s'.list == AddedAll(s.list, Newer(s.thread, last)) && id !in s'.list
    requires forall k: nat :: Block(s, id, k) ==> s.thread[k] <= last
    requires s'.list != [] ==> last' == s'.list[|s'.list| - 1]
    ensures s'.list != [] && s'.list[0] == s.list[0] && last < last' < id
    ensures forall k: nat :: Block(s', id, k) ==> s.thread[k] <= last'
  {
    var rows := Newer(s.thread, last);
    AddedAllHas(s.list, rows);
    var x := NextPage(s, id, last);
    NewerAscending(s.thread, last);
    AddedAllLast(s.list, rows);
    assert x in s'.list && s'.list != s.list;
    NewerHas(s.thread, last, last');
    NewerCut(s.thread, last, last', id);
    forall k: nat | Block(s', id, k) ensures s.thread[k] <= last' {
      NoNewBlock(s, s', id, last', k);
    }
  }

  /** Reconnecting brings it, sooner or later. */
  lemma {:induction false} ReconnectsBring(s: State, id: nat) returns (steps: seq<Step>)
    requires Ordered(s) && Quiet(s) && Missing(s, id) && s.list != [] && s.list[|s.list| - 1] < id
    requires forall k: nat :: Block(s, id, k) ==> s.thread[k] <= s.list[|s.list| - 1]
    ensures OrdinaryRun(s, steps, id) && id in Run(s, steps).list
    decreases id - s.list[|s.list| - 1]
  {
    var s' := Reconnected(s);
    var first := ReconnectRun(s, id);
    if id in s'.list {
      steps := first;
    } else {
      ReconnectedIs(s);
      ReconnectNearer(s, s', id, s.list[|s.list| - 1], if s'.list == [] then 0 else s'.list[|s'.list| - 1]);
      var more := ReconnectsBring(s', id);
      OneAfterAnother(s, first, more, id);
      steps := first + more;
    }
  }

  lemma {:induction false} OneAfterAnother(s: State, one: seq<Step>, two: seq<Step>, id: nat)
    requires OrdinaryRun(s, one, id) && OrdinaryRun(Run(s, one), two, id)
    ensures OrdinaryRun(s, one + two, id) && Run(s, one + two) == Run(Run(s, one), two)
  {
    if two == [] {
      assert one + two == one;
    } else {
      var all, init := one + two, two[..|two| - 1];
      OneAfterAnother(s, one, init, id);
      assert all[..|all| - 1] == one + init && all[|all| - 1] == two[|two| - 1];
    }
  }

  /** A message that a quiet page misses is lost for good if and only if nothing stands
    * in the list, or a newer one at its end, or between its end and the message five
    * hundred in a row that it has. Otherwise reconnecting brings it: the next one
    * if fewer than five hundred stand between, and one of those after it if not. */
  lemma {:induction false} LostIff(s: State, id: nat)
    requires Ordered(s) && Quiet(s) && Missing(s, id)
    ensures Lost(s, id) <==>
            || s.list == [] || id < s.list[|s.list| - 1]
            || exists k: nat :: Block(s, id, k) && s.list[|s.list| - 1] < s.thread[k]
    ensures s.list != [] && id > s.list[|s.list| - 1]
            && Below(s.thread, id) < Below(s.thread, s.list[|s.list| - 1] + 1) + 500
            ==> id in Reconnected(s).list
  {
    if s.list == [] || id < s.list[|s.list| - 1] {
      OvertakenIsLost(s, id, 0);
    } else {
      assert s.list[|s.list| - 1] in s.list;
      ReconnectedHas(s, id);
      if k: nat :| Block(s, id, k) && s.list[|s.list| - 1] < s.thread[k] {
        OvertakenIsLost(s, id, k);
      } else {
        var steps := ReconnectsBring(s, id);
      }
    }
  }

  /** And such a reconnect must come before the next message does: that one, pushed and
    * delivered, overtakes every message that is missing. */
  lemma {:induction false} NextOvertakes(s: State, id: nat, next: nat)
    requires Ordered(s) && Quiet(s) && s.up && Missing(s, id) && s.list != []
    requires forall x :: x in s.thread ==> x < next
    ensures var s' := Next(Next(Next(s, Insert(next)), Push(0, false)), Deliver);
            s'.list == s.list + [next] && Lost(s', id)
  {
    NextComes(s, next);
    assert next !in s.list;
    NewestOvertakes(s, s.(thread := s.thread + [next], list := s.list + [next]), id, next);
  }

  lemma {:induction false} NextComes(s: State, next: nat)
    requires Quiet(s) && s.up && Ascending(s.thread) && forall x :: x in s.thread ==> x < next
    ensures Next(Next(Next(s, Insert(next)), Push(0, false)), Deliver)
         == s.(thread := s.thread + [next], list := Added(s.list, next))
  {
    InsertedLast(s.thread, next);
    assert s.wire == [] && s.toPush == [];
    var s1 := s.(thread := s.thread + [next], toPush := [next]);
    assert Next(s, Insert(next)) == s1;
    var s2 := Next(s1, Push(0, false));
    assert s2 == s.(thread := s.thread + [next], wire := [next]);
  }

  lemma {:induction false} NewestOvertakes(s: State, s': State, id: nat, next: nat)
    requires Ordered(s) && Quiet(s) && Missing(s, id) && s.list != []
    requires forall x :: x in s.thread ==> x < next
    requires s' == s.(thread := s.thread + [next], list := s.list + [next])
    ensures Lost(s', id)
  {
    AppendAscending(s.thread, next);
    assert Coming(s') == [] && Rows(s') == [] && s'.list[0] == s.list[0];
    assert Sound(s');
    OvertakenIsLost(s', id, 0);
  }

  // ---- the assumptions are needed --------------------------------------------

  lemma {:induction false} Take(s0: State, steps: seq<Step>, s: State, st: Step) returns (steps': seq<Step>, s': State)
    requires Run(s0, steps) == s
    ensures s' == Next(s, st) && Run(s0, steps') == s'
  {
    steps', s' := steps + [st], Next(s, st);
    assert steps'[..|steps'| - 1] == steps;
  }

  /** A page that is connected, quiet and complete, with one message. */
  const CONNECTED := State([1], [], [], true, true, true, [1], false, NoFetch, NoPaging)

  const DISCONNECTED := CONNECTED.(up := false, isOpen := false)

  /** These are states the theorem is about. */
  lemma {:induction false} BothComplete()
    ensures Inv(CONNECTED) && Quiet(CONNECTED) && Inv(DISCONNECTED) && Inv(CONNECTED.(hasMore := true))
  {
    CompleteOne(CONNECTED);
    CompleteOne(DISCONNECTED);
    CompleteOne(CONNECTED.(hasMore := true));
  }

  lemma {:induction false} CompleteOne(s: State)
    requires s == CONNECTED.(up := s.up, isOpen := s.isOpen, hasMore := s.hasMore) && s.up == s.isOpen
    ensures Inv(s)
  {
    assert Coming(s) == [] && Rows(s) == [];
    assert Ordered(s);
  }

  /** The next message is inserted. */
  lemma {:induction false} ThenInserted(s0: State, steps0: seq<Step>, s: State, id: nat) returns (steps: seq<Step>)
    requires Run(s0, steps0) == s && Ascending(s.thread) && forall x :: x in s.thread ==> x < id
    ensures Run(s0, steps) == s.(thread := s.thread + [id], toPush := s.toPush + [id])
  {
    var s';
    steps, s' := Take(s0, steps0, s, Insert(id));
    InsertedLast(s.thread, id);
  }

  /** The only message waiting is pushed while the hub knows no connection. */
  lemma {:induction false} ThenPushedToNobody(s0: State, steps0: seq<Step>, s: State) returns (steps: seq<Step>)
    requires Run(s0, steps0) == s && |s.toPush| == 1 && !s.up
    ensures Run(s0, steps) == s.(toPush := [])
  {
    var s';
    steps, s' := Take(s0, steps0, s, Push(0, false));
    assert s'.toPush == [];
  }

  /** One waiting message is pushed to a page that has nothing else on the wire, and
    * comes. */
  lemma {:induction false} ThenDelivered(s0: State, steps0: seq<Step>, s: State, i: nat) returns (steps: seq<Step>)
    requires Run(s0, steps0) == s && i < |s.toPush| && s.up && s.isOpen && s.loaded && s.wire == []
    ensures Run(s0, steps) == s.(toPush := Without(s.toPush, i), list := Added(s.list, s.toPush[i]))
  {
    var s1, s2;
    steps, s1 := Take(s0, steps0, s, Push(i, false));
    assert s1.wire == [s.toPush[i]];
    steps, s2 := Take(s0, steps, s1, Deliver);
    assert s2.wire == [];
  }

  /** The page sees its new connection, and its backfill is answered. */
  lemma {:induction false} ThenOpened(s0: State, steps0: seq<Step>, s: State) returns (steps: seq<Step>)
    requires Run(s0, steps0) == s && !s.isOpen && s.loaded && s.list != [] && s.thread != []
    requires Ascending(s.thread) && s.list[|s.list| - 1] == s.thread[|s.thread| - 1]
    ensures Run(s0, steps) == s.(isOpen := true, fetch := Answered([]))
  {
    var s1, s2;
    var last := s.thread[|s.thread| - 1];
    steps, s1 := Take(s0, steps0, s, Open);
    steps, s2 := Take(s0, steps, s1, Answer);
    assert Below(s.thread, last + 1) == |s.thread|;
    assert Newer(s.thread, last) == [];
  }

  /** 3 has come and 2 has not, on a page that is away. */
  const GAP := DISCONNECTED.(thread := [1, 2, 3], list := [1, 3])

  const WAITING := CONNECTED.(thread := [1, 2, 3], toPush := [2, 3])

  lemma {:induction false} TwoWaiting() returns (steps: seq<Step>)
    ensures Run(CONNECTED, steps) == WAITING
  {
    steps := ThenInserted(CONNECTED, [], CONNECTED, 2);
    steps := ThenInserted(CONNECTED, steps, CONNECTED.(thread := [1, 2], toPush := [2]), 3);
  }

  lemma {:induction false} OvertakenOnTheWay() returns (steps: seq<Step>)
    ensures Run(CONNECTED, steps) == GAP
  {
    steps := TwoWaiting();
    var s3, s4 := WAITING, WAITING;
    steps := ThenDelivered(CONNECTED, steps, s3, 1);
    assert Without([2, 3], 1) == [2];
    steps, s4 := Take(CONNECTED, steps, s3.(toPush := [2], list := [1, 3]), Disconnect);
    steps := ThenPushedToNobody(CONNECTED, steps, s4);
  }

  /** And the page is back, without 2. */
  const OVERTAKEN := CONNECTED.(thread := [1, 2, 3], list := [1, 3])

  lemma {:induction false} LatePush() returns (steps: seq<Step>)
    ensures Run(CONNECTED, steps) == OVERTAKEN
  {
    steps := OvertakenOnTheWay();
    var s, s';
    steps, s := Take(CONNECTED, steps, GAP, Register);
    steps := ThenOpened(CONNECTED, steps, s);
    steps, s' := Take(CONNECTED, steps, s.(isOpen := true, fetch := Answered([])), Finish);
  }

  lemma {:induction false} QuietOvertaken()
    ensures Quiet(OVERTAKEN) && Missing(OVERTAKEN, 2) && Lost(OVERTAKEN, 2)
  {
    assert Coming(OVERTAKEN) == [] && Rows(OVERTAKEN) == [];
    assert Ordered(OVERTAKEN);
    OvertakenIsLost(OVERTAKEN, 2, 0);
  }

  /** Pushes out of order: 2 and 3 are inserted and 3 is pushed first; the connection
    * drops before 2 is pushed. The next backfill starts from 3, and 2 is lost for
    * good. */
  lemma {:induction false} LatePushIsLost() returns (steps: seq<Step>)
    ensures Inv(CONNECTED)
    ensures Run(CONNECTED, steps) == OVERTAKEN && Quiet(OVERTAKEN) && Missing(OVERTAKEN, 2) && Lost(OVERTAKEN, 2)
  {
    BothComplete();
    QuietOvertaken();
    steps := LatePush();
  }

  lemma {:induction false} RegisteredLate() returns (steps: seq<Step>)
    ensures Run(DISCONNECTED, steps) == CONNECTED.(thread := [1, 2])
  {
    steps := ThenOpened(DISCONNECTED, [], DISCONNECTED);
    var s := DISCONNECTED.(isOpen := true, fetch := Answered([]));
    steps := ThenInserted(DISCONNECTED, steps, s, 2);
    steps := ThenPushedToNobody(DISCONNECTED, steps, s.(thread := [1, 2], toPush := [2]));
    steps := ThenRegistered(DISCONNECTED, steps, s.(thread := [1, 2]));
  }

  /** The hub takes the connection, and the empty answer to the backfill is taken in. */
  lemma {:induction false} ThenRegistered(s0: State, steps0: seq<Step>, s: State) returns (steps: seq<Step>)
    requires Run(s0, steps0) == s && !s.up && s.wire == [] && s.fetch == Answered([])
    ensures Run(s0, steps) == s.(up := true, fetch := NoFetch)
  {
    var s1, s2;
    steps, s1 := Take(s0, steps0, s, Register);
    steps, s2 := Take(s0, steps, s1, Finish);
  }

  /** Quiet, with 2 there and not in the list. */
  const BEHIND := CONNECTED.(thread := [1, 2])

  /** Not lost: the next reconnect brings it. But if 3 comes before that, it is. */
  ghost predicate Late(s: State, id: nat, next: nat) {
    && Quiet(s) && Missing(s, id) && !Lost(s, id) && id in Reconnected(s).list
    && Lost(Next(Next(Next(s, Insert(next)), Push(0, false)), Deliver), id)
  }

  lemma {:induction false} BehindIsLate(s: State)
    requires s == BEHIND.(hasMore := s.hasMore)
    ensures Late(s, 2, 3)
  {
    assert Coming(s) == [] && Rows(s) == [];
    assert Ordered(s);
    assert Below(s.thread, 2) == 1 by {
      assert s.thread[0] < 2 && !(s.thread[1] < 2);
    }
    LostIff(s, 2);
    var steps := ReconnectRun(s, 2);
    ReconnectedHas(s, 2);
    assert 2 in Run(s, steps).list;
    NextOvertakes(s, 2, 3);
  }

  /** The page sees the connection before the hub does: the backfill is answered, 2
    * is inserted and pushed to nobody, and only then the hub takes the connection. The
    * page is quiet without 2, until it reconnects or, after one more message, for
    * good. */
  lemma {:induction false} RegisteredLateIsLate() returns (steps: seq<Step>)
    ensures Inv(DISCONNECTED) && Late(Run(DISCONNECTED, steps), 2, 3)
  {
    BothComplete();
    steps := RegisteredLate();
    BehindIsLate(BEHIND);
  }

  /** Nothing was said yet, on a page that is away. */
  const EMPTY := State([], [], [], false, false, true, [], false, NoFetch, NoPaging)

  /** The page is back, with nothing. */
  const NOTHING := EMPTY.(thread := [1], up := true, isOpen := true)

  lemma {:induction false} EmptyThread() returns (steps: seq<Step>)
    ensures Run(EMPTY, steps) == NOTHING
  {
    var s1, s2;
    steps := ThenInserted(EMPTY, [], EMPTY, 1);
    steps := ThenPushedToNobody(EMPTY, steps, EMPTY.(thread := [1], toPush := [1]));
    steps, s1 := Take(EMPTY, steps, EMPTY.(thread := [1]), Register);
    steps, s2 := Take(EMPTY, steps, s1, Open);
  }

  lemma {:induction false} QuietNothing()
    ensures Quiet(NOTHING) && !NOTHING.hasMore && Missing(NOTHING, 1) && Lost(NOTHING, 1)
  {
    assert Coming(NOTHING) == [] && Rows(NOTHING) == [];
    assert Ordered(NOTHING);
    OvertakenIsLost(NOTHING, 1, 0);
  }

  /** A thread opened while empty has nothing to start a backfill from: what was said
    * while the page was away is lost for good, though it says it has the whole
    * thread. */
  lemma {:induction false} EmptyThreadIsLost() returns (steps: seq<Step>)
    ensures Inv(EMPTY)
    ensures Run(EMPTY, steps) == NOTHING
    ensures Quiet(NOTHING) && !NOTHING.hasMore && Missing(NOTHING, 1) && Lost(NOTHING, 1)
  {
    EmptyInv();
    QuietNothing();
    steps := EmptyThread();
  }

  lemma {:induction false} EmptyInv()
    ensures Inv(EMPTY)
  {
    assert Coming(EMPTY) == [] && Rows(EMPTY) == [];
    assert Ordered(EMPTY);
  }

  ghost predicate Counted(t: seq<nat>) { |t| == 503 && forall i :: 0 <= i < 503 ==> t[i] == i }

  /** A backfill from 0 was answered with 1 alone, and 2 to 501 have come since. */
  function Slow(t: seq<nat>): State
    requires |t| == 503
  {
    State(t[..502], [], [], true, true, true, [0] + t[2..502], false, Answered([1]), NoPaging)
  }

  lemma {:induction false} SlowHas(t: seq<nat>)
    requires Counted(t)
    ensures Ascending(t[..502]) && Distinct(Slow(t).list)
    ensures forall id: nat :: id in t[..502] <==> id < 502
    ensures forall id: nat :: id in Slow(t).list <==> id < 502 && id != 1
  {
    var list := Slow(t).list;
    assert forall j :: 1 <= j < 501 ==> list[j] == j + 1;
    forall id: nat | id < 502 ensures id in t[..502] && (id != 1 ==> id in list) {
      assert t[..502][id] == id;
      if id >= 2 {
        assert list[id - 1] == id;
      }
    }
    forall id | id in list ensures id < 502 && id != 1 {
      var j :| 0 <= j < |list| && list[j] == id;
    }
  }

  lemma {:induction false} SlowInv(t: seq<nat>)
    requires Counted(t)
    ensures Inv(Slow(t))
  {
    var s := Slow(t);
    SlowHas(t);
    assert Coming(s) == [] && Rows(s) == [1] && s.list[0] == 0;
    assert Ordered(s);
  }

  /** The rows of a slow backfill are taken in at the end of the list, behind the five
    * hundred newer ones that came meanwhile. When the next push is dropped, no reconnect
    * gets past those: the backfill starts from the old one at the end and is full
    * before it comes to what is missing. */
  lemma {:induction false} BehindBlockIsLost(t: seq<nat>)
    requires Counted(t)
    ensures Inv(Slow(t))
    ensures var s := Next(Next(Next(Slow(t), Finish), Insert(502)), Push(0, true));
            Quiet(s) && Missing(s, 502) && s.list[|s.list| - 1] == 1 && Lost(s, 502)
  {
    SlowInv(t);
    SlowFinished(t);
    StepOrdered(Slow(t), Finish);
    SlowHas(t);
    var s := ThenDropped(Next(Slow(t), Finish), 502);
    BlockIsThere(t, s);
    OvertakenIsLost(s, 502, 2);
  }

  lemma {:induction false} BlockIsThere(t: seq<nat>, s: State)
    requires Counted(t)
    requires s == Slow(t).(fetch := NoFetch, list := [0] + t[2..502] + [1], thread := t[..502] + [502])
    ensures Quiet(s) && Missing(s, 502) && s.list[|s.list| - 1] == 1 && Overtaken(s, 502, 2)
  {
    SlowHas(t);
    forall j | 2 <= j < 502 ensures s.thread[j] in s.list {
      assert s.thread[j] == t[j] == j && j in Slow(t).list;
    }
    assert Coming(s) == [] && Rows(s) == [] && s.thread[502] == 502 && s.list[0] == 0;
    assert Block(s, 502, 2);
  }

  /** The next message is inserted, and its push dropped. */
  lemma {:induction false} ThenDropped(s: State, id: nat) returns (s': State)
    requires Ordered(s) && Coming(s) == [] && forall x :: x in s.thread ==> x < id
    ensures s' == Next(Next(s, Insert(id)), Push(0, true))
    ensures s' == s.(thread := s.thread + [id]) && Ordered(s')
  {
    InsertedLast(s.thread, id);
    StepOrdered(s, Insert(id));
    var s1 := Next(s, Insert(id));
    StepOrdered(s1, Push(0, true));
    s' := Next(s1, Push(0, true));
    assert s.toPush == [] && s'.toPush == [] && s'.wire == s.wire;
  }

  lemma {:induction false} SlowFinished(t: seq<nat>)
    requires Counted(t)
    ensures Next(Slow(t), Finish) == Slow(t).(fetch := NoFetch, list := [0] + t[2..502] + [1])
  {
    SlowHas(t);
    assert AddedAll(Slow(t).list, [1]) == Slow(t).list + [1] by {
      assert [1][..0] == [];
    }
  }

  ghost predicate Numbered(t: seq<nat>) { |t| == 101 && forall i :: 0 <= i < 101 ==> t[i] == i + 1 }

  function Halfway(t: seq<nat>): State
    requires t != []
  {
    State(t, [], [], true, true, true, [1], false, Answered(t[1..]), NoPaging)
  }

  lemma {:induction false} HalfwayInv(t: seq<nat>)
    requires Numbered(t)
    ensures Inv(Halfway(t))
  {
    var s := Halfway(t);
    assert t[0] == 1;
    forall id | id in t && id != 1 ensures id in t[1..] {
      var i :| 0 <= i < |t| && t[i] == id;
      assert t[1..][i - 1] == id;
    }
    assert Ascending(t);
    forall id | Missing(s, id) ensures Covered(s, id) {
    }
  }

  lemma {:induction false} PagesOfNumbered(t: seq<nat>)
    requires Numbered(t)
    ensures Latest(t)[0] == 52 && Distinct(Latest(t)) && 2 in t[1..]
    ensures Older(t, 52) != [] && Older(t, 52)[0] == 2
  {
    assert Ascending(t);
    LatestDistinct(t);
    assert t[1..][0] == 2;
    var n := Below(t, 52);
    assert n == 51 by {
      assert t[50] < 52 && !(t[51] < 52);
    }
  }

  /** History reloaded in the middle of a backfill of more than a page: the older
    * rows then come in at the end, and paging back brings them again. */
  lemma {:induction false} ReloadedMeanwhileIsDoubled(t: seq<nat>)
    requires Numbered(t)
    ensures Inv(Halfway(t))
    ensures !Distinct(Next(Next(Next(Next(Halfway(t), History), Finish), PageAsk), PageAnswer).list)
  {
    HalfwayInv(t);
    PagesOfNumbered(t);
    var s2 := Next(Next(Halfway(t), History), Finish);
    AddedAllHas(Latest(t), t[1..]);
    assert s2.list == AddedAll(Latest(t), t[1..]) && s2.thread == t;
    PagedTwice(s2, 2);
  }

  /** An older page brings an id that is in the list already. */
  lemma {:induction false} PagedTwice(s: State, id: nat)
    requires s.loaded && s.hasMore && s.paging.NoPaging? && s.list != [] && id in s.list
    requires Older(s.thread, s.list[0]) != [] && Older(s.thread, s.list[0])[0] == id
    ensures !Distinct(Next(Next(s, PageAsk), PageAnswer).list)
  {
    var older, s' := Older(s.thread, s.list[0]), Next(Next(s, PageAsk), PageAnswer);
    assert s'.list == older + s.list;
    var j :| 0 <= j < |s.list| && s.list[j] == id;
    assert s'.list[0] == id && s'.list[|older| + j] == id;
  }

  /** The same page, when it may have older messages to fetch. */
  const PAGEABLE := CONNECTED.(hasMore := true)

  /** The thread was reloaded while an older page is on its way. */
  const RELOADED := CONNECTED.(paging := Stale(1, [1]))

  lemma {:induction false} ReloadedWhilePaging() returns (steps: seq<Step>)
    ensures Run(PAGEABLE, steps) == RELOADED
  {
    var s1, s2;
    steps, s1 := Take(PAGEABLE, [], PAGEABLE, PageAsk);
    assert s1 == PAGEABLE.(paging := Wanted(1));
    steps, s2 := Take(PAGEABLE, steps, s1, History);
    assert s2.list == [1];
  }

  /** And then 2 has come. */
  const CAUGHT_UP := RELOADED.(thread := [1, 2], list := [1, 2])

  lemma {:induction false} CaughtUp() returns (steps: seq<Step>)
    ensures Run(PAGEABLE, steps) == CAUGHT_UP
  {
    steps := ReloadedWhilePaging();
    steps := ThenInserted(PAGEABLE, steps, RELOADED, 2);
    steps := ThenDelivered(PAGEABLE, steps, RELOADED.(thread := [1, 2], toPush := [2]), 0);
    assert Without([2], 0) == [];
  }

  lemma {:induction false} ThenPagedStale(s0: State, steps0: seq<Step>, s: State) returns (steps: seq<Step>)
    requires Run(s0, steps0) == s && s.paging.Stale? && Older(s.thread, s.paging.first) == []
    ensures Run(s0, steps) == s.(list := s.paging.was, hasMore := false, paging := NoPaging)
  {
    var s';
    steps, s' := Take(s0, steps0, s, PageAnswer);
    assert s'.list == [] + s.paging.was == s.paging.was;
  }

  /** History reloaded while an older page is on its way: the page is put in front of
    * the list from before the reload, and what was pushed since is out of it again,
    * until the page reconnects or, after one more message, for good. */
  lemma {:induction false} ReloadedWhilePagingIsLate() returns (steps: seq<Step>)
    ensures Inv(PAGEABLE) && Late(Run(PAGEABLE, steps), 2, 3)
  {
    BothComplete();
    steps := CaughtUp();
    NothingOlder();
    steps := ThenPagedStale(PAGEABLE, steps, CAUGHT_UP);
    BehindIsLate(BEHIND);
  }

  lemma {:induction false} NothingOlder()
    ensures Older([1, 2], 1) == []
  {
    var ids: seq<nat> := [1, 2];
    assert Ascending(ids);
    assert Below(ids, 1) == 0 by {
      assert !(ids[0] < 1);
    }
  }
}
