/** Many writers at once, each in its own transaction, and pruning beside them:
  * what keeps the audit log a chain, and the one thing that does not. */
module AuditWriters {
  import opened Text
  import opened AuditChain
  import opened Options

  // ---- one writer on its own -------------------------------------------------

  function Clip(s: string, n: nat): string { if |s| <= n then s else s[..n] }

  /** What record stores of an entry it is handed: its own time, clipped texts. */
  function Stored(e: Entry, now: int): Entry {
    e.(at := now, detail := Clip(e.detail, 500), target := Clip(e.target, 300), actor := Clip(e.actor, 200))
  }

  /** A text as it is, or the first n characters of a longer one. */
  ghost predicate CutTo(n: nat, text: string, kept: string) {
    kept <= text && |kept| == if |text| <= n then |text| else n
  }

  /** Who did what, from where and how it ended, as it was said, and when it was recorded. */
  ghost predicate Says(e: Entry, now: int, kept: Entry) {
    && kept.at == now
    && kept.actorKind == e.actorKind && kept.action == e.action && kept.ip == e.ip && kept.status == e.status
    && CutTo(200, e.actor, kept.actor) && CutTo(300, e.target, kept.target) && CutTo(500, e.detail, kept.detail)
  }

  lemma {:induction false} StoredSays(e: Entry, now: int)
    ensures Says(e, now, Stored(e, now))
  {
  }

  function LastHash(log: seq<Row>): string { if log == [] then "" else log[|log| - 1].hash }

  function NewRow(c: Codec, id: int, prev: string, e: Entry): Row { Row(id, e, prev, HashEntry(c, prev, e)) }

  /** Prune: everything older than the cutoff goes. */
  function Kept(log: seq<Row>, cutoff: int): seq<Row> {
    if log == [] then []
    else Kept(log[..|log| - 1], cutoff) + if log[|log| - 1].e.at < cutoff then [] else [log[|log| - 1]]
  }

  // ---- the table, changed in place -------------------------------------------

  class AuditLog {
    var rows: seq<Row>
    var nextId: int

    constructor ()
      ensures rows == [] && nextId == 1
    {
      rows, nextId := [], 1;
    }

    /** record, undisturbed by other writers: one row at the end, which says what the
      * entry says, or nothing when the transaction fails. Its id is spent either way. */
    method Record(c: Codec, e: Entry, now: int, fails: bool)
      modifies this
      ensures nextId == old(nextId) + 1
      ensures rows == if fails then old(rows)
              else old(rows) + [NewRow(c, old(nextId), LastHash(old(rows)), Stored(e, now))]
      ensures !fails ==> |rows| == |old(rows)| + 1 && old(rows) <= rows
                         && rows[|rows| - 1].id == old(nextId) && Says(e, now, rows[|rows| - 1].e)
      ensures old(ChainOK(c, rows)) ==> ChainOK(c, rows)
    {
      var e' := e.(at := now);
      e' := e'.(detail := Clip(e'.detail, 500));
      e' := e'.(target := Clip(e'.target, 300));
      e' := e'.(actor := Clip(e'.actor, 200));
      var prev := "";
      if |rows| > 0 {
        prev := rows[|rows| - 1].hash;
      }
      var row := Row(nextId, e', prev, HashEntry(c, prev, e'));
      nextId := nextId + 1;
      if !fails {
        rows := rows + [row];
      }
    }

    method Prune(cutoff: int)
      modifies this`rows
      ensures rows == Kept(old(rows), cutoff)
    {
      var left: seq<Row> := [];
      for i := 0 to |rows|
        invariant rows == old(rows)
        invariant left == Kept(rows[..i], cutoff)
      {
        assert rows[..i + 1][..i] == rows[..i];
        if !(rows[i].e.at < cutoff) {
          left := left + [rows[i]];
        }
      }
      assert rows[..|rows|] == rows;
      rows := left;
    }
  }

  // ---- pruning and the chain -------------------------------------------------

  predicate Stays(r: Row, cutoff: int) { r.e.at >= cutoff }

  /** No removed row has a kept one on both sides. */
  ghost predicate Contiguous(log: seq<Row>, cutoff: int) {
    forall i, j, k :: 0 <= i < j < k < |log| && Stays(log[i], cutoff) && Stays(log[k], cutoff) ==> Stays(log[j], cutoff)
  }

  /** Stamps never go down along the table. */
  ghost predicate InTimeOrder(log: seq<Row>) {
    forall i, j :: 0 <= i < j < |log| ==> log[i].e.at <= log[j].e.at
  }

  lemma {:induction false} KeptHas(log: seq<Row>, cutoff: int, r: Row)
    ensures r in Kept(log, cutoff) <==> r in log && r.e.at >= cutoff
  {
    if log != [] {
      KeptHas(log[..|log| - 1], cutoff, r);
      assert log == log[..|log| - 1] + [log[|log| - 1]];
    }
  }

  lemma {:induction false} KeptAll(log: seq<Row>, cutoff: int)
    requires forall i :: 0 <= i < |log| ==> Stays(log[i], cutoff)
    ensures Kept(log, cutoff) == log
  {
    if log != [] {
      KeptAll(log[..|log| - 1], cutoff);
    }
  }

  lemma {:induction false} KeptAppend(a: seq<Row>, b: seq<Row>, cutoff: int)
    ensures Kept(a + b, cutoff) == Kept(a, cutoff) + Kept(b, cutoff)
  {
    if b == [] {
      assert a + b == a;
    } else {
      KeptAppend(a, b[..|b| - 1], cutoff);
      assert (a + b)[..|a + b| - 1] == a + b[..|b| - 1] && (a + b)[|a + b| - 1] == b[|b| - 1];
    }
  }

  lemma {:induction false} KeptNone(log: seq<Row>, cutoff: int)
    requires forall i :: 0 <= i < |log| ==> !Stays(log[i], cutoff)
    ensures Kept(log, cutoff) == []
  {
    if log != [] {
      KeptNone(log[..|log| - 1], cutoff);
    }
  }

  lemma {:induction false} KeptThree(x: seq<Row>, y: seq<Row>, z: seq<Row>, cutoff: int)
    requires forall i :: 0 <= i < |x| ==> !Stays(x[i], cutoff)
    requires forall i :: 0 <= i < |z| ==> !Stays(z[i], cutoff)
    ensures Kept(x + y + z, cutoff) == Kept(y, cutoff)
  {
    KeptNone(x, cutoff);
    KeptNone(z, cutoff);
    KeptAppend(x + y, z, cutoff);
    KeptAppend(x, y, cutoff);
  }

  lemma {:induction false} KeptMiddle(log: seq<Row>, a: nat, b: nat, cutoff: int)
    requires a <= b <= |log|
    requires forall i :: 0 <= i < |log| && (i < a || b <= i) ==> !Stays(log[i], cutoff)
    ensures Kept(log, cutoff) == Kept(log[a..b], cutoff)
  {
    KeptThree(log[..a], log[a..b], log[b..], cutoff);
    assert log == log[..a] + log[a..b] + log[b..];
  }

  /** The first and the last kept row, when there is one. */
  lemma {:induction false} Ends(log: seq<Row>, cutoff: int) returns (a: nat, b: nat)
    requires exists i :: 0 <= i < |log| && Stays(log[i], cutoff)
    ensures a < b <= |log| && Stays(log[a], cutoff) && Stays(log[b - 1], cutoff)
    ensures forall i :: 0 <= i < |log| && (i < a || b <= i) ==> !Stays(log[i], cutoff)
  {
    a := 0;
    while !Stays(log[a], cutoff)
      invariant a < |log| && exists i :: a <= i < |log| && Stays(log[i], cutoff)
      invariant forall i :: 0 <= i < a ==> !Stays(log[i], cutoff)
      decreases |log| - a
    {
      a := a + 1;
    }
    b := |log|;
    while !Stays(log[b - 1], cutoff)
      invariant a < b <= |log| && forall i :: b <= i < |log| ==> !Stays(log[i], cutoff)
      decreases b
    {
      b := b - 1;
    }
  }

  lemma {:induction false} KeptIsMiddle(log: seq<Row>, a: nat, b: nat, cutoff: int)
    requires Contiguous(log, cutoff) && a < b <= |log| && Stays(log[a], cutoff) && Stays(log[b - 1], cutoff)
    requires forall i :: 0 <= i < |log| && (i < a || b <= i) ==> !Stays(log[i], cutoff)
    ensures Kept(log, cutoff) == log[a..b]
  {
    KeptMiddle(log, a, b, cutoff);
    forall i | a <= i < b ensures Stays(log[i], cutoff) {
      assert a < i < b - 1 ==> Stays(log[i], cutoff);
    }
    KeptAll(log[a..b], cutoff);
  }

  lemma {:induction false} PruneKeepsChain(c: Codec, log: seq<Row>, cutoff: int)
    requires ChainOK(c, log) && Contiguous(log, cutoff)
    ensures ChainOK(c, Kept(log, cutoff))
  {
    if exists i :: 0 <= i < |log| && Stays(log[i], cutoff) {
      var a, b := Ends(log, cutoff);
      CutUnseen(c, log, a, b);
      KeptIsMiddle(log, a, b, cutoff);
    } else {
      KeptNone(log, cutoff);
    }
  }

  /** In time order only the oldest rows go. */
  lemma {:induction false} TimeOrderIsContiguous(log: seq<Row>, cutoff: int)
    requires InTimeOrder(log)
    ensures Contiguous(log, cutoff)
    ensures Kept(log, cutoff) != [] ==> LastHash(Kept(log, cutoff)) == LastHash(log)
  {
    if forall i :: 0 <= i < |log| ==> !Stays(log[i], cutoff) {
      KeptNone(log, cutoff);
    } else {
      assert Stays(log[|log| - 1], cutoff);
    }
  }

  // ---- the other half: a gap breaks the chain --------------------------------

  lemma {:induction false} CollisionInside(c: Codec, h: seq<Row>, t: seq<Row>)
    requires Collision(c, h, t) && forall i :: 0 <= i < |t| ==> t[i] in h
    ensures Collision(c, h, h)
  {
    var i, j :| 0 <= i < |h| && 0 <= j < |t| && TextOf(c, h[i]) != TextOf(c, t[j])
                && c.hash(TextOf(c, h[i])) == c.hash(TextOf(c, t[j]));
    var m :| 0 <= m < |h| && h[m] == t[j];
  }

  /** Two rows of an honest history with one digest are a collision. */
  lemma {:induction false} SharedDigest(c: Codec, h: seq<Row>, p: nat, q: nat)
    requires Sound(c) && Honest(c, h) && p < q < |h| && h[p].hash == h[q].hash
    ensures Collision(c, h, h)
  {
    var t, piece := h[..p + 1], h[q - p..q + 1];
    TamperEvident(c, h, t, q);
    assert h[q - p].prev == h[q - p - 1].hash && RowOK(c, h[q - p - 1]);
    assert !SameButId(piece[0], t[0]);
    CollisionInside(c, h, t);
  }

  /** Kept rows on both sides of a removed one, with none kept between them. */
  lemma {:induction false} Gap(log: seq<Row>, cutoff: int) returns (a: nat, b: nat)
    requires !Contiguous(log, cutoff)
    ensures a + 1 < b < |log| && Stays(log[a], cutoff) && Stays(log[b], cutoff)
    ensures forall i :: a < i < b ==> !Stays(log[i], cutoff)
  {
    var i, j, k :| 0 <= i < j < k < |log| && Stays(log[i], cutoff) && Stays(log[k], cutoff) && !Stays(log[j], cutoff);
    a, b := j, j;
    while !Stays(log[a], cutoff)
      invariant i <= a <= j && forall n :: a < n <= j ==> !Stays(log[n], cutoff)
      decreases a
    {
      a := a - 1;
    }
    while !Stays(log[b], cutoff)
      invariant j <= b <= k && forall n :: j <= n < b ==> !Stays(log[n], cutoff)
      decreases k - b
    {
      b := b + 1;
    }
  }

  lemma {:induction false} KeptLength(log: seq<Row>, cutoff: int)
    ensures |Kept(log, cutoff)| <= |log|
  {
    if log != [] {
      KeptLength(log[..|log| - 1], cutoff);
    }
  }

  lemma {:induction false} KeptEnds(log: seq<Row>, cutoff: int)
    requires log != []
    ensures Stays(log[|log| - 1], cutoff)
            ==> Kept(log, cutoff) != [] && LastHash(Kept(log, cutoff)) == log[|log| - 1].hash
    ensures Stays(log[0], cutoff) ==> Kept(log, cutoff) != [] && Kept(log, cutoff)[0] == log[0]
  {
    if Stays(log[0], cutoff) {
      KeptAll([log[0]], cutoff);
      KeptAppend([log[0]], log[1..], cutoff);
      assert log == [log[0]] + log[1..];
    }
  }

  /** The rows on the two sides of a gap become neighbours. */
  lemma {:induction false} ChainOverGap(c: Codec, x: seq<Row>, y: seq<Row>, z: seq<Row>, cutoff: int)
    requires x != [] && z != [] && Stays(x[|x| - 1], cutoff) && Stays(z[0], cutoff)
    requires forall i :: 0 <= i < |y| ==> !Stays(y[i], cutoff)
    requires ChainOK(c, Kept(x + y + z, cutoff))
    ensures z[0].prev == x[|x| - 1].hash
  {
    KeptNone(y, cutoff);
    KeptAppend(x + y, z, cutoff);
    KeptAppend(x, y, cutoff);
    KeptEnds(x, cutoff);
    KeptEnds(z, cutoff);
    var t, n := Kept(x + y + z, cutoff), |Kept(x, cutoff)|;
    assert t[n] == z[0] && t[n - 1] == Kept(x, cutoff)[n - 1];
  }

  lemma {:induction false} Cut(log: seq<Row>, a: nat, b: nat) returns (x: seq<Row>, y: seq<Row>, z: seq<Row>)
    requires a < b < |log|
    ensures log == x + y + z && x != [] && z != [] && x[|x| - 1] == log[a] && z[0] == log[b]
    ensures |y| == b - a - 1 && forall i :: 0 <= i < |y| ==> y[i] == log[a + 1 + i]
  {
    x, y, z := log[..a + 1], log[a + 1..b], log[b..];
  }

  lemma {:induction false} ChainOverGapAt(c: Codec, log: seq<Row>, a: nat, b: nat, cutoff: int)
    requires a < b < |log| && Stays(log[a], cutoff) && Stays(log[b], cutoff)
    requires forall i :: a < i < b ==> !Stays(log[i], cutoff)
    requires ChainOK(c, Kept(log, cutoff))
    ensures log[b].prev == log[a].hash
  {
    var x, y, z := Cut(log, a, b);
    ChainOverGap(c, x, y, z, cutoff);
  }

  lemma {:induction false} LinkedAt(c: Codec, h: seq<Row>, k: nat)
    requires Honest(c, h) && 0 < k < |h|
    ensures h[k].prev == h[k - 1].hash
  {
  }

  lemma {:induction false} GapBreaks(c: Codec, h: seq<Row>, lo: nat, hi: nat, cutoff: int)
    requires Sound(c) && Honest(c, h) && lo <= hi <= |h|
    requires !Contiguous(h[lo..hi], cutoff) && ChainOK(c, Kept(h[lo..hi], cutoff))
    ensures Collision(c, h, h)
  {
    var a, b := JoinedOverGap(c, h[lo..hi], cutoff);
    TwoLinks(c, h, lo + a, lo + b);
  }

  /** A row that is linked to one before its neighbour too. */
  lemma {:induction false} TwoLinks(c: Codec, h: seq<Row>, p: nat, k: nat)
    requires Sound(c) && Honest(c, h) && p + 1 < k < |h| && h[k].prev == h[p].hash
    ensures Collision(c, h, h)
  {
    LinkedAt(c, h, k);
    SharedDigest(c, h, p, k - 1);
  }

  lemma {:induction false} JoinedOverGap(c: Codec, log: seq<Row>, cutoff: int) returns (a: nat, b: nat)
    requires !Contiguous(log, cutoff) && ChainOK(c, Kept(log, cutoff))
    ensures a + 1 < b < |log| && log[b].prev == log[a].hash
  {
    a, b := Gap(log, cutoff);
    ChainOverGapAt(c, log, a, b, cutoff);
  }

  /** Pruning a stretch of honest history keeps it verifiable if and only if no
    * removed row has a kept one on both sides (or the digest collides). */
  lemma {:induction false} PruneIffContiguous(c: Codec, h: seq<Row>, lo: nat, hi: nat, cutoff: int)
    requires Sound(c) && Honest(c, h) && lo <= hi <= |h|
    ensures Contiguous(h[lo..hi], cutoff) ==> ChainOK(c, Kept(h[lo..hi], cutoff))
    ensures ChainOK(c, Kept(h[lo..hi], cutoff)) ==> Contiguous(h[lo..hi], cutoff) || Collision(c, h, h)
  {
    var log := h[lo..hi];
    CutUnseen(c, h, lo, hi);
    if Contiguous(log, cutoff) {
      PruneKeepsChain(c, log, cutoff);
    } else if ChainOK(c, Kept(log, cutoff)) {
      GapBreaks(c, h, lo, hi, cutoff);
    }
  }

  // ---- many writers ----------------------------------------------------------

  /** Where one call of record has got to. */
  datatype Phase =
    | Idle
    | Stamped(e: Entry)                // time taken, texts clipped; no lock yet
    | Locked(e: Entry)                 // holds the advisory lock
    | Seen(e: Entry, prev: string)     // has read the newest hash
    | Inserted(row: Row)               // row in its transaction, not committed

  /** `log` is what is committed, in id order. */
  datatype State = State(log: seq<Row>, writers: map<nat, Phase>, holder: int, nextId: int, clock: int)

  datatype Move =
    | Tick(ticks: nat)
    | Begin(w: nat, e: Entry)
    | Lock(w: nat)
    | ReadLast(w: nat)
    | Insert(w: nat)
    | Commit(w: nat)
    | Fail(w: nat)                     // any error: the transaction rolls back
    | PruneRows(cutoff: int)

  const NOBODY := -1

  function PhaseOf(s: State, w: nat): Phase { if w in s.writers then s.writers[w] else Idle }

  function SetPhase(s: State, w: nat, p: Phase): State { s.(writers := s.writers[w := p]) }

  /** One move; a move that is not possible changes nothing. */
  function Next(c: Codec, s: State, m: Move): State {
    match m
    case Tick(n) => s.(clock := s.clock + n)
    case Begin(w, e) => if PhaseOf(s, w).Idle? then SetPhase(s, w, Stamped(Stored(e, s.clock))) else s
    case Lock(w) =>
      var p := PhaseOf(s, w);
      if p.Stamped? && s.holder == NOBODY then SetPhase(s, w, Locked(p.e)).(holder := w) else s
    case ReadLast(w) =>
      var p := PhaseOf(s, w);
      if p.Locked? then SetPhase(s, w, Seen(p.e, LastHash(s.log))) else s
    case Insert(w) =>
      var p := PhaseOf(s, w);
      if p.Seen? then SetPhase(s, w, Inserted(NewRow(c, s.nextId, p.prev, p.e))).(nextId := s.nextId + 1) else s
    case Commit(w) =>
      var p := PhaseOf(s, w);
      if p.Inserted? then SetPhase(s, w, Idle).(log := s.log + [p.row], holder := NOBODY) else s
    case Fail(w) => SetPhase(s, w, Idle).(holder := if s.holder == w then NOBODY else s.holder)
    case PruneRows(cutoff) => s.(log := Kept(s.log, cutoff))
  }

  function Run(c: Codec, s: State, ms: seq<Move>): State {
    if ms == [] then s else Next(c, Run(c, s, ms[..|ms| - 1]), ms[|ms| - 1])
  }

  const START := State([], map[], NOBODY, 1, 0)

  /** The hash a writer has read is still the newest one. */
  ghost predicate FreshPrev(log: seq<Row>, prev: string) { log != [] ==> prev == LastHash(log) }

  ghost predicate WriterOK(c: Codec, s: State, w: nat) {
    match PhaseOf(s, w)
    case Idle => s.holder != w
    case Stamped(_) => s.holder != w
    case Locked(_) => s.holder == w
    case Seen(_, prev) => s.holder == w && FreshPrev(s.log, prev)
    case Inserted(row) => s.holder == w && FreshPrev(s.log, row.prev) && RowOK(c, row) && IdsRise(s.log, row.id)
                          && row.id < s.nextId
  }

  ghost predicate IdsRise(log: seq<Row>, nextId: int) {
    && (forall i, j :: 0 <= i < j < |log| ==> log[i].id < log[j].id)
    && (forall i :: 0 <= i < |log| ==> log[i].id < nextId)
  }

  ghost predicate Inv(c: Codec, s: State) {
    && ChainOK(c, s.log)
    && IdsRise(s.log, s.nextId)
    && forall w :: WriterOK(c, s, w)
  }

  /** A prune is safe when it leaves no gap and does not take the newest row while
    * leaving an older one. */
  ghost predicate SafePrune(log: seq<Row>, cutoff: int) {
    Contiguous(log, cutoff) && (Kept(log, cutoff) != [] ==> LastHash(Kept(log, cutoff)) == LastHash(log))
  }

  ghost predicate SafeMove(s: State, m: Move) { m.PruneRows? ==> SafePrune(s.log, m.cutoff) }

  lemma {:induction false} KeptIds(log: seq<Row>, cutoff: int, bound: int)
    requires IdsRise(log, bound)
    ensures IdsRise(Kept(log, cutoff), bound)
  {
    if log != [] {
      var init, last := log[..|log| - 1], log[|log| - 1];
      KeptIds(init, cutoff, last.id);
    }
  }

  lemma {:induction false} PruneKeepsInv(c: Codec, s: State, cutoff: int)
    requires Inv(c, s) && SafePrune(s.log, cutoff)
    ensures Inv(c, Next(c, s, PruneRows(cutoff)))
  {
    var s' := Next(c, s, PruneRows(cutoff));
    PruneKeepsChain(c, s.log, cutoff);
    KeptIds(s.log, cutoff, s.nextId);
    KeptLength(s.log, cutoff);
    forall w ensures WriterOK(c, s', w) {
      assert WriterOK(c, s, w);
      if PhaseOf(s, w).Inserted? {
        KeptIds(s.log, cutoff, PhaseOf(s, w).row.id);
      }
    }
  }

  lemma {:induction false} CommitKeepsInv(c: Codec, s: State, w: nat)
    requires Inv(c, s)
    ensures Inv(c, Next(c, s, Commit(w)))
  {
    assert WriterOK(c, s, w);
    var s' := Next(c, s, Commit(w));
    forall v ensures WriterOK(c, s', v) {
      assert WriterOK(c, s, v);
    }
  }

  lemma {:induction false} InsertKeepsInv(c: Codec, s: State, w: nat)
    requires Inv(c, s)
    ensures Inv(c, Next(c, s, Insert(w)))
  {
    assert WriterOK(c, s, w);
    var s' := Next(c, s, Insert(w));
    forall v ensures WriterOK(c, s', v) {
      assert WriterOK(c, s, v);
    }
  }

  /** Every move keeps the log a chain with rising ids, and at most one writer
    * past the lock. */
  lemma {:induction false} MoveKeepsInv(c: Codec, s: State, m: Move)
    requires Inv(c, s) && SafeMove(s, m)
    ensures Inv(c, Next(c, s, m))
  {
    match m {
      case PruneRows(cutoff) => PruneKeepsInv(c, s, cutoff);
      case Commit(w) => CommitKeepsInv(c, s, w);
      case Insert(w) => InsertKeepsInv(c, s, w);
      case Tick(_) =>
        forall v ensures WriterOK(c, Next(c, s, m), v) {
          assert WriterOK(c, s, v);
        }
      case _ =>
        assert WriterOK(c, s, m.w);
        forall v ensures WriterOK(c, Next(c, s, m), v) {
          assert WriterOK(c, s, v);
        }
    }
  }

  /** Every prune of the run is safe when it happens. */
  ghost predicate SafeRun(c: Codec, s: State, ms: seq<Move>) {
    forall i :: 0 <= i < |ms| ==> SafeMove(Run(c, s, ms[..i]), ms[i])
  }

  lemma {:induction false} RunKeepsInv(c: Codec, s: State, ms: seq<Move>)
    requires Inv(c, s) && SafeRun(c, s, ms)
    ensures Inv(c, Run(c, s, ms))
  {
    if ms != [] {
      var init := ms[..|ms| - 1];
      forall i | 0 <= i < |init| ensures SafeMove(Run(c, s, init[..i]), init[i]) {
        assert init[..i] == ms[..i];
      }
      RunKeepsInv(c, s, init);
      MoveKeepsInv(c, Run(c, s, init), ms[|ms| - 1]);
    }
  }

  /** However any number of writers interleave, fail and retry, the log verifies,
    * as long as every prune is safe when it happens. */
  lemma {:induction false} EveryInterleavingVerifies(c: Codec, ms: seq<Move>)
    requires SafeRun(c, START, ms)
    ensures ChainOK(c, Run(c, START, ms).log)
  {
    RunKeepsInv(c, START, ms);
  }

  /** The log of any run is in id order: what the table's ORDER BY id relies on. */
  lemma {:induction false} IdsFollowTheChain(c: Codec, ms: seq<Move>)
    requires SafeRun(c, START, ms)
    ensures IdsRise(Run(c, START, ms).log, Run(c, START, ms).nextId)
  {
    RunKeepsInv(c, START, ms);
  }

  /** Pruning is safe while stamps follow the ids: a run whose log is in time order
    * whenever it is pruned verifies at its end. */
  lemma {:induction false} TimeOrderIsSafe(c: Codec, ms: seq<Move>)
    requires forall i :: 0 <= i < |ms| && ms[i].PruneRows? ==> InTimeOrder(Run(c, START, ms[..i]).log)
    ensures ChainOK(c, Run(c, START, ms).log)
  {
    forall i | 0 <= i < |ms| ensures SafeMove(Run(c, START, ms[..i]), ms[i]) {
      if ms[i].PruneRows? {
        TimeOrderIsContiguous(Run(c, START, ms[..i]).log, ms[i].cutoff);
      }
    }
    EveryInterleavingVerifies(c, ms);
  }

  // ---- runs and honest histories ---------------------------------------------

  /** A digest, written in hexadecimal, holds no separator. */
  ghost predicate Hex(c: Codec) { forall s :: SEP !in c.hash(s) }

  predicate NoPrune(ms: seq<Move>) { forall i :: 0 <= i < |ms| ==> !ms[i].PruneRows? }

  /** Every entry handed to record is free of separators. */
  predicate CleanInput(ms: seq<Move>) { forall i :: 0 <= i < |ms| && ms[i].Begin? ==> SepFree("", ms[i].e) }

  ghost predicate WriterHonest(s: State, w: nat) {
    match PhaseOf(s, w)
    case Idle => true
    case Stamped(e) => SepFree("", e)
    case Locked(e) => SepFree("", e)
    case Seen(e, prev) => SepFree(prev, e) && (s.log == [] ==> prev == "")
    case Inserted(row) => SepFree(row.prev, row.e) && (s.log == [] ==> row.prev == "")
  }

  ghost predicate HonestInv(c: Codec, s: State) {
    Honest(c, s.log) && forall w :: WriterHonest(s, w)
  }

  lemma {:induction false} CommitKeepsHonest(c: Codec, s: State, w: nat)
    requires Hex(c) && Inv(c, s) && HonestInv(c, s)
    ensures HonestInv(c, Next(c, s, Commit(w)))
  {
    var s' := Next(c, s, Commit(w));
    MoveKeepsInv(c, s, Commit(w));
    assert WriterHonest(s, w) && WriterOK(c, s, w);
    if PhaseOf(s, w).Inserted? {
      FreeIsApart(PhaseOf(s, w).row.prev, PhaseOf(s, w).row.e);
    }
    forall v ensures WriterHonest(s', v) {
      assert WriterHonest(s, v) && WriterOK(c, s, v);
    }
  }

  lemma {:induction false} MoveKeepsHonest(c: Codec, s: State, m: Move)
    requires Hex(c) && Inv(c, s) && HonestInv(c, s) && !m.PruneRows?
    requires m.Begin? ==> SepFree("", m.e)
    ensures HonestInv(c, Next(c, s, m))
  {
    if m.Commit? {
      CommitKeepsHonest(c, s, m.w);
    } else {
      var s' := Next(c, s, m);
      if m.ReadLast? && s.log != [] {
        assert RowOK(c, s.log[|s.log| - 1]);
      }
      forall v ensures WriterHonest(s', v) {
        assert WriterHonest(s, v);
      }
    }
  }

  /** What any interleaving of writers leaves is an honest history: the chain
    * theorems are about what the platform writes. */
  lemma {:induction false} RunsAreHonest(c: Codec, ms: seq<Move>)
    requires Sound(c) && Hex(c) && NoPrune(ms) && CleanInput(ms)
    ensures Honest(c, Run(c, START, ms).log)
  {
    RunKeepsHonest(c, ms);
  }

  lemma {:induction false} RunKeepsHonest(c: Codec, ms: seq<Move>)
    requires Sound(c) && Hex(c) && NoPrune(ms) && CleanInput(ms)
    ensures Inv(c, Run(c, START, ms)) && HonestInv(c, Run(c, START, ms))
  {
    if ms != [] {
      var init, m := ms[..|ms| - 1], ms[|ms| - 1];
      RunKeepsHonest(c, init);
      MoveKeepsInv(c, Run(c, START, init), m);
      MoveKeepsHonest(c, Run(c, START, init), m);
    }
  }

  // ---- what the rows of a run say --------------------------------------------

  /** The entry a writer has on its way. */
  function OnItsWay(p: Phase): Option<Entry> {
    match p
    case Idle => None
    case Stamped(e) => Some(e)
    case Locked(e) => Some(e)
    case Seen(e, _) => Some(e)
    case Inserted(row) => Some(row.e)
  }

  /** Writer w began at move i, after which it has been at work until move n. */
  ghost predicate BegunAt(c: Codec, ms: seq<Move>, n: nat, w: nat, i: nat) {
    && i < n <= |ms| && ms[i].Begin? && ms[i].w == w && PhaseOf(Run(c, START, ms[..i]), w).Idle?
    && forall k :: i < k <= n ==> !PhaseOf(Run(c, START, ms[..k]), w).Idle?
  }

  lemma {:induction false} NextMove(c: Codec, ms: seq<Move>, n: nat)
    requires n < |ms|
    ensures Run(c, START, ms[..n + 1]) == Next(c, Run(c, START, ms[..n]), ms[n])
  {
    RunSnoc(c, START, ms[..n], ms[n]);
    assert ms[..n] + [ms[n]] == ms[..n + 1];
  }

  /** One move of a writer at work changes nothing of its entry. */
  lemma {:induction false} MoveKeepsEntry(c: Codec, s: State, m: Move, w: nat)
    requires !PhaseOf(Next(c, s, m), w).Idle?
    ensures var e := OnItsWay(PhaseOf(Next(c, s, m), w));
            if PhaseOf(s, w).Idle? then m.Begin? && m.w == w && Says(m.e, s.clock, e.value)
            else e == OnItsWay(PhaseOf(s, w))
  {
    if m.Begin? {
      StoredSays(m.e, s.clock);
    }
  }

  lemma {:induction false} EntryOnItsWay(c: Codec, ms: seq<Move>, n: nat, w: nat) returns (i: nat)
    requires n <= |ms| && !PhaseOf(Run(c, START, ms[..n]), w).Idle?
    ensures BegunAt(c, ms, n, w, i)
    ensures Says(ms[i].e, Run(c, START, ms[..i]).clock, OnItsWay(PhaseOf(Run(c, START, ms[..n]), w)).value)
  {
    var s := Run(c, START, ms[..n - 1]);
    NextMove(c, ms, n - 1);
    MoveKeepsEntry(c, s, ms[n - 1], w);
    if PhaseOf(s, w).Idle? {
      i := n - 1;
    } else {
      i := EntryOnItsWay(c, ms, n - 1, w);
    }
  }

  /** Whenever a writer commits, one row is added to the log, and it says what that
    * writer was handed when it began, with the time of that moment. */
  lemma {:induction false} CommittedRowSays(c: Codec, ms: seq<Move>, n: nat, w: nat) returns (i: nat)
    requires n < |ms| && ms[n] == Commit(w) && PhaseOf(Run(c, START, ms[..n]), w).Inserted?
    ensures BegunAt(c, ms, n, w, i)
    ensures var log, log' := Run(c, START, ms[..n]).log, Run(c, START, ms[..n + 1]).log;
            |log'| == |log| + 1 && log <= log' && Says(ms[i].e, Run(c, START, ms[..i]).clock, log'[|log|].e)
  {
    i := EntryOnItsWay(c, ms, n, w);
    NextMove(c, ms, n);
  }

  /** The row says what some writer was handed. */
  ghost predicate HasOrigin(c: Codec, ms: seq<Move>, r: Row) {
    exists i :: 0 <= i < |ms| && ms[i].Begin? && Says(ms[i].e, Run(c, START, ms[..i]).clock, r.e)
  }

  /** And no row of the log says anything else, whatever is pruned. */
  lemma {:induction false} EveryRowHasOrigin(c: Codec, ms: seq<Move>, r: Row)
    requires r in Run(c, START, ms).log
    ensures HasOrigin(c, ms, r)
  {
    var n := |ms| - 1;
    var init, s := ms[..n], Run(c, START, ms[..n]);
    if r in s.log {
      EveryRowHasOrigin(c, init, r);
      var i :| 0 <= i < |init| && init[i].Begin? && Says(init[i].e, Run(c, START, init[..i]).clock, r.e);
      assert init[..i] == ms[..i] && ms[i] == init[i];
    } else if ms[n].PruneRows? {
      KeptHas(s.log, ms[n].cutoff, r);
    } else {
      assert ms[..n + 1] == ms;
      var i := CommittedRowSays(c, ms, n, ms[n].w);
    }
  }

  // ---- why stamps must follow ids --------------------------------------------

  lemma {:induction false} RunSnoc(c: Codec, s: State, ms: seq<Move>, m: Move)
    ensures Run(c, s, ms + [m]) == Next(c, Run(c, s, ms), m)
  {
    assert (ms + [m])[..|ms + [m]| - 1] == ms;
  }

  lemma {:induction false} RunAppend(c: Codec, s: State, a: seq<Move>, b: seq<Move>)
    ensures Run(c, s, a + b) == Run(c, Run(c, s, a), b)
  {
    if b == [] {
      assert a + b == a;
    } else {
      RunAppend(c, s, a, b[..|b| - 1]);
      assert (a + b)[..|a + b| - 1] == a + b[..|b| - 1];
    }
  }

  function RestOfRecord(w: nat): seq<Move> { [] + [Lock(w)] + [ReadLast(w)] + [Insert(w)] + [Commit(w)] }

  /** What a stamped writer whom nobody disturbs does to the state. */
  ghost predicate Recorded(c: Codec, s: State, w: nat, s': State)
    requires PhaseOf(s, w).Stamped?
  {
    && s'.log == s.log + [NewRow(c, s.nextId, LastHash(s.log), PhaseOf(s, w).e)]
    && s'.holder == NOBODY && s'.clock == s.clock && PhaseOf(s', w).Idle?
    && forall v :: v != w ==> PhaseOf(s', v) == PhaseOf(s, v)
  }

  lemma {:induction false} OneRecord(c: Codec, s: State, w: nat)
    requires s.holder == NOBODY && PhaseOf(s, w).Stamped?
    ensures Recorded(c, s, w, Run(c, s, RestOfRecord(w)))
  {
    RunSnoc(c, s, [], Lock(w));
    RunSnoc(c, s, [] + [Lock(w)], ReadLast(w));
    RunSnoc(c, s, [] + [Lock(w)] + [ReadLast(w)], Insert(w));
    RunSnoc(c, s, [] + [Lock(w)] + [ReadLast(w)] + [Insert(w)], Commit(w));
  }

  /** Writer 0 takes its time and is overtaken by writer 1, which records twice
    * around it: the middle row has the oldest stamp. */
  function Overtaken(e: Entry): seq<Move> {
    [] + [Begin(0, e)] + [Tick(5)] + [Begin(1, e)] + RestOfRecord(1) + RestOfRecord(0) + [Begin(1, e)] + RestOfRecord(1)
  }

  lemma {:induction false} OvertakenStamps(c: Codec, e: Entry)
    ensures (var log := Run(c, START, Overtaken(e)).log;
             |log| == 3 && log[0].e.at == 5 && log[1].e.at == 0 && log[2].e.at == 5)
  {
    var a1 := [] + [Begin(0, e)];
    RunSnoc(c, START, [], Begin(0, e));
    var a2 := a1 + [Tick(5)];
    RunSnoc(c, START, a1, Tick(5));
    var a3 := a2 + [Begin(1, e)];
    RunSnoc(c, START, a2, Begin(1, e));
    OneRecord(c, Run(c, START, a3), 1);
    var a4 := a3 + RestOfRecord(1);
    RunAppend(c, START, a3, RestOfRecord(1));
    OneRecord(c, Run(c, START, a4), 0);
    var a5 := a4 + RestOfRecord(0);
    RunAppend(c, START, a4, RestOfRecord(0));
    var a6 := a5 + [Begin(1, e)];
    RunSnoc(c, START, a5, Begin(1, e));
    OneRecord(c, Run(c, START, a6), 1);
    RunAppend(c, START, a6, RestOfRecord(1));
  }

  /** So the time order is needed: this run verifies until Prune takes the middle
    * row out, and never after, unless the digest collides. */
  lemma {:induction false} OvertakenThenPruned(c: Codec, e: Entry)
    requires Sound(c) && Hex(c) && SepFree("", e)
    ensures ChainOK(c, Run(c, START, Overtaken(e)).log)
    ensures ChainOK(c, Run(c, START, Overtaken(e) + [PruneRows(3)]).log)
            ==> Collision(c, Run(c, START, Overtaken(e)).log, Run(c, START, Overtaken(e)).log)
  {
    OvertakenStamps(c, e);
    OvertakenIsClean(e);
    RunsAreHonest(c, Overtaken(e));
    RunSnoc(c, START, Overtaken(e), PruneRows(3));
    MiddleGone(c, Run(c, START, Overtaken(e)).log, 3);
  }

  lemma {:induction false} OvertakenIsClean(e: Entry)
    requires SepFree("", e)
    ensures NoPrune(Overtaken(e)) && CleanInput(Overtaken(e))
  {
  }

  lemma {:induction false} MiddleGone(c: Codec, log: seq<Row>, cutoff: int)
    requires Sound(c) && Honest(c, log) && |log| == 3
    requires Stays(log[0], cutoff) && !Stays(log[1], cutoff) && Stays(log[2], cutoff)
    ensures ChainOK(c, Kept(log, cutoff)) ==> Collision(c, log, log)
  {
    assert log[0..|log|] == log;
    PruneIffContiguous(c, log, 0, |log|, cutoff);
  }
}
