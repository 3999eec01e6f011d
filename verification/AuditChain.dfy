/** The audit log's hash chain: what a row's hash covers, what Verify accepts,
  * and what an altered table can still get past it. */
module AuditChain {
  import opened Text

  const SEP := '\U{1F}'

  /** One recorded action. Times are whole microseconds, all the database keeps. */
  datatype Entry = Entry(at: int, actor: string, actorKind: string, action: string, target: string, ip: string,
      status: int, detail: string)

  datatype Row = Row(id: int, e: Entry, prev: string, hash: string)

  /** The two outside functions: the digest, and the text form of a time. */
  datatype Codec = Codec(hash: string -> string, stamp: int -> string)

  /** Times print differently from each other and without a separator; a digest
    * is never the empty string that stands before the first row. */
  ghost predicate Sound(c: Codec) {
    && (forall a, b :: c.stamp(a) == c.stamp(b) ==> a == b)
    && (forall a :: SEP !in c.stamp(a))
    && (forall s :: c.hash(s) != "")
  }

  // ---- what is hashed --------------------------------------------------------

  function Fields(c: Codec, prev: string, e: Entry): (r: seq<string>)
    ensures |r| == 9
  {
    [prev, c.stamp(e.at), e.actor, e.actorKind, e.action, e.target, e.ip, Itoa(e.status), e.detail]
  }

  function HashedText(c: Codec, prev: string, e: Entry): string { Join(Fields(c, prev, e), SEP) }

  /** hashEntry. The row's id is not part of it. */
  function HashEntry(c: Codec, prev: string, e: Entry): string { c.hash(HashedText(c, prev, e)) }

  /** No field of the row holds the separator. */
  predicate SepFree(prev: string, e: Entry) {
    && SEP !in prev && SEP !in e.actor && SEP !in e.actorKind && SEP !in e.action
    && SEP !in e.target && SEP !in e.ip && SEP !in e.detail
  }

  lemma {:induction false} SplitHas(s: string, c: char)
    requires c in s
    ensures |Split(s, c)| >= 2
  {
    if s[0] != c {
      assert c in s[1..];
      SplitHas(s[1..], c);
    }
  }

  lemma {:induction false} SplitConcat(a: string, b: string, c: char)
    ensures Split(a + [c] + b, c) == Split(a, c) + Split(b, c)
  {
    var s := a + [c] + b;
    if a == "" {
      assert s[1..] == b;
    } else {
      assert s[1..] == a[1..] + [c] + b;
      SplitConcat(a[1..], b, c);
    }
  }

  /** The pieces a separator cuts these parts into, one part after the other. */
  function Pieces(parts: seq<string>, c: char): seq<string> {
    if parts == [] then [] else Split(parts[0], c) + Pieces(parts[1..], c)
  }

  lemma {:induction false} SplitPieces(parts: seq<string>, c: char)
    requires |parts| >= 1
    ensures Split(Join(parts, c), c) == Pieces(parts, c)
  {
    if |parts| > 1 {
      SplitPieces(parts[1..], c);
      SplitConcat(parts[0], Join(parts[1..], c), c);
    } else {
      assert Pieces(parts[1..], c) == [];
    }
  }

  lemma {:induction false} PiecesAppend(a: seq<string>, b: seq<string>, c: char)
    ensures Pieces(a + b, c) == Pieces(a, c) + Pieces(b, c)
  {
    if a == [] {
      assert a + b == b;
    } else {
      assert (a + b)[0] == a[0] && (a + b)[1..] == a[1..] + b;
      PiecesAppend(a[1..], b, c);
    }
  }

  /** There are as many pieces as parts just when the parts are the pieces. */
  lemma {:induction false} PiecesCount(parts: seq<string>, c: char)
    ensures |Pieces(parts, c)| >= |parts|
    ensures |Pieces(parts, c)| == |parts| <==> AllFree(parts, c)
    ensures AllFree(parts, c) ==> Pieces(parts, c) == parts
  {
    if parts != [] {
      PiecesCount(parts[1..], c);
      if c in parts[0] {
        SplitHas(parts[0], c);
      } else {
        SplitFree(parts[0], c);
        assert parts == [parts[0]] + parts[1..];
      }
    }
  }

  /** The five free-text fields between the time and the status. */
  predicate MiddleFree(e: Entry) {
    SEP !in e.actor && SEP !in e.actorKind && SEP !in e.action && SEP !in e.target && SEP !in e.ip
  }

  /** A piece of the detail, not its last, that reads as a status. */
  ghost predicate StatusInDetail(e: Entry) {
    exists k, n :: 0 <= k < |Split(e.detail, SEP)| - 1 && Split(e.detail, SEP)[k] == Itoa(n)
  }

  /** Nothing else can be taken for this row: see UniqueIffMiddleFree. */
  ghost predicate Apart(prev: string, e: Entry) { SEP !in prev && MiddleFree(e) && !StatusInDetail(e) }

  lemma {:induction false} FreeIsApart(prev: string, e: Entry)
    requires SepFree(prev, e)
    ensures Apart(prev, e)
  {
    SplitFree(e.detail, SEP);
  }

  /** A row's nine fields as pieces: those before the status, the status, the detail. */
  lemma {:induction false} FieldPieces(c: Codec, prev: string, e: Entry)
    ensures var f := Fields(c, prev, e);
            Split(HashedText(c, prev, e), SEP) == Pieces(f[..7], SEP) + [f[7]] + Split(e.detail, SEP)
  {
    var f := Fields(c, prev, e);
    SplitPieces(f, SEP);
    assert f == f[..7] + ([f[7]] + [f[8]]);
    PiecesAppend(f[..7], [f[7]] + [f[8]], SEP);
    PiecesAppend([f[7]], [f[8]], SEP);
    OnePiece(f[7]);
    OnePiece(f[8]);
    assert SEP !in Itoa(e.status);
    SplitFree(f[7], SEP);
  }

  lemma {:induction false} OnePiece(s: string)
    ensures Pieces([s], SEP) == Split(s, SEP)
  {
    assert [s][1..] == [];
  }

  /** Two rows with one hashed text: the second's status stands where the first's does,
    * or is a piece of the first's detail. */
  lemma {:induction false} StatusPlace(c: Codec, prev: string, e: Entry, prev': string, e': Entry)
    requires Sound(c) && SEP !in prev && MiddleFree(e)
    requires HashedText(c, prev, e) == HashedText(c, prev', e')
    ensures |Pieces(Fields(c, prev', e')[..7], SEP)| == 7 || StatusInDetail(e)
  {
    var f, f' := Fields(c, prev, e), Fields(c, prev', e');
    FieldPieces(c, prev, e);
    FieldPieces(c, prev', e');
    assert AllFree(f[..7], SEP);
    PiecesCount(f[..7], SEP);
    PiecesCount(f'[..7], SEP);
    var all, i := Split(HashedText(c, prev, e), SEP), |Pieces(f'[..7], SEP)|;
    if i > 7 {
      assert all[i] == Itoa(e'.status);
      assert all[i] == Split(e.detail, SEP)[i - 8];
      assert i - 8 < |Split(e.detail, SEP)| - 1;
    }
  }

  /** Rows are told apart by what is hashed, whatever the other one's fields hold, when
    * the honest one's fields up to the status are free of separators and its detail
    * cannot be taken for a status and a shorter detail. */
  lemma {:induction false} HashedTextInjective(c: Codec, prev: string, e: Entry, prev': string, e': Entry)
    requires Sound(c) && Apart(prev, e)
    requires HashedText(c, prev, e) == HashedText(c, prev', e')
    ensures prev == prev' && e == e'
  {
    var f, f' := Fields(c, prev, e), Fields(c, prev', e');
    StatusPlace(c, prev, e, prev', e');
    FieldPieces(c, prev, e);
    FieldPieces(c, prev', e');
    assert AllFree(f[..7], SEP);
    PiecesCount(f[..7], SEP);
    PiecesCount(f'[..7], SEP);
    var all := Split(HashedText(c, prev, e), SEP);
    assert all[..7] == f[..7] == f'[..7];
    assert all[7] == f[7] == f'[7];
    assert all[8..] == Split(e.detail, SEP) == Split(e'.detail, SEP);
    JoinSplit(e.detail, SEP);
    JoinSplit(e'.detail, SEP);
    SameFields(c, prev, e, prev', e');
  }

  lemma {:induction false} SameFields(c: Codec, prev: string, e: Entry, prev': string, e': Entry)
    requires Sound(c) && e.detail == e'.detail
    requires Fields(c, prev, e)[..7] == Fields(c, prev', e')[..7] && Itoa(e.status) == Itoa(e'.status)
    ensures prev == prev' && e == e'
  {
    var f, f' := Fields(c, prev, e)[..7], Fields(c, prev', e')[..7];
    assert f[0] == f'[0] && f[1] == f'[1] && f[2] == f'[2] && f[3] == f'[3] && f[4] == f'[4] && f[5] == f'[5]
      && f[6] == f'[6];
    ItoaInjective(e.status, e'.status);
  }

  // ---- the other half: separators do make rows ambiguous ---------------------

  ghost predicate Unique(c: Codec, prev: string, e: Entry) {
    forall prev', e' :: HashedText(c, prev', e') == HashedText(c, prev, e) ==> prev' == prev && e' == e
  }

  /** Two neighbouring fields joined, with the border moved to the first separator
    * inside the left one. */
  lemma {:induction false} MoveBorder(x: string, y: string) returns (a: string, b: string)
    requires SEP in x
    ensures x + [SEP] + y == a + [SEP] + b && a != x
  {
    var i :| 0 <= i < |x| && x[i] == SEP;
    a, b := x[..i], x[i + 1..] + [SEP] + y;
    assert x == x[..i] + [SEP] + x[i + 1..];
  }

  /** The other way, to the first separator inside the right one. */
  lemma {:induction false} MoveBack(x: string, y: string) returns (a: string, b: string)
    requires SEP in y
    ensures x + [SEP] + y == a + [SEP] + b && b != y
  {
    var i :| 0 <= i < |y| && y[i] == SEP;
    a, b := x + [SEP] + y[..i], y[i + 1..];
    assert y == y[..i] + [SEP] + y[i + 1..];
  }

  lemma {:induction false} JoinMoved(before: seq<string>, x: string, y: string, a: string, b: string,
          after: seq<string>)
    requires x + [SEP] + y == a + [SEP] + b
    ensures Join(before + [x, y] + after, SEP) == Join(before + [a, b] + after, SEP)
  {
    if before == [] {
      var s, t := [x, y] + after, [a, b] + after;
      assert before + [x, y] + after == s && before + [a, b] + after == t;
      assert s[1..][1..] == after && t[1..][1..] == after;
      if after == [] {
        assert Join(s[1..], SEP) == y && Join(t[1..], SEP) == b;
      } else {
        var rest := [SEP] + Join(after, SEP);
        assert Join(s[1..], SEP) == y + rest && Join(t[1..], SEP) == b + rest;
        assert Join(s, SEP) == x + [SEP] + y + rest;
        assert Join(t, SEP) == a + [SEP] + b + rest;
      }
    } else {
      JoinMoved(before[1..], x, y, a, b, after);
      assert (before + [x, y] + after)[1..] == before[1..] + [x, y] + after;
      assert (before + [a, b] + after)[1..] == before[1..] + [a, b] + after;
    }
  }

  /** Moving the border between two neighbouring fields leaves the hashed text alone. */
  lemma {:induction false} SameText(c: Codec, prev: string, e: Entry, e': Entry,
                                    before: seq<string>, x: string, y: string, a: string, b: string, after: seq<string>)
    requires Fields(c, prev, e) == before + [x, y] + after && Fields(c, prev, e') == before + [a, b] + after
    requires x + [SEP] + y == a + [SEP] + b
    ensures HashedText(c, prev, e') == HashedText(c, prev, e)
  {
    JoinMoved(before, x, y, a, b, after);
  }

  /** The join of fields is not injective: a row is the only one with its hashed text
    * if and only if none of its five middle fields holds a separator and no piece of
    * its detail but the last reads as a status. The source rejects no separator. */
  lemma {:induction false} UniqueIffMiddleFree(c: Codec, prev: string, e: Entry)
    requires Sound(c) && SEP !in prev
    ensures Unique(c, prev, e) <==> MiddleFree(e) && !StatusInDetail(e)
  {
    if Apart(prev, e) {
      forall prev', e' | HashedText(c, prev', e') == HashedText(c, prev, e) ensures prev' == prev && e' == e {
        HashedTextInjective(c, prev, e, prev', e');
      }
    } else if !MiddleFree(e) {
      var e' := AnotherEntry(c, prev, e);
    } else {
      var e' := AnotherStatus(c, prev, e);
    }
  }

  /** What stands around one piece, not the last; in front, with the separator. */
  lemma {:induction false} AroundPiece(s: string, k: nat) returns (before: string, after: string)
    requires k < |Split(s, SEP)| - 1
    ensures s == before + Split(s, SEP)[k] + [SEP] + after
    ensures if k == 0 then before == "" else before != "" && before[|before| - 1] == SEP
  {
    assert s == [s[0]] + s[1..];
    if s[0] == SEP && k == 0 {
      before, after := "", s[1..];
    } else {
      before, after := AroundPiece(s[1..], if s[0] == SEP then k - 1 else k);
      before := if k == 0 then before else [s[0]] + before;
    }
  }

  lemma {:induction false} JoinTail(front: seq<string>, a: seq<string>, b: seq<string>)
    requires |a| >= 1 && |b| >= 1 && Join(a, SEP) == Join(b, SEP)
    ensures Join(front + a, SEP) == Join(front + b, SEP)
  {
    if front == [] {
      assert front + a == a && front + b == b;
    } else {
      JoinTail(front[1..], a, b);
      assert (front + a)[1..] == front[1..] + a && (front + b)[1..] == front[1..] + b;
    }
  }

  lemma {:induction false} JoinThree(x: string, y: string, z: string)
    ensures Join([x, y, z], SEP) == x + [SEP] + (y + [SEP] + z)
  {
    assert [x, y, z][1..] == [y, z] && [y, z][1..] == [z];
    assert Join([y, z], SEP) == y + [SEP] + z;
  }

  /** The other entry, when a piece of the detail reads as a status: the row's own
    * status and what stands before that piece go to the address. */
  lemma {:induction false} AnotherStatus(c: Codec, prev: string, e: Entry) returns (e': Entry)
    requires StatusInDetail(e)
    ensures e' != e && HashedText(c, prev, e') == HashedText(c, prev, e)
  {
    var k, n :| 0 <= k < |Split(e.detail, SEP)| - 1 && Split(e.detail, SEP)[k] == Itoa(n);
    var before, after := AroundPiece(e.detail, k);
    var status, other := Itoa(e.status), Itoa(n);
    var front := e.ip + [SEP] + status + [SEP] + before;
    var ip := front[..|front| - 1];
    e' := e.(ip := ip, status := n, detail := after);
    assert |ip| > |e.ip| && front[|front| - 1] == SEP;
    MoveStatus(e.ip, status, before, other, after);
    SameTail(c, prev, e, e');
  }

  /** Rows alike up to the address, the rest of which joins to the same text. */
  lemma {:induction false} SameTail(c: Codec, prev: string, e: Entry, e': Entry)
    requires e' == e.(ip := e'.ip, status := e'.status, detail := e'.detail)
    requires Join([e.ip, Itoa(e.status), e.detail], SEP) == Join([e'.ip, Itoa(e'.status), e'.detail], SEP)
    ensures HashedText(c, prev, e') == HashedText(c, prev, e)
  {
    var fields := [prev, c.stamp(e.at), e.actor, e.actorKind, e.action, e.target];
    JoinTail(fields, [e.ip, Itoa(e.status), e.detail], [e'.ip, Itoa(e'.status), e'.detail]);
    assert Fields(c, prev, e) == fields + [e.ip, Itoa(e.status), e.detail];
    assert Fields(c, prev, e') == fields + [e'.ip, Itoa(e'.status), e'.detail];
  }

  lemma {:induction false} MoveStatus(ip: string, status: string, before: string, other: string, after: string)
    requires before == "" || before[|before| - 1] == SEP
    ensures var front := ip + [SEP] + status + [SEP] + before;
            Join([ip, status, before + other + [SEP] + after], SEP) == Join([front[..|front| - 1], other, after], SEP)
  {
    var front := ip + [SEP] + status + [SEP] + before;
    JoinThree(ip, status, before + other + [SEP] + after);
    JoinThree(front[..|front| - 1], other, after);
    assert front == front[..|front| - 1] + [SEP];
    assert ip + [SEP] + (status + [SEP] + (before + other + [SEP] + after)) == front + (other + [SEP] + after);
  }

  /** The other entry, when a middle field holds a separator. */
  lemma {:induction false} AnotherEntry(c: Codec, prev: string, e: Entry) returns (e': Entry)
    requires !MiddleFree(e)
    ensures e' != e && HashedText(c, prev, e') == HashedText(c, prev, e)
  {
    var stamp, status := c.stamp(e.at), Itoa(e.status);
    if SEP in e.actor {
      var a, b := MoveBorder(e.actor, e.actorKind);
      e' := e.(actor := a, actorKind := b);
      SameText(c, prev, e, e', [prev, stamp], e.actor, e.actorKind, a, b, [e.action, e.target, e.ip, status, e.detail]);
    } else if SEP in e.actorKind {
      var a, b := MoveBorder(e.actorKind, e.action);
      e' := e.(actorKind := a, action := b);
      SameText(c, prev, e, e', [prev, stamp, e.actor], e.actorKind, e.action, a, b, [e.target, e.ip, status, e.detail]);
    } else if SEP in e.action {
      var a, b := MoveBorder(e.action, e.target);
      e' := e.(action := a, target := b);
      SameText(c, prev, e, e', [prev, stamp, e.actor, e.actorKind], e.action, e.target, a, b, [e.ip, status, e.detail]);
    } else if SEP in e.target {
      var a, b := MoveBorder(e.target, e.ip);
      e' := e.(target := a, ip := b);
      SameText(c, prev, e, e', [prev, stamp, e.actor, e.actorKind, e.action], e.target, e.ip, a, b, [status, e.detail]);
    } else {
      var a, b := MoveBack(e.target, e.ip);
      e' := e.(target := a, ip := b);
      SameText(c, prev, e, e', [prev, stamp, e.actor, e.actorKind, e.action], e.target, e.ip, a, b, [status, e.detail]);
    }
  }

  // ---- the chain -------------------------------------------------------------

  predicate RowOK(c: Codec, r: Row) { HashEntry(c, r.prev, r.e) == r.hash }

  /** Every row's hash fits, and every row but the first names the hash before it. */
  ghost predicate ChainOK(c: Codec, t: seq<Row>) { Intact(c, t, |t|) }

  /** The first n rows of a table form a chain. */
  ghost predicate Intact(c: Codec, t: seq<Row>, n: nat) {
    && n <= |t|
    && (forall i :: 0 <= i < n ==> RowOK(c, t[i]))
    && (forall i :: 0 < i < n ==> t[i].prev == t[i - 1].hash)
  }

  datatype VerifyResult = VerifyResult(ok: bool, checked: nat, brokeAt: int, missing: bool)

  lemma {:induction false} OneMore(c: Codec, t: seq<Row>, n: nat)
    requires n < |t| && Intact(c, t, n)
    ensures Intact(c, t, n + 1) <==> RowOK(c, t[n]) && (n > 0 ==> t[n].prev == t[n - 1].hash)
  {
  }

  /** Verify: OK exactly for intact chains, and otherwise the first row that does
    * not fit, Missing when it is its link that does not. */
  method Verify(c: Codec, rows: seq<Row>) returns (res: VerifyResult)
    ensures res.ok <==> ChainOK(c, rows)
    ensures res.ok ==> res.checked == |rows| && res.brokeAt == 0 && !res.missing
    ensures !res.ok ==>
      && res.checked < |rows| && res.brokeAt == rows[res.checked].id
      && Intact(c, rows, res.checked) && !Intact(c, rows, res.checked + 1)
      && (res.missing <==> res.checked > 0 && rows[res.checked].prev != rows[res.checked - 1].hash)
  {
    res := VerifyResult(true, 0, 0, false);
    var lastHash := "";
    for i := 0 to |rows|
      invariant res == VerifyResult(true, i, 0, false)
      invariant Intact(c, rows, i)
      invariant i > 0 ==> lastHash == rows[i - 1].hash
    {
      var r := rows[i];
      OneMore(c, rows, i);
      if res.checked > 0 && r.prev != lastHash {
        return VerifyResult(false, i, r.id, true);
      }
      if !RowOK(c, r) {
        return VerifyResult(false, i, r.id, false);
      }
      lastHash := r.hash;
      res := res.(checked := res.checked + 1);
    }
  }

  // ---- what tampering cannot do ----------------------------------------------

  /** A history written by the platform alone, from the first row on. */
  ghost predicate Honest(c: Codec, h: seq<Row>) {
    && ChainOK(c, h)
    && (h != [] ==> h[0].prev == "")
    && forall i :: 0 <= i < |h| ==> Apart(h[i].prev, h[i].e)
  }

  function TextOf(c: Codec, r: Row): string { HashedText(c, r.prev, r.e) }

  /** Two different texts, one hashed for a row of h and one for a row of t, with
    * the same digest. */
  ghost predicate Collision(c: Codec, h: seq<Row>, t: seq<Row>) {
    exists i, j :: 0 <= i < |h| && 0 <= j < |t| && TextOf(c, h[i]) != TextOf(c, t[j])
                   && c.hash(TextOf(c, h[i])) == c.hash(TextOf(c, t[j]))
  }

  predicate SameButId(a: Row, b: Row) { a.e == b.e && a.prev == b.prev && a.hash == b.hash }

  ghost predicate SameButIds(s: seq<Row>, t: seq<Row>) {
    |s| == |t| && forall i :: 0 <= i < |s| ==> SameButId(s[i], t[i])
  }

  /** Rows with the same digest are the same row, or a collision has been found. */
  lemma {:induction false} SameDigest(c: Codec, h: seq<Row>, t: seq<Row>, i: nat, j: nat)
    requires Sound(c) && Honest(c, h) && ChainOK(c, t) && i < |h| && j < |t|
    requires h[i].hash == t[j].hash && !Collision(c, h, t)
    ensures SameButId(h[i], t[j])
  {
    assert RowOK(c, h[i]) && RowOK(c, t[j]);
    HashedTextInjective(c, h[i].prev, h[i].e, t[j].prev, t[j].e);
  }

  /** One row back on both sides. */
  lemma {:induction false} StepBack(c: Codec, h: seq<Row>, t: seq<Row>, i: nat, j: nat)
    requires Sound(c) && Honest(c, h) && ChainOK(c, t) && !Collision(c, h, t)
    requires i < |h| && 0 < j < |t| && SameButId(h[i], t[j])
    ensures i > 0 && SameButId(h[i - 1], t[j - 1])
  {
    assert t[j].prev == t[j - 1].hash && RowOK(c, t[j - 1]);
    assert t[j - 1].hash != "";
    assert i > 0;
    assert h[i].prev == h[i - 1].hash;
    SameDigest(c, h, t, i - 1, j - 1);
  }

  /** Walking back from the newest row to the j-th: each row of the table is the
    * honest one as far from the k-th. */
  lemma {:induction false} WalkBack(c: Codec, h: seq<Row>, t: seq<Row>, k: nat, j: nat)
    requires Sound(c) && Honest(c, h) && ChainOK(c, t) && !Collision(c, h, t)
    requires t != [] && k < |h| && t[|t| - 1].hash == h[k].hash && j < |t|
    ensures k + 1 + j >= |t| && SameButId(h[k + 1 + j - |t|], t[j])
    decreases |t| - j
  {
    if j == |t| - 1 {
      SameDigest(c, h, t, k, j);
    } else {
      WalkBack(c, h, t, k, j + 1);
      var i := k + 2 + j - |t|;
      StepBack(c, h, t, i, j + 1);
    }
  }

  /** Whatever was done to the table, if Verify accepts it and its newest row
    * carries the hash of the k-th honest row, then, ids apart, it is exactly the
    * honest rows up to the k-th, as many as it has: nothing edited, inserted,
    * reordered or taken out of the middle. The only way round is two different
    * texts with one digest. */
  lemma {:induction false} TamperEvident(c: Codec, h: seq<Row>, t: seq<Row>, k: nat)
    requires Sound(c) && Honest(c, h) && ChainOK(c, t)
    requires t != [] && k < |h| && t[|t| - 1].hash == h[k].hash
    ensures Collision(c, h, t) || (|t| <= k + 1 && SameButIds(h[k + 1 - |t|..k + 1], t))
  {
    if !Collision(c, h, t) {
      WalkBack(c, h, t, k, 0);
      var piece := h[k + 1 - |t|..k + 1];
      forall i | 0 <= i < |t| ensures SameButId(piece[i], t[i]) {
        WalkBack(c, h, t, k, i);
      }
    }
  }

  /** With both ends known the table is the whole honest history. */
  lemma {:induction false} BothEndsKnown(c: Codec, h: seq<Row>, t: seq<Row>)
    requires Sound(c) && Honest(c, h) && ChainOK(c, t) && h != [] && t != []
    requires t[|t| - 1].hash == h[|h| - 1].hash && t[0].prev == ""
    ensures Collision(c, h, t) || SameButIds(h, t)
  {
    TamperEvident(c, h, t, |h| - 1);
    if !Collision(c, h, t) {
      var a := |h| - |t|;
      assert SameButId(h[a..][0], t[0]);
      assert a > 0 ==> h[a].prev == h[a - 1].hash && RowOK(c, h[a - 1]);
      assert h[0..|h|] == h;
    }
  }

  // ---- and what it can -------------------------------------------------------

  /** Cutting off the newest rows, the oldest rows, or both goes unseen. */
  lemma {:induction false} CutUnseen(c: Codec, t: seq<Row>, from: nat, to: nat)
    requires ChainOK(c, t) && from <= to <= |t|
    ensures ChainOK(c, t[from..to])
  {
  }

  /** So does changing ids that keep the order. */
  lemma {:induction false} IdsUnseen(c: Codec, s: seq<Row>, t: seq<Row>)
    requires SameButIds(s, t)
    ensures ChainOK(c, s) <==> ChainOK(c, t)
  {
    if ChainOK(c, s) {
      forall i | 0 <= i < |t| ensures RowOK(c, t[i]) { assert SameButId(s[i], t[i]) && RowOK(c, s[i]); }
      forall i | 0 < i < |t| ensures t[i].prev == t[i - 1].hash {
        assert SameButId(s[i], t[i]) && SameButId(s[i - 1], t[i - 1]);
      }
    }
    if ChainOK(c, t) {
      forall i | 0 <= i < |s| ensures RowOK(c, s[i]) { assert SameButId(s[i], t[i]) && RowOK(c, t[i]); }
      forall i | 0 < i < |s| ensures s[i].prev == s[i - 1].hash {
        assert SameButId(s[i], t[i]) && SameButId(s[i - 1], t[i - 1]);
      }
    }
  }
}
