/** Lines ordered by their time stamps as text, lines with one stamp staying in the
  * order they came in: what sort.SliceStable gives. */
module StableSort {
  import opened Text

  datatype Line = Line(ts: string, text: string)

  // ---- the order of texts ----------------------------------------------------

  /** Go's < on strings. */
  predicate Less(a: string, b: string) {
    b != "" && (a == "" || a[0] < b[0] || (a[0] == b[0] && Less(a[1..], b[1..])))
  }

  predicate Leq(a: string, b: string) { !Less(b, a) }

  lemma {:induction false} LessTransitive(a: string, b: string, c: string)
    ensures Leq(a, b) && Leq(b, c) ==> Leq(a, c)
    ensures Leq(a, b) || Leq(b, a)
  {
    if a != "" && b != "" && c != "" {
      LessTransitive(a[1..], b[1..], c[1..]);
    } else if a != "" && b != "" {
      LessAsymmetric(a, b);
    }
  }

  lemma {:induction false} LessAsymmetric(a: string, b: string)
    ensures !(Less(a, b) && Less(b, a))
    ensures Leq(a, b) && Leq(b, a) ==> a == b
  {
    if a != "" && b != "" {
      LessAsymmetric(a[1..], b[1..]);
      if a[0] == b[0] && a[1..] == b[1..] {
        assert a == [a[0]] + a[1..] && b == [b[0]] + b[1..];
      }
    }
  }

  // ---- stable sorting --------------------------------------------------------

  ghost predicate InOrder(s: seq<Line>) { forall i, j :: 0 <= i < j < |s| ==> Leq(s[i].ts, s[j].ts) }

  /** The lines with this stamp, in order. */
  function With(s: seq<Line>, ts: string): seq<Line> {
    if s == [] then []
    else With(s[..|s| - 1], ts) + if s[|s| - 1].ts == ts then [s[|s| - 1]] else []
  }

  /** In order, and for each stamp the same lines in the same order. */
  ghost predicate IsStableSort(from: seq<Line>, to: seq<Line>) {
    InOrder(to) && forall ts :: With(to, ts) == With(from, ts)
  }

  /** Puts a line after every line not later than it. */
  function Insert(s: seq<Line>, x: Line): (r: seq<Line>)
    ensures |r| == |s| + 1
  {
    if s == [] || Leq(s[|s| - 1].ts, x.ts) then s + [x]
    else Insert(s[..|s| - 1], x) + [s[|s| - 1]]
  }

  function Sorted(s: seq<Line>): (r: seq<Line>)
    ensures |r| == |s|
  {
    if s == [] then [] else Insert(Sorted(s[..|s| - 1]), s[|s| - 1])
  }

  lemma {:induction false} InsertFrom(s: seq<Line>, x: Line)
    ensures forall i :: 0 <= i < |Insert(s, x)| ==> Insert(s, x)[i] == x || Insert(s, x)[i] in s
  {
    if s != [] && !Leq(s[|s| - 1].ts, x.ts) {
      InsertFrom(s[..|s| - 1], x);
    }
  }

  lemma {:induction false} InsertInOrder(s: seq<Line>, x: Line)
    requires InOrder(s)
    ensures InOrder(Insert(s, x))
  {
    if s != [] {
      var init, last := s[..|s| - 1], s[|s| - 1];
      LessTransitive(x.ts, last.ts, last.ts);
      if Leq(last.ts, x.ts) {
        forall i | 0 <= i < |s| ensures Leq(s[i].ts, x.ts) {
          LessTransitive(s[i].ts, last.ts, x.ts);
        }
      } else {
        InsertInOrder(init, x);
        InsertFrom(init, x);
      }
    }
  }

  lemma {:induction false} WithAppend(s: seq<Line>, x: Line, ts: string)
    ensures With(s + [x], ts) == With(s, ts) + if x.ts == ts then [x] else []
  {
    assert (s + [x])[..|s + [x]| - 1] == s;
  }

  lemma {:induction false} InsertWith(s: seq<Line>, x: Line, ts: string)
    requires InOrder(s)
    ensures With(Insert(s, x), ts) == With(s, ts) + if x.ts == ts then [x] else []
  {
    if s == [] || Leq(s[|s| - 1].ts, x.ts) {
      WithAppend(s, x, ts);
    } else {
      var init, last := s[..|s| - 1], s[|s| - 1];
      InsertWith(init, x, ts);
      WithAppend(Insert(init, x), last, ts);
      LessAsymmetric(x.ts, last.ts);
      if x.ts == ts {
        assert last.ts != ts;
      }
    }
  }

  lemma {:induction false} SortedIsStable(s: seq<Line>)
    ensures IsStableSort(s, Sorted(s))
  {
    if s != [] {
      var init, x := s[..|s| - 1], s[|s| - 1];
      SortedIsStable(init);
      InsertInOrder(Sorted(init), x);
      forall ts ensures With(Sorted(s), ts) == With(s, ts) {
        InsertWith(Sorted(init), x, ts);
      }
    }
  }

  // ---- there is only one stable sort -----------------------------------------

  lemma {:induction false} WithLast(s: seq<Line>)
    requires s != []
    ensures (var w := With(s, s[|s| - 1].ts); w != [] && w[|w| - 1] == s[|s| - 1]
                                              && w[..|w| - 1] == With(s[..|s| - 1], s[|s| - 1].ts))
  {
  }

  lemma {:induction false} WithEmpty(s: seq<Line>, ts: string)
    requires InOrder(s) && With(s, ts) != []
    ensures s != [] && Leq(ts, s[|s| - 1].ts)
  {
    if s[|s| - 1].ts == ts {
      LessAsymmetric(ts, ts);
    } else {
      WithEmpty(s[..|s| - 1], ts);
      LessTransitive(ts, s[|s| - 2].ts, s[|s| - 1].ts);
    }
  }

  lemma {:induction false} WithInit(s: seq<Line>, ts: string)
    requires s != []
    ensures (var w := With(s, ts);
             With(s[..|s| - 1], ts) == if s[|s| - 1].ts == ts then (assert w != []; w[..|w| - 1]) else w)
  {
  }

  lemma {:induction false} OneStableSort(a: seq<Line>, b: seq<Line>)
    requires InOrder(a) && InOrder(b) && forall ts :: With(a, ts) == With(b, ts)
    ensures a == b
  {
    if a != [] || b != [] {
      SameLast(a, b);
      var ia, ib := a[..|a| - 1], b[..|b| - 1];
      forall ts ensures With(ia, ts) == With(ib, ts) {
        WithInit(a, ts);
        WithInit(b, ts);
      }
      OneStableSort(ia, ib);
      assert a == ia + [a[|a| - 1]] && b == ib + [b[|b| - 1]];
    }
  }

  lemma {:induction false} SameLast(a: seq<Line>, b: seq<Line>)
    requires InOrder(a) && InOrder(b) && (forall ts :: With(a, ts) == With(b, ts)) && (a != [] || b != [])
    ensures a != [] && b != [] && a[|a| - 1] == b[|b| - 1]
  {
    if a != [] {
      WithLast(a);
      WithEmpty(b, a[|a| - 1].ts);
    }
    if b != [] {
      WithLast(b);
      WithEmpty(a, b[|b| - 1].ts);
    }
    LessAsymmetric(a[|a| - 1].ts, b[|b| - 1].ts);
    assert With(a, a[|a| - 1].ts) == With(b, a[|a| - 1].ts);
  }

  /** Whatever sorts stably gives this. */
  lemma {:induction false} StableSortIsSorted(s: seq<Line>, r: seq<Line>)
    requires IsStableSort(s, r)
    ensures r == Sorted(s)
  {
    SortedIsStable(s);
    OneStableSort(r, Sorted(s));
  }

  // ---- leaving a line out ----------------------------------------------------

  function Without(s: seq<Line>, p: nat): seq<Line>
    requires p < |s|
  {
    s[..p] + s[p + 1..]
  }

  /** Where the line at p ends up when another one is inserted. */
  function Moved(s: seq<Line>, x: Line, p: nat): nat
    requires p < |s|
  {
    if Leq(s[p].ts, x.ts) then p else p + 1
  }

  lemma {:induction false} AppendWithout(s: seq<Line>, x: Line, p: nat)
    requires InOrder(s) && p < |s| && Leq(s[|s| - 1].ts, x.ts)
    ensures Leq(s[p].ts, x.ts) && (s + [x])[p] == s[p]
    ensures Without(s + [x], p) == Insert(Without(s, p), x)
  {
    var last, rest := s[|s| - 1], Without(s, p);
    LessTransitive(s[p].ts, last.ts, x.ts);
    assert Without(s + [x], p) == rest + [x];
    if rest != [] {
      var l := rest[|rest| - 1];
      assert l == if p == |s| - 1 then s[|s| - 2] else last;
      LessTransitive(l.ts, last.ts, x.ts);
    }
  }

  lemma {:induction false} WithoutSnoc(s: seq<Line>, last: Line, p: nat)
    requires p < |s|
    ensures Without(s + [last], p) == Without(s, p) + [last]
  {
  }

  lemma {:induction false} InsertSnoc(s: seq<Line>, last: Line, x: Line)
    requires !Leq(last.ts, x.ts)
    ensures Insert(s + [last], x) == Insert(s, x) + [last]
  {
    assert (s + [last])[..|s + [last]| - 1] == s;
  }

  /** Inserting and leaving out a line go together in either order. */
  lemma {:induction false} InsertWithout(s: seq<Line>, x: Line, p: nat)
    requires InOrder(s) && p < |s|
    ensures (var q := Moved(s, x, p); q < |s| + 1 && Insert(s, x)[q] == s[p]
                                      && Without(Insert(s, x), q) == Insert(Without(s, p), x))
  {
    var init, last := s[..|s| - 1], s[|s| - 1];
    if Leq(last.ts, x.ts) {
      AppendWithout(s, x, p);
    } else if p == |s| - 1 {
      assert Without(s, p) == init;
      assert Without(Insert(init, x) + [last], |s|) == Insert(init, x);
    } else {
      InsertWithout(init, x, p);
      assert s == init + [last];
      WithoutSnoc(init, last, p);
      WithoutSnoc(Insert(init, x), last, Moved(init, x, p));
      InsertSnoc(Without(init, p), last, x);
    }
  }

  /** How many lines of s are not before the stamp. */
  function NotBefore(s: seq<Line>, ts: string): nat {
    if s == [] then 0
    else NotBefore(s[..|s| - 1], ts) + if Leq(ts, s[|s| - 1].ts) then 1 else 0
  }

  /** A line left out before sorting is a line left out of the result, and what comes
    * after it there is at least what came after it and is not before it. */
  lemma {:induction false} LeaveOut(a: seq<Line>, e: Line, b: seq<Line>) returns (p: nat)
    ensures p < |a| + 1 + |b| && Sorted(a + [e] + b)[p] == e
    ensures Without(Sorted(a + [e] + b), p) == Sorted(a + b)
    ensures |a| + |b| - p >= NotBefore(b, e.ts)
  {
    if b == [] {
      assert a + [e] + b == a + [e] && a + b == a;
      SortedSnoc(a, e);
      SortedIsStable(a);
      p := InsertedAt(Sorted(a), e);
    } else {
      var b', x := b[..|b| - 1], b[|b| - 1];
      var p' := LeaveOut(a, e, b');
      assert a + [e] + b == (a + [e] + b') + [x] && a + b == (a + b') + [x];
      p := LeaveOutStep(a + [e] + b', a + b', e, x, p');
    }
  }

  lemma {:induction false} LeaveOutStep(s: seq<Line>, rest: seq<Line>, e: Line, x: Line, p': nat) returns (p: nat)
    requires p' < |s| && Sorted(s)[p'] == e && Without(Sorted(s), p') == Sorted(rest)
    ensures p < |s| + 1 && Sorted(s + [x])[p] == e && Without(Sorted(s + [x]), p) == Sorted(rest + [x])
    ensures p == if Leq(e.ts, x.ts) then p' else p' + 1
  {
    SortedSnoc(s, x);
    SortedSnoc(rest, x);
    SortedIsStable(s);
    InsertWithout(Sorted(s), x, p');
    p := Moved(Sorted(s), x, p');
  }

  lemma {:induction false} SortedSnoc(s: seq<Line>, x: Line)
    ensures Sorted(s + [x]) == Insert(Sorted(s), x)
  {
    assert (s + [x])[..|s + [x]| - 1] == s;
  }

  lemma {:induction false} InsertedAt(s: seq<Line>, x: Line) returns (p: nat)
    ensures p <= |s| && Insert(s, x)[p] == x && Without(Insert(s, x), p) == s
  {
    if s == [] || Leq(s[|s| - 1].ts, x.ts) {
      p := |s|;
    } else {
      p := InsertedAt(s[..|s| - 1], x);
      assert Without(Insert(s, x), p) == Without(Insert(s[..|s| - 1], x), p) + [s[|s| - 1]];
    }
  }

  // ---- stamps as text --------------------------------------------------------

  lemma {:induction false} LessJoined(a: string, b: string, c: string, d: string)
    requires |a| == |b|
    ensures Less(a + c, b + d) <==> Less(a, b) || (a == b && Less(c, d))
  {
    if a == "" {
      assert a + c == c && b + d == d;
    } else {
      LessJoined(a[1..], b[1..], c, d);
      assert (a + c)[1..] == a[1..] + c && (b + d)[1..] == b[1..] + d;
      if a[0] == b[0] && a[1..] == b[1..] {
        assert a == [a[0]] + a[1..] && b == [b[0]] + b[1..];
      }
    }
  }

  /** Numbers written with the same number of digits compare as text the way they
    * compare as numbers. */
  lemma {:induction false} LessDigits(a: string, b: string)
    requires |a| == |b| && AllDigits(a) && AllDigits(b)
    ensures Less(a, b) <==> NatValue(a) < NatValue(b)
    ensures NatValue(a) == NatValue(b) ==> a == b
  {
    if a != "" {
      var a', b', x, y := a[..|a| - 1], b[..|b| - 1], a[|a| - 1], b[|b| - 1];
      LessDigits(a', b');
      assert a == a' + [x] && b == b' + [y];
      LessJoined(a', b', [x], [y]);
      assert Less([x], [y]) <==> x < y;
      LessAsymmetric(a', b');
    }
  }

  /** A stamp: numbers of fixed width, each followed by its mark, as in
    * 2024-05-01T10:20:30.000000000Z. */
  datatype Field = Field(digits: string, mark: char)

  function StampText(fs: seq<Field>): string {
    if fs == [] then "" else fs[0].digits + ([fs[0].mark] + StampText(fs[1..]))
  }

  /** Earlier in time: the first number that differs decides. */
  predicate Earlier(fs: seq<Field>, gs: seq<Field>)
    requires |fs| == |gs|
    requires forall i :: 0 <= i < |fs| ==> AllDigits(fs[i].digits) && AllDigits(gs[i].digits)
  {
    fs != [] &&
    (NatValue(fs[0].digits) < NatValue(gs[0].digits) ||
     (NatValue(fs[0].digits) == NatValue(gs[0].digits) && Earlier(fs[1..], gs[1..])))
  }

  /** Stamps of one layout sort as text in time order. */
  lemma {:induction false} StampOrder(fs: seq<Field>, gs: seq<Field>)
    requires |fs| == |gs|
    requires forall i :: 0 <= i < |fs| ==> AllDigits(fs[i].digits) && AllDigits(gs[i].digits)
    requires forall i :: 0 <= i < |fs| ==> |fs[i].digits| == |gs[i].digits| && fs[i].mark == gs[i].mark
    ensures Less(StampText(fs), StampText(gs)) <==> Earlier(fs, gs)
  {
    if fs != [] {
      var f, g := fs[0], gs[0];
      StampOrder(fs[1..], gs[1..]);
      LessDigits(f.digits, g.digits);
      LessJoined(f.digits, g.digits, [f.mark] + StampText(fs[1..]), [g.mark] + StampText(gs[1..]));
      LessJoined([f.mark], [g.mark], StampText(fs[1..]), StampText(gs[1..]));
    }
  }
}
