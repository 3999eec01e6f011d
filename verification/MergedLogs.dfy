/** The last lines of several containers' logs, merged by time
  * (backend/internal/docker/logs.go). */
module MergedLogs {
  import opened Text
  import opened StableSort

  function Tail<T>(s: seq<T>, n: nat): (r: seq<T>)
    ensures |s| <= n ==> r == s
    ensures |s| > n ==> |r| == n
  {
    if |s| <= n then s else s[|s| - n..]
  }

  function Concat(logs: seq<seq<Line>>): seq<Line> {
    if logs == [] then [] else Concat(logs[..|logs| - 1]) + logs[|logs| - 1]
  }

  function Tails(logs: seq<seq<Line>>, n: nat): (r: seq<seq<Line>>)
    ensures |r| == |logs|
  {
    seq(|logs|, i requires 0 <= i < |logs| => Tail(logs[i], n))
  }

  // ---- taking the tails first ------------------------------------------------

  lemma {:induction false} NotBeforeAll(a: seq<Line>, b: seq<Line>, ts: string)
    requires forall i :: 0 <= i < |a| ==> Leq(ts, a[i].ts)
    ensures NotBefore(a + b, ts) >= |a|
  {
    if b != [] {
      NotBeforeAll(a, b[..|b| - 1], ts);
      assert (a + b)[..|a + b| - 1] == a + b[..|b| - 1];
    } else if a != [] {
      NotBeforeAll(a[..|a| - 1], [], ts);
      assert a + b == a && a[..|a| - 1] + [] == a[..|a| - 1];
    }
  }

  lemma {:induction false} TailWithout(s: seq<Line>, p: nat, n: nat)
    requires p + n < |s|
    ensures Tail(Without(s, p), n) == Tail(s, n)
  {
  }

  /** The first line of a log of more than n lines does not make the last n. */
  lemma {:induction false} FirstLineOut(a: seq<Line>, c: seq<Line>, b: seq<Line>, n: nat)
    requires InOrder(c) && |c| > n
    ensures Tail(Sorted(a + c + b), n) == Tail(Sorted(a + c[1..] + b), n)
  {
    var e, rest := c[0], c[1..] + b;
    assert a + c + b == a + [e] + rest && a + c[1..] + b == a + rest;
    forall i | 0 <= i < |c[1..]| ensures Leq(e.ts, c[1..][i].ts) {
      assert c[1..][i] == c[i + 1];
    }
    NotBeforeAll(c[1..], b, e.ts);
    var p := LeaveOut(a, e, rest);
    TailWithout(Sorted(a + [e] + rest), p, n);
  }

  lemma {:induction false} OneTail(a: seq<Line>, c: seq<Line>, b: seq<Line>, n: nat)
    requires InOrder(c)
    ensures Tail(Sorted(a + c + b), n) == Tail(Sorted(a + Tail(c, n) + b), n)
    decreases |c|
  {
    if |c| > n {
      FirstLineOut(a, c, b, n);
      OneTail(a, c[1..], b, n);
      assert Tail(c[1..], n) == Tail(c, n);
    }
  }

  lemma {:induction false} TailsThen(logs: seq<seq<Line>>, b: seq<Line>, n: nat)
    requires forall i :: 0 <= i < |logs| ==> InOrder(logs[i])
    ensures Tail(Sorted(Concat(logs) + b), n) == Tail(Sorted(Concat(Tails(logs, n)) + b), n)
  {
    if logs != [] {
      var init, c := logs[..|logs| - 1], logs[|logs| - 1];
      assert Tails(logs, n)[..|logs| - 1] == Tails(init, n);
      OneTail(Concat(init), c, b, n);
      Assoc(Concat(init), Tail(c, n), b);
      TailsThen(init, Tail(c, n) + b, n);
      Assoc(Concat(Tails(init, n)), Tail(c, n), b);
    }
  }

  /** Asking each container for its last n lines, merging those and keeping the last
    * n gives the last n of everything, for any number of containers and any ties,
    * as long as each container's own lines are in time order. */
  lemma {:induction false} TailsSuffice(logs: seq<seq<Line>>, n: nat)
    requires forall i :: 0 <= i < |logs| ==> InOrder(logs[i])
    ensures Tail(Sorted(Concat(logs)), n) == Tail(Sorted(Concat(Tails(logs, n))), n)
  {
    TailsThen(logs, [], n);
    assert Concat(logs) + [] == Concat(logs) && Concat(Tails(logs, n)) + [] == Concat(Tails(logs, n));
  }

  /** The order is needed: of a container whose first line is its latest, the last
    * line by time is not among its last lines. */
  lemma {:induction false} OrderIsNeeded()
    ensures (var logs := [[Line("2", "late"), Line("1", "early")]];
             Tail(Sorted(Concat(logs)), 1) != Tail(Sorted(Concat(Tails(logs, 1))), 1))
  {
    var late, early := Line("2", "late"), Line("1", "early");
    var log := [late, early];
    assert Less("1", "2") && !Less("2", "1");
    SortedSnoc([], late);
    SortedSnoc([late], early);
    assert [] + [late] == [late] && [late] + [early] == log;
    assert Insert([late], early) == Insert([], early) + [late];
    var logs := [log];
    assert Concat(logs[..0]) == [] && Concat(logs) == log;
    var tails := Tails(logs, 1);
    assert tails == [[early]] && Concat(tails[..0]) == [] && Concat(tails) == [early];
    SortedSnoc([], early);
    assert [] + [early] == [early];
  }

  // ---- what docker prints and what is read back ------------------------------

  datatype Output = Failed | Printed(name: string, text: string)

  /** A line as docker prints it, without its end. */
  function Printout(l: Line): string { l.ts + " " + l.text }

  function ReadLine(name: string, s: string): Line { Line(Before(s, ' '), "[" + name + "] " + After(s, ' ')) }

  /** The line read back is the line printed, tagged with its container. */
  lemma {:induction false} ReadPrintout(name: string, l: Line)
    requires ' ' !in l.ts
    ensures ReadLine(name, Printout(l)) == Line(l.ts, "[" + name + "] " + l.text)
  {
    BeforeAfter(l.ts, l.text, ' ');
  }

  function TrimEnds(s: string): string {
    if s != "" && s[|s| - 1] == '\n' then TrimEnds(s[..|s| - 1]) else s
  }

  /** The lines of the first n pieces, blank ones left out. */
  function ReadFirst(name: string, parts: seq<string>, n: nat): seq<Line>
    requires n <= |parts|
  {
    if n == 0 then []
    else ReadFirst(name, parts, n - 1) + if parts[n - 1] == "" then [] else [ReadLine(name, parts[n - 1])]
  }

  function ReadOutput(o: Output): seq<Line>
    requires o.Printed?
  {
    var parts := Split(TrimEnds(o.text), '\n');
    ReadFirst(o.name, parts, |parts|)
  }

  function ReadOutputs(outputs: seq<Output>): seq<seq<Line>>
    requires forall i :: 0 <= i < |outputs| ==> outputs[i].Printed?
  {
    seq(|outputs|, i requires 0 <= i < |outputs| => ReadOutput(outputs[i]))
  }

  function Rendered(lines: seq<Line>): string {
    if lines == [] then "" else Rendered(lines[..|lines| - 1]) + Printout(lines[|lines| - 1]) + "\n"
  }

  datatype Result = Error | Ok(text: string)

  /** The lines of the first n outputs, one output after the other. */
  function AllLines(outputs: seq<Output>, n: nat): seq<Line>
    requires n <= |outputs| && forall i :: 0 <= i < n ==> outputs[i].Printed?
  {
    if n == 0 then [] else AllLines(outputs, n - 1) + ReadOutput(outputs[n - 1])
  }

  lemma {:induction false} AllLinesConcat(outputs: seq<Output>, n: nat)
    requires n <= |outputs| && forall i :: 0 <= i < |outputs| ==> outputs[i].Printed?
    ensures AllLines(outputs, n) == Concat(ReadOutputs(outputs)[..n])
  {
    if n > 0 {
      AllLinesConcat(outputs, n - 1);
      ConcatSnoc(ReadOutputs(outputs)[..n - 1], ReadOutput(outputs[n - 1]));
      assert ReadOutputs(outputs)[..n] == ReadOutputs(outputs)[..n - 1] + [ReadOutput(outputs[n - 1])];
    }
  }

  lemma {:induction false} AllLinesAre(outputs: seq<Output>)
    requires AllPrinted(outputs)
    ensures AllLines(outputs, |outputs|) == Concat(ReadOutputs(outputs))
  {
    AllLinesConcat(outputs, |outputs|);
    assert ReadOutputs(outputs)[..|outputs|] == ReadOutputs(outputs);
  }

  method AppendOutput(lines: seq<Line>, o: Output) returns (res: seq<Line>)
    requires o.Printed?
    ensures res == lines + ReadOutput(o)
  {
    res := lines;
    var parts := Split(TrimEnds(o.text), '\n');
    for k := 0 to |parts|
      invariant res == lines + ReadFirst(o.name, parts, k)
    {
      if parts[k] != "" {
        var ts, text := Before(parts[k], ' '), After(parts[k], ' ');
        res := res + [Line(ts, "[" + o.name + "] " + text)];
      }
    }
  }

  method Render(lines: seq<Line>) returns (b: string)
    ensures b == Rendered(lines)
  {
    b := "";
    for k := 0 to |lines|
      invariant b == Rendered(lines[..k])
    {
      assert lines[..k + 1][..k] == lines[..k];
      b := b + (lines[k].ts + " " + lines[k].text + "\n");
      Assoc(Rendered(lines[..k]), Printout(lines[k]), "\n");
    }
    assert lines[..|lines|] == lines;
  }

  lemma {:induction false} ConcatSnoc(logs: seq<seq<Line>>, last: seq<Line>)
    ensures Concat(logs + [last]) == Concat(logs) + last
  {
    assert (logs + [last])[..|logs + [last]| - 1] == logs;
  }

  ghost predicate AllPrinted(outputs: seq<Output>) { forall i :: 0 <= i < |outputs| ==> outputs[i].Printed? }

  /** Every container's lines, one container after the other. */
  method Gather(outputs: seq<Output>) returns (ok: bool, lines: seq<Line>)
    ensures ok <==> AllPrinted(outputs)
    ensures ok ==> lines == AllLines(outputs, |outputs|)
  {
    lines := [];
    for i := 0 to |outputs|
      invariant forall j :: 0 <= j < i ==> outputs[j].Printed?
      invariant lines == AllLines(outputs, i)
    {
      if outputs[i].Failed? {
        return false, [];
      }
      lines := AppendOutput(lines, outputs[i]);
    }
    ok := true;
  }

  /** logsOf: an error if any container's logs cannot be read; otherwise the last
    * lines of all that was printed, oldest first. */
  method LogsOf(outputs: seq<Output>, tail: nat) returns (r: Result)
    ensures r.Ok? <==> AllPrinted(outputs)
    ensures r.Ok? ==> r.text == Rendered(Tail(Sorted(Concat(ReadOutputs(outputs))), tail))
  {
    var ok, lines := Gather(outputs);
    if !ok {
      return Error;
    }
    AllLinesAre(outputs);
    lines := Sorted(lines);
    var b := PrintTail(lines, tail);
    r := Ok(b);
  }

  method PrintTail(lines: seq<Line>, tail: nat) returns (b: string)
    ensures b == Rendered(Tail(lines, tail))
  {
    var last := lines;
    if |last| > tail {
      last := last[|last| - tail..];
    }
    b := Render(last);
  }

  // ---- from the containers' logs to the page ---------------------------------

  predicate CleanLine(l: Line) { l.ts != "" && ' ' !in l.ts && '\n' !in l.ts && '\n' !in l.text }

  function Printouts(lines: seq<Line>): (r: seq<string>)
    ensures |r| == |lines|
  {
    seq(|lines|, i requires 0 <= i < |lines| => Printout(lines[i]))
  }

  /** What docker writes for these lines, each ended. */
  function PrintedText(lines: seq<Line>): string { if lines == [] then "" else Join(Printouts(lines), '\n') + "\n" }

  function Tagged(name: string, lines: seq<Line>): (r: seq<Line>)
    ensures |r| == |lines|
  {
    seq(|lines|, i requires 0 <= i < |lines| => Line(lines[i].ts, "[" + name + "] " + lines[i].text))
  }

  lemma {:induction false} JoinLast(parts: seq<string>, c: char)
    requires parts != [] && parts[|parts| - 1] != "" && c !in parts[|parts| - 1]
    ensures Join(parts, c) != "" && Join(parts, c)[|Join(parts, c)| - 1] != c
  {
    if |parts| > 1 {
      JoinLast(parts[1..], c);
    }
  }

  lemma {:induction false} ReadFirstAll(name: string, lines: seq<Line>, n: nat)
    requires n <= |lines| && forall i :: 0 <= i < |lines| ==> CleanLine(lines[i])
    ensures ReadFirst(name, Printouts(lines), n) == Tagged(name, lines)[..n]
  {
    if n > 0 {
      ReadFirstAll(name, lines, n - 1);
      ReadPrintout(name, lines[n - 1]);
      assert Tagged(name, lines)[..n] == Tagged(name, lines)[..n - 1] + [Tagged(name, lines)[n - 1]];
    }
  }

  /** What is read back of a container's printed lines is those lines, tagged. */
  lemma {:induction false} ReadPrintedText(name: string, lines: seq<Line>)
    requires forall i :: 0 <= i < |lines| ==> CleanLine(lines[i])
    ensures ReadOutput(Printed(name, PrintedText(lines))) == Tagged(name, lines)
  {
    if lines == [] {
      assert Split("", '\n') == [""];
      assert ReadFirst(name, [""], 1) == ReadFirst(name, [""], 0);
    } else {
      var parts := Printouts(lines);
      var body := Join(parts, '\n');
      JoinLast(parts, '\n');
      assert PrintedText(lines)[..|body|] == body;
      assert TrimEnds(PrintedText(lines)) == TrimEnds(body) == body;
      SplitJoin(parts, '\n');
      ReadFirstAll(name, lines, |lines|);
      assert Tagged(name, lines)[..|lines|] == Tagged(name, lines);
    }
  }

  datatype Container = Container(name: string, log: seq<Line>)

  /** docker logs --tail n, for each container. */
  function Asked(cs: seq<Container>, n: nat): (r: seq<Output>)
    ensures |r| == |cs| && forall i :: 0 <= i < |r| ==> r[i].Printed?
  {
    seq(|cs|, i requires 0 <= i < |cs| => Printed(cs[i].name, PrintedText(Tail(cs[i].log, n))))
  }

  function Whole(cs: seq<Container>): (r: seq<seq<Line>>)
    ensures |r| == |cs|
  {
    seq(|cs|, i requires 0 <= i < |cs| => Tagged(cs[i].name, cs[i].log))
  }

  /** From the containers to the page: reading the last n printed lines of each
    * and merging them shows the last n lines of all the containers together. */
  lemma {:induction false} PageShowsLatest(cs: seq<Container>, n: nat)
    requires forall i :: 0 <= i < |cs| ==>
               InOrder(cs[i].log) && forall k :: 0 <= k < |cs[i].log| ==> CleanLine(cs[i].log[k])
    ensures Tail(Sorted(Concat(ReadOutputs(Asked(cs, n)))), n) == Tail(Sorted(Concat(Whole(cs))), n)
  {
    var whole := Whole(cs);
    forall i | 0 <= i < |cs| ensures ReadOutputs(Asked(cs, n))[i] == Tails(whole, n)[i] && InOrder(whole[i]) {
      ReadPrintedText(cs[i].name, Tail(cs[i].log, n));
      assert Tagged(cs[i].name, Tail(cs[i].log, n)) == Tail(Tagged(cs[i].name, cs[i].log), n);
    }
    assert ReadOutputs(Asked(cs, n)) == Tails(whole, n);
    TailsSuffice(whole, n);
  }

  // ---- what the reader sees --------------------------------------------------

  /** The texts of these lines, each on its own, and an empty one after the last end. */
  ghost predicate LinesOfText(text: string, lines: seq<Line>) {
    var parts := Split(text, '\n');
    && |parts| == |lines| + 1 && parts[|lines|] == ""
    && forall k :: 0 <= k < |lines| ==> parts[k] == lines[k].ts + " " + lines[k].text
  }

  lemma {:induction false} SplitAppend(a: string, b: string, c: char)
    requires c !in b
    ensures Split(a + b + [c], c) == Split(a, c)[..|Split(a, c)| - 1] + [Split(a, c)[|Split(a, c)| - 1] + b, ""]
  {
    if a == "" {
      assert a + b + [c] == b + [c] + "" && Split("", c) == [""];
      SplitCons(b, "", c);
      assert "" + b == b;
    } else {
      assert (a + b + [c])[1..] == a[1..] + b + [c] && (a + b + [c])[0] == a[0];
      SplitAppend(a[1..], b, c);
      var rest := Split(a[1..], c);
      if a[0] != c && |rest| == 1 {
        assert [a[0]] + (rest[0] + b) == [a[0]] + rest[0] + b;
      }
    }
  }

  lemma {:induction false} RenderedLines(lines: seq<Line>)
    requires forall k :: 0 <= k < |lines| ==> '\n' !in lines[k].ts && '\n' !in lines[k].text
    ensures LinesOfText(Rendered(lines), lines)
  {
    if lines != [] {
      var init, last := lines[..|lines| - 1], Printout(lines[|lines| - 1]);
      RenderedLines(init);
      SplitAppend(Rendered(init), last, '\n');
      assert "" + last == last;
    }
  }

  /** The k-th line of the i-th container. */
  datatype Place = Place(i: nat, k: nat)

  predicate IsPlace(cs: seq<Container>, p: Place) { p.i < |cs| && p.k < |cs[p.i].log| }

  /** Earlier by its stamp; of equal stamps, in an earlier container or earlier there. */
  ghost predicate Precedes(cs: seq<Container>, p: Place, q: Place)
    requires IsPlace(cs, p) && IsPlace(cs, q)
  {
    var a, b := cs[p.i].log[p.k].ts, cs[q.i].log[q.k].ts;
    Less(a, b) || (a == b && (p.i < q.i || (p.i == q.i && p.k < q.k)))
  }

  /** Every line of every container once, in that order. */
  ghost predicate MergedOrder(cs: seq<Container>, at: seq<Place>) {
    && (forall j :: 0 <= j < |at| ==> IsPlace(cs, at[j]))
    && (forall p :: IsPlace(cs, p) ==> p in at)
    && (forall j, m :: 0 <= j < m < |at| ==> Precedes(cs, at[j], at[m]))
  }

  /** The text, line by line: these, each with its stamp and its container's name, and an
    * end to each. */
  ghost predicate Shows(cs: seq<Container>, at: seq<Place>, text: string) {
    var parts := Split(text, '\n');
    && |parts| == |at| + 1 && parts[|at|] == ""
    && forall j :: 0 <= j < |at| ==>
         && IsPlace(cs, at[j])
         && parts[j] == (var c := cs[at[j].i]; c.log[at[j].k].ts + " " + "[" + c.name + "] " + c.log[at[j].k].text)
  }

  // ---- the order in which the merge puts them --------------------------------

  function LineAt(cs: seq<Container>, p: Place): Line
    requires IsPlace(cs, p)
  {
    Line(cs[p.i].log[p.k].ts, "[" + cs[p.i].name + "] " + cs[p.i].log[p.k].text)
  }

  function LinesAt(cs: seq<Container>, at: seq<Place>): (r: seq<Line>)
    requires forall j :: 0 <= j < |at| ==> IsPlace(cs, at[j])
    ensures |r| == |at|
  {
    seq(|at|, j requires 0 <= j < |at| && IsPlace(cs, at[j]) => LineAt(cs, at[j]))
  }

  ghost predicate Ordered(cs: seq<Container>, at: seq<Place>) {
    && (forall j :: 0 <= j < |at| ==> IsPlace(cs, at[j]))
    && (forall j, m :: 0 <= j < m < |at| ==> Precedes(cs, at[j], at[m]))
  }

  ghost predicate Sooner(q: Place, p: Place) { q.i < p.i || (q.i == p.i && q.k < p.k) }

  /** Exactly the places before p in the containers. */
  ghost predicate AllSooner(cs: seq<Container>, at: seq<Place>, p: Place) {
    forall q: Place :: q in at <==> IsPlace(cs, q) && Sooner(q, p)
  }

  lemma {:induction false} InsertPlace(cs: seq<Container>, at: seq<Place>, p: Place) returns (more: seq<Place>)
    requires Ordered(cs, at) && IsPlace(cs, p) && forall j :: 0 <= j < |at| ==> Sooner(at[j], p)
    ensures Ordered(cs, more) && forall q :: q in more <==> q in at || q == p
    ensures LinesAt(cs, more) == Insert(LinesAt(cs, at), LineAt(cs, p))
  {
    var n, ts := |at| - 1, LineAt(cs, p).ts;
    if at == [] || Leq(LineAt(cs, at[n]).ts, ts) {
      more := at + [p];
      forall j | 0 <= j < |at| ensures Precedes(cs, at[j], p) {
        PrecedesLeq(cs, at, j);
        LessTransitive(LineAt(cs, at[j]).ts, LineAt(cs, at[n]).ts, ts);
        LessAsymmetric(LineAt(cs, at[j]).ts, ts);
      }
      assert LinesAt(cs, more) == LinesAt(cs, at) + [LineAt(cs, p)];
    } else {
      var init := InsertPlace(cs, at[..n], p);
      more := init + [at[n]];
      assert at == at[..n] + [at[n]];
      assert LinesAt(cs, at[..n]) == LinesAt(cs, at)[..n];
      assert LinesAt(cs, more) == LinesAt(cs, init) + [LineAt(cs, at[n])];
      forall j | 0 <= j < |init| ensures Precedes(cs, init[j], at[n]) {
        assert init[j] in init;
      }
    }
  }

  lemma {:induction false} PrecedesLeq(cs: seq<Container>, at: seq<Place>, j: nat)
    requires j < |at| && Ordered(cs, at)
    ensures Leq(LineAt(cs, at[j]).ts, LineAt(cs, at[|at| - 1]).ts)
  {
    LessAsymmetric(LineAt(cs, at[j]).ts, LineAt(cs, at[|at| - 1]).ts);
  }

  /** The first k lines of container i, after all of the containers before it. */
  function UpTo(cs: seq<Container>, i: nat, k: nat): seq<Line>
    requires i < |cs| && k <= |cs[i].log|
  {
    Concat(Whole(cs)[..i]) + Tagged(cs[i].name, cs[i].log)[..k]
  }

  lemma {:induction false} OneMorePlace(cs: seq<Container>, at: seq<Place>, p: Place, more: seq<Place>)
    requires AllSooner(cs, at, p) && IsPlace(cs, p) && forall q :: q in more <==> q in at || q == p
    ensures AllSooner(cs, more, Place(p.i, p.k + 1))
  {
  }

  lemma {:induction false} UpToNext(cs: seq<Container>, p: Place)
    requires IsPlace(cs, p)
    ensures UpTo(cs, p.i, p.k + 1) == UpTo(cs, p.i, p.k) + [LineAt(cs, p)]
  {
    var lines := Tagged(cs[p.i].name, cs[p.i].log);
    assert lines[..p.k + 1] == lines[..p.k] + [lines[p.k]];
  }

  lemma {:induction false} OrderWithin(cs: seq<Container>, i: nat, k: nat, at: seq<Place>) returns (more: seq<Place>)
    requires i < |cs| && k <= |cs[i].log|
    requires Ordered(cs, at) && AllSooner(cs, at, Place(i, 0)) && LinesAt(cs, at) == Sorted(UpTo(cs, i, 0))
    ensures Ordered(cs, more) && AllSooner(cs, more, Place(i, k)) && LinesAt(cs, more) == Sorted(UpTo(cs, i, k))
  {
    if k == 0 {
      more := at;
    } else {
      var some := OrderWithin(cs, i, k - 1, at);
      var p := Place(i, k - 1);
      forall j | 0 <= j < |some| ensures Sooner(some[j], p) {
        assert some[j] in some;
      }
      more := InsertPlace(cs, some, p);
      OneMorePlace(cs, some, p, more);
      SortedSnoc(UpTo(cs, i, k - 1), LineAt(cs, p));
      UpToNext(cs, p);
    }
  }

  lemma {:induction false} UpToAll(cs: seq<Container>, i: nat)
    requires i < |cs|
    ensures UpTo(cs, i, 0) == Concat(Whole(cs)[..i])
    ensures UpTo(cs, i, |cs[i].log|) == Concat(Whole(cs)[..i + 1])
  {
    var lines := Tagged(cs[i].name, cs[i].log);
    ConcatSnoc(Whole(cs)[..i], lines);
    assert lines[..|lines|] == lines && Whole(cs)[..i + 1] == Whole(cs)[..i] + [lines];
  }

  /** Containers up to the i-th, all their lines. */
  lemma {:induction false} OrderOf(cs: seq<Container>, i: nat) returns (at: seq<Place>)
    requires i <= |cs|
    ensures Ordered(cs, at) && AllSooner(cs, at, Place(i, 0)) && LinesAt(cs, at) == Sorted(Concat(Whole(cs)[..i]))
  {
    if i == 0 {
      at := [];
    } else {
      var before := OrderOf(cs, i - 1);
      UpToAll(cs, i - 1);
      at := OrderWithin(cs, i - 1, |cs[i - 1].log|, before);
      WholeContainer(cs, at, i - 1);
    }
  }

  lemma {:induction false} WholeContainer(cs: seq<Container>, at: seq<Place>, i: nat)
    requires i < |cs| && AllSooner(cs, at, Place(i, |cs[i].log|))
    ensures AllSooner(cs, at, Place(i + 1, 0))
  {
  }

  ghost predicate CleanContainer(c: Container) {
    '\n' !in c.name && forall k :: 0 <= k < |c.log| ==> CleanLine(c.log[k])
  }

  lemma {:induction false} CleanAt(cs: seq<Container>, p: Place)
    requires IsPlace(cs, p) && CleanContainer(cs[p.i])
    ensures '\n' !in LineAt(cs, p).ts && '\n' !in LineAt(cs, p).text
  {
    assert CleanLine(cs[p.i].log[p.k]);
  }

  lemma {:induction false} AllShown(cs: seq<Container>, at: seq<Place>)
    requires forall j :: 0 <= j < |at| ==> IsPlace(cs, at[j])
    requires forall i :: 0 <= i < |cs| ==> CleanContainer(cs[i])
    ensures Shows(cs, at, Rendered(LinesAt(cs, at)))
  {
    var lines := LinesAt(cs, at);
    forall j | 0 <= j < |lines| ensures '\n' !in lines[j].ts && '\n' !in lines[j].text {
      CleanAt(cs, at[j]);
    }
    RenderedLines(lines);
    forall j | 0 <= j < |at| {
      Assoc(lines[j].ts + " ", "[" + cs[at[j].i].name + "] ", cs[at[j].i].log[at[j].k].text);
    }
  }

  lemma {:induction false} TailAt(cs: seq<Container>, at: seq<Place>, n: nat)
    requires forall j :: 0 <= j < |at| ==> IsPlace(cs, at[j])
    ensures LinesAt(cs, Tail(at, n)) == Tail(LinesAt(cs, at), n)
  {
  }

  lemma {:induction false} AllPlaces(cs: seq<Container>, at: seq<Place>)
    requires Ordered(cs, at) && AllSooner(cs, at, Place(|cs|, 0))
    ensures MergedOrder(cs, at)
  {
  }

  /** The page, from the containers to its text: what logsOf answers, for containers
    * whose logs are in time order, shows line by line the last n lines of all of them
    * together, oldest first, lines of one stamp in the order of the containers. */
  lemma {:induction false} PageText(cs: seq<Container>, n: nat, r: Result) returns (at: seq<Place>)
    requires forall i :: 0 <= i < |cs| ==> CleanContainer(cs[i]) && InOrder(cs[i].log)
    requires r == Ok(Rendered(Tail(Sorted(Concat(ReadOutputs(Asked(cs, n)))), n)))
    ensures MergedOrder(cs, at) && Shows(cs, if |at| <= n then at else at[|at| - n..], r.text)
  {
    PageShowsLatest(cs, n);
    at := OrderOf(cs, |cs|);
    assert Whole(cs)[..|cs|] == Whole(cs);
    AllPlaces(cs, at);
    TailAt(cs, at, n);
    AllShown(cs, Tail(at, n));
  }
}
