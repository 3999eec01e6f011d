/** What Asterisk makes of the dial plan: the table it loads from the lines, and
  * what loading a piece at a time adds to it. A line starts an extension, goes on with
  * the last one, or starts a context; lines before the first context and comments are
  * passed over. */
module Asterisk {
  import opened Text
  import opened Dialplan

  // ---- loading ---------------------------------------------------------------

  /** One priority of an extension, with its label ("" for none). */
  datatype Step = Step(mark: string, app: App)
  datatype Entry = Entry(pattern: string, steps: seq<Step>)
  type Plan = map<string, seq<Entry>>

  /** The table so far and the context new lines go to. */
  datatype Loaded = Loaded(plan: Plan, at: string)

  /** An exten or same line inside a context. */
  function AddEntryLine(es: seq<Entry>, line: Line): seq<Entry> {
    match line
    case Exten(pattern, app) => es + [Entry(pattern, [Step("", app)])]
    case Same(mark, app) =>
      if es == [] then es else es[..|es| - 1] + [AddStep(es[|es| - 1], Step(mark, app))]
    case _ => es
  }

  function AddStep(e: Entry, step: Step): Entry { Entry(e.pattern, e.steps + [step]) }

  function AddLine(l: Loaded, line: Line): Loaded {
    if line.Context? then Loaded(if line.name in l.plan then l.plan else l.plan[line.name := []], line.name)
    else if l.at in l.plan then l.(plan := l.plan[l.at := AddEntryLine(l.plan[l.at], line)])
    else l
  }

  function LoadFrom(l: Loaded, lines: seq<Line>): Loaded {
    if lines == [] then l else AddLine(LoadFrom(l, lines[..|lines| - 1]), lines[|lines| - 1])
  }

  function Load(lines: seq<Line>): Plan {
    LoadFrom(Loaded(map[], ""), lines).plan
  }

  lemma {:induction false} LoadAppend(l: Loaded, a: seq<Line>, b: seq<Line>)
    ensures LoadFrom(l, a + b) == LoadFrom(LoadFrom(l, a), b)
  {
    if b == [] {
      assert a + b == a;
    } else {
      LoadAppend(l, a, b[..|b| - 1]);
      assert (a + b)[..|a + b| - 1] == a + b[..|b| - 1];
    }
  }

  lemma {:induction false} LoadOne(l: Loaded, line: Line)
    ensures LoadFrom(l, [line]) == AddLine(l, line)
  {
    assert [line][..0] == [];
  }

  // ---- lines that carry meaning ----------------------------------------------

  predicate IsCode(line: Line) { !line.Blank? && !line.Comment? }

  function Code(lines: seq<Line>): seq<Line> {
    if lines == [] then []
    else Code(lines[..|lines| - 1]) + if IsCode(lines[|lines| - 1]) then [lines[|lines| - 1]] else []
  }

  lemma {:induction false} CodeAppend(a: seq<Line>, b: seq<Line>)
    ensures Code(a + b) == Code(a) + Code(b)
  {
    if b == [] {
      assert a + b == a;
    } else {
      CodeAppend(a, b[..|b| - 1]);
      assert (a + b)[..|a + b| - 1] == a + b[..|b| - 1];
    }
  }

  lemma {:induction false} CodeAll(lines: seq<Line>)
    requires forall i :: 0 <= i < |lines| ==> IsCode(lines[i])
    ensures Code(lines) == lines
  {
    if lines != [] {
      CodeAll(lines[..|lines| - 1]);
    }
  }

  /** Comments and blank lines load as nothing. */
  lemma {:induction false} LoadCode(l: Loaded, lines: seq<Line>)
    ensures LoadFrom(l, Code(lines)) == LoadFrom(l, lines)
  {
    if lines != [] {
      var init, last := lines[..|lines| - 1], lines[|lines| - 1];
      LoadCode(l, init);
      if IsCode(last) {
        assert (Code(init) + [last])[..|Code(init)|] == Code(init);
      } else {
        assert Code(init) + [] == Code(init);
      }
    }
  }

  // ---- writing a table back as lines -----------------------------------------

  function SameLines(steps: seq<Step>): (r: seq<Line>)
    ensures |r| == |steps|
    ensures forall i :: 0 <= i < |r| ==> r[i] == Same(steps[i].mark, steps[i].app)
  {
    if steps == [] then []
    else SameLines(steps[..|steps| - 1]) + [Same(steps[|steps| - 1].mark, steps[|steps| - 1].app)]
  }

  ghost predicate Good(es: seq<Entry>) {
    forall i :: 0 <= i < |es| ==> es[i].steps != [] && es[i].steps[0].mark == ""
  }

  function EntryLines(e: Entry): seq<Line> {
    if e.steps == [] then [] else [Exten(e.pattern, e.steps[0].app)] + SameLines(e.steps[1..])
  }

  function Flatten(es: seq<Entry>): seq<Line> {
    if es == [] then [] else Flatten(es[..|es| - 1]) + EntryLines(es[|es| - 1])
  }

  lemma {:induction false} FlattenOne(e: Entry)
    ensures Flatten([e]) == EntryLines(e)
  {
    assert [e][..0] == [];
  }

  /** Cons form of Flatten, for tables written out. */
  lemma {:induction false} FlattenCons(e: Entry, es: seq<Entry>)
    ensures Flatten([e] + es) == EntryLines(e) + Flatten(es)
  {
    FlattenOne(e);
    FlattenAppend([e], es);
  }

  lemma {:induction false} FlattenAppend(a: seq<Entry>, b: seq<Entry>)
    ensures Flatten(a + b) == Flatten(a) + Flatten(b)
  {
    if b == [] {
      assert a + b == a;
    } else {
      var init, last := b[..|b| - 1], b[|b| - 1];
      FlattenAppend(a, init);
      assert (a + b)[..|a + b| - 1] == a + init && (a + b)[|a + b| - 1] == last;
      Assoc(Flatten(a), Flatten(init), EntryLines(last));
    }
  }

  /** Loading lines inside one context. */
  function AddEntryLines(es: seq<Entry>, lines: seq<Line>): seq<Entry> {
    if lines == [] then es else AddEntryLine(AddEntryLines(es, lines[..|lines| - 1]), lines[|lines| - 1])
  }

  lemma {:induction false} AddEntryLinesAppend(es: seq<Entry>, a: seq<Line>, b: seq<Line>)
    ensures AddEntryLines(es, a + b) == AddEntryLines(AddEntryLines(es, a), b)
  {
    if b == [] {
      assert a + b == a;
    } else {
      AddEntryLinesAppend(es, a, b[..|b| - 1]);
      assert (a + b)[..|a + b| - 1] == a + b[..|b| - 1];
    }
  }

  /** Lines without a context header only touch the current context. */
  lemma {:induction false} LoadInContext(l: Loaded, lines: seq<Line>)
    requires l.at in l.plan
    requires forall i :: 0 <= i < |lines| ==> !lines[i].Context?
    ensures LoadFrom(l, lines) == l.(plan := l.plan[l.at := AddEntryLines(l.plan[l.at], lines)])
  {
    if lines != [] {
      LoadInContext(l, lines[..|lines| - 1]);
    }
  }

  /** Further priorities join the last extension. */
  lemma {:induction false} AddSames(es: seq<Entry>, e: Entry, steps: seq<Step>)
    ensures AddEntryLines(es + [e], SameLines(steps)) == es + [Entry(e.pattern, e.steps + steps)]
  {
    if steps == [] {
      assert e.steps + steps == e.steps;
    } else {
      var n := |steps| - 1;
      AddSames(es, e, steps[..n]);
      var r := SameLines(steps);
      assert r[..n] == SameLines(steps[..n]);
      var e' := Entry(e.pattern, e.steps + steps[..n]);
      assert (es + [e'])[..|es|] == es;
      assert e.steps + steps[..n] + [steps[n]] == e.steps + steps;
    }
  }

  /** One extension's lines load as one more entry. */
  lemma {:induction false} AddEntry(es: seq<Entry>, e: Entry)
    requires Good([e])
    ensures AddEntryLines(es, EntryLines(e)) == es + [e]
  {
    assert [e][0] == e;
    var first := Exten(e.pattern, e.steps[0].app);
    AddEntryLinesAppend(es, [first], SameLines(e.steps[1..]));
    assert [first][..0] == [];
    var e0 := Entry(e.pattern, [Step("", e.steps[0].app)]);
    assert AddEntryLines(es, [first]) == es + [e0];
    AddSames(es, e0, e.steps[1..]);
    assert e0.steps + e.steps[1..] == e.steps;
  }

  lemma {:induction false} AddOneMore(es: seq<Entry>, lines: seq<Line>, e: Entry)
    requires Good([e])
    ensures AddEntryLines(es, lines + EntryLines(e)) == AddEntryLines(es, lines) + [e]
  {
    AddEntryLinesAppend(es, lines, EntryLines(e));
    AddEntry(AddEntryLines(es, lines), e);
  }

  /** A context's lines load as the entries they were written from. */

  lemma {:induction false} AddFlatten(es: seq<Entry>, more: seq<Entry>)
    requires Good(more)
    ensures AddEntryLines(es, Flatten(more)) == es + more
  {
    if more == [] {
      assert es + more == es;
    } else {
      var n := |more| - 1;
      var init, last := more[..n], more[n];
      assert more == init + [last];
      assert Good(init) && Good([last]);
      AddFlatten(es, init);
      assert Flatten(more) == Flatten(init) + EntryLines(last);
      AddOneMore(es, Flatten(init), last);
      Assoc(es, init, [last]);
    }
  }

  lemma {:induction false} FlattenNoContext(es: seq<Entry>)
    ensures forall i :: 0 <= i < |Flatten(es)| ==> !Flatten(es)[i].Context? && IsCode(Flatten(es)[i])
  {
    if es != [] {
      FlattenNoContext(es[..|es| - 1]);
    }
  }

  /** A new context loads as a new row of the table. */
  lemma {:induction false} LoadContext(l: Loaded, name: string, es: seq<Entry>)
    requires name !in l.plan
    requires Good(es)
    ensures LoadFrom(l, [Context(name)] + Flatten(es)) == Loaded(l.plan[name := es], name)
  {
    LoadAppend(l, [Context(name)], Flatten(es));
    LoadOne(l, Context(name));
    FlattenNoContext(es);
    LoadInContext(Loaded(l.plan[name := []], name), Flatten(es));
    AddFlatten([], es);
    assert [] + es == es;
  }
}
