/** The generated lines load as the table the settings describe: nothing lands
  * in the wrong context or on the wrong extension. Each context is first shown to be
  * the flat form of its extensions, and loading a flat form to give those extensions
  * back; the file is then loaded context by context. */
module DialplanLoads {
  import opened Text
  import opened Pbx
  import opened Dialplan
  import opened Asterisk

  // ---- the table the settings describe ---------------------------------------

  function PhoneEntry(n: string): Entry {
    Entry(n, [Step("", Dial([Phone(n)], 25)), Step("", VoiceMail(n)), Step("", Hangup)])
  }

  function PhoneEntries(exts: seq<Extension>): seq<Entry> {
    if exts == [] then [] else PhoneEntries(exts[..|exts| - 1]) + [PhoneEntry(exts[|exts| - 1].number)]
  }

  const TO_RING := Goto(InContext("itp-ring", "s"))

  function FeatureEntries(): seq<Entry> {
    [ Entry("0", [Step("", TO_RING)]),
      Entry("*97", [Step("", VoiceMailMain(OwnBox)), Step("", Hangup)]),
      Entry("*98", [Step("", VoiceMailMain(NumberBox("0"))), Step("", Hangup)]),
      Entry("*43", [Step("", Answer), Step("", Playback("demo-echotest")), Step("", Echo), Step("", Hangup)]) ]
  }

  function TryMenuEntry(): Entry {
    Entry("*50", [Step("", Goto(InContext("itp-ivr", "s")))])
  }

  function RecorderEntry(number: string): Entry {
    Entry("*99", [
      Step("", GotoIf(EndpointIs(number), "ok")),
      Step("", Playback("ss-noservice")),
      Step("", Hangup),
      Step("ok", Answer),
      Step("", Wait(1)),
      Step("", Record(GREETING)),
      Step("", Wait(1)),
      Step("", Playback(GREETING)),
      Step("", Hangup)])
  }

  function GuardSteps(st: Settings): seq<Step> {
    if st.allowInternational then []
    else [Step("", GotoIf(DialedPrefix("00"), "blocked")), Step("", GotoIf(DialedPrefix("011"), "blocked"))]
  }

  function CallerIdSteps(st: Settings): seq<Step> {
    if st.trunkCallerId == "" then [] else [Step("", Set(CallerId(st.trunkCallerId)))]
  }

  function TrunkCallSteps(): seq<Step> {
    [Step("", Dial([OutsideLine], 60)), Step("", Hangup), Step("blocked", Playback("ss-noservice")), Step("", Hangup)]
  }

  function OutsideSteps(st: Settings): seq<Step> {
    [Step("", NoOp("outside call"))] + (GuardSteps(st) + CallerIdSteps(st) + TrunkCallSteps())
  }

  function ExtraEntries(exts: seq<Extension>, st: Settings, trunk: bool, ivr: Ivr): seq<Entry> {
    FeatureEntries()
    + (if HasMenu(exts, ivr) then [TryMenuEntry()] else [])
    + (if HasRecorder(ivr) then [RecorderEntry(ivr.recorder)] else [])
    + (if trunk then [Entry("_9X.", OutsideSteps(st))] else [])
  }

  function InternalEntries(exts: seq<Extension>, st: Settings, trunk: bool, ivr: Ivr): seq<Entry> {
    PhoneEntries(exts) + ExtraEntries(exts, st, trunk, ivr)
  }

  function MainEntries(menu: bool): seq<Entry> {
    [Entry("s", [Step("", NoOp("main number")),
        Step("", Goto(InContext(if menu then "itp-ivr" else "itp-ring", "s")))])]
  }

  function RingSteps(members: seq<string>): seq<Step> {
    [Step("", NoOp("ring the main group"))]
    + (if members == [] then [] else [Step("", Dial(Phones(members), 30))])
    + [Step("", VoiceMail("0")), Step("", Hangup)]
  }

  function KeySteps(exts: seq<Extension>, o: IvrOption): seq<Step> {
    var live := Live(exts, o.targets);
    [ Step("", NoOp("menu key " + o.digit)),
      Step("", Dial(Phones(live), 25)),
      Step("", VoiceMail(Mailbox(live))),
      Step("", Hangup) ]
  }

  function KeyEntries(exts: seq<Extension>, keys: seq<IvrOption>): seq<Entry> {
    if keys == [] then []
    else
      var o := keys[|keys| - 1];
      KeyEntries(exts, keys[..|keys| - 1]) + [Entry(o.digit, KeySteps(exts, o))]
  }

  function GreetEntry(): Entry {
    Entry("s", [Step("", Answer), Step("", Set(Tries(0))), Step("menu", Background(GREETING)), Step("", WaitExten(6))])
  }

  function MenuEndEntries(): seq<Entry> {
    [ Entry("0", [Step("", TO_RING)]),
      Entry("t", [Step("", Set(TriesUp)), Step("", GotoIf(TriesReach(2), "ring")),
                  Step("", Goto(AtMark("s", "menu"))), Step("ring", TO_RING)]),
      Entry("i", [Step("", Playback("pbx-invalid")), Step("", Goto(Start("t")))]) ]
  }

  function MenuEntries(exts: seq<Extension>, ivr: Ivr): seq<Entry> {
    [GreetEntry()] + KeyEntries(exts, Keys(exts, ivr.options)) + MenuEndEntries()
  }

  function IncomingEntries(): seq<Entry> {
    [ Entry("s", [Step("", Goto(InContext("itp-main", "s")))]),
      Entry("_[+0-9].", [Step("", Goto(InContext("itp-main", "s")))]) ]
  }

  function DialplanOf(exts: seq<Extension>, st: Settings, trunk: bool, ivr: Ivr): Plan {
    var menu := HasMenu(exts, ivr);
    var base: Plan := map["itp-internal" := InternalEntries(exts, st, trunk, ivr)]
                         ["itp-main" := MainEntries(menu)]
                         ["itp-ring" := [Entry("s", RingSteps(Members(exts)))]];
    (if menu then base["itp-ivr" := MenuEntries(exts, ivr)] else base)["itp-incoming" := IncomingEntries()]
  }

  // ---- each context's lines are its entries ----------------------------------

  lemma {:induction false} PhoneFlat(exts: seq<Extension>)
    ensures AllPhoneLines(exts) == Flatten(PhoneEntries(exts))
    ensures Good(PhoneEntries(exts))
  {
    if exts != [] {
      var init, n := exts[..|exts| - 1], exts[|exts| - 1].number;
      PhoneFlat(init);
      assert PhoneLines(n) == EntryLines(PhoneEntry(n));
      FlattenOne(PhoneEntry(n));
      FlattenAppend(PhoneEntries(init), [PhoneEntry(n)]);
    }
  }

  lemma {:induction false} FeatureFlat()
    ensures FeatureLines() == Flatten(FeatureEntries())
    ensures Good(FeatureEntries())
  {
    var es := FeatureEntries();
    FlattenFourEntries(es[0], es[1], es[2], es[3]);
    assert es == [es[0], es[1], es[2], es[3]];
    FeatureSum();
  }

  lemma {:induction false} FlattenFourEntries(a: Entry, b: Entry, c: Entry, d: Entry)
    ensures Flatten([a, b, c, d]) == EntryLines(a) + (EntryLines(b) + (EntryLines(c) + EntryLines(d)))
  {
    FlattenOne(d);
    FlattenCons(c, [d]);
    assert [c] + [d] == [c, d] && [b] + [c, d] == [b, c, d] && [a] + [b, c, d] == [a, b, c, d];
    FlattenCons(b, [c, d]);
    FlattenCons(a, [b, c, d]);
  }

  lemma {:induction false} FeatureSum()
    ensures (var es := FeatureEntries();
             FeatureLines() == EntryLines(es[0]) + (EntryLines(es[1]) + (EntryLines(es[2]) + EntryLines(es[3]))))
  {
  }

  lemma {:induction false} RecorderFlat(number: string)
    ensures RecorderLines(number) == EntryLines(RecorderEntry(number))
  {
  }

  /** Steps of four parts, as lines of four parts. */
  lemma {:induction false} SameLinesAppend(a: seq<Step>, b: seq<Step>)
    ensures SameLines(a + b) == SameLines(a) + SameLines(b)
  {
  }

  lemma {:induction false} OutsidePartsFlat(st: Settings)
    ensures SameLines(GuardSteps(st)) == GuardLines(st)
    ensures SameLines(CallerIdSteps(st)) == CallerIdLines(st)
    ensures SameLines(TrunkCallSteps()) == TrunkCallLines()
  {
  }

  lemma {:induction false} OutsideFlat(st: Settings)
    ensures OutsideLines(st) == EntryLines(Entry("_9X.", OutsideSteps(st)))
    ensures OutsideSteps(st) != [] && OutsideSteps(st)[0].mark == ""
  {
    var rest := GuardSteps(st) + CallerIdSteps(st) + TrunkCallSteps();
    assert OutsideSteps(st)[1..] == rest;
    OutsidePartsFlat(st);
    SameLinesAppend(GuardSteps(st) + CallerIdSteps(st), TrunkCallSteps());
    SameLinesAppend(GuardSteps(st), CallerIdSteps(st));
  }

  lemma {:induction false} RingFlat(members: seq<string>)
    ensures RingLines(members) == [Context("itp-ring")] + Flatten([Entry("s", RingSteps(members))]) + [Blank]
    ensures RingSteps(members) != [] && RingSteps(members)[0].mark == ""
  {
    var steps := RingSteps(members);
    FlattenOne(Entry("s", steps));
    var end := [Same("", VoiceMail("0")), Same("", Hangup)];
    if members == [] {
      assert SameLines(steps[1..]) == end;
    } else {
      assert SameLines(steps[1..]) == [Same("", Dial(Phones(members), 30))] + end;
    }
  }

  lemma {:induction false} FlattenFour(b: seq<Entry>, c: seq<Entry>, d: seq<Entry>, e: seq<Entry>)
    ensures Flatten(b + c + d + e) == Flatten(b) + Flatten(c) + Flatten(d) + Flatten(e)
  {
    FlattenAppend(b, c);
    FlattenAppend(b + c, d);
    FlattenAppend(b + c + d, e);
  }

  lemma {:induction false} GoodAppend(a: seq<Entry>, b: seq<Entry>)
    requires Good(a) && Good(b)
    ensures Good(a + b)
  {
  }

  lemma {:induction false} TryFlat()
    ensures Flatten([TryMenuEntry()]) == [Exten("*50", Goto(InContext("itp-ivr", "s")))]
    ensures Good([TryMenuEntry()])
  {
    FlattenOne(TryMenuEntry());
    assert EntryLines(TryMenuEntry()) == [Exten("*50", Goto(InContext("itp-ivr", "s")))];
  }

  lemma {:induction false} RecorderGood(number: string)
    ensures Flatten([RecorderEntry(number)]) == RecorderLines(number)
    ensures Good([RecorderEntry(number)])
  {
    FlattenOne(RecorderEntry(number));
    RecorderFlat(number);
  }

  lemma {:induction false} OutsideGood(st: Settings)
    ensures Flatten([Entry("_9X.", OutsideSteps(st))]) == OutsideLines(st)
    ensures Good([Entry("_9X.", OutsideSteps(st))])
  {
    FlattenOne(Entry("_9X.", OutsideSteps(st)));
    OutsideFlat(st);
  }

  lemma {:induction false} GoodFive(a: seq<Entry>, b: seq<Entry>, c: seq<Entry>, d: seq<Entry>, e: seq<Entry>)
    requires Good(a) && Good(b) && Good(c) && Good(d) && Good(e)
    ensures Good(a + (b + c + d + e))
  {
    GoodAppend(b, c);
    GoodAppend(b + c, d);
    GoodAppend(b + c + d, e);
    GoodAppend(a, b + c + d + e);
  }

  lemma {:induction false} InternalFlat(exts: seq<Extension>, st: Settings, trunk: bool, ivr: Ivr)
    ensures InternalLines(exts, st, trunk, ivr)
         == [Context("itp-internal")] + Flatten(InternalEntries(exts, st, trunk, ivr)) + [Blank]
    ensures Good(InternalEntries(exts, st, trunk, ivr))
  {
    var c := if HasMenu(exts, ivr) then [TryMenuEntry()] else [];
    var d := if HasRecorder(ivr) then [RecorderEntry(ivr.recorder)] else [];
    var e := if trunk then [Entry("_9X.", OutsideSteps(st))] else [];
    var fc := if HasMenu(exts, ivr) then [Exten("*50", Goto(InContext("itp-ivr", "s")))] else [];
    var fd := if HasRecorder(ivr) then RecorderLines(ivr.recorder) else [];
    var fe := if trunk then OutsideLines(st) else [];
    TryFlat();
    RecorderGood(ivr.recorder);
    OutsideGood(st);
    PhoneFlat(exts);
    FeatureFlat();
    FlattenFour(FeatureEntries(), c, d, e);
    FlattenAppend(PhoneEntries(exts), FeatureEntries() + c + d + e);
    GoodFive(PhoneEntries(exts), FeatureEntries(), c, d, e);
    RegroupSix([Context("itp-internal")], AllPhoneLines(exts), FeatureLines(), fc, fd, fe);
    assert InternalLines(exts, st, trunk, ivr) == [Context("itp-internal")] + AllPhoneLines(exts) + FeatureLines() + fc
      + fd + fe + [Blank];
  }

  lemma {:induction false} RegroupSix<T>(a: seq<T>, b: seq<T>, c: seq<T>, d: seq<T>, e: seq<T>, f: seq<T>)
    ensures a + b + c + d + e + f == a + (b + (c + d + e + f))
  {
  }

  lemma {:induction false} KeysFlat(exts: seq<Extension>, keys: seq<IvrOption>)
    ensures Code(AllKeyLines(exts, keys)) == Flatten(KeyEntries(exts, keys))
    ensures Good(KeyEntries(exts, keys))
  {
    if keys != [] {
      var init, o := keys[..|keys| - 1], keys[|keys| - 1];
      KeysFlat(exts, init);
      CodeAppend(AllKeyLines(exts, init), KeyLines(exts, o));
      KeyFlat(exts, o);
      var e := Entry(o.digit, KeySteps(exts, o));
      FlattenOne(e);
      FlattenAppend(KeyEntries(exts, init), [e]);
      GoodAppend(KeyEntries(exts, init), [e]);
    }
  }

  lemma {:induction false} KeyFlat(exts: seq<Extension>, o: IvrOption)
    ensures Code(KeyLines(exts, o)) == EntryLines(Entry(o.digit, KeySteps(exts, o)))
    ensures Good([Entry(o.digit, KeySteps(exts, o))])
  {
    var lines := KeyLines(exts, o);
    assert lines == [lines[0]] + lines[1..];
    CodeAppend([lines[0]], lines[1..]);
    assert [lines[0]][..0] == [];
    CodeAll(lines[1..]);
  }

  lemma {:induction false} MenuEndFlat()
    ensures Flatten(MenuEndEntries()) ==
      [ Exten("0", TO_RING),
        Exten("t", Set(TriesUp)),
        Same("", GotoIf(TriesReach(2), "ring")),
        Same("", Goto(AtMark("s", "menu"))),
        Same("ring", TO_RING),
        Exten("i", Playback("pbx-invalid")),
        Same("", Goto(Start("t"))) ]
    ensures Good(MenuEndEntries())
  {
    var es := MenuEndEntries();
    assert es[1..] == [es[1]] + [es[2]];
    assert es == [es[0]] + es[1..];
    FlattenOne(es[2]);
    FlattenCons(es[1], [es[2]]);
    FlattenCons(es[0], es[1..]);
  }

  lemma {:induction false} CodeOfParts(x: seq<Line>, k: seq<Line>, y: seq<Line>)
    requires forall i :: 0 <= i < |x| ==> IsCode(x[i])
    requires forall i :: 0 <= i < |y| ==> IsCode(y[i])
    ensures Code(x + k + (y + [Blank])) == x + Code(k) + y
  {
    CodeAppend(x + k, y + [Blank]);
    CodeAppend(x, k);
    CodeAll(x);
    CodeBlank(y);
  }

  lemma {:induction false} CodeOfThree(ctx: Line, keyLines: seq<Line>, a: seq<Entry>, b: seq<Entry>, c: seq<Entry>)
    requires IsCode(ctx) && Code(keyLines) == Flatten(b)
    ensures Code([ctx] + Flatten(a) + keyLines + (Flatten(c) + [Blank])) == [ctx] + Flatten(a + b + c)
  {
    var fa, fb, fc := Flatten(a), Flatten(b), Flatten(c);
    FlattenNoContext(a);
    FlattenNoContext(c);
    CodeOfParts([ctx] + fa, keyLines, fc);
    assert Flatten(a + b + c) == fa + fb + fc by {
      FlattenAppend(a, b);
      FlattenAppend(a + b, c);
    }
    Regroup([ctx], fa, fb, fc);
  }

  lemma {:induction false} Regroup<T>(a: seq<T>, b: seq<T>, c: seq<T>, d: seq<T>)
    ensures a + b + c + d == a + (b + c + d)
  {
  }

  lemma {:induction false} MenuFlat(exts: seq<Extension>, ivr: Ivr)
    requires HasMenu(exts, ivr)
    ensures Code(MenuLines(exts, ivr)) == [Context("itp-ivr")] + Flatten(MenuEntries(exts, ivr))
    ensures Good(MenuEntries(exts, ivr))
  {
    var keys := Keys(exts, ivr.options);
    KeysFlat(exts, keys);
    MenuEndFlat();
    FlattenOne(GreetEntry());
    CodeOfThree(Context("itp-ivr"), AllKeyLines(exts, keys), [GreetEntry()], KeyEntries(exts, keys), MenuEndEntries());
    MenuShape(exts, ivr);
    GoodAppend([GreetEntry()], KeyEntries(exts, keys));
    GoodAppend([GreetEntry()] + KeyEntries(exts, keys), MenuEndEntries());
  }

  lemma {:induction false} MenuShape(exts: seq<Extension>, ivr: Ivr)
    requires HasMenu(exts, ivr)
    ensures MenuLines(exts, ivr) == [Context("itp-ivr")] + Flatten([GreetEntry()])
                                    + AllKeyLines(exts, Keys(exts, ivr.options)) + (Flatten(MenuEndEntries()) + [Blank])
  {
    MenuEndFlat();
    FlattenOne(GreetEntry());
    assert [Context("itp-ivr")] + EntryLines(GreetEntry())
        == [ Context("itp-ivr"), Exten("s", Answer), Same("", Set(Tries(0))),
             Same("menu", Background(GREETING)), Same("", WaitExten(6)) ];
  }

  lemma {:induction false} CodeBlank(lines: seq<Line>)
    requires forall i :: 0 <= i < |lines| ==> IsCode(lines[i])
    ensures Code(lines + [Blank]) == lines
  {
    CodeAll(lines);
    assert (lines + [Blank])[..|lines|] == lines;
  }

  // ---- the whole file --------------------------------------------------------

  /** A context and a blank line, as one more row of the table. */
  lemma {:induction false} LoadBlock(l: Loaded, name: string, es: seq<Entry>)
    requires name !in l.plan && Good(es)
    ensures LoadFrom(l, [Context(name)] + Flatten(es) + [Blank]) == Loaded(l.plan[name := es], name)
  {
    LoadContext(l, name, es);
    LoadAppend(l, [Context(name)] + Flatten(es), [Blank]);
    LoadOne(Loaded(l.plan[name := es], name), Blank);
  }

  lemma {:induction false} MainFlat(menu: bool)
    ensures MainLines(menu) == [Context("itp-main")] + Flatten(MainEntries(menu)) + [Blank]
    ensures Good(MainEntries(menu))
  {
    FlattenOne(MainEntries(menu)[0]);
  }

  lemma {:induction false} IncomingFlat()
    ensures IncomingLines() == [Context("itp-incoming")] + Flatten(IncomingEntries())
    ensures Good(IncomingEntries())
  {
    var es := IncomingEntries();
    assert es == [es[0]] + [es[1]];
    FlattenOne(es[1]);
    FlattenCons(es[0], [es[1]]);
  }

  lemma {:induction false} ContextsDiffer()
    ensures "itp-internal" != "itp-main" && "itp-internal" != "itp-ring" && "itp-internal" != "itp-ivr"
         && "itp-internal" != "itp-incoming" && "itp-main" != "itp-ring" && "itp-main" != "itp-ivr"
         && "itp-main" != "itp-incoming" && "itp-ring" != "itp-ivr" && "itp-ring" != "itp-incoming"
         && "itp-ivr" != "itp-incoming"
  {
  }

  lemma {:induction false} LoadAppend5(l: Loaded, h: seq<Line>, a: seq<Line>, b: seq<Line>, c: seq<Line>, d: seq<Line>,
          e: seq<Line>)
    ensures LoadFrom(l, h + a + b + c + d + e)
         == LoadFrom(LoadFrom(LoadFrom(LoadFrom(LoadFrom(LoadFrom(l, h), a), b), c), d), e)
  {
    LoadAppend(l, h + a + b + c + d, e);
    LoadAppend(l, h + a + b + c, d);
    LoadAppend(l, h + a + b, c);
    LoadAppend(l, h + a, b);
    LoadAppend(l, h, a);
  }

  lemma {:induction false} LoadInternal(l: Loaded, exts: seq<Extension>, st: Settings, trunk: bool, ivr: Ivr)
    requires "itp-internal" !in l.plan
    ensures LoadFrom(l, InternalLines(exts, st, trunk, ivr))
         == Loaded(l.plan["itp-internal" := InternalEntries(exts, st, trunk, ivr)], "itp-internal")
  {
    InternalFlat(exts, st, trunk, ivr);
    LoadBlock(l, "itp-internal", InternalEntries(exts, st, trunk, ivr));
  }

  lemma {:induction false} LoadMain(l: Loaded, menu: bool)
    requires "itp-main" !in l.plan
    ensures LoadFrom(l, MainLines(menu)) == Loaded(l.plan["itp-main" := MainEntries(menu)], "itp-main")
  {
    MainFlat(menu);
    LoadBlock(l, "itp-main", MainEntries(menu));
  }

  lemma {:induction false} LoadRing(l: Loaded, members: seq<string>)
    requires "itp-ring" !in l.plan
    ensures LoadFrom(l, RingLines(members))
            == Loaded(l.plan["itp-ring" := [Entry("s", RingSteps(members))]], "itp-ring")
  {
    RingFlat(members);
    LoadBlock(l, "itp-ring", [Entry("s", RingSteps(members))]);
  }

  lemma {:induction false} LoadMenu(l: Loaded, exts: seq<Extension>, ivr: Ivr)
    requires "itp-ivr" !in l.plan
    ensures LoadFrom(l, MenuLines(exts, ivr))
         == if HasMenu(exts, ivr) then Loaded(l.plan["itp-ivr" := MenuEntries(exts, ivr)], "itp-ivr") else l
  {
    if HasMenu(exts, ivr) {
      MenuFlat(exts, ivr);
      LoadCode(l, MenuLines(exts, ivr));
      LoadContext(l, "itp-ivr", MenuEntries(exts, ivr));
    }
  }

  lemma {:induction false} LoadIncoming(l: Loaded)
    requires "itp-incoming" !in l.plan
    ensures LoadFrom(l, IncomingLines()) == Loaded(l.plan["itp-incoming" := IncomingEntries()], "itp-incoming")
  {
    IncomingFlat();
    LoadContext(l, "itp-incoming", IncomingEntries());
  }

  /** The generated extensions.conf loads as exactly the table the settings describe. */
  lemma {:induction false} LoadsAsDescribed(exts: seq<Extension>, st: Settings, trunk: bool, ivr: Ivr)
    ensures Load(DialplanLines(exts, st, trunk, ivr)) == DialplanOf(exts, st, trunk, ivr)
  {
    ContextsDiffer();
    var menu := HasMenu(exts, ivr);
    var l0 := Loaded(map[], "");
    LoadAppend5(l0, HEADER, InternalLines(exts, st, trunk, ivr), MainLines(menu), RingLines(Members(exts)),
                MenuLines(exts, ivr), IncomingLines());
    HeaderLoads(l0);
    LoadInternal(l0, exts, st, trunk, ivr);
    var l1 := LoadFrom(l0, InternalLines(exts, st, trunk, ivr));
    LoadMain(l1, menu);
    var l2 := LoadFrom(l1, MainLines(menu));
    LoadRing(l2, Members(exts));
    var l3 := LoadFrom(l2, RingLines(Members(exts)));
    LoadMenu(l3, exts, ivr);
    LoadIncoming(LoadFrom(l3, MenuLines(exts, ivr)));
  }

  lemma {:induction false} HeaderLoads(l: Loaded)
    requires l == Loaded(map[], "")
    ensures LoadFrom(l, HEADER) == l
  {
    assert HEADER[..1] == [HEADER[0]];
    LoadOne(l, HEADER[0]);
  }
}
