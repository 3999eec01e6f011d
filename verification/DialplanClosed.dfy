/** The generated files fit together: nothing points at what is not written, and
  * no dialed string is ambiguous. */
module DialplanClosed {
  import opened Options
  import opened Text
  import opened Pbx
  import opened Dialplan
  import opened Asterisk
  import opened DialplanLoads
  import opened Calls
  import opened DialplanMeaning
  import opened PhoneFiles

  // ---- references ------------------------------------------------------------

  /** The endpoints pjsip.conf defines. */
  function EndpointNames(o: Office): seq<string> {
    EndpointsIn(Endpoints("", [], []), PjsipLines(o.exts, o.st, HasTrunk(o.st))).names
  }

  /** The mailboxes voicemail.conf defines in the mailbox context that the dial plan's
    * VoiceMail and VoiceMailMain lines name. */
  function Boxes(o: Office): seq<string> { BoxesIn("default", VoicemailLines(o.exts)) }

  /** What there is to refer to. */
  datatype Names = Names(plan: Plan, endpoints: seq<string>, boxes: seq<string>)

  function NamesOf(o: Office): Names { Names(PlanFor(o), EndpointNames(o), Boxes(o)) }

  predicate DestExists(t: Names, d: Dest) {
    (if d.Phone? then d.number else TRUNK) in t.endpoints
  }

  /** Every name one application uses is there. */
  predicate Resolves(t: Names, ctx: string, steps: seq<Step>, app: App) {
    match app
    case Goto(InContext(c, e)) => Find(t.plan, c, e).Some?
    case Goto(AtMark(e, mark)) =>
      var found := Find(t.plan, ctx, e);
      found.Some? && MarkIndex(found.value, mark) < |found.value|
    case Goto(Start(e)) => Find(t.plan, ctx, e).Some?
    case GotoIf(_, mark) => MarkIndex(steps, mark) < |steps|
    case Dial(dests, _) => dests != [] && forall i :: 0 <= i < |dests| ==> DestExists(t, dests[i])
    case VoiceMail(n) => n in t.boxes
    case VoiceMailMain(box) => box.NumberBox? ==> box.number in t.boxes
    case _ => true
  }

  ghost predicate EntryResolves(t: Names, ctx: string, e: Entry) {
    forall i :: 0 <= i < |e.steps| ==> Resolves(t, ctx, e.steps, e.steps[i].app)
  }

  ghost predicate AllResolve(t: Names, ctx: string, es: seq<Entry>) {
    forall i :: 0 <= i < |es| ==> EntryResolves(t, ctx, es[i])
  }

  /** The facts about an office's names that the steps rely on. */
  ghost predicate Covers(t: Names, o: Office) {
    && (forall n :: IsNumberOf(o.exts, n) ==> n in t.endpoints && n in t.boxes)
    && (HasTrunk(o.st) ==> TRUNK in t.endpoints)
    && "0" in t.boxes
  }

  lemma {:induction false} OfficeCovers(o: Office)
    requires ValidExtensions(o.exts)
    ensures Covers(NamesOf(o), o)
  {
    NamesAre(o);
    forall n | IsNumberOf(o.exts, n) ensures n in EndpointNames(o) && n in Boxes(o) {
      PhoneExists(o, n);
    }
    if HasTrunk(o.st) {
      assert EndpointNames(o)[|o.exts|] == TRUNK;
    }
  }

  lemma {:induction false} NamesAre(o: Office)
    requires ValidExtensions(o.exts)
    ensures EndpointNames(o) == Numbers(o.exts) + if HasTrunk(o.st) then [TRUNK] else []
    ensures Boxes(o) == [ZERO] + Numbers(o.exts)
    ensures "0" in Boxes(o)
  {
    EndpointsAreThePhones(o.exts, o.st, HasTrunk(o.st));
    BoxesAreThePhones(o.exts, "default");
    assert Boxes(o)[0] == "0";
  }

  lemma {:induction false} PhoneExists(o: Office, n: string)
    requires ValidExtensions(o.exts) && IsNumberOf(o.exts, n)
    ensures n in EndpointNames(o) && n in Boxes(o)
  {
    NamesAre(o);
    var i :| 0 <= i < |o.exts| && o.exts[i].number == n;
    assert Numbers(o.exts)[i] == n;
    assert EndpointNames(o)[i] == n && Boxes(o)[i + 1] == n;
  }

  lemma {:induction false} LiveExist(exts: seq<Extension>, targets: seq<string>)
    ensures forall i :: 0 <= i < |Live(exts, targets)| ==> IsNumberOf(exts, Live(exts, targets)[i])
  {
    if targets != [] {
      LiveExist(exts, targets[..|targets| - 1]);
    }
  }

  lemma {:induction false} MembersExist(exts: seq<Extension>)
    ensures forall i :: 0 <= i < |Members(exts)| ==> IsNumberOf(exts, Members(exts)[i])
  {
    if exts != [] {
      var init := exts[..|exts| - 1];
      MembersExist(init);
      forall i | 0 <= i < |Members(init)| ensures IsNumberOf(exts, Members(init)[i]) {
        var k :| 0 <= k < |init| && init[k].number == Members(init)[i];
        assert exts[k].number == Members(init)[i];
      }
      assert exts[|exts| - 1].number == exts[|exts| - 1].number;
    }
  }

  lemma {:induction false} PhonesAre(numbers: seq<string>)
    ensures forall i :: 0 <= i < |numbers| ==> Phones(numbers)[i] == Phone(numbers[i])
  {
    if numbers != [] {
      PhonesAre(numbers[..|numbers| - 1]);
    }
  }

  /** Ringing existing numbers rings existing endpoints. */
  lemma {:induction false} DialResolves(t: Names, o: Office, numbers: seq<string>)
    requires Covers(t, o)
    requires forall i :: 0 <= i < |numbers| ==> IsNumberOf(o.exts, numbers[i])
    ensures forall i :: 0 <= i < |numbers| ==> DestExists(t, Phones(numbers)[i])
  {
    PhonesAre(numbers);
  }

  lemma {:induction false} KeyResolves(t: Names, o: Office, opt: IvrOption)
    requires Covers(t, o) && Live(o.exts, opt.targets) != []
    ensures EntryResolves(t, "itp-ivr", Entry(opt.digit, KeySteps(o.exts, opt)))
  {
    LiveExist(o.exts, opt.targets);
    DialResolves(t, o, Live(o.exts, opt.targets));
  }

  lemma {:induction false} RingResolves(t: Names, o: Office)
    requires Covers(t, o)
    ensures EntryResolves(t, "itp-ring", Entry("s", RingSteps(Members(o.exts))))
  {
    MembersExist(o.exts);
    DialResolves(t, o, Members(o.exts));
  }

  lemma {:induction false} PhoneEntriesResolve(t: Names, o: Office, exts: seq<Extension>)
    requires Covers(t, o) && forall i :: 0 <= i < |exts| ==> IsNumberOf(o.exts, exts[i].number)
    ensures AllResolve(t, "itp-internal", PhoneEntries(exts))
  {
    if exts != [] {
      PhoneEntriesResolve(t, o, exts[..|exts| - 1]);
    }
  }

  lemma {:induction false} ResolveAppend(t: Names, ctx: string, a: seq<Entry>, b: seq<Entry>)
    requires AllResolve(t, ctx, a) && AllResolve(t, ctx, b)
    ensures AllResolve(t, ctx, a + b)
  {
  }

  lemma {:induction false} FeaturesResolve(t: Names, o: Office)
    requires Covers(t, o) && RingWired(t.plan, o)
    ensures AllResolve(t, "itp-internal", FeatureEntries())
  {
  }

  lemma {:induction false} OutsideResolves(t: Names, o: Office)
    requires Covers(t, o) && HasTrunk(o.st)
    ensures EntryResolves(t, "itp-internal", Entry("_9X.", OutsideSteps(o.st)))
  {
    var steps := OutsideSteps(o.st);
    MarkAt(steps, "blocked", |steps| - 2);
  }

  lemma {:induction false} RecorderResolves(t: Names, number: string)
    ensures EntryResolves(t, "itp-internal", RecorderEntry(number))
  {
    MarkAt(RecorderEntry(number).steps, "ok", 3);
  }

  lemma {:induction false} InternalResolves(t: Names, o: Office)
    requires Covers(t, o) && RingWired(t.plan, o) && (HasMenu(o.exts, o.ivr) ==> MenuWired(t.plan, o))
    ensures AllResolve(t, "itp-internal", InternalEntries(o.exts, o.st, HasTrunk(o.st), o.ivr))
  {
    PhoneEntriesResolve(t, o, o.exts);
    FeaturesResolve(t, o);
    RecorderResolves(t, o.ivr.recorder);
    if HasTrunk(o.st) {
      OutsideResolves(t, o);
    }
    var b := if HasMenu(o.exts, o.ivr) then [TryMenuEntry()] else [];
    var c := if HasRecorder(o.ivr) then [RecorderEntry(o.ivr.recorder)] else [];
    var d := if HasTrunk(o.st) then [Entry("_9X.", OutsideSteps(o.st))] else [];
    ResolveAppend(t, "itp-internal", FeatureEntries(), b);
    ResolveAppend(t, "itp-internal", FeatureEntries() + b, c);
    ResolveAppend(t, "itp-internal", FeatureEntries() + b + c, d);
    ResolveAppend(t, "itp-internal", PhoneEntries(o.exts), FeatureEntries() + b + c + d);
  }

  lemma {:induction false} MenuResolves(t: Names, o: Office)
    requires Covers(t, o) && MenuWired(t.plan, o)
    ensures AllResolve(t, "itp-ivr", MenuEntries(o.exts, o.ivr))
  {
    var keys := Keys(o.exts, o.ivr.options);
    KeysAreOffered(o.exts, o.ivr.options);
    KeyEntriesAre(o.exts, keys);
    forall i | 0 <= i < |keys| ensures EntryResolves(t, "itp-ivr", KeyEntries(o.exts, keys)[i]) {
      KeyResolves(t, o, keys[i]);
    }
    MenuEndResolves(t, o);
    ResolveAppend(t, "itp-ivr", [GreetEntry()], KeyEntries(o.exts, keys));
    ResolveAppend(t, "itp-ivr", [GreetEntry()] + KeyEntries(o.exts, keys), MenuEndEntries());
  }

  lemma {:induction false} MenuEndResolves(t: Names, o: Office)
    requires MenuWired(t.plan, o)
    ensures AllResolve(t, "itp-ivr", MenuEndEntries())
  {
    TimeoutResolves(t, o);
  }

  lemma {:induction false} TimeoutResolves(t: Names, o: Office)
    requires MenuWired(t.plan, o)
    ensures EntryResolves(t, "itp-ivr", MenuEndEntries()[1])
  {
    MarkAt(GreetEntry().steps, "menu", 2);
    MarkAt(MenuEndEntries()[1].steps, "ring", 3);
  }

  lemma {:induction false} MainResolves(t: Names, o: Office)
    requires RingWired(t.plan, o) && (HasMenu(o.exts, o.ivr) ==> MenuWired(t.plan, o))
    requires Find(t.plan, "itp-main", "s").Some?
    ensures AllResolve(t, "itp-main", MainEntries(HasMenu(o.exts, o.ivr)))
    ensures AllResolve(t, "itp-incoming", IncomingEntries())
  {
  }

  lemma {:induction false} OnlyContexts(o: Office, ctx: string)
    requires ctx in PlanFor(o)
    ensures ctx == "itp-internal" || ctx == "itp-main" || ctx == "itp-ring" || ctx == "itp-incoming"
         || (ctx == "itp-ivr" && HasMenu(o.exts, o.ivr))
  {
    ContextsOf(o);
  }

  lemma {:induction false} PlanWired(o: Office)
    ensures RingWired(PlanFor(o), o) && (HasMenu(o.exts, o.ivr) ==> MenuWired(PlanFor(o), o))
    ensures Find(PlanFor(o), "itp-main", "s").Some?
  {
    FindRing(o);
    FindMain(o);
    if HasMenu(o.exts, o.ivr) {
      FindMenu(o);
    }
  }

  /** What each context resolves to, for any table wired like the office's. */
  lemma {:induction false} ContextsResolve(t: Names, o: Office)
    requires Covers(t, o) && RingWired(t.plan, o) && (HasMenu(o.exts, o.ivr) ==> MenuWired(t.plan, o))
    requires Find(t.plan, "itp-main", "s").Some?
    ensures AllResolve(t, "itp-internal", InternalEntries(o.exts, o.st, HasTrunk(o.st), o.ivr))
    ensures AllResolve(t, "itp-main", MainEntries(HasMenu(o.exts, o.ivr)))
    ensures AllResolve(t, "itp-incoming", IncomingEntries())
    ensures AllResolve(t, "itp-ring", [Entry("s", RingSteps(Members(o.exts)))])
    ensures HasMenu(o.exts, o.ivr) ==> AllResolve(t, "itp-ivr", MenuEntries(o.exts, o.ivr))
  {
    MainResolves(t, o);
    InternalResolves(t, o);
    RingResolves(t, o);
    if HasMenu(o.exts, o.ivr) {
      MenuResolves(t, o);
    }
  }

  /** The three files are closed: every context, extension, label, endpoint and
    * mailbox that any generated step names is generated too. */
  lemma {:induction false} EverythingResolves(o: Office, ctx: string)
    requires ValidExtensions(o.exts) && ctx in PlanFor(o)
    ensures AllResolve(NamesOf(o), ctx, PlanFor(o)[ctx])
  {
    OfficeCovers(o);
    PlanWired(o);
    ContextsResolve(NamesOf(o), o);
    OnlyContexts(o, ctx);
    ContextsOf(o);
  }

  // ---- nothing ambiguous -----------------------------------------------------

  function CountMatches(es: seq<Entry>, s: string): nat {
    if es == [] then 0
    else CountMatches(es[..|es| - 1], s) + if Matches(es[|es| - 1].pattern, s) then 1 else 0
  }

  lemma {:induction false} CountAppend(a: seq<Entry>, b: seq<Entry>, s: string)
    ensures CountMatches(a + b, s) == CountMatches(a, s) + CountMatches(b, s)
  {
    if b == [] {
      assert a + b == a;
    } else {
      CountAppend(a, b[..|b| - 1], s);
      assert (a + b)[..|a + b| - 1] == a + b[..|b| - 1] && (a + b)[|a + b| - 1] == b[|b| - 1];
    }
  }

  lemma {:induction false} CountOne(e: Entry, s: string)
    ensures CountMatches([e], s) == if Matches(e.pattern, s) then 1 else 0
  {
    assert [e][..0] == [];
  }

  lemma {:induction false} CountPhones(exts: seq<Extension>, s: string)
    requires ValidExtensions(exts)
    ensures CountMatches(PhoneEntries(exts), s) == if IsNumberOf(exts, s) then 1 else 0
  {
    if exts != [] {
      var init, n := exts[..|exts| - 1], exts[|exts| - 1].number;
      CountPhones(init, s);
      CountAppend(PhoneEntries(init), [PhoneEntry(n)], s);
      CountOne(PhoneEntry(n), s);
      if IsNumberOf(init, s) {
        var k :| 0 <= k < |init| && init[k].number == s;
        assert exts[k].number == s && n != s;
      }
      assert IsNumberOf(exts, s) <==> IsNumberOf(init, s) || n == s by {
        assert exts[|exts| - 1].number == n;
      }
    }
  }

  lemma {:induction false} CountFeatures(s: string)
    ensures CountMatches(FeatureEntries(), s) == if s == "0" || s == "*97" || s == "*98" || s == "*43" then 1 else 0
  {
    var es := FeatureEntries();
    assert es == [es[0]] + [es[1]] + [es[2]] + [es[3]];
    CountAppend([es[0]] + [es[1]] + [es[2]], [es[3]], s);
    CountAppend([es[0]] + [es[1]], [es[2]], s);
    CountAppend([es[0]], [es[1]], s);
    CountOne(es[0], s);
    CountOne(es[1], s);
    CountOne(es[2], s);
    CountOne(es[3], s);
  }

  lemma {:induction false} CountOptional(o: Office, s: string)
    ensures CountMatches([TryMenuEntry()], s) == if s == "*50" then 1 else 0
    ensures CountMatches([RecorderEntry(o.ivr.recorder)], s) == if s == "*99" then 1 else 0
    ensures CountMatches([Entry("_9X.", OutsideSteps(o.st))], s) == if IsOutside(s) then 1 else 0
  {
    CountOne(TryMenuEntry(), s);
    CountOne(RecorderEntry(o.ivr.recorder), s);
    CountOne(Entry("_9X.", OutsideSteps(o.st)), s);
    OutsidePattern(s);
  }

  /** No dialed string matches two of the extensions an office phone can reach. */
  lemma {:induction false} NothingAmbiguous(o: Office, s: string)
    requires ValidExtensions(o.exts)
    ensures "itp-internal" in PlanFor(o) && CountMatches(PlanFor(o)["itp-internal"], s) <= 1
  {
    ContextsOf(o);
    var b := if HasMenu(o.exts, o.ivr) then [TryMenuEntry()] else [];
    var c := if HasRecorder(o.ivr) then [RecorderEntry(o.ivr.recorder)] else [];
    var d := if HasTrunk(o.st) then [Entry("_9X.", OutsideSteps(o.st))] else [];
    CountPhones(o.exts, s);
    CountFeatures(s);
    CountOptional(o, s);
    CountAppend(FeatureEntries() + b + c, d, s);
    CountAppend(FeatureEntries() + b, c, s);
    CountAppend(FeatureEntries(), b, s);
    CountAppend(PhoneEntries(o.exts), FeatureEntries() + b + c + d, s);
  }

  // ---- what follows for callers ----------------------------------------------

  function Greetings(trace: seq<Effect>): nat {
    if trace == [] then 0 else Greetings(trace[..|trace| - 1]) + if trace[|trace| - 1] == Plays(GREETING) then 1 else 0
  }

  /** At most n greetings, and nothing on the outside line. */
  ghost predicate Bounded(trace: seq<Effect>, n: nat) {
    Greetings(trace) <= n && forall i :: 0 <= i < |trace| ==> !trace[i].CallsOutside?
  }

  lemma {:induction false} GreetingsAppend(a: seq<Effect>, b: seq<Effect>)
    ensures Greetings(a + b) == Greetings(a) + Greetings(b)
  {
    if b == [] {
      assert a + b == a;
    } else {
      GreetingsAppend(a, b[..|b| - 1]);
      assert (a + b)[..|a + b| - 1] == a + b[..|b| - 1];
    }
  }

  lemma {:induction false} BoundedCons(e: Effect, rest: seq<Effect>, n: nat)
    requires Bounded(rest, n) && !e.CallsOutside?
    ensures Bounded([e] + rest, if e == Plays(GREETING) then n + 1 else n)
  {
    assert [e][..0] == [];
    GreetingsAppend([e], rest);
  }

  lemma {:induction false} RingIsBounded(call: Call, wait: nat, numbers: seq<string>, secs: nat, box: string)
    ensures Bounded(Ring(call, wait, Rings(numbers, secs), [LeavesMessage(box)]), 0)
    ensures Bounded([LeavesMessage(box)], 0)
  {
    BoundedCons(LeavesMessage(box), [], 0);
    BoundedCons(Rings(numbers, secs), [LeavesMessage(box)], 0);
    BoundedCons(Rings(numbers, secs), [], 0);
    assert [LeavesMessage(box)] + [] == [LeavesMessage(box)];
  }

  /** However a caller behaves, the greeting plays at most twice, and no key of
    * the menu leads to the outside line. */
  lemma {:induction false} MenuIsBounded(o: Office, call: Call, wait: nat, missed: nat)
    requires missed < 2
    ensures Bounded(Menu(o, call, wait, missed), 2 - missed)
    decreases 2 - missed, 3
  {
    if call.input(wait).Silent() {
      WaitIsBounded(o, call, wait + 1, missed);
      BoundedCons(Plays(GREETING), Waited(o, call, wait + 1, missed), 1 - missed);
    } else {
      KeyIsBounded(o, call, wait, missed);
      BoundedCons(Plays(GREETING), Heard(o, call, wait, missed), 1 - missed);
    }
  }

  lemma {:induction false} WaitIsBounded(o: Office, call: Call, wait: nat, missed: nat)
    requires missed < 2
    ensures Bounded(Waited(o, call, wait, missed), 1 - missed)
    decreases 2 - missed, 2
  {
    if call.input(wait).Silent() {
      MissIsBounded(o, call, wait + 1, missed);
      BoundedCons(Listens(6), Missed(o, call, wait + 1, missed), 1 - missed);
    } else {
      KeyIsBounded(o, call, wait, missed);
      BoundedCons(Listens(6), Heard(o, call, wait, missed), 1 - missed);
    }
  }

  lemma {:induction false} KeyIsBounded(o: Office, call: Call, wait: nat, missed: nat)
    requires missed < 2 && !call.input(wait).Silent()
    ensures Bounded(Heard(o, call, wait, missed), 1 - missed)
    decreases 2 - missed, 1
  {
    if !call.input(wait).CallerGone? {
      var c := call.input(wait).c;
      var opt := OptionFor(Keys(o.exts, o.ivr.options), c);
      if c == '0' {
        RingIsBounded(call, wait + 1, Members(o.exts), 30, "0");
      } else if opt.Some? {
        var live := Live(o.exts, opt.value.targets);
        RingIsBounded(call, wait + 1, live, 25, Mailbox(live));
      } else {
        MissIsBounded(o, call, wait + 1, missed);
        BoundedCons(Plays("pbx-invalid"), Missed(o, call, wait + 1, missed), 1 - missed);
      }
    }
  }

  lemma {:induction false} MissIsBounded(o: Office, call: Call, wait: nat, missed: nat)
    requires missed < 2
    ensures Bounded(Missed(o, call, wait, missed), 1 - missed)
    decreases 2 - missed, 0
  {
    if missed == 1 {
      RingIsBounded(call, wait, Members(o.exts), 30, "0");
    } else {
      MenuIsBounded(o, call, wait, 1);
    }
  }

  /** An office phone gets an outside line exactly when there is one, the number
    * has the shape of an outside number, and it is not a blocked international
    * one; and then it is that number that is called. */
  lemma {:induction false} OutsideLineOnlyWhenAllowed(o: Office, call: Call, dialed: string, number: string,
          id: Option<string>, secs: nat)
    requires ValidExtensions(o.exts)
    ensures (FromPhone(o, call, dialed).Some? && CallsOutside(number, id, secs) in FromPhone(o, call, dialed).value) ==>
              HasTrunk(o.st) && IsOutside(dialed) && MayCall(o.st, dialed[1..]) && number == dialed[1..]
    ensures HasTrunk(o.st) && IsOutside(dialed) && MayCall(o.st, dialed[1..]) ==>
              FromPhone(o, call, dialed) ==
              Some([CallsOutside(dialed[1..], if o.st.trunkCallerId == "" then None else Some(o.st.trunkCallerId), 60)])
  {
    if FromPhone(o, call, dialed).Some? && dialed == "*50" && HasMenu(o.exts, o.ivr) {
      MenuIsBounded(o, call, 0, 0);
    }
  }
}
