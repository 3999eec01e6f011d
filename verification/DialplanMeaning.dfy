/** The generated dial plan does what the settings say: every call ends, with
  * exactly the effects described here. */
module DialplanMeaning {
  import opened Options
  import opened Text
  import opened Pbx
  import opened Dialplan
  import opened Asterisk
  import opened DialplanLoads
  import opened Calls

  /** Everything the admin set up. */
  datatype Office = Office(exts: seq<Extension>, st: Settings, ivr: Ivr)

  /** What Asterisk loads after the files are generated. */
  function PlanFor(o: Office): Plan {
    Load(DialplanLines(o.exts, o.st, HasTrunk(o.st), o.ivr))
  }

  // ---- what the settings mean ------------------------------------------------

  /** Ringing: over if somebody answers or the caller gives up, else what comes after. */
  function Ring(call: Call, wait: nat, ring: Effect, unanswered: seq<Effect>): seq<Effect> {
    [ring] + if call.input(wait).Answered? || call.input(wait).CallerGone? then [] else unanswered
  }

  /** The main group: all its members at once, then the shared mailbox. */
  function MainGroup(o: Office, call: Call, wait: nat): seq<Effect> {
    if Members(o.exts) == [] then [LeavesMessage("0")]
    else Ring(call, wait, Rings(Members(o.exts), 30), [LeavesMessage("0")])
  }

  /** The menu option behind a key. */
  function OptionFor(keys: seq<IvrOption>, c: char): Option<IvrOption> {
    if keys == [] then None
    else
      var before := OptionFor(keys[..|keys| - 1], c);
      if before.Some? then before
      else if keys[|keys| - 1].digit == [c] then Some(keys[|keys| - 1])
      else None
  }

  /** The menu, after `missed` failed tries: a key may come while the greeting
    * plays, or in the six seconds after it. */
  function Menu(o: Office, call: Call, wait: nat, missed: nat): seq<Effect>
    requires missed < 2
    decreases 2 - missed, 3
  {
    [Plays(GREETING)]
    + (if call.input(wait).Silent() then Waited(o, call, wait + 1, missed) else Heard(o, call, wait, missed))
  }

  function Waited(o: Office, call: Call, wait: nat, missed: nat): seq<Effect>
    requires missed < 2
    decreases 2 - missed, 2
  {
    [Listens(6)] + (if call.input(wait).Silent() then Missed(o, call, wait + 1, missed)
                    else Heard(o, call, wait, missed))
  }

  function Heard(o: Office, call: Call, wait: nat, missed: nat): seq<Effect>
    requires missed < 2 && !call.input(wait).Silent()
    decreases 2 - missed, 1, 1
  {
    if call.input(wait).CallerGone? then [] else Pressed(o, call, wait + 1, missed, call.input(wait).c)
  }

  /** A key: 0 is the main group, a key on the menu rings its people, any other is a miss. */
  function Pressed(o: Office, call: Call, wait: nat, missed: nat, c: char): seq<Effect>
    requires missed < 2
    decreases 2 - missed, 1, 0
  {
    if c == '0' then MainGroup(o, call, wait)
    else
      match OptionFor(Keys(o.exts, o.ivr.options), c)
      case Some(opt) => KeyRing(o, call, wait, opt)
      case None => [Plays("pbx-invalid")] + Missed(o, call, wait, missed)
  }

  /** A menu option: its people that still exist, then their mailbox. */
  function KeyRing(o: Office, call: Call, wait: nat, opt: IvrOption): seq<Effect> {
    var live := Live(o.exts, opt.targets);
    Ring(call, wait, Rings(live, 25), [LeavesMessage(Mailbox(live))])
  }

  /** Nothing useful pressed: once more, then the main group. */
  function Missed(o: Office, call: Call, wait: nat, missed: nat): seq<Effect>
    requires missed < 2
    decreases 2 - missed, 0
  {
    if missed == 1 then MainGroup(o, call, wait) else Menu(o, call, wait, missed + 1)
  }

  /** A call from outside. */
  function FromOutside(o: Office, call: Call): seq<Effect> {
    if HasMenu(o.exts, o.ivr) then [Answers] + Menu(o, call, 0, 0) else MainGroup(o, call, 0)
  }

  /** An outside number an office phone may call. */
  predicate MayCall(st: Settings, number: string) {
    st.allowInternational || !("00" <= number || "011" <= number)
  }

  /** A call from an office phone; None when the number is not in use. */
  function FromPhone(o: Office, call: Call, dialed: string): Option<seq<Effect>> {
    if IsNumberOf(o.exts, dialed) then
      Some(Ring(call, 0, Rings([dialed], 25), [LeavesMessage(dialed)]))
    else if dialed == "0" then Some(MainGroup(o, call, 0))
    else if dialed == "*97" then Some([ReadsMailbox(call.endpoint)])
    else if dialed == "*98" then Some([ReadsMailbox("0")])
    else if dialed == "*43" then Some([Answers, Plays("demo-echotest"), Echoes])
    else if dialed == "*50" && HasMenu(o.exts, o.ivr) then Some([Answers] + Menu(o, call, 0, 0))
    else if dialed == "*99" && HasRecorder(o.ivr) then
      Some(if call.endpoint == o.ivr.recorder then [Answers, Records(GREETING), Plays(GREETING)]
           else [Plays("ss-noservice")])
    else if HasTrunk(o.st) && IsOutside(dialed) then Some(Outside(o.st, dialed))
    else None
  }

  /** A call to an outside number: put through, or refused with an announcement. */
  function Outside(st: Settings, dialed: string): seq<Effect>
    requires IsOutside(dialed)
  {
    if MayCall(st, dialed[1..]) then
      [CallsOutside(dialed[1..], if st.trunkCallerId == "" then None else Some(st.trunkCallerId), 60)]
    else [Plays("ss-noservice")]
  }

  /** 9, a digit, and at least one more character. */
  predicate IsOutside(dialed: string) {
    |dialed| >= 3 && dialed[0] == '9' && IsDigit(dialed[1])
  }

  // ---- finding extensions ----------------------------------------------------

  lemma {:induction false} FindExactAppend(a: seq<Entry>, b: seq<Entry>, s: string)
    ensures FindExact(a + b, s) == if FindExact(a, s).Some? then FindExact(a, s) else FindExact(b, s)
  {
    if a == [] {
      assert a + b == b;
    } else {
      assert (a + b)[1..] == a[1..] + b && (a + b)[0] == a[0];
      FindExactAppend(a[1..], b, s);
    }
  }

  lemma {:induction false} FindPatternAppend(a: seq<Entry>, b: seq<Entry>, s: string)
    ensures FindPattern(a + b, s) == if FindPattern(a, s).Some? then FindPattern(a, s) else FindPattern(b, s)
  {
    if a == [] {
      assert a + b == b;
    } else {
      assert (a + b)[1..] == a[1..] + b && (a + b)[0] == a[0];
      FindPatternAppend(a[1..], b, s);
    }
  }

  lemma {:induction false} FindOne(e: Entry, s: string)
    ensures FindExact([e], s) == if !IsPattern(e.pattern) && e.pattern == s then Some(e.steps) else None
    ensures FindPattern([e], s) == if IsPattern(e.pattern) && Matches(e.pattern, s) then Some(e.steps) else None
  {
    assert [e][1..] == [];
  }

  /** Without patterns there is nothing to find by pattern. */
  lemma {:induction false} NoPatterns(es: seq<Entry>, s: string)
    requires forall i :: 0 <= i < |es| ==> !IsPattern(es[i].pattern)
    ensures FindPattern(es, s) == None
  {
    if es != [] {
      NoPatterns(es[1..], s);
    }
  }

  lemma {:induction false} ContextsOf(o: Office)
    ensures PlanFor(o) == DialplanOf(o.exts, o.st, HasTrunk(o.st), o.ivr)
    ensures "itp-internal" in PlanFor(o)
            && PlanFor(o)["itp-internal"] == InternalEntries(o.exts, o.st, HasTrunk(o.st), o.ivr)
    ensures "itp-main" in PlanFor(o) && PlanFor(o)["itp-main"] == MainEntries(HasMenu(o.exts, o.ivr))
    ensures "itp-ring" in PlanFor(o) && PlanFor(o)["itp-ring"] == [Entry("s", RingSteps(Members(o.exts)))]
    ensures HasMenu(o.exts, o.ivr) ==> "itp-ivr" in PlanFor(o) && PlanFor(o)["itp-ivr"] == MenuEntries(o.exts, o.ivr)
    ensures "itp-incoming" in PlanFor(o) && PlanFor(o)["itp-incoming"] == IncomingEntries()
  {
    LoadsAsDescribed(o.exts, o.st, HasTrunk(o.st), o.ivr);
    ContextsDiffer();
  }

  /** The main group is where the plan should have it. */
  ghost predicate RingWired(plan: Plan, o: Office) {
    Find(plan, "itp-ring", "s") == Some(RingSteps(Members(o.exts)))
  }

  /** And so is the menu. */
  ghost predicate MenuWired(plan: Plan, o: Office) {
    && RingWired(plan, o)
    && Find(plan, "itp-ivr", "s") == Some(GreetEntry().steps)
    && Find(plan, "itp-ivr", "t") == Some(MenuEndEntries()[1].steps)
    && Find(plan, "itp-ivr", "i") == Some(MenuEndEntries()[2].steps)
    && forall c: Dtmf :: Find(plan, "itp-ivr", [c]) == BehindKey(o, c)
  }

  /** What a key leads to. */
  function BehindKey(o: Office, c: Dtmf): Option<seq<Step>> {
    if OptionFor(Keys(o.exts, o.ivr.options), c).Some?
    then Some(KeySteps(o.exts, OptionFor(Keys(o.exts, o.ivr.options), c).value))
    else if c == '0' then Some([Step("", TO_RING)])
    else None
  }

  /** What a name stands for in the menu context. */
  function InMenuContext(o: Office, s: string): Option<seq<Step>> {
    if s == "s" then Some(GreetEntry().steps)
    else if ValidDigit(s) && OptionFor(Keys(o.exts, o.ivr.options), s[0]).Some?
      then Some(KeySteps(o.exts, OptionFor(Keys(o.exts, o.ivr.options), s[0]).value))
    else if s == "0" then Some(MenuEndEntries()[0].steps)
    else if s == "t" then Some(MenuEndEntries()[1].steps)
    else if s == "i" then Some(MenuEndEntries()[2].steps)
    else None
  }

  lemma {:induction false} FindRing(o: Office)
    ensures RingWired(PlanFor(o), o)
  {
    ContextsOf(o);
    FindOne(Entry("s", RingSteps(Members(o.exts))), "s");
  }

  lemma {:induction false} FindMain(o: Office)
    ensures Find(PlanFor(o), "itp-main", "s") == Some(MainEntries(HasMenu(o.exts, o.ivr))[0].steps)
  {
    ContextsOf(o);
    FindOne(MainEntries(HasMenu(o.exts, o.ivr))[0], "s");
  }

  // ---- the main group --------------------------------------------------------

  /** What is left of a call after one application. */
  function Resume(plan: Plan, call: Call, o: Outcome, fuel: nat): Outcome {
    match o
    case Running(s) => Run(plan, call, s, fuel)
    case _ => o
  }

  /** The first application, then the rest. */
  lemma {:induction false} RunResumes(plan: Plan, call: Call, s: State, fuel: nat)
    requires fuel > 0
    ensures Run(plan, call, s, fuel) == Resume(plan, call, OneStep(plan, call, s), fuel - 1)
  {
  }

  lemma {:induction false} PhonesRing(numbers: seq<string>)
    ensures PhoneNumbers(Phones(numbers)) == numbers
    ensures OutsideLine !in Phones(numbers)
  {
    if numbers != [] {
      PhonesRing(numbers[..|numbers| - 1]);
      var ds := Phones(numbers);
      assert ds[..|ds| - 1] == Phones(numbers[..|numbers| - 1]);
    }
  }

  lemma {:induction false} MailThenHangup(plan: Plan, call: Call, s: State, steps: seq<Step>, box: string, fuel: nat)
    requires Find(plan, s.ctx, s.exten) == Some(steps) && s.at + 1 < |steps| && fuel >= 2
    requires steps[s.at].app == VoiceMail(box) && steps[s.at + 1].app == Hangup
    ensures Run(plan, call, s, fuel) == Ended(s.trace + [LeavesMessage(box)])
  {
    RunResumes(plan, call, s, fuel);
    RunResumes(plan, call, Does(s, LeavesMessage(box)).(at := s.at + 1), fuel - 1);
  }

  /** Ring some phones, then a mailbox, then hang up: the shape of every extension
    * that rings people. */
  lemma {:induction false} DialThenMail(plan: Plan, call: Call, s: State, steps: seq<Step>, numbers: seq<string>,
          secs: nat, box: string, fuel: nat)
    requires Find(plan, s.ctx, s.exten) == Some(steps) && s.at + 2 < |steps| && fuel >= 3
    requires steps[s.at].app == Dial(Phones(numbers), secs)
    requires steps[s.at + 1].app == VoiceMail(box) && steps[s.at + 2].app == Hangup
    ensures Run(plan, call, s, fuel) == Ended(s.trace + Ring(call, s.waits, Rings(numbers, secs), [LeavesMessage(box)]))
  {
    PhonesRing(numbers);
    var ring := Rings(numbers, secs);
    var s1 := Does(s, ring).(waits := s.waits + 1);
    RunResumes(plan, call, s, fuel);
    if !call.input(s.waits).Answered? && !call.input(s.waits).CallerGone? {
      MailThenHangup(plan, call, s1.(at := s.at + 1), steps, box, fuel - 1);
      Assoc(s.trace, [ring], [LeavesMessage(box)]);
    }
  }

  lemma {:induction false} RingRuns(plan: Plan, o: Office, call: Call, s: State, fuel: nat)
    requires RingWired(plan, o) && s.ctx == "itp-ring" && s.exten == "s" && s.at == 0 && fuel >= 4
    ensures Run(plan, call, s, fuel) == Ended(s.trace + MainGroup(o, call, s.waits))
  {
    var members, steps := Members(o.exts), RingSteps(Members(o.exts));
    var s1 := s.(at := 1);
    RunResumes(plan, call, s, fuel);
    if members == [] {
      RunResumes(plan, call, s1, fuel - 1);
      RunResumes(plan, call, Does(s1, LeavesMessage("0")).(at := 2), fuel - 2);
    } else {
      DialThenMail(plan, call, s1, steps, members, 30, "0", fuel - 1);
    }
  }

  // ---- the menu --------------------------------------------------------------

  lemma {:induction false} KeysAreOffered(exts: seq<Extension>, options: seq<IvrOption>)
    ensures forall i :: 0 <= i < |Keys(exts, options)| ==> Offered(exts, Keys(exts, options)[i])
  {
    if options != [] {
      KeysAreOffered(exts, options[..|options| - 1]);
    }
  }

  lemma {:induction false} KeyEntriesAre(exts: seq<Extension>, keys: seq<IvrOption>)
    ensures |KeyEntries(exts, keys)| == |keys|
    ensures forall i :: 0 <= i < |keys| ==> KeyEntries(exts, keys)[i] == Entry(keys[i].digit, KeySteps(exts, keys[i]))
  {
    if keys != [] {
      KeyEntriesAre(exts, keys[..|keys| - 1]);
    }
  }

  /** A key finds the steps of its option, and only a digit from 1 to 9 finds any. */
  lemma {:induction false} FindKey(exts: seq<Extension>, keys: seq<IvrOption>, s: string)
    requires forall i :: 0 <= i < |keys| ==> ValidDigit(keys[i].digit)
    ensures FindExact(KeyEntries(exts, keys), s) ==
            if ValidDigit(s) && OptionFor(keys, s[0]).Some? then Some(KeySteps(exts, OptionFor(keys, s[0]).value))
              else None
    ensures FindPattern(KeyEntries(exts, keys), s) == None
  {
    if keys != [] {
      var init, o := keys[..|keys| - 1], keys[|keys| - 1];
      FindKey(exts, init, s);
      var e := Entry(o.digit, KeySteps(exts, o));
      FindExactAppend(KeyEntries(exts, init), [e], s);
      FindPatternAppend(KeyEntries(exts, init), [e], s);
      FindOne(e, s);
      assert ValidDigit(s) ==> (o.digit == s <==> o.digit == [s[0]]);
    }
  }

  lemma {:induction false} FindMenu(o: Office)
    requires HasMenu(o.exts, o.ivr)
    ensures MenuWired(PlanFor(o), o)
  {
    FindRing(o);
    FindInMenu(o, "s");
    FindInMenu(o, "t");
    FindInMenu(o, "i");
    forall c: Dtmf ensures Find(PlanFor(o), "itp-ivr", [c]) == BehindKey(o, c) {
      FindInMenu(o, [c]);
      OptionIsDigit(o.exts, o.ivr.options, c);
    }
  }

  lemma {:induction false} FindInMenu(o: Office, s: string)
    requires HasMenu(o.exts, o.ivr)
    ensures Find(PlanFor(o), "itp-ivr", s) == InMenuContext(o, s)
  {
    ContextsOf(o);
    var keys := Keys(o.exts, o.ivr.options);
    KeysAreOffered(o.exts, o.ivr.options);
    FindKey(o.exts, keys, s);
    FindMenuEnd(s);
    FindOne(GreetEntry(), s);
    var a, b, c := [GreetEntry()], KeyEntries(o.exts, keys), MenuEndEntries();
    FindExactAppend(a + b, c, s);
    FindExactAppend(a, b, s);
    FindPatternAppend(a + b, c, s);
    FindPatternAppend(a, b, s);
  }

  lemma {:induction false} FindMenuEnd(s: string)
    ensures FindExact(MenuEndEntries(), s) ==
      if s == "0" then Some(MenuEndEntries()[0].steps)
      else if s == "t" then Some(MenuEndEntries()[1].steps)
      else if s == "i" then Some(MenuEndEntries()[2].steps)
      else None
    ensures FindPattern(MenuEndEntries(), s) == None
  {
    var es := MenuEndEntries();
    assert es[1..][1..] == [es[2]];
    FindOne(es[2], s);
    NoPatterns(es, s);
  }

  /** Going to the main group from inside the menu. */
  lemma {:induction false} ToRing(plan: Plan, o: Office, call: Call, s: State, fuel: nat)
    requires fuel >= 5 && RingWired(plan, o)
    requires Find(plan, s.ctx, s.exten).Some?
    requires var steps := Find(plan, s.ctx, s.exten).value; s.at < |steps| && steps[s.at].app == TO_RING
    ensures Run(plan, call, s, fuel) == Ended(s.trace + MainGroup(o, call, s.waits))
  {
    var s1 := s.(ctx := "itp-ring", exten := "s", at := 0);
    assert OneStep(plan, call, s) == Running(s1);
    RingRuns(plan, o, call, s1, fuel - 1);
  }

  /** A menu key: its people, then the mailbox. */
  lemma {:induction false} KeyRuns(plan: Plan, o: Office, call: Call, s: State, opt: IvrOption, fuel: nat)
    requires fuel >= 4 && s.at == 0
    requires Find(plan, s.ctx, s.exten) == Some(KeySteps(o.exts, opt))
    ensures Run(plan, call, s, fuel) == Ended(s.trace + KeyRing(o, call, s.waits, opt))
  {
    var live := Live(o.exts, opt.targets);
    RunResumes(plan, call, s, fuel);
    DialThenMail(plan, call, s.(at := 1), KeySteps(o.exts, opt), live, 25, Mailbox(live), fuel - 1);
  }

  lemma {:induction false} MarkAt(steps: seq<Step>, mark: string, i: nat)
    requires i < |steps| && steps[i].mark == mark
    requires forall j :: 0 <= j < i ==> steps[j].mark != mark
    ensures MarkIndex(steps, mark) == i
  {
    if i > 0 {
      MarkAt(steps[1..], mark, i - 1);
    }
  }

  ghost predicate InMenu(plan: Plan, o: Office, s: State, exten: string, at: nat, missed: nat) {
    MenuWired(plan, o) && s.ctx == "itp-ivr" && s.exten == exten && s.at == at && s.tries == missed && missed < 2
  }

  /** While Background or WaitExten listens. */
  function Listened(plan: Plan, call: Call, s: State, quiet: Outcome): Outcome {
    var i := call.input(s.waits);
    if i.Silent() then quiet
    else if i.CallerGone? then Ended(s.trace)
    else PressKey(plan, s.(waits := s.waits + 1), i.c)
  }

  lemma {:induction false} AnnounceStep(plan: Plan, o: Office, call: Call, s: State, missed: nat)
    requires InMenu(plan, o, s, "s", 2, missed)
    ensures var s1 := s.(trace := s.trace + [Plays(GREETING)]);
            OneStep(plan, call, s) == Listened(plan, call, s1, Running(s1.(waits := s.waits + 1, at := 3)))
  {
  }

  lemma {:induction false} WaitStep(plan: Plan, o: Office, call: Call, s: State, missed: nat)
    requires InMenu(plan, o, s, "s", 3, missed)
    ensures var s1 := Does(s, Listens(6));
            OneStep(plan, call, s) ==
              Listened(plan, call, s1, Running(s1.(waits := s.waits + 1, exten := "t", at := 0)))
  {
  }

  lemma {:induction false} HeardRuns(plan: Plan, o: Office, call: Call, s: State, missed: nat, fuel: nat)
    requires InMenu(plan, o, s, "s", s.at, missed) && fuel >= 9 + 8 * (1 - missed) && !call.input(s.waits).Silent()
    ensures Resume(plan, call, Listened(plan, call, s, Broken("")), fuel)
         == Ended(s.trace + Heard(o, call, s.waits, missed))
    decreases 2 - missed, 3, 0
  {
    if call.input(s.waits).CallerGone? {
      assert s.trace + [] == s.trace;
    } else {
      PressRuns(plan, o, call, s.(waits := s.waits + 1), missed, call.input(s.waits).c, fuel);
    }
  }

  /** From the announcement on, after `missed` failed tries. */
  lemma {:induction false} MenuRuns(plan: Plan, o: Office, call: Call, s: State, missed: nat, fuel: nat)
    requires InMenu(plan, o, s, "s", 2, missed) && fuel >= 11 + 8 * (1 - missed)
    ensures Run(plan, call, s, fuel) == Ended(s.trace + Menu(o, call, s.waits, missed))
    decreases 2 - missed, 5
  {
    RunResumes(plan, call, s, fuel);
    AnnounceStep(plan, o, call, s, missed);
    var s1 := s.(trace := s.trace + [Plays(GREETING)]);
    AnnouncedRuns(plan, o, call, s1, missed, fuel - 1);
    Assoc(s.trace, [Plays(GREETING)], Announced(o, call, s.waits, missed));
    MenuIs(o, call, s.waits, missed);
  }

  /** What follows the announcement. */
  function Announced(o: Office, call: Call, i: nat, missed: nat): seq<Effect>
    requires missed < 2
  {
    if call.input(i).Silent() then Waited(o, call, i + 1, missed) else Heard(o, call, i, missed)
  }

  /** What follows the six seconds. */
  function AfterWait(o: Office, call: Call, i: nat, missed: nat): seq<Effect>
    requires missed < 2
  {
    if call.input(i).Silent() then Missed(o, call, i + 1, missed) else Heard(o, call, i, missed)
  }

  lemma {:induction false} MenuIs(o: Office, call: Call, i: nat, missed: nat)
    requires missed < 2
    ensures Menu(o, call, i, missed) == [Plays(GREETING)] + Announced(o, call, i, missed)
  {
  }

  /** The announcement has been played, or a key pressed during it. */
  lemma {:induction false} AnnouncedRuns(plan: Plan, o: Office, call: Call, s: State, missed: nat, fuel: nat)
    requires InMenu(plan, o, s, "s", 2, missed) && fuel >= 10 + 8 * (1 - missed)
    ensures Resume(plan, call, Listened(plan, call, s, Running(s.(waits := s.waits + 1, at := 3))), fuel)
         == Ended(s.trace + Announced(o, call, s.waits, missed))
    decreases 2 - missed, 4, 1
  {
    if call.input(s.waits).Silent() {
      WaitRuns(plan, o, call, s.(waits := s.waits + 1, at := 3), missed, fuel);
    } else {
      HeardRuns(plan, o, call, s, missed, fuel);
    }
  }

  lemma {:induction false} WaitRuns(plan: Plan, o: Office, call: Call, s: State, missed: nat, fuel: nat)
    requires InMenu(plan, o, s, "s", 3, missed) && fuel >= 10 + 8 * (1 - missed)
    ensures Run(plan, call, s, fuel) == Ended(s.trace + Waited(o, call, s.waits, missed))
    decreases 2 - missed, 4, 0
  {
    RunResumes(plan, call, s, fuel);
    WaitStep(plan, o, call, s, missed);
    WaitedRuns(plan, o, call, Does(s, Listens(6)), missed, fuel - 1);
    Assoc(s.trace, [Listens(6)], AfterWait(o, call, s.waits, missed));
  }

  /** Six seconds have gone by, or a key was pressed in them. */
  lemma {:induction false} WaitedRuns(plan: Plan, o: Office, call: Call, s: State, missed: nat, fuel: nat)
    requires InMenu(plan, o, s, "s", 3, missed) && fuel >= 9 + 8 * (1 - missed)
    ensures Resume(plan, call, Listened(plan, call, s, Running(s.(waits := s.waits + 1, exten := "t", at := 0))), fuel)
         == Ended(s.trace + AfterWait(o, call, s.waits, missed))
    decreases 2 - missed, 3, 1
  {
    if call.input(s.waits).Silent() {
      TimeoutRuns(plan, o, call, s.(waits := s.waits + 1, exten := "t", at := 0), missed, fuel);
    } else {
      HeardRuns(plan, o, call, s, missed, fuel);
    }
  }

  lemma {:induction false} PressRuns(plan: Plan, o: Office, call: Call, s: State, missed: nat, c: Dtmf, fuel: nat)
    requires InMenu(plan, o, s, "s", s.at, missed) && fuel >= 9 + 8 * (1 - missed)
    ensures Resume(plan, call, PressKey(plan, s, c), fuel) == Ended(s.trace + Pressed(o, call, s.waits, missed, c))
    decreases 2 - missed, 2
  {
    var opt := OptionFor(Keys(o.exts, o.ivr.options), c);
    OptionIsDigit(o.exts, o.ivr.options, c);
    var s1 := s.(exten := [c], at := 0);
    if opt.Some? {
      assert ValidDigit([c]);
      KeyRuns(plan, o, call, s1, opt.value, fuel);
    } else if c == '0' {
      assert [c] == "0";
      ToRing(plan, o, call, s1, fuel);
    } else {
      var s2 := s.(exten := "i", at := 0);
      assert Find(plan, "itp-ivr", [c]) == None;
      assert PressKey(plan, s, c) == Running(s2);
      InvalidRuns(plan, o, call, s2, missed, fuel);
    }
  }

  lemma {:induction false} OptionIsDigit(exts: seq<Extension>, options: seq<IvrOption>, c: char)
    ensures OptionFor(Keys(exts, options), c).Some? ==> ValidDigit([c])
  {
    KeysAreOffered(exts, options);
    OptionHasDigit(Keys(exts, options), c);
  }

  lemma {:induction false} OptionHasDigit(keys: seq<IvrOption>, c: char)
    ensures OptionFor(keys, c).Some? ==> OptionFor(keys, c).value in keys && OptionFor(keys, c).value.digit == [c]
  {
    if keys != [] {
      OptionHasDigit(keys[..|keys| - 1], c);
    }
  }

  /** The i extension says so and goes on as if the time had run out. */
  lemma {:induction false} InvalidSteps(plan: Plan, o: Office, call: Call, s: State, missed: nat)
    requires InMenu(plan, o, s, "i", 0, missed)
    ensures OneStep(plan, call, s) == Running(Does(s, Plays("pbx-invalid")).(at := 1))
    ensures OneStep(plan, call, Does(s, Plays("pbx-invalid")).(at := 1))
         == Running(Does(s, Plays("pbx-invalid")).(exten := "t", at := 0))
  {
  }

  lemma {:induction false} InvalidRuns(plan: Plan, o: Office, call: Call, s: State, missed: nat, fuel: nat)
    requires InMenu(plan, o, s, "i", 0, missed) && fuel >= 9 + 8 * (1 - missed)
    ensures Run(plan, call, s, fuel) == Ended(s.trace + ([Plays("pbx-invalid")] + Missed(o, call, s.waits, missed)))
    decreases 2 - missed, 1
  {
    var s1 := Does(s, Plays("pbx-invalid")).(at := 1);
    InvalidSteps(plan, o, call, s, missed);
    RunResumes(plan, call, s, fuel);
    RunResumes(plan, call, s1, fuel - 1);
    TimeoutRuns(plan, o, call, s1.(exten := "t", at := 0), missed, fuel - 2);
    Assoc(s.trace, [Plays("pbx-invalid")], Missed(o, call, s.waits, missed));
  }

  /** The first two priorities of the t extension: count, then compare. */
  lemma {:induction false} TimeoutSteps(plan: Plan, o: Office, call: Call, s: State, missed: nat)
    requires InMenu(plan, o, s, "t", 0, missed)
    ensures OneStep(plan, call, s) == Running(s.(tries := missed + 1, at := 1))
    ensures OneStep(plan, call, s.(tries := missed + 1, at := 1))
         == Running(s.(tries := missed + 1, at := if missed == 1 then 3 else 2))
  {
    var steps := MenuEndEntries()[1].steps;
    MarkAt(steps, "ring", 3);
  }

  /** And the third, which goes back to the announcement. */
  lemma {:induction false} AgainStep(plan: Plan, o: Office, call: Call, s: State, missed: nat)
    requires InMenu(plan, o, s, "t", 0, missed)
    ensures OneStep(plan, call, s.(tries := missed + 1, at := 2))
            == Running(s.(tries := missed + 1, exten := "s", at := 2))
  {
    MarkAt(GreetEntry().steps, "menu", 2);
  }

  /** The t extension counts a failed try: the menu again, or the main group. */
  lemma {:induction false} TimeoutRuns(plan: Plan, o: Office, call: Call, s: State, missed: nat, fuel: nat)
    requires InMenu(plan, o, s, "t", 0, missed) && fuel >= 7 + 8 * (1 - missed)
    ensures Run(plan, call, s, fuel) == Ended(s.trace + Missed(o, call, s.waits, missed))
    decreases 2 - missed, 0
  {
    TimeoutSteps(plan, o, call, s, missed);
    var s1 := s.(tries := missed + 1, at := 1);
    RunResumes(plan, call, s, fuel);
    RunResumes(plan, call, s1, fuel - 1);
    if missed == 1 {
      ToRing(plan, o, call, s1.(at := 3), fuel - 2);
    } else {
      AgainStep(plan, o, call, s, missed);
      RunResumes(plan, call, s1.(at := 2), fuel - 2);
      MenuRuns(plan, o, call, s1.(exten := "s", at := 2), 1, fuel - 3);
    }
  }

  // ---- calls from outside ----------------------------------------------------

  /** The numbers an outside call is taken for. The incoming context is meant for
    * whatever number the provider says was dialed (pbx.go:274-275); a name, or a single
    * digit, is not taken. */
  predicate TakenFromOutside(did: string) {
    did == "s" || (|did| >= 2 && (did[0] == '+' || IsDigit(did[0])))
  }

  lemma {:induction false} PlusOrDigit(c: char)
    ensures InSet("+0-9", c) <==> c == '+' || IsDigit(c)
  {
    assert "+0-9"[1..] == "0-9" && "0-9"[3..] == "";
    assert InSet("0-9", c) <==> IsDigit(c);
  }

  lemma {:induction false} AnyNumberPattern(did: string)
    ensures PatternMatches("[+0-9].", did) <==> |did| >= 2 && (did[0] == '+' || IsDigit(did[0]))
  {
    var p := "[+0-9].";
    assert p[1..] == "+0-9" + [']'] + "." && p[6..] == ".";
    SplitCons("+0-9", ".", ']');
    if did != "" {
      PlusOrDigit(did[0]);
    }
  }

  lemma {:induction false} FindIncoming(o: Office, did: string)
    ensures Find(PlanFor(o), "itp-incoming", did)
         == if TakenFromOutside(did) then Some([Step("", Goto(InContext("itp-main", "s")))]) else None
  {
    ContextsOf(o);
    var es := IncomingEntries();
    assert es[1..] == [es[1]];
    FindOne(es[1], did);
    AnyNumberPattern(did);
    assert es[1].pattern[1..] == "[+0-9].";
  }

  /** From the main number: the menu if there is one, else the main group. */
  lemma {:induction false} MainRuns(o: Office, call: Call, s: State, fuel: nat)
    requires s.ctx == "itp-main" && s.exten == "s" && s.at == 0 && s.waits == 0 && fuel >= 23
    ensures Run(PlanFor(o), call, s, fuel) == Ended(s.trace + FromOutside(o, call))
  {
    var plan := PlanFor(o);
    FindMain(o);
    FindRing(o);
    var menu := HasMenu(o.exts, o.ivr);
    var steps := MainEntries(menu)[0].steps;
    var s1 := s.(at := 1);
    RunResumes(plan, call, s, fuel);
    assert OneStep(plan, call, s) == Running(s1);
    RunResumes(plan, call, s1, fuel - 1);
    if menu {
      FindMenu(o);
      var s2 := s.(ctx := "itp-ivr", at := 0);
      assert OneStep(plan, call, s1) == Running(s2);
      GreetRuns(plan, o, call, s2, fuel - 2);
    } else {
      var s2 := s.(ctx := "itp-ring", at := 0);
      assert OneStep(plan, call, s1) == Running(s2);
      RingRuns(plan, o, call, s2, fuel - 2);
    }
  }

  /** The start of the menu: answer, no tries yet. */
  lemma {:induction false} GreetRuns(plan: Plan, o: Office, call: Call, s: State, fuel: nat)
    requires MenuWired(plan, o)
    requires s.ctx == "itp-ivr" && s.exten == "s" && s.at == 0 && fuel >= 21
    ensures Run(plan, call, s, fuel) == Ended(s.trace + ([Answers] + Menu(o, call, s.waits, 0)))
  {
    var s1 := Does(s, Answers).(at := 1);
    var s2 := s1.(tries := 0, at := 2);
    assert OneStep(plan, call, s) == Running(s1);
    assert OneStep(plan, call, s1) == Running(s2);
    RunResumes(plan, call, s, fuel);
    RunResumes(plan, call, s1, fuel - 1);
    MenuRuns(plan, o, call, s2, 0, fuel - 2);
    Assoc(s.trace, [Answers], Menu(o, call, s.waits, 0));
  }

  /** Every call from outside to a number that is taken ends within 24
    * applications, with exactly what the settings say; no other is taken. */
  lemma {:induction false} OutsideCalls(o: Office, call: Call, did: string, fuel: nat)
    requires fuel >= 24
    ensures var start := Begin(PlanFor(o), "itp-incoming", did);
            if TakenFromOutside(did) then start.Some?
              && Run(PlanFor(o), call, start.value, fuel) == Ended(FromOutside(o, call))
            else start.None?
  {
    FindIncoming(o, did);
    if TakenFromOutside(did) {
      FindMain(o);
      var s := State("itp-incoming", did, 0, 0, None, 0, []);
      var s1 := s.(ctx := "itp-main", exten := "s");
      assert OneStep(PlanFor(o), call, s) == Running(s1);
      RunResumes(PlanFor(o), call, s, fuel);
      MainRuns(o, call, s1, fuel - 1);
    }
  }

  // ---- calls from an office phone --------------------------------------------

  lemma {:induction false} FindPhone(exts: seq<Extension>, s: string)
    requires forall i :: 0 <= i < |exts| ==> ValidNumber(exts[i].number)
    ensures FindExact(PhoneEntries(exts), s) == if IsNumberOf(exts, s) then Some(PhoneEntry(s).steps) else None
    ensures FindPattern(PhoneEntries(exts), s) == None
  {
    if exts != [] {
      var init, n := exts[..|exts| - 1], exts[|exts| - 1].number;
      FindPhone(init, s);
      FindExactAppend(PhoneEntries(init), [PhoneEntry(n)], s);
      FindPatternAppend(PhoneEntries(init), [PhoneEntry(n)], s);
      FindOne(PhoneEntry(n), s);
      assert IsNumberOf(exts, s) <==> IsNumberOf(init, s) || n == s;
    }
  }

  lemma {:induction false} FindFeature(s: string)
    ensures FindExact(FeatureEntries(), s) ==
      if s == "0" then Some(FeatureEntries()[0].steps)
      else if s == "*97" then Some(FeatureEntries()[1].steps)
      else if s == "*98" then Some(FeatureEntries()[2].steps)
      else if s == "*43" then Some(FeatureEntries()[3].steps)
      else None
    ensures FindPattern(FeatureEntries(), s) == None
  {
    var es := FeatureEntries();
    FindOne(es[3], s);
    assert es[2..][1..] == [es[3]] && es[1..][1..] == es[2..];
    assert FindExact(es[2..], s) == if s == "*98" then Some(es[2].steps) else FindExact([es[3]], s);
    assert FindExact(es[1..], s) == if s == "*97" then Some(es[1].steps) else FindExact(es[2..], s);
    NoPatterns(es, s);
  }

  lemma {:induction false} OutsidePattern(s: string)
    ensures Matches("_9X.", s) <==> IsOutside(s)
  {
    assert "_9X."[1..] == "9X." && "9X."[1..] == "X." && "X."[1..] == ".";
    if s != "" {
      assert PatternMatches("9X.", s) <==> s[0] == '9' && PatternMatches("X.", s[1..]);
      assert PatternMatches("X.", s[1..]) <==> |s| >= 2 && IsDigit(s[1]) && s[1..][1..] != "";
    }
  }

  /** What a dialed string finds among the phones and features. */
  function InInternalContext(o: Office, s: string): Option<seq<Step>> {
    if IsNumberOf(o.exts, s) then Some(PhoneEntry(s).steps)
    else if s == "0" then Some(FeatureEntries()[0].steps)
    else if s == "*97" then Some(FeatureEntries()[1].steps)
    else if s == "*98" then Some(FeatureEntries()[2].steps)
    else if s == "*43" then Some(FeatureEntries()[3].steps)
    else if s == "*50" && HasMenu(o.exts, o.ivr) then Some(TryMenuEntry().steps)
    else if s == "*99" && HasRecorder(o.ivr) then Some(RecorderEntry(o.ivr.recorder).steps)
    else if HasTrunk(o.st) && IsOutside(s) then Some(OutsideSteps(o.st))
    else None
  }

  lemma {:induction false} FindInternal(o: Office, s: string)
    requires ValidExtensions(o.exts)
    ensures Find(PlanFor(o), "itp-internal", s) == InInternalContext(o, s)
  {
    ContextsOf(o);
    FindPhone(o.exts, s);
    FindFeature(s);
    FindExtra(o, s);
    FindExactAppend(PhoneEntries(o.exts), ExtraEntries(o.exts, o.st, HasTrunk(o.st), o.ivr), s);
    FindPatternAppend(PhoneEntries(o.exts), ExtraEntries(o.exts, o.st, HasTrunk(o.st), o.ivr), s);
  }

  lemma {:induction false} FindExtra(o: Office, s: string)
    ensures var es := ExtraEntries(o.exts, o.st, HasTrunk(o.st), o.ivr);
            && FindExact(es, s) == (
              if FindExact(FeatureEntries(), s).Some? then FindExact(FeatureEntries(), s)
              else if s == "*50" && HasMenu(o.exts, o.ivr) then Some(TryMenuEntry().steps)
              else if s == "*99" && HasRecorder(o.ivr) then Some(RecorderEntry(o.ivr.recorder).steps)
              else None)
            && FindPattern(es, s) == if HasTrunk(o.st) && IsOutside(s) then Some(OutsideSteps(o.st)) else None
  {
    var a := FeatureEntries();
    var b := if HasMenu(o.exts, o.ivr) then [TryMenuEntry()] else [];
    var c := if HasRecorder(o.ivr) then [RecorderEntry(o.ivr.recorder)] else [];
    var d := if HasTrunk(o.st) then [Entry("_9X.", OutsideSteps(o.st))] else [];
    FindFeature(s);
    FindOne(TryMenuEntry(), s);
    FindOne(RecorderEntry(o.ivr.recorder), s);
    FindOne(Entry("_9X.", OutsideSteps(o.st)), s);
    OutsidePattern(s);
    FindExactAppend(a + b + c, d, s);
    FindExactAppend(a + b, c, s);
    FindExactAppend(a, b, s);
    FindPatternAppend(a + b + c, d, s);
    FindPatternAppend(a + b, c, s);
    FindPatternAppend(a, b, s);
  }

  lemma {:induction false} PhoneRuns(plan: Plan, call: Call, s: State, fuel: nat)
    requires Find(plan, s.ctx, s.exten) == Some(PhoneEntry(s.exten).steps) && s.at == 0 && fuel >= 3
    ensures Run(plan, call, s, fuel)
         == Ended(s.trace + Ring(call, s.waits, Rings([s.exten], 25), [LeavesMessage(s.exten)]))
  {
    assert [s.exten][..0] == [];
    assert Phones([s.exten]) == [Phone(s.exten)];
    DialThenMail(plan, call, s, PhoneEntry(s.exten).steps, [s.exten], 25, s.exten, fuel);
  }

  lemma {:induction false} MailboxRuns(plan: Plan, call: Call, s: State, box: Box, fuel: nat)
    requires Find(plan, s.ctx, s.exten) == Some([Step("", VoiceMailMain(box)), Step("", Hangup)]) && s.at == 0
             && fuel >= 2
    ensures Run(plan, call, s, fuel)
         == Ended(s.trace + [ReadsMailbox(if box.OwnBox? then call.endpoint else box.number)])
  {
    RunResumes(plan, call, s, fuel);
  }

  lemma {:induction false} EchoRuns(plan: Plan, call: Call, s: State, fuel: nat)
    requires Find(plan, s.ctx, s.exten) == Some(FeatureEntries()[3].steps) && s.at == 0 && fuel >= 4
    ensures Run(plan, call, s, fuel) == Ended(s.trace + [Answers, Plays("demo-echotest"), Echoes])
  {
    var s1 := Does(s, Answers).(at := 1);
    var s2 := Does(s1, Plays("demo-echotest")).(at := 2);
    var s3 := Does(s2, Echoes).(at := 3);
    RunResumes(plan, call, s, fuel);
    RunResumes(plan, call, s1, fuel - 1);
    RunResumes(plan, call, s2, fuel - 2);
    RunResumes(plan, call, s3, fuel - 3);
  }

  lemma {:induction false} RecorderRuns(plan: Plan, call: Call, s: State, number: string, fuel: nat)
    requires Find(plan, s.ctx, s.exten) == Some(RecorderEntry(number).steps) && s.at == 0 && fuel >= 7
    ensures Run(plan, call, s, fuel) == Ended(s.trace +
      (if call.endpoint == number then [Answers, Records(GREETING), Plays(GREETING)] else [Plays("ss-noservice")]))
  {
    var steps := RecorderEntry(number).steps;
    RunResumes(plan, call, s, fuel);
    if call.endpoint == number {
      MarkAt(steps, "ok", 3);
      var s1 := s.(at := 3);
      assert OneStep(plan, call, s) == Running(s1);
      RecordingRuns(plan, call, s1, number, fuel - 1);
    } else {
      var s1 := s.(at := 1);
      var s2 := Does(s1, Plays("ss-noservice")).(at := 2);
      RunResumes(plan, call, s1, fuel - 1);
      RunResumes(plan, call, s2, fuel - 2);
    }
  }

  /** The recorder's own phone is let through to the recording. */
  lemma {:induction false} RecordingRuns(plan: Plan, call: Call, s1: State, number: string, fuel: nat)
    requires Find(plan, s1.ctx, s1.exten) == Some(RecorderEntry(number).steps) && s1.at == 3 && fuel >= 6
    ensures Run(plan, call, s1, fuel) == Ended(s1.trace + [Answers, Records(GREETING), Plays(GREETING)])
  {
    var s2 := Does(s1, Answers).(at := 4);
    var s3 := s2.(at := 5);
    var s4 := Does(s3, Records(GREETING)).(at := 6);
    var s5 := s4.(at := 7);
    var s6 := Does(s5, Plays(GREETING)).(at := 8);
    RunResumes(plan, call, s1, fuel);
    RunResumes(plan, call, s2, fuel - 1);
    RunResumes(plan, call, s3, fuel - 2);
    RunResumes(plan, call, s4, fuel - 3);
    RunResumes(plan, call, s5, fuel - 4);
    RunResumes(plan, call, s6, fuel - 5);
  }

  /** Whether a call is blocked: the guard only exists when international calls
    * are off, and compares what follows the 9. */
  lemma {:induction false} OutsideGuard(dialed: string, text: string)
    requires IsOutside(dialed)
    ensures (|dialed| >= 1 + |text| && dialed[1..1 + |text|] == text) <==> text <= dialed[1..]
  {
    if |dialed| >= 1 + |text| {
      assert dialed[1..][..|text|] == dialed[1..1 + |text|];
    }
  }

  lemma {:induction false} BlockedRuns(plan: Plan, call: Call, s: State, st: Settings, fuel: nat)
    requires Find(plan, s.ctx, s.exten) == Some(OutsideSteps(st)) && !st.allowInternational
    requires s.at == |OutsideSteps(st)| - 2 && fuel >= 2
    ensures Run(plan, call, s, fuel) == Ended(s.trace + [Plays("ss-noservice")])
  {
    RunResumes(plan, call, s, fuel);
    RunResumes(plan, call, Does(s, Plays("ss-noservice")).(at := s.at + 1), fuel - 1);
  }

  lemma {:induction false} TrunkRuns(plan: Plan, call: Call, s: State, st: Settings, fuel: nat)
    requires Find(plan, s.ctx, s.exten) == Some(OutsideSteps(st)) && s.exten != ""
    requires s.at == |OutsideSteps(st)| - 4 && fuel >= 2
    ensures Run(plan, call, s, fuel) == Ended(s.trace + [CallsOutside(s.exten[1..], s.callerId, 60)])
  {
    var out := [OutsideLine];
    assert out[0] == OutsideLine;
    RunResumes(plan, call, s, fuel);
    RunResumes(plan, call, Does(s, CallsOutside(s.exten[1..], s.callerId, 60)).(waits := s.waits + 1, at := s.at + 1),
        fuel - 1);
  }

  lemma {:induction false} CallerIdRuns(plan: Plan, call: Call, s: State, st: Settings, fuel: nat)
    requires Find(plan, s.ctx, s.exten) == Some(OutsideSteps(st)) && s.exten != "" && s.callerId == None
    requires s.at == (if st.allowInternational then 1 else 3) && fuel >= 3
    ensures Run(plan, call, s, fuel) == Ended(s.trace +
      [CallsOutside(s.exten[1..], if st.trunkCallerId == "" then None else Some(st.trunkCallerId), 60)])
  {
    if st.trunkCallerId == "" {
      TrunkRuns(plan, call, s, st, fuel);
    } else {
      var s1 := s.(callerId := Some(st.trunkCallerId), at := s.at + 1);
      assert OutsideSteps(st)[s.at].app == Set(CallerId(st.trunkCallerId));
      RunResumes(plan, call, s, fuel);
      TrunkRuns(plan, call, s1, st, fuel - 1);
    }
  }

  /** One guard: blocked when the number starts with `text`, else the next priority. */
  lemma {:induction false} GuardStep(plan: Plan, call: Call, s: State, st: Settings, text: string)
    requires Find(plan, s.ctx, s.exten) == Some(OutsideSteps(st)) && IsOutside(s.exten) && !st.allowInternational
    requires (s.at == 1 && text == "00") || (s.at == 2 && text == "011")
    ensures OneStep(plan, call, s)
         == Running(s.(at := if text <= s.exten[1..] then |OutsideSteps(st)| - 2 else s.at + 1))
  {
    OutsideGuard(s.exten, text);
    MarkAt(OutsideSteps(st), "blocked", |OutsideSteps(st)| - 2);
  }

  /** The two guards, when international calls are off. */
  lemma {:induction false} GuardedRuns(plan: Plan, call: Call, s: State, st: Settings, fuel: nat)
    requires Find(plan, s.ctx, s.exten) == Some(OutsideSteps(st)) && IsOutside(s.exten) && !st.allowInternational
    requires s.at == 1 && s.callerId == None && fuel >= 5
    ensures Run(plan, call, s, fuel) == Ended(s.trace + Outside(st, s.exten))
  {
    var s2, b := s.(at := 2), s.(at := |OutsideSteps(st)| - 2);
    GuardStep(plan, call, s, st, "00");
    RunResumes(plan, call, s, fuel);
    if "00" <= s.exten[1..] {
      BlockedRuns(plan, call, b, st, fuel - 1);
    } else {
      GuardStep(plan, call, s2, st, "011");
      RunResumes(plan, call, s2, fuel - 1);
      if "011" <= s.exten[1..] {
        BlockedRuns(plan, call, b, st, fuel - 2);
      } else {
        CallerIdRuns(plan, call, s.(at := 3), st, fuel - 2);
      }
    }
  }

  /** A call to the outside line. */
  lemma {:induction false} OutsideRuns(plan: Plan, call: Call, s: State, st: Settings, fuel: nat)
    requires Find(plan, s.ctx, s.exten) == Some(OutsideSteps(st)) && IsOutside(s.exten)
    requires s.at == 0 && s.callerId == None && fuel >= 6
    ensures Run(plan, call, s, fuel) == Ended(s.trace + Outside(st, s.exten))
  {
    var s1 := s.(at := 1);
    RunResumes(plan, call, s, fuel);
    assert OneStep(plan, call, s) == Running(s1);
    if st.allowInternational {
      CallerIdRuns(plan, call, s1, st, fuel - 1);
    } else {
      GuardedRuns(plan, call, s1, st, fuel - 1);
    }
  }

  lemma {:induction false} TryMenuRuns(o: Office, call: Call, s: State, fuel: nat)
    requires HasMenu(o.exts, o.ivr) && Find(PlanFor(o), s.ctx, s.exten) == Some(TryMenuEntry().steps)
    requires s.at == 0 && fuel >= 22
    ensures Run(PlanFor(o), call, s, fuel) == Ended(s.trace + ([Answers] + Menu(o, call, s.waits, 0)))
  {
    FindMenu(o);
    ToMenuRuns(PlanFor(o), o, call, s, fuel);
  }

  lemma {:induction false} ToMenuRuns(plan: Plan, o: Office, call: Call, s: State, fuel: nat)
    requires MenuWired(plan, o) && Find(plan, s.ctx, s.exten) == Some(TryMenuEntry().steps)
    requires s.at == 0 && fuel >= 22
    ensures Run(plan, call, s, fuel) == Ended(s.trace + ([Answers] + Menu(o, call, s.waits, 0)))
  {
    var s1 := s.(ctx := "itp-ivr", exten := "s");
    assert OneStep(plan, call, s) == Running(s1);
    RunResumes(plan, call, s, fuel);
    GreetRuns(plan, o, call, s1, fuel - 1);
  }

  lemma {:induction false} FeatureRuns(o: Office, call: Call, s: State, fuel: nat)
    requires ValidExtensions(o.exts) && fuel >= 23 && !IsNumberOf(o.exts, s.exten)
    requires s == State("itp-internal", s.exten, 0, 0, None, 0, [])
    requires s.exten == "0" || s.exten == "*97" || s.exten == "*98" || s.exten == "*43"
    ensures Run(PlanFor(o), call, s, fuel) == Ended(FromPhone(o, call, s.exten).value)
  {
    var plan := PlanFor(o);
    FindInternal(o, s.exten);
    if s.exten == "0" {
      FindRing(o);
      ToRing(plan, o, call, s, fuel);
    } else if s.exten == "*97" {
      MailboxRuns(plan, call, s, OwnBox, fuel);
    } else if s.exten == "*98" {
      MailboxRuns(plan, call, s, NumberBox("0"), fuel);
    } else {
      EchoRuns(plan, call, s, fuel);
    }
  }

  /** The extensions that are there only with some settings, and the rest. */
  lemma {:induction false} ExtraCalls(o: Office, call: Call, dialed: string, s: State, fuel: nat)
    requires ValidExtensions(o.exts) && fuel >= 23 && s == State("itp-internal", dialed, 0, 0, None, 0, [])
    requires !IsNumberOf(o.exts, dialed) && dialed != "0" && dialed != "*97" && dialed != "*98" && dialed != "*43"
    ensures var start := Begin(PlanFor(o), "itp-internal", dialed);
            match FromPhone(o, call, dialed)
            case Some(meaning) => start.Some? && Run(PlanFor(o), call, start.value, fuel) == Ended(meaning)
            case None => start.None?
  {
    var plan := PlanFor(o);
    FindInternal(o, dialed);
    if dialed == "*50" && HasMenu(o.exts, o.ivr) {
      TryMenuRuns(o, call, s, fuel);
    } else if dialed == "*99" && HasRecorder(o.ivr) {
      RecorderRuns(plan, call, s, o.ivr.recorder, fuel);
    } else if HasTrunk(o.st) && IsOutside(dialed) {
      OutsideRuns(plan, call, s, o.st, fuel);
      assert FromPhone(o, call, dialed) == Some(Outside(o.st, dialed));
    } else {
      assert FromPhone(o, call, dialed) == None;
    }
  }

  /** Every call from an office phone ends within 23 applications, with exactly
    * what the settings say; a number not in use is not taken at all. */
  lemma {:induction false} PhoneCalls(o: Office, call: Call, dialed: string, fuel: nat)
    requires ValidExtensions(o.exts) && fuel >= 23
    ensures var start := Begin(PlanFor(o), "itp-internal", dialed);
            match FromPhone(o, call, dialed)
            case Some(meaning) => start.Some? && Run(PlanFor(o), call, start.value, fuel) == Ended(meaning)
            case None => start.None?
  {
    var plan := PlanFor(o);
    var s := State("itp-internal", dialed, 0, 0, None, 0, []);
    FindInternal(o, dialed);
    if IsNumberOf(o.exts, dialed) {
      PhoneRuns(plan, call, s, fuel);
    } else if dialed == "0" || dialed == "*97" || dialed == "*98" || dialed == "*43" {
      FeatureRuns(o, call, s, fuel);
    } else {
      ExtraCalls(o, call, dialed, s, fuel);
    }
  }
}
