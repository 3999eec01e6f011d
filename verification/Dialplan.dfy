/** The dial plan file: its lines, the generator that writes them line by line,
  * and the table of contexts Asterisk builds when it loads them. */
module Dialplan {
  import opened Text
  import opened ConfText
  import opened Pbx

  // ---- one line --------------------------------------------------------------

  datatype Dest = Phone(number: string) | OutsideLine   // PJSIP/<n>, PJSIP/${EXTEN:1}@trunk
  datatype Box = NumberBox(number: string) | OwnBox     // <n>@default, ${CHANNEL(endpoint)}@default
  datatype Target = InContext(ctx: string, ext: string) | AtMark(ext: string, mark: string) | Start(ext: string)
  datatype Cond =
    | EndpointIs(number: string)                        // "${CHANNEL(endpoint)}" = "<n>"
    | DialedPrefix(text: string)                        // "${EXTEN:1:|text|}" = "<text>"
    | TriesReach(limit: nat)                            // ${TRIES}>=<limit>
  datatype Assign = Tries(value: nat) | TriesUp | CallerId(text: string)

  datatype App =
    | NoOp(text: string)
    | Answer
    | Hangup
    | Echo
    | Playback(file: string)
    | Background(file: string)
    | WaitExten(secs: nat)
    | Wait(secs: nat)
    | Record(file: string)
    | Dial(dests: seq<Dest>, secs: nat)
    | VoiceMail(number: string)
    | VoiceMailMain(box: Box)
    | Goto(target: Target)
    | GotoIf(cond: Cond, mark: string)
    | Set(assign: Assign)

  datatype Line =
    | Blank
    | Comment(text: string)
    | Context(name: string)
    | Exten(pattern: string, app: App)                  // exten => <pattern>,1,<app>
    | Same(mark: string, app: App)                      // same => n(<mark>),<app>

  const HEADER := [Comment(FILE_NOTE), Blank]

  // ---- the generator ---------------------------------------------------------

  function PhoneLines(n: string): seq<Line> {
    [Exten(n, Dial([Phone(n)], 25)), Same("", VoiceMail(n)), Same("", Hangup)]
  }

  function AllPhoneLines(exts: seq<Extension>): seq<Line> {
    if exts == [] then [] else AllPhoneLines(exts[..|exts| - 1]) + PhoneLines(exts[|exts| - 1].number)
  }

  function FeatureLines(): seq<Line> {
    [ Exten("0", Goto(InContext("itp-ring", "s"))),
      Exten("*97", VoiceMailMain(OwnBox)),
      Same("", Hangup),
      Exten("*98", VoiceMailMain(NumberBox("0"))),
      Same("", Hangup),
      Exten("*43", Answer),
      Same("", Playback("demo-echotest")),
      Same("", Echo),
      Same("", Hangup) ]
  }

  function RecorderLines(number: string): seq<Line> {
    [ Exten("*99", GotoIf(EndpointIs(number), "ok")),
      Same("", Playback("ss-noservice")),
      Same("", Hangup),
      Same("ok", Answer),
      Same("", Wait(1)),
      Same("", Record(GREETING)),
      Same("", Wait(1)),
      Same("", Playback(GREETING)),
      Same("", Hangup) ]
  }

  function GuardLines(st: Settings): seq<Line> {
    if st.allowInternational then []
    else [Same("", GotoIf(DialedPrefix("00"), "blocked")), Same("", GotoIf(DialedPrefix("011"), "blocked"))]
  }

  function CallerIdLines(st: Settings): seq<Line> {
    if st.trunkCallerId == "" then [] else [Same("", Set(CallerId(st.trunkCallerId)))]
  }

  function TrunkCallLines(): seq<Line> {
    [Same("", Dial([OutsideLine], 60)), Same("", Hangup), Same("blocked", Playback("ss-noservice")), Same("", Hangup)]
  }

  function OutsideLines(st: Settings): seq<Line> {
    [Exten("_9X.", NoOp("outside call"))] + (GuardLines(st) + CallerIdLines(st) + TrunkCallLines())
  }

  function InternalLines(exts: seq<Extension>, st: Settings, trunk: bool, ivr: Ivr): seq<Line> {
    [Context("itp-internal")] + AllPhoneLines(exts) + FeatureLines()
    + (if HasMenu(exts, ivr) then [Exten("*50", Goto(InContext("itp-ivr", "s")))] else [])
    + (if HasRecorder(ivr) then RecorderLines(ivr.recorder) else [])
    + (if trunk then OutsideLines(st) else [])
    + [Blank]
  }

  function MainLines(menu: bool): seq<Line> {
    [ Context("itp-main"),
      Exten("s", NoOp("main number")),
      Same("", Goto(InContext(if menu then "itp-ivr" else "itp-ring", "s"))),
      Blank ]
  }

  function RingLines(members: seq<string>): seq<Line> {
    [Context("itp-ring"), Exten("s", NoOp("ring the main group"))]
    + (if members == [] then [] else [Same("", Dial(Phones(members), 30))])
    + [Same("", VoiceMail("0")), Same("", Hangup), Blank]
  }

  function Phones(numbers: seq<string>): (ds: seq<Dest>)
    ensures |ds| == |numbers|
  {
    if numbers == [] then [] else Phones(numbers[..|numbers| - 1]) + [Phone(numbers[|numbers| - 1])]
  }

  function KeyLines(exts: seq<Extension>, o: IvrOption): seq<Line> {
    var live := Live(exts, o.targets);
    [ Comment(o.digit + " = " + o.name),
      Exten(o.digit, NoOp("menu key " + o.digit)),
      Same("", Dial(Phones(live), 25)),
      Same("", VoiceMail(Mailbox(live))),
      Same("", Hangup) ]
  }

  function AllKeyLines(exts: seq<Extension>, keys: seq<IvrOption>): seq<Line> {
    if keys == [] then [] else AllKeyLines(exts, keys[..|keys| - 1]) + KeyLines(exts, keys[|keys| - 1])
  }

  function MenuLines(exts: seq<Extension>, ivr: Ivr): seq<Line> {
    if !HasMenu(exts, ivr) then []
    else
      [ Context("itp-ivr"),
        Exten("s", Answer),
        Same("", Set(Tries(0))),
        Same("menu", Background(GREETING)),
        Same("", WaitExten(6)) ]
      + AllKeyLines(exts, Keys(exts, ivr.options))
      + [ Exten("0", Goto(InContext("itp-ring", "s"))),
          Exten("t", Set(TriesUp)),
          Same("", GotoIf(TriesReach(2), "ring")),
          Same("", Goto(AtMark("s", "menu"))),
          Same("ring", Goto(InContext("itp-ring", "s"))),
          Exten("i", Playback("pbx-invalid")),
          Same("", Goto(Start("t"))),
          Blank ]
  }

  function IncomingLines(): seq<Line> {
    [ Context("itp-incoming"),
      Exten("s", Goto(InContext("itp-main", "s"))),
      Exten("_[+0-9].", Goto(InContext("itp-main", "s"))) ]
  }

  function DialplanLines(exts: seq<Extension>, st: Settings, trunk: bool, ivr: Ivr): seq<Line> {
    HEADER + InternalLines(exts, st, trunk, ivr) + MainLines(HasMenu(exts, ivr))
    + RingLines(Members(exts)) + MenuLines(exts, ivr) + IncomingLines()
  }

  // ---- the same, as the loops that write it ----------------------------------

  /** The inner loop of renderMenu: the dial string of one key, and its first target. */
  method LiveDials(exts: seq<Extension>, exists_: set<string>, targets: seq<string>)
    returns (dial: seq<Dest>, first: string)
    requires forall t :: t in exists_ <==> IsNumberOf(exts, t)
    ensures dial == Phones(Live(exts, targets))
    ensures |dial| == 1 ==> first == Live(exts, targets)[0]
  {
    dial, first := [], "";
    ghost var live: seq<string> := [];
    for j := 0 to |targets|
      invariant live == Live(exts, targets[..j])
      invariant dial == Phones(live)
      invariant |live| <= 1 ==> first == if live == [] then "" else live[0]
    {
      assert targets[..j + 1][..j] == targets[..j];
      var t := targets[j];
      if t in exists_ {
        if first == "" {
          first := t;
        }
        assert (live + [t])[..|live|] == live;
        dial, live := dial + [Phone(t)], live + [t];
      }
    }
    assert targets[..|targets|] == targets;
  }

  /** One key of the menu, unless none of its targets is there or it is no digit. */
  method RenderKey(exts: seq<Extension>, exists_: set<string>, o: IvrOption) returns (offered: bool, lines: seq<Line>)
    requires forall t :: t in exists_ <==> IsNumberOf(exts, t)
    ensures offered == Offered(exts, o)
    ensures lines == if offered then KeyLines(exts, o) else []
  {
    var dial, first := LiveDials(exts, exists_, o.targets);
    PhonesCount(Live(exts, o.targets));
    if |dial| == 0 || !ValidDigit(o.digit) {
      return false, [];
    }
    var mailbox := "0";
    if |dial| == 1 {
      mailbox := first;
    }
    offered := true;
    lines := [ Comment(o.digit + " = " + o.name),
               Exten(o.digit, NoOp("menu key " + o.digit)),
               Same("", Dial(dial, 25)),
               Same("", VoiceMail(mailbox)),
               Same("", Hangup) ];
  }

  lemma {:induction false} PhonesCount(numbers: seq<string>)
    ensures |Phones(numbers)| == |numbers|
  {
    if numbers != [] {
      PhonesCount(numbers[..|numbers| - 1]);
    }
  }

  lemma {:induction false} KeysNext(exts: seq<Extension>, options: seq<IvrOption>, i: nat)
    requires i < |options|
    ensures Keys(exts, options[..i + 1]) == Keys(exts, options[..i]) + if Offered(exts, options[i]) then [options[i]]
            else []
  {
    assert options[..i + 1][..i] == options[..i];
  }

  lemma {:induction false} AllKeyLinesNext(exts: seq<Extension>, keys: seq<IvrOption>, o: IvrOption)
    ensures AllKeyLines(exts, keys + [o]) == AllKeyLines(exts, keys) + KeyLines(exts, o)
  {
    assert (keys + [o])[..|keys + [o]| - 1] == keys;
  }

  /** The keys of the menu in turn. */
  method RenderKeys(exts: seq<Extension>, exists_: set<string>, options: seq<IvrOption>)
    returns (b: seq<Line>, keys: nat)
    requires forall t :: t in exists_ <==> IsNumberOf(exts, t)
    ensures b == AllKeyLines(exts, Keys(exts, options)) && keys == |Keys(exts, options)|
  {
    b, keys := [], 0;
    for i := 0 to |options|
      invariant b == AllKeyLines(exts, Keys(exts, options[..i]))
      invariant keys == |Keys(exts, options[..i])|
    {
      KeysNext(exts, options, i);
      AllKeyLinesNext(exts, Keys(exts, options[..i]), options[i]);
      var offered, lines := RenderKey(exts, exists_, options[i]);
      if !offered {
        assert Keys(exts, options[..i + 1]) == Keys(exts, options[..i]);
        continue;
      }
      b := b + lines;
      keys := keys + 1;
    }
    assert options[..|options|] == options;
  }

  /** renderMenu: the menu context, or nothing when there is none to offer. */
  method RenderMenu(exts: seq<Extension>, ivr: Ivr) returns (menu: seq<Line>)
    ensures menu == MenuLines(exts, ivr)
  {
    if !ivr.enabled || !ivr.hasGreeting {
      return [];
    }
    var exists_ := set i | 0 <= i < |exts| :: exts[i].number;
    var b, keys := RenderKeys(exts, exists_, ivr.options);
    if keys == 0 {
      return [];
    }
    menu := [ Context("itp-ivr"),
              Exten("s", Answer),
              Same("", Set(Tries(0))),
              Same("menu", Background(GREETING)),
              Same("", WaitExten(6)) ]
            + b
            + [ Exten("0", Goto(InContext("itp-ring", "s"))),
                Exten("t", Set(TriesUp)),
                Same("", GotoIf(TriesReach(2), "ring")),
                Same("", Goto(AtMark("s", "menu"))),
                Same("ring", Goto(InContext("itp-ring", "s"))),
                Exten("i", Playback("pbx-invalid")),
                Same("", Goto(Start("t"))),
                Blank ];
  }

  /** What every office phone can dial. */
  method RenderInternal(exts: seq<Extension>, st: Settings, trunk: bool, ivr: Ivr, menu: seq<Line>)
    returns (b: seq<Line>)
    requires menu == MenuLines(exts, ivr)
    ensures b == InternalLines(exts, st, trunk, ivr)
  {
    var phones: seq<Line> := [];
    for i := 0 to |exts|
      invariant phones == AllPhoneLines(exts[..i])
    {
      assert exts[..i + 1][..i] == exts[..i];
      phones := phones + PhoneLines(exts[i].number);
    }
    assert exts[..|exts|] == exts;
    b := [Context("itp-internal")] + phones + FeatureLines();
    var extra: seq<Line> := [];
    if menu != [] {
      extra := [Exten("*50", Goto(InContext("itp-ivr", "s")))];
    }
    b := b + extra;
    extra := [];
    if ivr.recorder != "" && ValidNumber(ivr.recorder) {
      extra := RecorderLines(ivr.recorder);
    }
    b := b + extra;
    extra := [];
    if trunk {
      extra := RenderOutside(st);
    }
    b := b + extra + [Blank];
  }

  /** Calls to the outside line. */
  method RenderOutside(st: Settings) returns (b: seq<Line>)
    ensures b == OutsideLines(st)
  {
    b := [];
    if !st.allowInternational {
      b := b + [Same("", GotoIf(DialedPrefix("00"), "blocked")), Same("", GotoIf(DialedPrefix("011"), "blocked"))];
    }
    if st.trunkCallerId != "" {
      b := b + [Same("", Set(CallerId(st.trunkCallerId)))];
    }
    b := b + [Same("", Dial([OutsideLine], 60)), Same("", Hangup), Same("blocked", Playback("ss-noservice")),
        Same("", Hangup)];
    b := [Exten("_9X.", NoOp("outside call"))] + b;
  }

  /** The main group, rung at once, then the shared mailbox. */
  method RenderRing(exts: seq<Extension>) returns (b: seq<Line>)
    ensures b == RingLines(Members(exts))
  {
    var members: seq<string> := [];
    for i := 0 to |exts|
      invariant members == Members(exts[..i])
    {
      assert exts[..i + 1][..i] == exts[..i];
      if exts[i].inMainGroup {
        members := members + [exts[i].number];
      }
    }
    assert exts[..|exts|] == exts;
    b := [Context("itp-ring"), Exten("s", NoOp("ring the main group"))];
    if |members| > 0 {
      b := b + [Same("", Dial(Phones(members), 30))];
    }
    b := b + [Same("", VoiceMail("0")), Same("", Hangup), Blank];
  }

  /** renderDialplan. */
  method RenderDialplan(exts: seq<Extension>, st: Settings, trunk: bool, ivr: Ivr) returns (b: seq<Line>)
    ensures b == DialplanLines(exts, st, trunk, ivr)
  {
    var menu := RenderMenu(exts, ivr);
    var internal := RenderInternal(exts, st, trunk, ivr, menu);
    var ring := RenderRing(exts);
    b := HEADER + internal + MainLines(menu != []) + ring + menu + IncomingLines();
  }
}
