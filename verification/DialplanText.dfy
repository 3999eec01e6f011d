/** extensions.conf as text: how each line is written, how Asterisk reads an
  * application and its arguments back, and that nothing is lost or changed on the
  * way from the settings to the loaded dial plan. Each application has its own small
  * lemma, for its name, its arguments and the characters that could end them early;
  * the lines and the file are then put together from these. */
module DialplanText {
  import opened Text
  import opened ConfText
  import opened Pbx
  import opened Dialplan
  import opened Asterisk

  // ---- writing ---------------------------------------------------------------

  function DestText(d: Dest): string {
    "PJSIP" + ['/'] + match d case Phone(n) => n case OutsideLine => "${EXTEN:1}@trunk"
  }

  function DestTexts(ds: seq<Dest>): (r: seq<string>)
    ensures |r| == |ds|
  {
    if ds == [] then [] else [DestText(ds[0])] + DestTexts(ds[1..])
  }

  function BoxText(b: Box): string {
    match b case NumberBox(n) => n case OwnBox => "${CHANNEL(endpoint)}"
  }

  function CondText(c: Cond): string {
    match c
    case EndpointIs(n) => Join(["$[", "${CHANNEL(endpoint)}", " = ", n, "]"], '"')
    case DialedPrefix(t) => Join(["$[", PrefixVar(t), " = ", t, "]"], '"')
    case TriesReach(k) => Join(["$[${TRIES}>", NatText(k) + "]"], '=')
  }

  /** ${EXTEN:1:n}, the n characters after the first. */
  function PrefixVar(t: string): string { "${EXTEN:1:" + NatText(|t|) + "}" }

  function AppName(a: App): string {
    match a
    case NoOp(_) => "NoOp"
    case Answer => "Answer"
    case Hangup => "Hangup"
    case Echo => "Echo"
    case Playback(_) => "Playback"
    case Background(_) => "Background"
    case WaitExten(_) => "WaitExten"
    case Wait(_) => "Wait"
    case Record(_) => "Record"
    case Dial(_, _) => "Dial"
    case VoiceMail(_) => "VoiceMail"
    case VoiceMailMain(_) => "VoiceMailMain"
    case Goto(_) => "Goto"
    case GotoIf(_, _) => "GotoIf"
    case Set(_) => "Set"
  }

  function AppArgs(a: App): string {
    match a
    case NoOp(t) => t
    case Answer => ""
    case Hangup => ""
    case Echo => ""
    case Playback(f) => f
    case Background(f) => f
    case WaitExten(n) => NatText(n)
    case Wait(n) => NatText(n)
    case Record(f) => Join([f + ".wav", "5", "120", "k"], ',')
    case Dial(ds, n) => Join([Join(DestTexts(ds), '&'), NatText(n)], ',')
    case VoiceMail(n) => Join([n, "default,u"], '@')
    case VoiceMailMain(b) => Join([BoxText(b), "default,s"], '@')
    case Goto(InContext(c, e)) => Join([c, e, "1"], ',')
    case Goto(AtMark(e, m)) => Join([e, m], ',')
    case Goto(Start(e)) => Join([e, "1"], ',')
    case GotoIf(c, m) => Join([CondText(c), m], '?')
    case Set(Tries(k)) => Join(["TRIES", NatText(k)], '=')
    case Set(TriesUp) => Join(["TRIES", "$[${TRIES}+1]"], '=')
    case Set(CallerId(t)) => Join(["CALLERID(num)", t], '=')
  }

  function AppText(a: App): string { AppName(a) + ['('] + (AppArgs(a) + ")") }

  function ConfOf(l: Line): ConfLine {
    match l
    case Blank => Empty
    case Comment(t) => Note(t)
    case Context(n) => Header(n, "")
    case Exten(p, a) => Arrow("exten", p + [','] + ("1" + [','] + AppText(a)))
    case Same(m, a) => IndentedArrow("same", MarkText(m) + [','] + AppText(a))
  }

  function ConfOfAll(ls: seq<Line>): (r: seq<ConfLine>)
    ensures |r| == |ls|
    ensures forall i :: 0 <= i < |ls| ==> r[i] == ConfOf(ls[i])
  {
    if ls == [] then [] else [ConfOf(ls[0])] + ConfOfAll(ls[1..])
  }

  // ---- reading ---------------------------------------------------------------
  //
  // The reader takes only what it understands to the last character: another channel
  // technology, priority, offset, mailbox context or option reads as nothing.

  /** What stands between a beginning and an end, if the text has both. */
  function Inside(head: string, s: string, tail: string): seq<string> {
    if |head| + |tail| <= |s| && s[..|head|] == head && s[|s| - |tail|..] == tail
    then [s[|head|..|s| - |tail|]] else []
  }

  function ReadNat(s: string): seq<nat> { if s != "" && AllDigits(s) then [NatValue(s)] else [] }

  function ReadDest(s: string): seq<Dest> {
    var to := Inside("PJSIP/", s, "");
    if to == [] then []
    else if to[0] == "${EXTEN:1}@trunk" then [OutsideLine]
    else if AllDigits(to[0]) then [Phone(to[0])]
    else []
  }

  /** All of them, or nothing if one is not understood. */
  function ReadDests(parts: seq<string>): seq<Dest> {
    if parts == [] then []
    else
      var first, rest := ReadDest(parts[0]), ReadDests(parts[1..]);
      if first == [] || (|parts| > 1 && rest == []) then [] else first + rest
  }

  function ReadBox(s: string): seq<Box> {
    if s == "${CHANNEL(endpoint)}" then [OwnBox] else if AllDigits(s) then [NumberBox(s)] else []
  }

  /** A label: small letters. */
  predicate IsMark(s: string) { s != "" && forall i :: 0 <= i < |s| ==> 'a' <= s[i] <= 'z' }

  /** Two quoted texts compared, or the count of tries. The part of the dialed string
    * that is compared starts after its first character and is as long as the text. */
  function ReadCond(s: string): seq<Cond> {
    var quoted := Split(s, '"');
    if |quoted| == 5 then
      if quoted[0] != "$[" || quoted[2] != " = " || quoted[4] != "]" then []
      else if quoted[1] == "${CHANNEL(endpoint)}" then [EndpointIs(quoted[3])]
      else if Inside("${EXTEN:1:", quoted[1], "}") == [NatText(|quoted[3]|)] then [DialedPrefix(quoted[3])]
      else []
    else ReadTries(s)
  }

  function ReadTries(s: string): seq<Cond> {
    var limit := Inside("$[${TRIES}>=", s, "]");
    if limit == [] then []
    else
      var n := ReadNat(limit[0]);
      if n == [] then [] else [TriesReach(n[0])]
  }

  function ReadGoto(parts: seq<string>): seq<Target> {
    if |parts| == 3 && parts[2] == "1" then [InContext(parts[0], parts[1])]
    else if |parts| == 2 && parts[1] == "1" then [Start(parts[0])]
    else if |parts| == 2 && IsMark(parts[1]) then [AtMark(parts[0], parts[1])]
    else []
  }

  function ReadSet(parts: seq<string>): seq<Assign> {
    if |parts| != 2 then []
    else if parts[0] == "CALLERID(num)" then [CallerId(parts[1])]
    else if parts[0] != "TRIES" then []
    else if parts[1] == "$[${TRIES}+1]" then [TriesUp]
    else
      var n := ReadNat(parts[1]);
      if n == [] then [] else [Tries(n[0])]
  }

  /** To a .wav file, 5 seconds of silence or 120 in all, keeping it on a hang-up. */
  function ReadRecord(parts: seq<string>): seq<App> {
    if |parts| != 4 || parts[1] != "5" || parts[2] != "120" || parts[3] != "k" then []
    else
      var file := Inside("", parts[0], ".wav");
      if file == [] then [] else [Record(file[0])]
  }

  function ReadDial(parts: seq<string>): seq<App> {
    if |parts| != 2 then []
    else
      var dests, secs := ReadDests(Split(parts[0], '&')), ReadNat(parts[1]);
      if dests == [] || secs == [] then [] else [Dial(dests, secs[0])]
  }

  /** The number in the mailbox context default, with the unavailable greeting. */
  function ReadVoiceMail(parts: seq<string>): seq<App> {
    if |parts| == 2 && AllDigits(parts[0]) && parts[1] == "default,u" then [VoiceMail(parts[0])] else []
  }

  /** A mailbox of the context default, without asking for the PIN. */
  function ReadVoiceMailMain(parts: seq<string>): seq<App> {
    if |parts| != 2 || parts[1] != "default,s" then []
    else
      var box := ReadBox(parts[0]);
      if box == [] then [] else [VoiceMailMain(box[0])]
  }

  function ReadGotoIf(parts: seq<string>): seq<App> {
    if |parts| != 2 || !IsMark(parts[1]) then []
    else
      var cond := ReadCond(parts[0]);
      if cond == [] then [] else [GotoIf(cond[0], parts[1])]
  }

  function ReadApp(name: string, args: string): seq<App> {
    if name == "NoOp" then [NoOp(args)]
    else if name == "Answer" then if args == "" then [Answer] else []
    else if name == "Hangup" then if args == "" then [Hangup] else []
    else if name == "Echo" then if args == "" then [Echo] else []
    else if name == "Playback" then if ',' in args then [] else [Playback(args)]
    else if name == "Background" then if ',' in args then [] else [Background(args)]
    else if name == "WaitExten" then
      var secs := ReadNat(args);
      if secs == [] then [] else [WaitExten(secs[0])]
    else if name == "Wait" then
      var secs := ReadNat(args);
      if secs == [] then [] else [Wait(secs[0])]
    else if name == "Record" then ReadRecord(Split(args, ','))
    else if name == "Dial" then ReadDial(Split(args, ','))
    else if name == "VoiceMail" then ReadVoiceMail(Split(args, '@'))
    else if name == "VoiceMailMain" then ReadVoiceMailMain(Split(args, '@'))
    else if name == "Goto" then
      var target := ReadGoto(Split(args, ','));
      if target == [] then [] else [Goto(target[0])]
    else if name == "GotoIf" then ReadGotoIf(Split(args, '?'))
    else if name == "Set" then
      var assign := ReadSet(Split(args, '='));
      if assign == [] then [] else [Set(assign[0])]
    else []
  }

  /** What stands between the brackets, if the last one closes the call. */
  function CallArgs(s: string): seq<string> { Inside("", After(s, '('), ")") }

  function ReadAppText(s: string): seq<App> {
    if CallArgs(s) == [] then [] else ReadApp(Before(s, '('), CallArgs(s)[0])
  }

  /** Priority n, with a label or without. */
  function ReadMark(s: string): seq<string> {
    if s == "n" then [""]
    else
      var mark := Inside("n(", s, ")");
      if mark != [] && IsMark(mark[0]) then mark else []
  }

  /** The text of the application in a line: after the extension and the priority, or
    * after the priority. */
  function AppPart(item: Item): string {
    match item
    case Section(_, _) => ""
    case Setting(key, value) => if key == "exten" then After(After(value, ','), ',') else After(value, ',')
  }

  /** One item of the file as a line of the dial plan, given its application. */
  function LineWith(item: Item, app: seq<App>): seq<Line> {
    match item
    case Section(name, template) => if template == "" then [Context(name)] else []
    case Setting(key, value) =>
      var head := Before(value, ',');
      if app == [] then []
      else if key == "exten" then if Before(After(value, ','), ',') == "1" then [Exten(head, app[0])] else []
      else if key == "same" then
        var mark := ReadMark(head);
        if mark == [] then [] else [Same(mark[0], app[0])]
      else []
  }

  function LineOf(item: Item): seq<Line> { LineWith(item, ReadAppText(AppPart(item))) }

  function FlatMap<T, U>(f: T -> seq<U>, items: seq<T>): seq<U> {
    if items == [] then [] else f(items[0]) + FlatMap(f, items[1..])
  }

  function LinesOf(items: seq<Item>): seq<Line> { FlatMap(LineOf, items) }

  /** Asterisk loading the text of an extensions.conf. */
  function LoadText(text: string): Plan { Load(LinesOf(ReadFile(text))) }

  // ---- reading undoes writing ------------------------------------------------

  predicate Unquoted(s: string) {
    forall i :: 0 <= i < |s| ==> s[i] != ',' && s[i] != '=' && s[i] != '?' && s[i] != '"' && s[i] != '@' && s[i] != '&'
                                 && s[i] != '(' && s[i] != '/' && s[i] != '$' && s[i] != '\n' && s[i] != ';'
  }

  predicate GoodCond(c: Cond) {
    match c case EndpointIs(n) => AllDigits(n) case DialedPrefix(t) => AllDigits(t) case TriesReach(_) => true
  }

  /** The applications the generator emits for valid settings. */
  predicate GoodApp(a: App) {
    match a
    case NoOp(t) => Plain(t)
    case Playback(f) => Plain(f) && ',' !in f
    case Background(f) => Plain(f) && ',' !in f
    case Record(f) => Plain(f) && ',' !in f
    case Dial(ds, _) => ds != [] && forall i :: 0 <= i < |ds| ==> ds[i].Phone? ==> AllDigits(ds[i].number)
    case VoiceMail(n) => AllDigits(n)
    case VoiceMailMain(b) => b.NumberBox? ==> AllDigits(b.number)
    case Goto(InContext(c, e)) => Unquoted(c) && Unquoted(e)
    case Goto(AtMark(e, m)) => Unquoted(e) && IsMark(m)
    case Goto(Start(e)) => Unquoted(e)
    case GotoIf(c, m) => GoodCond(c) && IsMark(m)
    case Set(CallerId(t)) => Unquoted(t)
    case _ => true
  }

  lemma {:induction false} JoinTwo(a: string, b: string, c: char)
    ensures Join([a, b], c) == a + [c] + b
  {
    assert [a, b][1..] == [b];
  }

  lemma {:induction false} InsideReads(head: string, middle: string, tail: string)
    ensures Inside(head, head + middle + tail, tail) == [middle]
  {
    var s := head + middle + tail;
    assert s[..|head|] == head && s[|s| - |tail|..] == tail && s[|head|..|s| - |tail|] == middle;
  }

  lemma {:induction false} ReadNatText(n: nat)
    ensures ReadNat(NatText(n)) == [n]
  {
    NatRoundTrip(n);
  }

  /** Free of everything the reader cuts or ends a line at. */
  predicate Uncut(s: string) {
    '&' !in s && ',' !in s && ';' !in s && '\n' !in s
  }

  /** A run of digits is never one of the file's variables. */
  lemma {:induction false} NotVariable(s: string)
    ensures AllDigits(s) ==> s != "${EXTEN:1}@trunk" && s != "${CHANNEL(endpoint)}"
  {
    assert !IsDigit("${EXTEN:1}@trunk"[0]) && !IsDigit("${CHANNEL(endpoint)}"[0]);
  }

  lemma {:induction false} DestReads(d: Dest)
    requires d.Phone? ==> AllDigits(d.number)
    ensures ReadDest(DestText(d)) == [d]
  {
    var t := match d case Phone(n) => n case OutsideLine => "${EXTEN:1}@trunk";
    assert DestText(d) == "PJSIP/" + t + "";
    InsideReads("PJSIP/", t, "");
    NotVariable(t);
  }

  lemma {:induction false} DestUncut(d: Dest)
    requires d.Phone? ==> AllDigits(d.number)
    ensures Uncut(DestText(d))
  {
    assert Uncut("PJSIP" + ['/']);
    if d.OutsideLine? {
      assert Uncut("${EXTEN:1}@trunk");
    }
  }

  lemma {:induction false} DestsRead(ds: seq<Dest>)
    requires forall i :: 0 <= i < |ds| ==> ds[i].Phone? ==> AllDigits(ds[i].number)
    ensures ReadDests(DestTexts(ds)) == ds
    ensures forall i :: 0 <= i < |ds| ==> Uncut(DestTexts(ds)[i])
  {
    if ds != [] {
      var rest := ds[1..];
      DestReads(ds[0]);
      DestUncut(ds[0]);
      DestsRead(rest);
      assert DestTexts(ds) == [DestText(ds[0])] + DestTexts(rest);
      assert DestTexts(ds)[1..] == DestTexts(rest);
      assert ds == [ds[0]] + rest;
    }
  }

  lemma {:induction false} JoinFree(parts: seq<string>, c: char, x: char)
    requires AllFree(parts, x) && c != x
    ensures x !in Join(parts, c)
  {
    if |parts| > 1 {
      JoinFree(parts[1..], c, x);
    }
  }

  lemma {:induction false} DialReads(ds: seq<Dest>, n: nat)
    requires GoodApp(Dial(ds, n))
    ensures ReadDial(Split(AppArgs(Dial(ds, n)), ',')) == [Dial(ds, n)]
  {
    DestsRead(ds);
    assert AllFree(DestTexts(ds), ',') && AllFree(DestTexts(ds), '&');
    JoinFree(DestTexts(ds), '&', ',');
    SplitJoin([Join(DestTexts(ds), '&'), NatText(n)], ',');
    SplitJoin(DestTexts(ds), '&');
    ReadNatText(n);
  }

  /** The four ways a condition's text could be cut in the wrong place. */
  predicate CondUncut(s: string) { '?' !in s && ';' !in s && '\n' !in s }

  lemma {:induction false} QuotedReads(parts: seq<string>)
    requires |parts| == 5 && AllFree(parts, '"')
    requires forall i :: 0 <= i < 5 ==> CondUncut(parts[i])
    ensures Split(Join(parts, '"'), '"') == parts && CondUncut(Join(parts, '"'))
  {
    SplitJoin(parts, '"');
    JoinFree(parts, '"', '?');
    JoinFree(parts, '"', ';');
    JoinFree(parts, '"', '\n');
  }

  lemma {:induction false} EndpointReads(n: string)
    requires AllDigits(n)
    ensures ReadCond(CondText(EndpointIs(n))) == [EndpointIs(n)] && CondUncut(CondText(EndpointIs(n)))
  {
    QuotedReads(["$[", "${CHANNEL(endpoint)}", " = ", n, "]"]);
  }

  lemma {:induction false} PrefixReads(t: string)
    requires AllDigits(t)
    ensures ReadCond(CondText(DialedPrefix(t))) == [DialedPrefix(t)] && CondUncut(CondText(DialedPrefix(t)))
  {
    var parts := ["$[", PrefixVar(t), " = ", t, "]"];
    PrefixVarReads(t);
    QuotedReads(parts);
    assert CondText(DialedPrefix(t)) == Join(parts, '"');
  }

  lemma {:induction false} PrefixVarReads(t: string)
    ensures Inside("${EXTEN:1:", PrefixVar(t), "}") == [NatText(|t|)]
    ensures PrefixVar(t) != "${CHANNEL(endpoint)}"
    ensures CondUncut(PrefixVar(t)) && '"' !in PrefixVar(t)
  {
    InsideReads("${EXTEN:1:", NatText(|t|), "}");
    assert PrefixVar(t)[2] == 'E' && "${CHANNEL(endpoint)}"[2] == 'C';
  }

  lemma {:induction false} TriesText(k: nat)
    ensures CondText(TriesReach(k)) == "$[${TRIES}>=" + NatText(k) + "]"
  {
    var start := "$[${TRIES}>";
    JoinTwo(start, NatText(k) + "]", '=');
    assert "$[${TRIES}>=" == start + ['='];
    Assoc(start + ['='], NatText(k), "]");
  }

  lemma {:induction false} TriesRead(k: nat)
    ensures ReadCond(CondText(TriesReach(k))) == [TriesReach(k)] && CondUncut(CondText(TriesReach(k)))
  {
    TriesText(k);
    InsideReads("$[${TRIES}>=", NatText(k), "]");
    ReadNatText(k);
    TriesUncut(k);
    SplitFree(CondText(TriesReach(k)), '"');
  }

  lemma {:induction false} TriesUncut(k: nat)
    ensures CondUncut(CondText(TriesReach(k))) && '"' !in CondText(TriesReach(k))
  {
    JoinTwo("$[${TRIES}>", NatText(k) + "]", '=');
  }

  lemma {:induction false} CondReads(c: Cond)
    requires GoodCond(c)
    ensures ReadCond(CondText(c)) == [c] && CondUncut(CondText(c))
  {
    match c {
      case EndpointIs(n) => EndpointReads(n);
      case DialedPrefix(t) => PrefixReads(t);
      case TriesReach(k) => TriesRead(k);
    }
  }

  lemma {:induction false} BoxReads(b: Box)
    requires b.NumberBox? ==> AllDigits(b.number)
    ensures ReadBox(BoxText(b)) == [b] && '@' !in BoxText(b)
  {
    NotVariable(BoxText(b));
  }

  lemma {:induction false} GotoReads(t: Target)
    requires GoodApp(Goto(t))
    ensures ReadGoto(Split(AppArgs(Goto(t)), ',')) == [t]
  {
    match t {
      case InContext(c, e) => SplitJoin([c, e, "1"], ',');
      case AtMark(e, m) =>
        SplitJoin([e, m], ',');
        assert m != "1" by {
          assert !('a' <= "1"[0]);
        }
      case Start(e) => SplitJoin([e, "1"], ',');
    }
  }

  lemma {:induction false} SetReads(a: Assign)
    requires GoodApp(Set(a))
    ensures ReadSet(Split(AppArgs(Set(a)), '=')) == [a]
  {
    match a {
      case Tries(k) =>
        SplitJoin(["TRIES", NatText(k)], '=');
        ReadNatText(k);
        assert !IsDigit("$[${TRIES}+1]"[0]);
      case TriesUp => SplitJoin(["TRIES", "$[${TRIES}+1]"], '=');
      case CallerId(t) => SplitJoin(["CALLERID(num)", t], '=');
    }
  }

  lemma {:induction false} RecordReads(f: string)
    requires ',' !in f
    ensures ReadRecord(Split(AppArgs(Record(f)), ',')) == [Record(f)]
  {
    SplitJoin([f + ".wav", "5", "120", "k"], ',');
    assert f + ".wav" == "" + f + ".wav";
    InsideReads("", f, ".wav");
  }

  lemma {:induction false} GotoIfReads(c: Cond, m: string)
    requires GoodApp(GotoIf(c, m))
    ensures ReadGotoIf(Split(AppArgs(GotoIf(c, m)), '?')) == [GotoIf(c, m)]
  {
    CondReads(c);
    SplitJoin([CondText(c), m], '?');
  }

  lemma {:induction false} OptionsFree()
    ensures '@' !in "default,u" && '@' !in "default,s"
  {
  }

  lemma {:induction false} TwoSplit(a: string, b: string, c: char)
    requires c !in a && c !in b
    ensures Split(Join([a, b], c), c) == [a, b]
  {
    SplitJoin([a, b], c);
  }

  lemma {:induction false} MailReads(n: string)
    requires AllDigits(n)
    ensures ReadVoiceMail(Split(AppArgs(VoiceMail(n)), '@')) == [VoiceMail(n)]
  {
    OptionsFree();
    TwoSplit(n, "default,u", '@');
  }

  lemma {:induction false} BoxParts(b: Box)
    requires '@' !in BoxText(b)
    ensures Split(AppArgs(VoiceMailMain(b)), '@') == [BoxText(b)] + ["default,s"]
  {
    OptionsFree();
    TwoSplit(BoxText(b), "default,s", '@');
  }

  lemma {:induction false} MainOptions(b: Box, options: seq<string>)
    requires ReadBox(BoxText(b)) == [b] && options == ["default,s"]
    ensures ReadVoiceMailMain([BoxText(b)] + options) == [VoiceMailMain(b)]
  {
  }

  lemma {:induction false} MailMainReads(b: Box)
    requires b.NumberBox? ==> AllDigits(b.number)
    ensures ReadVoiceMailMain(Split(AppArgs(VoiceMailMain(b)), '@')) == [VoiceMailMain(b)]
  {
    BoxReads(b);
    BoxParts(b);
    MainOptions(b, ["default,s"]);
  }

  lemma {:induction false} JumpReads(a: App)
    requires GoodApp(a) && (a.Goto? || a.GotoIf?)
    ensures ReadApp(AppName(a), AppArgs(a)) == [a]
  {
    match a {
      case Goto(t) => GotoReads(t);
      case GotoIf(c, m) => GotoIfReads(c, m);
    }
  }

  lemma {:induction false} CallAppReads(a: App)
    requires GoodApp(a) && (a.Dial? || a.Set?)
    ensures ReadApp(AppName(a), AppArgs(a)) == [a]
  {
    match a {
      case Dial(ds, n) => DialReads(ds, n);
      case Set(x) => SetReads(x);
    }
  }

  lemma {:induction false} SoundReads(a: App)
    requires GoodApp(a) && (a.WaitExten? || a.Wait? || a.Record?)
    ensures ReadApp(AppName(a), AppArgs(a)) == [a]
  {
    match a {
      case WaitExten(n) => ReadNatText(n);
      case Wait(n) => ReadNatText(n);
      case Record(f) => RecordReads(f);
    }
  }

  lemma {:induction false} BoxAppReads(a: App)
    requires GoodApp(a) && (a.VoiceMail? || a.VoiceMailMain?)
    ensures ReadApp(AppName(a), AppArgs(a)) == [a]
  {
    match a {
      case VoiceMail(n) => MailReads(n);
      case VoiceMailMain(b) => MailMainReads(b);
    }
  }

  /** An application reads back as itself. */
  lemma {:induction false} AppReads(a: App)
    requires GoodApp(a)
    ensures ReadApp(AppName(a), AppArgs(a)) == [a]
  {
    if a.Goto? || a.GotoIf? {
      JumpReads(a);
    } else if a.Dial? || a.Set? {
      CallAppReads(a);
    } else if a.WaitExten? || a.Wait? || a.Record? {
      SoundReads(a);
    } else if a.VoiceMail? || a.VoiceMailMain? {
      BoxAppReads(a);
    }
  }

  // ---- whole lines -----------------------------------------------------------

  lemma {:induction false} JoinPlain(parts: seq<string>, c: char)
    requires c != ';' && c != '\n' && forall i :: 0 <= i < |parts| ==> Plain(parts[i])
    ensures Plain(Join(parts, c))
  {
    if |parts| > 1 {
      JoinPlain(parts[1..], c);
    }
  }

  lemma {:induction false} TwoPlain(a: string, b: string, c: char)
    requires c != ';' && c != '\n' && Plain(a) && Plain(b)
    ensures Plain(Join([a, b], c))
  {
    JoinPlain([a, b], c);
  }

  lemma {:induction false} DialPlain(ds: seq<Dest>, n: nat)
    requires GoodApp(Dial(ds, n))
    ensures Plain(AppArgs(Dial(ds, n)))
  {
    DestsRead(ds);
    forall i | 0 <= i < |ds| ensures Plain(DestTexts(ds)[i]) {
      assert Uncut(DestTexts(ds)[i]);
    }
    JoinPlain(DestTexts(ds), '&');
    TwoPlain(Join(DestTexts(ds), '&'), NatText(n), ',');
  }

  lemma {:induction false} SetPlain(a: Assign)
    requires GoodApp(Set(a))
    ensures Plain(AppArgs(Set(a)))
  {
    match a {
      case Tries(k) => JoinPlain(["TRIES", NatText(k)], '=');
      case TriesUp => JoinPlain(["TRIES", "$[${TRIES}+1]"], '=');
      case CallerId(t) => JoinPlain(["CALLERID(num)", t], '=');
    }
  }

  lemma {:induction false} GotoPlain(t: Target)
    requires GoodApp(Goto(t))
    ensures Plain(AppArgs(Goto(t)))
  {
    match t {
      case InContext(c, e) => JoinPlain([c, e, "1"], ',');
      case AtMark(e, m) => JoinPlain([e, m], ',');
      case Start(e) => JoinPlain([e, "1"], ',');
    }
  }

  lemma {:induction false} ArgsPlain(a: App)
    requires GoodApp(a)
    ensures Plain(AppArgs(a))
  {
    match a {
      case Dial(ds, n) => DialPlain(ds, n);
      case Goto(t) => GotoPlain(t);
      case GotoIf(c, m) =>
        CondReads(c);
        JoinPlain([CondText(c), m], '?');
      case Set(x) => SetPlain(x);
      case Record(f) => JoinPlain([f + ".wav", "5", "120", "k"], ',');
      case VoiceMail(n) => JoinPlain([n, "default,u"], '@');
      case VoiceMailMain(b) => JoinPlain([BoxText(b), "default,s"], '@');
      case _ =>
    }
  }

  lemma {:induction false} NamePlain(a: App)
    ensures Plain(AppName(a)) && '(' !in AppName(a)
  {
  }

  /** A call's text falls into its name and its arguments. */
  lemma {:induction false} CallReads(name: string, args: string)
    requires '(' !in name
    ensures var s := name + ['('] + (args + ")"); Before(s, '(') == name && CallArgs(s) == [args]
  {
    BeforeAfter(name, args + ")", '(');
    assert args + ")" == "" + args + ")";
    InsideReads("", args, ")");
  }

  lemma {:induction false} AppTextReads(a: App)
    requires GoodApp(a)
    ensures ReadAppText(AppText(a)) == [a]
  {
    NamePlain(a);
    CallReads(AppName(a), AppArgs(a));
    AppReads(a);
  }

  lemma {:induction false} AppTextPlain(a: App)
    requires GoodApp(a)
    ensures Plain(AppText(a)) && AppText(a) != "" && AppText(a)[|AppText(a)| - 1] == ')'
  {
    NamePlain(a);
    ArgsPlain(a);
  }

  predicate GoodPattern(p: string) {
    p != "" && !IsSpace(p[0]) && Plain(p) && ',' !in p
  }

  predicate GoodLine(l: Line) {
    match l
    case Blank => true
    case Comment(t) => '\n' !in t
    case Context(n) => Plain(n) && ']' !in n
    case Exten(p, a) => GoodPattern(p) && GoodApp(a)
    case Same(m, a) => (m == "" || IsMark(m)) && GoodApp(a)
  }

  /** A value of two parts, closed by a bracket: nothing in it is trimmed or cut. */
  lemma {:induction false} ValueReads(head: string, tail: string)
    requires head != "" && !IsSpace(head[0]) && Plain(head) && ',' !in head
    requires tail != "" && Plain(tail) && tail[|tail| - 1] == ')'
    ensures var value := head + [','] + tail;
            Plain(value) && Trim(value) == value && Before(value, ',') == head && After(value, ',') == tail
  {
    var value := head + [','] + tail;
    BeforeAfter(head, tail, ',');
    assert value[|value| - 1] == ')' && value[0] == head[0];
    TrimTight(value);
  }

  lemma {:induction false} FlatMapOne<T, U>(f: T -> seq<U>, item: T)
    ensures FlatMap(f, [item]) == f(item)
  {
    assert [item][1..] == [];
  }

  lemma {:induction false} FlatMapAppend<T, U>(f: T -> seq<U>, a: seq<T>, b: seq<T>)
    ensures FlatMap(f, a + b) == FlatMap(f, a) + FlatMap(f, b)
  {
    if a == [] {
      assert a + b == b;
    } else {
      assert (a + b)[0] == a[0] && (a + b)[1..] == a[1..] + b;
      FlatMapAppend(f, a[1..], b);
    }
  }

  lemma {:induction false} MeantTight(key: string, value: string)
    requires Trim(key) == key && Trim(value) == value
    ensures Meant(Arrow(key, value)) == Meant(IndentedArrow(key, value)) == [Setting(key, value)]
  {
  }

  lemma {:induction false} ExtenReads(p: string, a: App, text: string)
    requires GoodPattern(p) && Plain(text) && text != "" && text[|text| - 1] == ')'
    ensures var value := p + [','] + ("1" + [','] + text); var item := Setting("exten", value);
            Plain(value) && Trim(value) == value && AppPart(item) == text && LineWith(item, [a]) == [Exten(p, a)]
  {
    ValueReads("1", text);
    ValueReads(p, "1" + [','] + text);
  }

  /** n, or n(<mark>). */
  function MarkText(m: string): string { if m == "" then "n" else "n" + ['('] + (m + ")") }

  lemma {:induction false} MarkReads(m: string)
    requires m == "" || IsMark(m)
    ensures ReadMark(MarkText(m)) == [m] && ',' !in MarkText(m) && Plain(MarkText(m))
    ensures MarkText(m)[0] == 'n'
  {
    if m != "" {
      assert MarkText(m) == "n(" + m + ")";
      InsideReads("n(", m, ")");
    }
  }

  lemma {:induction false} SameReads(m: string, a: App, text: string)
    requires (m == "" || IsMark(m)) && Plain(text) && text != "" && text[|text| - 1] == ')'
    ensures var value := MarkText(m) + [','] + text; var item := Setting("same", value);
            Plain(value) && Trim(value) == value && AppPart(item) == text && LineWith(item, [a]) == [Same(m, a)]
  {
    MarkReads(m);
    ValueReads(MarkText(m), text);
  }

  lemma {:induction false} KeysTight()
    ensures GoodKey("exten") && Trim("exten") == "exten"
    ensures GoodKey("same") && Trim("same") == "same"
  {
    TrimTight("exten");
    TrimTight("same");
  }

  lemma {:induction false} LineReads(l: Line)
    requires GoodLine(l)
    ensures Clean(ConfOf(l))
    ensures LinesOf(Meant(ConfOf(l))) == if IsCode(l) then [l] else []
  {
    match l {
      case Blank =>
      case Comment(_) =>
      case Context(n) =>
        FlatMapOne(LineOf, Section(n, ""));
      case Exten(p, a) =>
        KeysTight();
        AppTextReads(a);
        AppTextPlain(a);
        ExtenReads(p, a, AppText(a));
        MeantTight("exten", p + [','] + ("1" + [','] + AppText(a)));
        FlatMapOne(LineOf, Setting("exten", p + [','] + ("1" + [','] + AppText(a))));
      case Same(m, a) =>
        KeysTight();
        AppTextReads(a);
        AppTextPlain(a);
        SameReads(m, a, AppText(a));
        MeantTight("same", MarkText(m) + [','] + AppText(a));
        FlatMapOne(LineOf, Setting("same", MarkText(m) + [','] + AppText(a)));
    }
  }

  ghost predicate AllGood(ls: seq<Line>) { forall i :: 0 <= i < |ls| ==> GoodLine(ls[i]) }

  /** Good lines, written and read, come back as the lines that carry meaning. */
  lemma {:induction false} MeaningReads(ls: seq<Line>)
    requires AllGood(ls)
    ensures LinesOf(AllMeant(ConfOfAll(ls))) == Code(ls)
  {
    if ls != [] {
      MeaningReads(ls[1..]);
      LineReads(ls[0]);
      assert [ls[0]][..0] == [];
      MeaningNext(ls[0], ls[1..]);
      CodeAppend([ls[0]], ls[1..]);
      assert [ls[0]] + ls[1..] == ls;
    }
  }

  lemma {:induction false} MeaningNext(l: Line, rest: seq<Line>)
    requires LinesOf(Meant(ConfOf(l))) == Code([l])
    ensures LinesOf(AllMeant(ConfOfAll([l] + rest))) == Code([l]) + LinesOf(AllMeant(ConfOfAll(rest)))
  {
    var conf := ConfOfAll([l] + rest);
    assert conf[0] == ConfOf(l) && conf[1..] == ConfOfAll(rest);
    FlatMapAppend(LineOf, Meant(conf[0]), AllMeant(conf[1..]));
  }

  lemma {:induction false} GoodIsClean(ls: seq<Line>)
    requires AllGood(ls)
    ensures forall i :: 0 <= i < |ls| ==> Clean(ConfOf(ls[i]))
  {
    forall i | 0 <= i < |ls| ensures Clean(ConfOf(ls[i])) {
      LineReads(ls[i]);
    }
  }

  lemma {:induction false} FileReads(ls: seq<Line>)
    requires AllGood(ls)
    ensures LoadText(FileText(ConfOfAll(ls))) == Load(ls)
  {
    MeaningReads(ls);
    GoodIsClean(ls);
    ReadsAsMeant(ConfOfAll(ls));
    LoadCode(Loaded(map[], ""), ls);
  }

  // ---- every generated line is good ------------------------------------------

  /** What the admin pages check before the settings are saved. */
  ghost predicate ValidOffice(exts: seq<Extension>, st: Settings, ivr: Ivr) {
    && ValidExtensions(exts)
    && ValidCallerId(st.trunkCallerId)
    && forall i :: 0 <= i < |ivr.options| ==> ValidName(ivr.options[i].name)
  }

  lemma {:induction false} GoodAppend(a: seq<Line>, b: seq<Line>)
    requires AllGood(a) && AllGood(b)
    ensures AllGood(a + b)
  {
  }

  lemma {:induction false} PhoneGood(n: string)
    requires ValidNumber(n)
    ensures AllGood(PhoneLines(n))
  {
  }

  lemma {:induction false} PhonesGood(exts: seq<Extension>)
    requires forall i :: 0 <= i < |exts| ==> ValidNumber(exts[i].number)
    ensures AllGood(AllPhoneLines(exts))
  {
    if exts != [] {
      PhonesGood(exts[..|exts| - 1]);
      PhoneGood(exts[|exts| - 1].number);
    }
  }

  lemma {:induction false} FeaturesGood()
    ensures AllGood(FeatureLines())
  {
    MailGood();
    EchoGood();
    var a := [Exten("0", Goto(InContext("itp-ring", "s"))), Exten("*97", VoiceMailMain(OwnBox)), Same("", Hangup)];
    var b := [Exten("*98", VoiceMailMain(NumberBox("0"))), Same("", Hangup)];
    var c := [Exten("*43", Answer), Same("", Playback("demo-echotest")), Same("", Echo), Same("", Hangup)];
    GoodAppend(a, b);
    GoodAppend(a + b, c);
    assert FeatureLines() == a + b + c;
  }

  lemma {:induction false} MailGood()
    ensures AllGood([Exten("0", Goto(InContext("itp-ring", "s"))), Exten("*97", VoiceMailMain(OwnBox)),
            Same("", Hangup)])
    ensures AllGood([Exten("*98", VoiceMailMain(NumberBox("0"))), Same("", Hangup)])
  {
  }

  lemma {:induction false} EchoGood()
    ensures AllGood([Exten("*43", Answer), Same("", Playback("demo-echotest")), Same("", Echo), Same("", Hangup)])
  {
  }

  lemma {:induction false} RecorderEndGood()
    ensures AllGood([Same("", Playback("ss-noservice")), Same("", Hangup), Same("ok", Answer)])
    ensures AllGood([Same("", Wait(1)), Same("", Record(GREETING)), Same("", Wait(1))])
    ensures AllGood([Same("", Playback(GREETING)), Same("", Hangup)])
  {
    GreetingPlain();
  }

  lemma {:induction false} GreetingPlain()
    ensures Plain(GREETING) && ',' !in GREETING
  {
  }

  lemma {:induction false} RecorderGood(n: string)
    requires ValidNumber(n)
    ensures AllGood(RecorderLines(n))
  {
    RecorderEndGood();
    var a := [Exten("*99", GotoIf(EndpointIs(n), "ok"))];
    var b := [Same("", Playback("ss-noservice")), Same("", Hangup), Same("ok", Answer)];
    var c := [Same("", Wait(1)), Same("", Record(GREETING)), Same("", Wait(1))];
    var d := [Same("", Playback(GREETING)), Same("", Hangup)];
    assert AllGood(a) by {
      GuardGood(n);
    }
    GoodAppend(a, b);
    GoodAppend(a + b, c);
    GoodAppend(a + b + c, d);
    assert RecorderLines(n) == a + b + c + d;
  }

  lemma {:induction false} GuardGood(n: string)
    requires ValidNumber(n)
    ensures GoodLine(Exten("*99", GotoIf(EndpointIs(n), "ok")))
  {
  }

  lemma {:induction false} GuardsGood(st: Settings)
    ensures AllGood(GuardLines(st))
  {
  }

  lemma {:induction false} CallerIdGood(st: Settings)
    requires ValidCallerId(st.trunkCallerId)
    ensures AllGood(CallerIdLines(st))
  {
    var id := st.trunkCallerId;
    var digits := if id != "" && id[0] == '+' then id[1..] else id;
    forall i | 0 <= i < |id| ensures id[i] == '+' || IsDigit(id[i]) {
      if digits != id && i > 0 {
        assert id[i] == digits[i - 1];
      }
    }
  }

  lemma {:induction false} TrunkCallGood()
    ensures AllGood([Exten("_9X.", NoOp("outside call"))]) && AllGood(TrunkCallLines())
  {
  }

  lemma {:induction false} OutsideGood(st: Settings)
    requires ValidCallerId(st.trunkCallerId)
    ensures AllGood(OutsideLines(st))
  {
    GuardsGood(st);
    CallerIdGood(st);
    TrunkCallGood();
    GoodAppend(GuardLines(st), CallerIdLines(st));
    GoodAppend(GuardLines(st) + CallerIdLines(st), TrunkCallLines());
    GoodAppend([Exten("_9X.", NoOp("outside call"))], GuardLines(st) + CallerIdLines(st) + TrunkCallLines());
  }

  lemma {:induction false} InternalGood(exts: seq<Extension>, st: Settings, trunk: bool, ivr: Ivr)
    requires ValidOffice(exts, st, ivr)
    ensures AllGood(InternalLines(exts, st, trunk, ivr))
  {
    var a, b, c := [Context("itp-internal")], AllPhoneLines(exts), FeatureLines();
    var d := if HasMenu(exts, ivr) then [Exten("*50", Goto(InContext("itp-ivr", "s")))] else [];
    var e := if HasRecorder(ivr) then RecorderLines(ivr.recorder) else [];
    var f := if trunk then OutsideLines(st) else [];
    PhonesGood(exts);
    FeaturesGood();
    TryGood();
    if HasRecorder(ivr) {
      RecorderGood(ivr.recorder);
    }
    OutsideGood(st);
    GoodAppend(a, b);
    GoodAppend(a + b, c);
    GoodAppend(a + b + c, d);
    GoodAppend(a + b + c + d, e);
    GoodAppend(a + b + c + d + e, f);
    GoodAppend(a + b + c + d + e + f, [Blank]);
  }

  lemma {:induction false} TryGood()
    ensures AllGood([Context("itp-internal")]) && AllGood([Exten("*50", Goto(InContext("itp-ivr", "s")))])
  {
  }

  lemma {:induction false} PhonesDigits(numbers: seq<string>)
    requires forall i :: 0 <= i < |numbers| ==> AllDigits(numbers[i])
    ensures forall i :: 0 <= i < |numbers| ==> Phones(numbers)[i].Phone? && AllDigits(Phones(numbers)[i].number)
  {
    if numbers != [] {
      PhonesDigits(numbers[..|numbers| - 1]);
    }
  }

  lemma {:induction false} MembersDigits(exts: seq<Extension>)
    requires forall i :: 0 <= i < |exts| ==> ValidNumber(exts[i].number)
    ensures forall i :: 0 <= i < |Members(exts)| ==> AllDigits(Members(exts)[i])
  {
    if exts != [] {
      MembersDigits(exts[..|exts| - 1]);
    }
  }

  lemma {:induction false} LiveDigits(exts: seq<Extension>, targets: seq<string>)
    requires forall i :: 0 <= i < |exts| ==> ValidNumber(exts[i].number)
    ensures forall i :: 0 <= i < |Live(exts, targets)| ==> AllDigits(Live(exts, targets)[i])
  {
    if targets != [] {
      LiveDigits(exts, targets[..|targets| - 1]);
    }
  }

  lemma {:induction false} RingEndGood()
    ensures AllGood([Context("itp-ring"), Exten("s", NoOp("ring the main group"))])
    ensures AllGood([Same("", VoiceMail("0")), Same("", Hangup), Blank])
  {
  }

  lemma {:induction false} RingGood(exts: seq<Extension>)
    requires forall i :: 0 <= i < |exts| ==> ValidNumber(exts[i].number)
    ensures AllGood(RingLines(Members(exts)))
  {
    var members := Members(exts);
    MembersDigits(exts);
    RingEndGood();
    var a := [Context("itp-ring"), Exten("s", NoOp("ring the main group"))];
    var c := [Same("", VoiceMail("0")), Same("", Hangup), Blank];
    if members == [] {
      GoodAppend(a, c);
      assert RingLines(members) == a + c;
    } else {
      RingDialGood(members);
      GoodAppend(a, RingDial(members));
      GoodAppend(a + RingDial(members), c);
      assert RingLines(members) == a + RingDial(members) + c;
    }
  }

  function RingDial(members: seq<string>): seq<Line> { [Same("", Dial(Phones(members), 30))] }

  lemma {:induction false} RingDialGood(members: seq<string>)
    requires members != [] && forall i :: 0 <= i < |members| ==> AllDigits(members[i])
    ensures AllGood(RingDial(members))
  {
    PhonesDigits(members);
  }

  lemma {:induction false} KeyGood(exts: seq<Extension>, o: IvrOption)
    requires forall i :: 0 <= i < |exts| ==> ValidNumber(exts[i].number)
    requires Offered(exts, o) && ValidName(o.name)
    ensures AllGood(KeyLines(exts, o))
  {
    LiveDigits(exts, o.targets);
    PhonesDigits(Live(exts, o.targets));
    KeyTextGood(o);
  }

  lemma {:induction false} KeyTextGood(o: IvrOption)
    requires ValidDigit(o.digit) && ValidName(o.name)
    ensures GoodLine(Comment(o.digit + " = " + o.name)) && GoodLine(Exten(o.digit, NoOp("menu key " + o.digit)))
  {
    assert '\n' !in o.name;
  }

  lemma {:induction false} KeysGood(exts: seq<Extension>, keys: seq<IvrOption>)
    requires forall i :: 0 <= i < |exts| ==> ValidNumber(exts[i].number)
    requires forall i :: 0 <= i < |keys| ==> Offered(exts, keys[i]) && ValidName(keys[i].name)
    ensures AllGood(AllKeyLines(exts, keys))
  {
    if keys != [] {
      KeysGood(exts, keys[..|keys| - 1]);
      KeyGood(exts, keys[|keys| - 1]);
    }
  }

  lemma {:induction false} KeysAreOptions(exts: seq<Extension>, options: seq<IvrOption>)
    requires forall i :: 0 <= i < |options| ==> ValidName(options[i].name)
    ensures forall i :: 0 <= i < |Keys(exts, options)|
                        ==> Offered(exts, Keys(exts, options)[i]) && ValidName(Keys(exts, options)[i].name)
  {
    if options != [] {
      KeysAreOptions(exts, options[..|options| - 1]);
    }
  }

  lemma {:induction false} GreetGood()
    ensures AllGood([Context("itp-ivr"), Exten("s", Answer), Same("", Set(Tries(0))),
            Same("menu", Background(GREETING)), Same("", WaitExten(6))])
  {
    GreetingPlain();
  }

  lemma {:induction false} MenuCountGood()
    ensures AllGood([Exten("0", Goto(InContext("itp-ring", "s"))), Exten("t", Set(TriesUp)),
            Same("", GotoIf(TriesReach(2), "ring"))])
  {
  }

  lemma {:induction false} MenuAgainGood()
    ensures AllGood([Same("", Goto(AtMark("s", "menu"))), Same("ring", Goto(InContext("itp-ring", "s")))])
  {
  }

  lemma {:induction false} MenuInvalidGood()
    ensures AllGood([Exten("i", Playback("pbx-invalid")), Same("", Goto(Start("t"))), Blank])
  {
  }

  lemma {:induction false} MenuGood(exts: seq<Extension>, st: Settings, ivr: Ivr)
    requires ValidOffice(exts, st, ivr)
    ensures AllGood(MenuLines(exts, ivr))
  {
    if HasMenu(exts, ivr) {
      var a := [Context("itp-ivr"), Exten("s", Answer), Same("", Set(Tries(0))), Same("menu", Background(GREETING)),
        Same("", WaitExten(6))];
      var b := AllKeyLines(exts, Keys(exts, ivr.options));
      var c := [Exten("0", Goto(InContext("itp-ring", "s"))), Exten("t", Set(TriesUp)),
        Same("", GotoIf(TriesReach(2), "ring"))];
      var d := [Same("", Goto(AtMark("s", "menu"))), Same("ring", Goto(InContext("itp-ring", "s")))];
      var e := [Exten("i", Playback("pbx-invalid")), Same("", Goto(Start("t"))), Blank];
      GreetGood();
      KeysAreOptions(exts, ivr.options);
      KeysGood(exts, Keys(exts, ivr.options));
      MenuCountGood();
      MenuAgainGood();
      MenuInvalidGood();
      GoodAppend(a, b);
      GoodAppend(c, d);
      GoodAppend(c + d, e);
      GoodAppend(a + b, c + d + e);
      assert MenuLines(exts, ivr) == a + b + (c + d + e);
    }
  }

  lemma {:induction false} MainGood(menu: bool)
    ensures AllGood(MainLines(menu))
  {
    var to := if menu then "itp-ivr" else "itp-ring";
    MainStartGood();
    assert Unquoted(to);
    GoodAppend([Context("itp-main"), Exten("s", NoOp("main number"))], [Same("", Goto(InContext(to, "s"))), Blank]);
    assert MainLines(menu) == [Context("itp-main"), Exten("s", NoOp("main number"))]
                              + [Same("", Goto(InContext(to, "s"))), Blank];
  }

  lemma {:induction false} MainStartGood()
    ensures AllGood([Context("itp-main"), Exten("s", NoOp("main number"))])
  {
  }

  lemma {:induction false} IncomingGood()
    ensures AllGood(IncomingLines())
  {
    IncomingStartGood();
    IncomingNumberGood();
    GoodAppend([Context("itp-incoming"), Exten("s", Goto(InContext("itp-main", "s")))],
               [Exten("_[+0-9].", Goto(InContext("itp-main", "s")))]);
    assert IncomingLines() == [Context("itp-incoming"), Exten("s", Goto(InContext("itp-main", "s")))]
                              + [Exten("_[+0-9].", Goto(InContext("itp-main", "s")))];
  }

  lemma {:induction false} IncomingStartGood()
    ensures AllGood([Context("itp-incoming"), Exten("s", Goto(InContext("itp-main", "s")))])
  {
  }

  lemma {:induction false} IncomingNumberGood()
    ensures AllGood([Exten("_[+0-9].", Goto(InContext("itp-main", "s")))])
  {
  }

  lemma {:induction false} HeaderGood()
    ensures AllGood(HEADER)
  {
  }

  /** The text of extensions.conf, read the way Asterisk reads it, loads as
    * exactly the lines the generator meant. */
  lemma {:induction false} TextLoads(exts: seq<Extension>, st: Settings, trunk: bool, ivr: Ivr)
    requires ValidOffice(exts, st, ivr)
    ensures LoadText(FileText(ConfOfAll(DialplanLines(exts, st, trunk, ivr))))
            == Load(DialplanLines(exts, st, trunk, ivr))
  {
    var a, b := InternalLines(exts, st, trunk, ivr), MainLines(HasMenu(exts, ivr));
    var c, d := RingLines(Members(exts)), MenuLines(exts, ivr);
    HeaderGood();
    InternalGood(exts, st, trunk, ivr);
    MainGood(HasMenu(exts, ivr));
    IncomingGood();
    RingGood(exts);
    MenuGood(exts, st, ivr);
    GoodAppend(HEADER, a);
    GoodAppend(HEADER + a, b);
    GoodAppend(HEADER + a + b, c);
    GoodAppend(HEADER + a + b + c, d);
    GoodAppend(HEADER + a + b + c + d, IncomingLines());
    FileReads(DialplanLines(exts, st, trunk, ivr));
  }
}
