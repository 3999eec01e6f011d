/** How Asterisk runs a call through a loaded dial plan: matching what was
  * dialed, then one application at a time. */
module Calls {
  import opened Options
  import opened Text
  import opened Dialplan
  import opened Asterisk

  // ---- matching --------------------------------------------------------------

  predicate InSet(set_: string, c: char) {
    if |set_| >= 3 && set_[1] == '-' then set_[0] <= c <= set_[2] || InSet(set_[3..], c)
    else |set_| > 0 && (set_[0] == c || InSet(set_[1..], c))
  }

  /** Asterisk patterns, as far as the generator uses them: X is a digit, [..] a
    * set, a final dot one or more of anything. */
  predicate PatternMatches(p: string, s: string) {
    if p == "" then s == ""
    else if p == "." then s != ""
    else if s == "" then false
    else if p[0] == 'X' then IsDigit(s[0]) && PatternMatches(p[1..], s[1..])
    else if p[0] == '[' && ']' in p then
      var parts := Split(p[1..], ']');
      InSet(parts[0], s[0]) && |p| >= |parts[0]| + 2 && PatternMatches(p[|parts[0]| + 2..], s[1..])
    else p[0] == s[0] && PatternMatches(p[1..], s[1..])
  }

  predicate IsPattern(p: string) { p != "" && p[0] == '_' }

  predicate Matches(pattern: string, s: string) {
    if IsPattern(pattern) then PatternMatches(pattern[1..], s) else pattern == s
  }

  function FindExact(es: seq<Entry>, s: string): Option<seq<Step>> {
    if es == [] then None
    else if !IsPattern(es[0].pattern) && es[0].pattern == s then Some(es[0].steps)
    else FindExact(es[1..], s)
  }

  function FindPattern(es: seq<Entry>, s: string): Option<seq<Step>> {
    if es == [] then None
    else if IsPattern(es[0].pattern) && Matches(es[0].pattern, s) then Some(es[0].steps)
    else FindPattern(es[1..], s)
  }

  /** The extension of a context that answers to `s`: a literal one if there is
    * one, else a pattern. */
  function Find(plan: Plan, ctx: string, s: string): Option<seq<Step>> {
    if ctx !in plan then None
    else
      var exact := FindExact(plan[ctx], s);
      if exact.Some? then exact else FindPattern(plan[ctx], s)
  }

  // ---- one call --------------------------------------------------------------

  /** A key of a phone. */
  type Dtmf = c: char | IsDigit(c) || c == '*' || c == '#' || 'A' <= c <= 'D' witness '0'

  /** What the outside world does when the dial plan waits for it. */
  datatype Input = Key(c: Dtmf) | Silence | Answered | NotAnswered | CallerGone {
    /** Nothing a menu reacts to. */
    predicate Silent() { !Key? && !CallerGone? }
  }

  /** The endpoint the call comes from, and what happens at each wait. */
  datatype Call = Call(endpoint: string, input: nat -> Input)

  /** What a caller or the office can observe. */
  datatype Effect =
    | Answers
    | Plays(file: string)
    | Listens(secs: nat)
    | Rings(numbers: seq<string>, secs: nat)
    | CallsOutside(number: string, callerId: Option<string>, secs: nat)
    | LeavesMessage(box: string)
    | ReadsMailbox(box: string)
    | Echoes
    | Records(file: string)

  datatype State = State(ctx: string, exten: string, at: nat, tries: int, callerId: Option<string>, waits: nat,
      trace: seq<Effect>)

  /** A call that jumps to something that is not there, or runs off the end of an
    * extension, is Broken. */
  datatype Outcome = Running(state: State) | Ended(trace: seq<Effect>) | Broken(why: string)

  function MarkIndex(steps: seq<Step>, mark: string): nat {
    if steps == [] || steps[0].mark == mark then 0 else 1 + MarkIndex(steps[1..], mark)
  }

  /** Go to a labelled priority of an extension that must be there. */
  function Jump(plan: Plan, s: State, ctx: string, exten: string, mark: string): Outcome {
    match Find(plan, ctx, exten)
    case None => Broken("no such extension")
    case Some(steps) =>
      var i := if mark == "" then 0 else MarkIndex(steps, mark);
      if i >= |steps| then Broken("no such label") else Running(s.(ctx := ctx, exten := exten, at := i))
  }

  /** A caller's key while the menu waits: that extension, else the invalid one. */
  function PressKey(plan: Plan, s: State, c: Dtmf): Outcome {
    if Find(plan, s.ctx, [c]).Some? then Jump(plan, s, s.ctx, [c], "")
    else Jump(plan, s, s.ctx, "i", "")
  }

  function PhoneNumbers(dests: seq<Dest>): seq<string> {
    if dests == [] then []
    else
      var d := dests[|dests| - 1];
      PhoneNumbers(dests[..|dests| - 1]) + if d.Phone? then [d.number] else []
  }

  predicate Holds(cond: Cond, call: Call, s: State) {
    match cond
    case EndpointIs(n) => call.endpoint == n
    case DialedPrefix(text) => |s.exten| >= 1 && |s.exten| >= 1 + |text| && s.exten[1..1 + |text|] == text
    case TriesReach(limit) => s.tries >= limit
  }

  function Assigned(assign: Assign, s: State): State {
    match assign
    case Tries(v) => s.(tries := v)
    case TriesUp => s.(tries := s.tries + 1)
    case CallerId(text) => s.(callerId := Some(text))
  }

  function Does(s: State, e: Effect): State { s.(trace := s.trace + [e]) }

  function Next(s: State): Outcome { Running(s.(at := s.at + 1)) }

  function Execute(plan: Plan, call: Call, s: State, app: App): Outcome {
    match app
    case NoOp(_) => Next(s)
    case Wait(_) => Next(s)
    case Answer => Next(Does(s, Answers))
    case Hangup => Ended(s.trace)
    case Echo => Next(Does(s, Echoes))
    case Playback(file) => Next(Does(s, Plays(file)))
    case Record(file) => Next(Does(s, Records(file)))
    case Background(file) =>
      var s' := Does(s, Plays(file)).(waits := s.waits + 1);
      (match call.input(s.waits)
       case Key(c) => PressKey(plan, s', c)
       case CallerGone => Ended(s'.trace)
       case _ => Next(s'))
    case WaitExten(secs) =>
      var s' := Does(s, Listens(secs)).(waits := s.waits + 1);
      (match call.input(s.waits)
       case Key(c) => PressKey(plan, s', c)
       case CallerGone => Ended(s'.trace)
       case _ => Jump(plan, s', s.ctx, "t", ""))
    case Dial(dests, secs) =>
      var ring := if OutsideLine in dests
                  then CallsOutside(if s.exten == "" then "" else s.exten[1..], s.callerId, secs)
                  else Rings(PhoneNumbers(dests), secs);
      var s' := Does(s, ring).(waits := s.waits + 1);
      if call.input(s.waits).Answered? || call.input(s.waits).CallerGone? then Ended(s'.trace) else Next(s')
    case VoiceMail(n) => Next(Does(s, LeavesMessage(n)))
    case VoiceMailMain(box) => Next(Does(s, ReadsMailbox(if box.OwnBox? then call.endpoint else box.number)))
    case Goto(InContext(ctx, ext)) => Jump(plan, s, ctx, ext, "")
    case Goto(AtMark(ext, mark)) => Jump(plan, s, s.ctx, ext, mark)
    case Goto(Start(ext)) => Jump(plan, s, s.ctx, ext, "")
    case GotoIf(cond, mark) => if Holds(cond, call, s) then Jump(plan, s, s.ctx, s.exten, mark) else Next(s)
    case Set(assign) => Next(Assigned(assign, s))
  }

  function OneStep(plan: Plan, call: Call, s: State): Outcome {
    match Find(plan, s.ctx, s.exten)
    case None => Broken("no such extension")
    case Some(steps) => if s.at >= |steps| then Broken("ran off the end") else Execute(plan, call, s, steps[s.at].app)
  }

  /** At most `fuel` applications. */
  function Run(plan: Plan, call: Call, s: State, fuel: nat): Outcome
    decreases fuel
  {
    if fuel == 0 then Running(s)
    else
      match OneStep(plan, call, s)
      case Running(s') => Run(plan, call, s', fuel - 1)
      case o => o
  }

  /** A call that arrives for `dialed`: None when nothing answers to it. */
  function Begin(plan: Plan, ctx: string, dialed: string): Option<State> {
    if Find(plan, ctx, dialed).Some? then Some(State(ctx, dialed, 0, 0, None, 0, [])) else None
  }
}
