/** Failed phone sign-ins counted by address, with a log line now and then
  * (modules/voip/service/internal/api/security.go). Times are in seconds. */
module FailureTracker {
  import opened Options
  import opened Text

  const REPEAT := 10        // one attempt is reported several times within this
  const NOTE_EVERY := 600   // between two lines for one address
  const FORGET := 3600      // after the last line

  /** A security event; the reason is None when it is not a failure. */
  datatype Event = Event(reason: Option<string>, remote: string, account: string)

  datatype Failures = Failures(count: nat, logged: int)

  /** What the log line says. */
  datatype Line = Line(addr: string, who: string, reason: string, count: nat)

  /** The address in IPV4/UDP/203.0.113.9/5060. */
  function RemoteIP(remote: string): string {
    var parts := Split(remote, '/');
    if |parts| >= 3 then parts[2] else remote
  }

  function Who(account: string): string { if account == "" then "unknown extension" else "extension " + account }

  datatype State = State(seen: map<string, Failures>, recent: map<string, int>)

  function StillRecent(recent: map<string, int>, now: int): map<string, int> {
    map k | k in recent && now - recent[k] <= REPEAT :: recent[k]
  }

  function StillSeen(seen: map<string, Failures>, now: int): map<string, Failures> {
    map k | k in seen && now - seen[k].logged <= FORGET :: seen[k]
  }

  function CountOf(seen: map<string, Failures>, addr: string): nat { if addr in seen then seen[addr].count else 0 }

  predicate Logs(seen: map<string, Failures>, addr: string, now: int) {
    addr !in seen || seen[addr].count == 0 || now - seen[addr].logged >= NOTE_EVERY
  }

  predicate Counts(s: State, ev: Event, now: int) { ev.reason.Some? && ev.remote !in StillRecent(s.recent, now) }

  function AfterEvent(s: State, ev: Event, now: int): State {
    if ev.reason.None? then s
    else if !Counts(s, ev, now) then s.(recent := StillRecent(s.recent, now))
    else
      var addr, seen := RemoteIP(ev.remote), StillSeen(s.seen, now);
      var logged := if Logs(seen, addr, now) then now else seen[addr].logged;
      State(seen[addr := Failures(CountOf(seen, addr) + 1, logged)], StillRecent(s.recent, now)[ev.remote := now])
  }

  function LineOf(s: State, ev: Event, now: int): Option<Line> {
    if !Counts(s, ev, now) then None
    else
      var addr, seen := RemoteIP(ev.remote), StillSeen(s.seen, now);
      if Logs(seen, addr, now) then Some(Line(addr, Who(ev.account), ev.reason.value, CountOf(seen, addr) + 1))
        else None
  }

  class Tracker {
    var seen: map<string, Failures>
    var recent: map<string, int>

    constructor ()
      ensures seen == map[] && recent == map[]
    {
      seen, recent := map[], map[];
    }

    function St(): State
      reads this
    {
      State(seen, recent)
    }

    /** note. */
    method Note(ev: Event, now: int) returns (line: Option<Line>)
      modifies this
      ensures St() == AfterEvent(old(St()), ev, now)
      ensures line == LineOf(old(St()), ev, now)
    {
      if ev.reason.None? {
        return None;
      }
      var addr := RemoteIP(ev.remote);
      DropOldRecent(now);
      if ev.remote in recent {
        return None;
      }
      recent := recent[ev.remote := now];
      DropOldSeen(now);
      var f := if addr in seen then seen[addr] else Failures(0, 0);
      f := f.(count := f.count + 1);
      seen := seen[addr := f];
      if f.count > 1 && now - f.logged < NOTE_EVERY {
        return None;
      }
      f := f.(logged := now);
      seen := seen[addr := f];
      line := Some(Line(addr, Who(ev.account), ev.reason.value, f.count));
    }

    method DropOldRecent(now: int)
      modifies this`recent
      ensures recent == StillRecent(old(recent), now)
    {
      var left := recent.Keys;
      while left != {}
        invariant left <= old(recent).Keys
        invariant recent == map k | k in old(recent) && (k in left || now - old(recent)[k] <= REPEAT) :: old(recent)[k]
      {
        var k :| k in left;
        left := left - {k};
        if now - recent[k] > REPEAT {
          recent := recent - {k};
        }
      }
    }

    method DropOldSeen(now: int)
      modifies this`seen
      ensures seen == StillSeen(old(seen), now)
    {
      var left := seen.Keys;
      while left != {}
        invariant left <= old(seen).Keys
        invariant seen == map k | k in old(seen) && (k in left || now - old(seen)[k].logged <= FORGET) :: old(seen)[k]
      {
        var k :| k in left;
        left := left - {k};
        if now - seen[k].logged > FORGET {
          seen := seen - {k};
        }
      }
    }
  }

  // ---- runs ------------------------------------------------------------------

  datatype Input = Input(ev: Event, now: int)

  /** The clock does not go back. */
  ghost predicate Rising(ins: seq<Input>) { forall i, j :: 0 <= i < j < |ins| ==> ins[i].now <= ins[j].now }

  datatype Counted = Counted(remote: string, at: int)

  datatype Noted = Noted(line: Line, at: int)

  /** A run: the tracker, every attempt counted so far, every line written, and for
    * each address the attempts counted since it was last forgotten. */
  datatype Run = Run(s: State, counted: seq<Counted>, lines: seq<Noted>, attempts: map<string, seq<int>>)

  const START := Run(State(map[], map[]), [], [], map[])

  function LastLine(lines: seq<Noted>, addr: string): Option<int> {
    if lines == [] then None
    else if lines[|lines| - 1].line.addr == addr then Some(lines[|lines| - 1].at)
    else LastLine(lines[..|lines| - 1], addr)
  }

  /** An address is forgotten when an attempt, from anywhere, is counted more than an
    * hour after the address's last line. */
  function NotForgotten(attempts: map<string, seq<int>>, lines: seq<Noted>, now: int): map<string, seq<int>> {
    map a | a in attempts && LastLine(lines, a).Some? && now - LastLine(lines, a).value <= FORGET :: attempts[a]
  }

  function Step(r: Run, inp: Input): Run {
    var s', line := AfterEvent(r.s, inp.ev, inp.now), LineOf(r.s, inp.ev, inp.now);
    if !Counts(r.s, inp.ev, inp.now) then r.(s := s')
    else
      var addr, kept := RemoteIP(inp.ev.remote), NotForgotten(r.attempts, r.lines, inp.now);
      Run(s', r.counted + [Counted(inp.ev.remote, inp.now)],
          if line.Some? then r.lines + [Noted(line.value, inp.now)] else r.lines,
          kept[addr := (if addr in kept then kept[addr] else []) + [inp.now]])
  }

  function RunOf(ins: seq<Input>): Run {
    if ins == [] then START else Step(RunOf(ins[..|ins| - 1]), ins[|ins| - 1])
  }

  // ---- invariants ------------------------------------------------------------

  ghost predicate CountedApart(counted: seq<Counted>) {
    forall i, j :: 0 <= i < j < |counted| && counted[i].remote == counted[j].remote
      ==> counted[j].at - counted[i].at > REPEAT
  }

  ghost predicate RecentOK(r: Run, now: int) {
    && (forall i :: 0 <= i < |r.counted| ==>
          r.counted[i].at <= now
          && (now - r.counted[i].at > REPEAT
              || (r.counted[i].remote in r.s.recent && r.s.recent[r.counted[i].remote] >= r.counted[i].at)))
    && (forall k :: k in r.s.recent ==> Counted(k, r.s.recent[k]) in r.counted)
  }

  ghost predicate LinesApart(lines: seq<Noted>) {
    forall i, j :: 0 <= i < j < |lines| && lines[i].line.addr == lines[j].line.addr
      ==> lines[j].at - lines[i].at >= NOTE_EVERY
  }

  ghost predicate SeenOK(r: Run, now: int) {
    && (forall i :: 0 <= i < |r.lines| ==>
          now - r.lines[i].at > FORGET
          || (r.lines[i].line.addr in r.s.seen && r.s.seen[r.lines[i].line.addr].logged >= r.lines[i].at))
    && r.s.seen.Keys == r.attempts.Keys
    && (forall a :: a in r.s.seen ==> r.s.seen[a].count == |r.attempts[a]| >= 1
                                      && LastLine(r.lines, a) == Some(r.s.seen[a].logged))
  }

  ghost predicate Inv(r: Run, now: int) {
    CountedApart(r.counted) && RecentOK(r, now) && LinesApart(r.lines) && SeenOK(r, now)
  }

  // ---- one event keeps them --------------------------------------------------

  lemma {:induction false} RecentLater(r: Run, now: int, later: int)
    requires RecentOK(r, now) && now <= later
    ensures RecentOK(r.(s := r.s.(recent := StillRecent(r.s.recent, later))), later)
  {
  }

  lemma {:induction false} CountKeepsRecent(r: Run, inp: Input, now: int)
    requires RecentOK(r, now) && CountedApart(r.counted) && now <= inp.now && Counts(r.s, inp.ev, inp.now)
    ensures RecentOK(Step(r, inp), inp.now) && CountedApart(Step(r, inp).counted)
  {
    var r' := Step(r, inp);
    RecentLater(r, now, inp.now);
    assert r'.counted[|r.counted|] == Counted(inp.ev.remote, inp.now);
    forall k | k in r'.s.recent ensures Counted(k, r'.s.recent[k]) in r'.counted {
      if k != inp.ev.remote {
        assert Counted(k, r.s.recent[k]) in r.counted;
      }
    }
    forall i | 0 <= i < |r.counted| && r.counted[i].remote == inp.ev.remote ensures inp.now - r.counted[i].at > REPEAT {
    }
  }

  lemma {:induction false} LastLineIs(lines: seq<Noted>, addr: string)
    ensures LastLine(lines, addr).Some?
            ==> exists i :: 0 <= i < |lines| && lines[i].line.addr == addr && lines[i].at == LastLine(lines, addr).value
  {
    if lines != [] && lines[|lines| - 1].line.addr != addr {
      LastLineIs(lines[..|lines| - 1], addr);
      var init := lines[..|lines| - 1];
      if LastLine(init, addr).Some? {
        var i :| 0 <= i < |init| && init[i].line.addr == addr && init[i].at == LastLine(init, addr).value;
        assert lines[i] == init[i];
      }
    }
  }

  lemma {:induction false} LastLineSnoc(lines: seq<Noted>, n: Noted, addr: string)
    ensures LastLine(lines + [n], addr) == if n.line.addr == addr then Some(n.at) else LastLine(lines, addr)
  {
    assert (lines + [n])[..|lines + [n]| - 1] == lines;
  }

  /** Time passing without a counted attempt. */
  lemma {:induction false} SeenLater(r: Run, now: int, later: int)
    requires SeenOK(r, now) && now <= later
    ensures SeenOK(r, later)
  {
  }

  lemma {:induction false} SameForgotten(r: Run, now: int, later: int)
    requires SeenOK(r, now) && now <= later
    ensures NotForgotten(r.attempts, r.lines, later).Keys == StillSeen(r.s.seen, later).Keys
    ensures forall a :: a in StillSeen(r.s.seen, later) ==> NotForgotten(r.attempts, r.lines, later)[a] == r.attempts[a]
  {
    forall a ensures a in NotForgotten(r.attempts, r.lines, later) <==> a in StillSeen(r.s.seen, later) {
      if a in r.s.seen {
        assert LastLine(r.lines, a) == Some(r.s.seen[a].logged);
      }
    }
  }

  lemma {:induction false} CountKeepsLines(r: Run, inp: Input, now: int)
    requires SeenOK(r, now) && LinesApart(r.lines) && now <= inp.now && Counts(r.s, inp.ev, inp.now)
    ensures LinesApart(Step(r, inp).lines)
  {
    var addr, seen := RemoteIP(inp.ev.remote), StillSeen(r.s.seen, inp.now);
    if Logs(seen, addr, inp.now) {
      forall i | 0 <= i < |r.lines| && r.lines[i].line.addr == addr ensures inp.now - r.lines[i].at >= NOTE_EVERY {
        if inp.now - r.lines[i].at <= FORGET {
          assert addr in r.s.seen && r.s.seen[addr].logged >= r.lines[i].at;
          assert addr in seen;
        }
      }
    }
  }

  lemma {:induction false} CountKeepsSeen(r: Run, inp: Input, now: int)
    requires SeenOK(r, now) && now <= inp.now && Counts(r.s, inp.ev, inp.now)
    ensures SeenOK(Step(r, inp), inp.now)
  {
    var r' := Step(r, inp);
    SameForgotten(r, now, inp.now);
    LinesNext(r, inp);
    forall i | 0 <= i < |r'.lines|
      ensures inp.now - r'.lines[i].at > FORGET
              || (r'.lines[i].line.addr in r'.s.seen && r'.s.seen[r'.lines[i].line.addr].logged >= r'.lines[i].at)
    {
      if i < |r.lines| {
        assert r'.lines[i] == r.lines[i];
      }
    }
  }

  lemma {:induction false} StepKeeps(r: Run, inp: Input, now: int)
    requires Inv(r, now) && now <= inp.now
    ensures Inv(Step(r, inp), inp.now)
  {
    if Counts(r.s, inp.ev, inp.now) {
      CountKeepsRecent(r, inp, now);
      CountKeepsLines(r, inp, now);
      CountKeepsSeen(r, inp, now);
    } else {
      RecentLater(r, now, inp.now);
      SeenLater(r, now, inp.now);
    }
  }

  lemma {:induction false} RunKeeps(ins: seq<Input>)
    requires Rising(ins) && ins != []
    ensures Inv(RunOf(ins), ins[|ins| - 1].now)
  {
    var init, last := ins[..|ins| - 1], ins[|ins| - 1];
    if init == [] {
      StepKeeps(START, last, last.now);
    } else {
      RunKeeps(init);
      StepKeeps(RunOf(init), last, init[|init| - 1].now);
    }
  }

  // ---- what follows ----------------------------------------------------------

  /** Two lines for one address are at least ten minutes apart. */
  lemma {:induction false} LinesTenMinutesApart(ins: seq<Input>)
    requires Rising(ins)
    ensures var lines := RunOf(ins).lines;
            forall i, j :: 0 <= i < j < |lines| && lines[i].line.addr == lines[j].line.addr
                           ==> lines[j].at - lines[i].at >= 600
  {
    if ins != [] {
      RunKeeps(ins);
    }
  }

  /** A failure is counted if and only if none from the same address and port was
    * counted in the ten seconds before it. */
  lemma {:induction false} CountedIffNotRepeated(ins: seq<Input>, inp: Input)
    requires Rising(ins + [inp])
    ensures (var r := RunOf(ins);
             Counts(r.s, inp.ev, inp.now) <==>
             inp.ev.reason.Some? && !exists i :: 0 <= i < |r.counted| && r.counted[i].remote == inp.ev.remote
                                                 && inp.now - r.counted[i].at <= 10)
  {
    var r := RunOf(ins);
    if ins != [] {
      assert (ins + [inp])[|ins| - 1].now <= (ins + [inp])[|ins|].now;
      forall i, j | 0 <= i < j < |ins| ensures ins[i].now <= ins[j].now {
        assert (ins + [inp])[i].now <= (ins + [inp])[j].now;
      }
      RunKeeps(ins);
      if inp.ev.remote in StillRecent(r.s.recent, inp.now) {
        assert Counted(inp.ev.remote, r.s.recent[inp.ev.remote]) in r.counted;
      }
    }
  }

  /** The count in a line is the number of attempts counted for that address since
    * it was last forgotten, this one included. */
  lemma {:induction false} CountInLine(ins: seq<Input>, inp: Input)
    requires Rising(ins + [inp])
    ensures (var r := RunOf(ins); var line := LineOf(r.s, inp.ev, inp.now);
             line.Some? ==> line.value.addr in Step(r, inp).attempts
                            && line.value.count == |Step(r, inp).attempts[line.value.addr]|)
  {
    var all, r := ins + [inp], RunOf(ins);
    assert all[..|all| - 1] == ins && all[|all| - 1] == inp;
    RunKeeps(all);
    if Counts(r.s, inp.ev, inp.now) {
      assert RemoteIP(inp.ev.remote) in Step(r, inp).s.seen;
    }
  }

  /** A counted failure is written about if and only if nothing was written about its
    * address in the ten minutes before it. The line names the address that stands third
    * between the slashes, the account that was tried, and the reason. */
  lemma {:induction false} LineIff(ins: seq<Input>, inp: Input, family: string, transport: string, addr: string,
          rest: string)
    requires Rising(ins + [inp]) && '/' !in family && '/' !in transport && '/' !in addr
    requires inp.ev.remote == family + ['/'] + (transport + ['/'] + (addr + ['/'] + rest))
    ensures (var r := RunOf(ins); var line := LineOf(r.s, inp.ev, inp.now);
             && (line.Some? <==>
                 && Counts(r.s, inp.ev, inp.now)
                 && (LastLine(r.lines, addr).Some? ==> inp.now - LastLine(r.lines, addr).value >= 600))
             && (line.Some? ==>
                 && line.value.addr == addr && inp.ev.reason == Some(line.value.reason)
                 && line.value.who == if inp.ev.account == "" then "unknown extension"
                                      else "extension " + inp.ev.account))
  {
    var all, r := ins + [inp], RunOf(ins);
    ThirdPart(family, transport, addr, rest);
    if ins != [] {
      assert all[|ins| - 1].now <= all[|ins|].now;
      assert forall i :: 0 <= i < |ins| ==> ins[i] == all[i];
      assert Rising(ins);
      RunKeeps(ins);
    }
    if Counts(r.s, inp.ev, inp.now) {
      NotSeenLongAgo(r, inp, addr, if ins == [] then inp.now else ins[|ins| - 1].now);
    }
  }

  lemma {:induction false} ThirdPart(a: string, b: string, c: string, d: string)
    requires '/' !in a && '/' !in b && '/' !in c
    ensures RemoteIP(a + ['/'] + (b + ['/'] + (c + ['/'] + d))) == c
  {
    SplitCons(a, b + ['/'] + (c + ['/'] + d), '/');
    SplitCons(b, c + ['/'] + d, '/');
    SplitCons(c, d, '/');
  }

  /** An address that is not held, or no longer, has no line of the last ten minutes. */
  lemma {:induction false} NotSeenLongAgo(r: Run, inp: Input, addr: string, now: int)
    requires now <= inp.now && SeenOK(r, now)
    ensures Logs(StillSeen(r.s.seen, inp.now), addr, inp.now) <==>
            LastLine(r.lines, addr).Some? ==> inp.now - LastLine(r.lines, addr).value >= NOTE_EVERY
  {
    SeenLater(r, now, inp.now);
    LastLineIs(r.lines, addr);
    if addr in r.s.seen {
      assert LastLine(r.lines, addr) == Some(r.s.seen[addr].logged);
    }
  }

  lemma {:induction false} RunNext(ins: seq<Input>, inp: Input)
    ensures RunOf(ins + [inp]) == Step(RunOf(ins), inp)
  {
    assert (ins + [inp])[..|ins + [inp]| - 1] == ins;
  }

  // ---- when an address is forgotten ------------------------------------------

  /** The last of the attempts came with the last line, or less than ten minutes after
    * it. */
  ghost predicate SoonAfter(at: seq<int>, line: Option<int>) {
    line.Some? && at != [] && 0 <= at[|at| - 1] - line.value < NOTE_EVERY
  }

  ghost predicate Fresh(r: Run, now: int) {
    forall a :: a in r.attempts ==>
      SoonAfter(r.attempts[a], LastLine(r.lines, a)) && r.attempts[a][|r.attempts[a]| - 1] <= now
  }

  lemma {:induction false} CountKeepsFresh(r: Run, inp: Input, now: int)
    requires SeenOK(r, now) && Fresh(r, now) && now <= inp.now && Counts(r.s, inp.ev, inp.now)
    ensures Fresh(Step(r, inp), inp.now)
  {
    var r', addr := Step(r, inp), RemoteIP(inp.ev.remote);
    SameForgotten(r, now, inp.now);
    LinesNext(r, inp);
    forall a | a in r'.attempts
      ensures SoonAfter(r'.attempts[a], LastLine(r'.lines, a)) && r'.attempts[a][|r'.attempts[a]| - 1] <= inp.now
    {
      if a != addr {
        assert r'.attempts[a] == r.attempts[a];
      } else {
        assert r'.attempts[a][|r'.attempts[a]| - 1] == inp.now;
        OwnLine(r, inp, now);
      }
    }
  }

  /** A counted failure may add a line for its own address. */
  lemma {:induction false} LinesNext(r: Run, inp: Input)
    requires Counts(r.s, inp.ev, inp.now)
    ensures var addr := RemoteIP(inp.ev.remote);
            forall a :: LastLine(Step(r, inp).lines, a) ==
              if a == addr && Logs(StillSeen(r.s.seen, inp.now), addr, inp.now) then Some(inp.now)
              else LastLine(r.lines, a)
  {
    var addr := RemoteIP(inp.ev.remote);
    if Logs(StillSeen(r.s.seen, inp.now), addr, inp.now) {
      forall a ensures LastLine(Step(r, inp).lines, a) == if a == addr then Some(inp.now) else LastLine(r.lines, a) {
        LastLineSnoc(r.lines, Step(r, inp).lines[|r.lines|], a);
      }
    }
  }

  /** After it the address's last line is less than ten minutes old. */
  lemma {:induction false} OwnLine(r: Run, inp: Input, now: int)
    requires SeenOK(r, now) && Fresh(r, now) && now <= inp.now && Counts(r.s, inp.ev, inp.now)
    ensures var line := LastLine(Step(r, inp).lines, RemoteIP(inp.ev.remote));
            line.Some? && 0 <= inp.now - line.value < NOTE_EVERY
  {
    var addr := RemoteIP(inp.ev.remote);
    LinesNext(r, inp);
    if !Logs(StillSeen(r.s.seen, inp.now), addr, inp.now) {
      assert LastLine(r.lines, addr) == Some(r.s.seen[addr].logged);
      assert SoonAfter(r.attempts[addr], LastLine(r.lines, addr));
    }
  }

  lemma {:induction false} RunFresh(ins: seq<Input>)
    requires Rising(ins) && ins != []
    ensures Fresh(RunOf(ins), ins[|ins| - 1].now)
  {
    var init, last := ins[..|ins| - 1], ins[|ins| - 1];
    if init != [] {
      RunFresh(init);
      RunKeeps(init);
    }
    if Counts(RunOf(init).s, last.ev, last.now) {
      CountKeepsFresh(RunOf(init), last, if init == [] then last.now else init[|init| - 1].now);
    }
  }

  /** The attempts counted for the address still count. */
  ghost predicate Remembers(r: Run, r': Run, addr: string) {
    addr in r.attempts && addr in r'.attempts && r.attempts[addr] <= r'.attempts[addr]
  }

  /** An address is forgotten by the first failure counted from anywhere after more than
    * an hour without a counted attempt of its own, and never by one that comes within
    * fifty minutes of such an attempt: the hour is that since its last line. */
  lemma {:induction false} ForgottenAfterQuiet(ins: seq<Input>, inp: Input, addr: string)
    requires Rising(ins + [inp]) && addr in RunOf(ins).attempts
    ensures RunOf(ins).attempts[addr] != []
    ensures (var r := RunOf(ins); var quiet := inp.now - r.attempts[addr][|r.attempts[addr]| - 1];
             && (Counts(r.s, inp.ev, inp.now) && quiet > 3600 ==> !Remembers(r, Step(r, inp), addr))
             && (!Remembers(r, Step(r, inp), addr) ==> Counts(r.s, inp.ev, inp.now) && quiet > 3000))
  {
    var all, r, r' := ins + [inp], RunOf(ins), Step(RunOf(ins), inp);
    assert ins == all[..|ins|];
    assert Rising(ins) by {
      assert forall i :: 0 <= i < |ins| ==> ins[i] == all[i];
    }
    RunFresh(ins);
    assert SoonAfter(r.attempts[addr], LastLine(r.lines, addr));
    var kept := NotForgotten(r.attempts, r.lines, inp.now);
    if Counts(r.s, inp.ev, inp.now) && addr !in kept && addr in r'.attempts {
      assert r'.attempts[addr] == [inp.now];
    }
  }

  /** The state after one attempt, and after one more within ten minutes that is no
    * repeat of the first: one line, and both are counted. */
  lemma {:induction false} FirstAttempt(ev: Event, t0: int)
    requires ev.reason.Some?
    ensures RunOf([Input(ev, t0)]).s == State(map[RemoteIP(ev.remote) := Failures(1, t0)], map[ev.remote := t0])
  {
    assert StillRecent(map[], t0) == map[] && StillSeen(map[], t0) == map[];
    RunNext([], Input(ev, t0));
    assert [] + [Input(ev, t0)] == [Input(ev, t0)];
  }

  lemma {:induction false} SecondAttempt(s: State, ev: Event, t0: int, t1: int)
    requires ev.reason.Some? && REPEAT < t1 - t0 < NOTE_EVERY
    requires s == State(map[RemoteIP(ev.remote) := Failures(1, t0)], map[ev.remote := t0])
    ensures Counts(s, ev, t1)
    ensures AfterEvent(s, ev, t1) == State(map[RemoteIP(ev.remote) := Failures(2, t0)], map[ev.remote := t1])
  {
    assert StillRecent(s.recent, t1) == map[] && StillSeen(s.seen, t1) == s.seen;
  }

  lemma {:induction false} ThirdAttempt(s: State, ev: Event, t0: int, t1: int, t2: int)
    requires ev.reason.Some? && t2 - t1 > REPEAT && t2 - t0 > FORGET
    requires s == State(map[RemoteIP(ev.remote) := Failures(2, t0)], map[ev.remote := t1])
    ensures Counts(s, ev, t2)
    ensures LineOf(s, ev, t2) == Some(Line(RemoteIP(ev.remote), Who(ev.account), ev.reason.value, 1))
  {
    assert StillRecent(s.recent, t2) == map[] && StillSeen(s.seen, t2) == map[];
  }

  /** Three attempts of which the second is counted without a line, and the third comes
    * more than an hour after the first, which may be less than an hour after the second
    * (at 0, 599 and 3601 seconds, say): all are counted, and the line for the third says
    * it is the first. */
  lemma {:induction false} ForgottenBeforeAnHourOfQuiet(ev: Event, t0: int, t1: int, t2: int)
    requires ev.reason.Some? && REPEAT < t1 - t0 < NOTE_EVERY && t2 - t0 > FORGET
    ensures var one, two := [Input(ev, t0)], [Input(ev, t0)] + [Input(ev, t1)];
            && Counts(RunOf(one).s, ev, t1) && Counts(RunOf(two).s, ev, t2)
            && LineOf(RunOf(two).s, ev, t2) == Some(Line(RemoteIP(ev.remote), Who(ev.account), ev.reason.value, 1))
  {
    FirstAttempt(ev, t0);
    RunNext([Input(ev, t0)], Input(ev, t1));
    SecondAttempt(RunOf([Input(ev, t0)]).s, ev, t0, t1);
    ThirdAttempt(RunOf([Input(ev, t0)] + [Input(ev, t1)]).s, ev, t0, t1, t2);
  }
}
