/** What a caller gets, told from the settings alone. The generator and the meaning of
  * its output share a few pieces (the main group's members, a key's targets, when there
  * is a menu, a trunk, a recorder); here nothing of these is named. */
module CallerView {
  import opened Options
  import opened Text
  import opened Pbx
  import opened Calls
  import opened Asterisk
  import opened DialplanMeaning
  import opened DialplanText
  import opened Render

  // ---- picking in order ------------------------------------------------------

  /** The positions of all that is wanted, in order. */
  ghost predicate Positions<T>(all: seq<T>, wanted: T -> bool, at: seq<nat>) {
    && (forall k :: 0 <= k < |at| ==> at[k] < |all| && wanted(all[at[k]]))
    && (forall j, k :: 0 <= j < k < |at| ==> at[j] < at[k])
    && (forall i :: 0 <= i < |all| && wanted(all[i]) ==> i in at)
  }

  lemma {:induction false} PositionsInit<T>(all: seq<T>, wanted: T -> bool, at: seq<nat>)
    requires all != [] && Positions(all, wanted, at)
    ensures if wanted(all[|all| - 1])
            then at != [] && at[|at| - 1] == |all| - 1 && Positions(all[..|all| - 1], wanted, at[..|at| - 1])
            else Positions(all[..|all| - 1], wanted, at)
  {
    var n := |all| - 1;
    if wanted(all[n]) {
      assert n in at;
      assert forall k :: 0 <= k < |at| ==> at[k] <= at[|at| - 1];
      forall i | 0 <= i < n && wanted(all[i]) ensures i in at[..|at| - 1] {
        var j :| 0 <= j < |at| && at[j] == i;
        assert at[..|at| - 1][j] == i;
      }
    }
  }

  lemma {:induction false} PositionsNext<T>(all: seq<T>, wanted: T -> bool, at: seq<nat>)
    requires all != [] && Positions(all[..|all| - 1], wanted, at)
    ensures Positions(all, wanted, at + if wanted(all[|all| - 1]) then [|all| - 1] else [])
  {
    forall i | 0 <= i < |all| - 1 && wanted(all[i]) ensures i in at {
      assert all[..|all| - 1][i] == all[i];
    }
  }

  /** They are the only ones. */
  lemma {:induction false} OnePositions<T>(all: seq<T>, wanted: T -> bool, a: seq<nat>, b: seq<nat>)
    requires Positions(all, wanted, a) && Positions(all, wanted, b)
    ensures a == b
  {
    if all != [] {
      var n := |all| - 1;
      PositionsInit(all, wanted, a);
      PositionsInit(all, wanted, b);
      if wanted(all[n]) {
        OnePositions(all[..n], wanted, a[..|a| - 1], b[..|b| - 1]);
        assert a == a[..|a| - 1] + [n] && b == b[..|b| - 1] + [n];
      } else {
        OnePositions(all[..n], wanted, a, b);
      }
    }
  }

  // ---- the main group --------------------------------------------------------

  /** The numbers of those in the main group, in the order of the settings. */
  ghost predicate GroupOf(exts: seq<Extension>, ns: seq<string>) {
    exists at :: GroupAt(exts, at, ns)
  }

  ghost predicate GroupAt(exts: seq<Extension>, at: seq<nat>, ns: seq<string>) {
    && Positions(exts, (e: Extension) => e.inMainGroup, at) && |ns| == |at|
    && forall k :: 0 <= k < |at| ==> ns[k] == exts[at[k]].number
  }

  lemma {:induction false} GroupThere(exts: seq<Extension>) returns (at: seq<nat>)
    ensures GroupAt(exts, at, Members(exts))
  {
    at := [];
    if exts != [] {
      var init, last := exts[..|exts| - 1], exts[|exts| - 1];
      var some := GroupThere(init);
      PositionsNext(exts, (e: Extension) => e.inMainGroup, some);
      at := some + if last.inMainGroup then [|exts| - 1] else [];
    }
  }

  /** Ringing, which is all when somebody answers or the caller gives up, and else a
    * message in that mailbox. */
  predicate Rung(effects: seq<Effect>, ring: Effect, answer: Input, box: string) {
    effects == [ring] + if answer.Answered? || answer.CallerGone? then [] else [LeavesMessage(box)]
  }

  /** The group rung together for half a minute, then the shared mailbox; that at once
    * when nobody is in the group. */
  ghost predicate RingsGroup(exts: seq<Extension>, answer: Input, effects: seq<Effect>) {
    if forall i :: 0 <= i < |exts| ==> !exts[i].inMainGroup then effects == [LeavesMessage("0")]
    else exists ns :: GroupOf(exts, ns) && Rung(effects, Rings(ns, 30), answer, "0")
  }

  lemma {:induction false} MainGroupRings(o: Office, call: Call, wait: nat)
    ensures RingsGroup(o.exts, call.input(wait), MainGroup(o, call, wait))
  {
    var ns := NobodyIff(o.exts);
    if ns != [] {
      assert Rung(MainGroup(o, call, wait), Rings(ns, 30), call.input(wait), "0");
    }
  }

  lemma {:induction false} NobodyIff(exts: seq<Extension>) returns (ns: seq<string>)
    ensures ns == Members(exts) && GroupOf(exts, ns)
    ensures ns == [] <==> forall i :: 0 <= i < |exts| ==> !exts[i].inMainGroup
  {
    ns := Members(exts);
    var at := GroupThere(exts);
    assert at != [] ==> exts[at[0]].inMainGroup;
  }

  // ---- the menu --------------------------------------------------------------

  /** The targets that are some phone's number, in order. */
  ghost predicate TargetsOf(exts: seq<Extension>, targets: seq<string>, ns: seq<string>) {
    exists at :: TargetsAt(exts, targets, at, ns)
  }

  ghost predicate IsPhone(exts: seq<Extension>, number: string) {
    exists i :: 0 <= i < |exts| && exts[i].number == number
  }

  ghost predicate TargetsAt(exts: seq<Extension>, targets: seq<string>, at: seq<nat>, ns: seq<string>) {
    && Positions(targets, (t: string) => IsPhone(exts, t), at) && |ns| == |at|
    && forall k :: 0 <= k < |at| ==> ns[k] == targets[at[k]]
  }

  lemma {:induction false} TargetsThere(exts: seq<Extension>, targets: seq<string>) returns (at: seq<nat>)
    ensures TargetsAt(exts, targets, at, Live(exts, targets))
  {
    at := [];
    if targets != [] {
      var init, last := targets[..|targets| - 1], targets[|targets| - 1];
      var some := TargetsThere(exts, init);
      PositionsNext(targets, (t: string) => IsPhone(exts, t), some);
      at := some + if IsPhone(exts, last) then [|targets| - 1] else [];
    }
  }

  /** The k-th option is a digit from 1 to 9 that rings at least one phone. */
  ghost predicate CanRing(o: Office, k: nat) {
    && k < |o.ivr.options|
    && (var digit := o.ivr.options[k].digit; |digit| == 1 && '1' <= digit[0] <= '9')
    && exists j :: 0 <= j < |o.ivr.options[k].targets| && IsPhone(o.exts, o.ivr.options[k].targets[j])
  }

  /** Switched on, with a greeting and an option that rings. */
  ghost predicate MenuThere(o: Office) { o.ivr.enabled && o.ivr.hasGreeting && exists k: nat :: CanRing(o, k) }

  lemma {:induction false} RungIsOffered(o: Office, k: nat)
    requires k < |o.ivr.options|
    ensures CanRing(o, k) <==> Offered(o.exts, o.ivr.options[k])
  {
    var opt := o.ivr.options[k];
    var at := TargetsThere(o.exts, opt.targets);
    if at != [] {
      assert IsPhone(o.exts, opt.targets[at[0]]);
    }
  }

  /** The first option for c that rings; |options| when there is none. */
  ghost predicate FirstFor(o: Office, n: nat, c: char, k: nat) {
    && k <= n <= |o.ivr.options|
    && (k < n ==> CanRing(o, k) && o.ivr.options[k].digit == [c])
    && forall i :: 0 <= i < k ==> !(CanRing(o, i) && o.ivr.options[i].digit == [c])
  }

  lemma {:induction false} FirstIs(o: Office, n: nat, c: char, k: nat)
    requires FirstFor(o, n, c, k)
    ensures OptionFor(Keys(o.exts, o.ivr.options[..n]), c) == if k < n then Some(o.ivr.options[k]) else None
  {
    if n > 0 {
      var opt := o.ivr.options[n - 1];
      var keys := Keys(o.exts, o.ivr.options[..n - 1]);
      assert o.ivr.options[..n][..n - 1] == o.ivr.options[..n - 1];
      RungIsOffered(o, n - 1);
      FirstIs(o, n - 1, c, if k == n then n - 1 else k);
      OptionNext(keys, opt, c);
      assert Keys(o.exts, o.ivr.options[..n]) == if CanRing(o, n - 1) then keys + [opt] else keys;
    }
  }

  lemma {:induction false} OptionNext(keys: seq<IvrOption>, opt: IvrOption, c: char)
    ensures OptionFor(keys + [opt], c) ==
            if OptionFor(keys, c).Some? then OptionFor(keys, c) else if opt.digit == [c] then Some(opt) else None
  {
    assert (keys + [opt])[..|keys + [opt]| - 1] == keys;
  }

  lemma {:induction false} MenuIff(o: Office)
    ensures HasMenu(o.exts, o.ivr) <==> MenuThere(o)
  {
    KeysIff(o, |o.ivr.options|);
    assert o.ivr.options[..|o.ivr.options|] == o.ivr.options;
  }

  lemma {:induction false} KeysIff(o: Office, n: nat)
    requires n <= |o.ivr.options|
    ensures Keys(o.exts, o.ivr.options[..n]) != [] <==> exists k: nat :: k < n && CanRing(o, k)
  {
    if n > 0 {
      KeysIff(o, n - 1);
      RungIsOffered(o, n - 1);
      assert o.ivr.options[..n][..n - 1] == o.ivr.options[..n - 1];
    }
  }

  /** A key of the menu: 0 is the main group; a digit rings the phones of the first
    * option that has any, for 25 seconds, then the one phone's own mailbox or, for
    * several, the shared one; any other key is a miss. */
  ghost predicate KeyDoes(o: Office, call: Call, wait: nat, missed: nat, c: char, k: nat, effects: seq<Effect>)
    requires missed < 2 && FirstFor(o, |o.ivr.options|, c, k)
  {
    if c == '0' then RingsGroup(o.exts, call.input(wait), effects)
    else if k < |o.ivr.options| then
      exists ns :: TargetsOf(o.exts, o.ivr.options[k].targets, ns) && ns != []
                   && Rung(effects, Rings(ns, 25), call.input(wait), if |ns| == 1 then ns[0] else "0")
    else effects == [Plays("pbx-invalid")] + Missed(o, call, wait, missed)
  }

  lemma {:induction false} KeyPressed(o: Office, call: Call, wait: nat, missed: nat, c: char, k: nat)
    requires missed < 2 && FirstFor(o, |o.ivr.options|, c, k)
    ensures KeyDoes(o, call, wait, missed, c, k, Pressed(o, call, wait, missed, c))
  {
    assert o.ivr.options[..|o.ivr.options|] == o.ivr.options;
    FirstIs(o, |o.ivr.options|, c, k);
    MainGroupRings(o, call, wait);
    if k < |o.ivr.options| {
      RungIsOffered(o, k);
      var at := TargetsThere(o.exts, o.ivr.options[k].targets);
      assert TargetsOf(o.exts, o.ivr.options[k].targets, Live(o.exts, o.ivr.options[k].targets));
    }
  }

  // ---- whole calls -----------------------------------------------------------

  /** A call from outside where there is no menu rings the main group; with a menu it is
    * answered and greeted. */
  lemma {:induction false} OutsideCallGets(o: Office, call: Call)
    ensures !MenuThere(o) ==> RingsGroup(o.exts, call.input(0), FromOutside(o, call))
    ensures MenuThere(o) ==>
              [Answers, Plays("/var/lib/itp-sounds/greeting")] <= FromOutside(o, call)
              && FromOutside(o, call) == [Answers] + Menu(o, call, 0, 0)
  {
    MenuIff(o);
    MainGroupRings(o, call, 0);
  }

  /** An office phone: 0 is the main group, *50 the menu if there is one, *99 the
    * recording if a phone is named for it. */
  lemma {:induction false} PhoneDialGets(o: Office, call: Call)
    requires ValidExtensions(o.exts)
    ensures var r := FromPhone(o, call, "0"); r.Some? && RingsGroup(o.exts, call.input(0), r.value)
    ensures FromPhone(o, call, "*50") == if MenuThere(o) then Some([Answers] + Menu(o, call, 0, 0)) else None
    ensures var phone := o.ivr.recorder;
            FromPhone(o, call, "*99") ==
              if !(2 <= |phone| <= 5 && '1' <= phone[0] <= '8'
                   && forall i :: 0 <= i < |phone| ==> '0' <= phone[i] <= '9')
              then None
              else if call.endpoint != phone then Some([Plays("ss-noservice")])
              else Some([Answers, Records("/var/lib/itp-sounds/greeting"), Plays("/var/lib/itp-sounds/greeting")])
  {
    MenuIff(o);
    MainGroupRings(o, call, 0);
    assert IsNumberOf(o.exts, "0") || IsNumberOf(o.exts, "*50") || IsNumberOf(o.exts, "*99") ==> false;
  }

  /** And 9 and an outside number, of two characters at least, the first a digit: put
    * through if there is a provider with a host and a user name, and, unless calls
    * abroad are allowed, it does not begin with 00 or 011. */
  lemma {:induction false} OutsideNumberGets(o: Office, call: Call, dialed: string)
    requires ValidExtensions(o.exts) && |dialed| >= 3 && dialed[0] == '9' && '0' <= dialed[1] <= '9'
    ensures FromPhone(o, call, dialed) ==
              if !o.st.trunkEnabled || o.st.trunkHost == "" || o.st.trunkUsername == "" then None
              else if !o.st.allowInternational && (dialed[1..3] == "00" || (|dialed| >= 4 && dialed[1..4] == "011"))
              then Some([Plays("ss-noservice")])
              else
                var callerId := if o.st.trunkCallerId == "" then None else Some(o.st.trunkCallerId);
                Some([CallsOutside(dialed[1..], callerId, 60)])
  {
    var number := dialed[1..];
    assert number[..2] == dialed[1..3];
    assert |dialed| >= 4 ==> number[..3] == dialed[1..4];
  }

  /** Through the bytes of the generated file: an outside call, where there is no menu,
    * ends having rung the main group. */
  lemma {:induction false} OutsideCallRings(o: Office, call: Call, did: string, fuel: nat)
    requires ValidOffice(o.exts, o.st, o.ivr) && fuel >= 24 && !MenuThere(o)
    requires did == "s" || (|did| >= 2 && (did[0] == '+' || '0' <= did[0] <= '9'))
    ensures var plan := LoadText(ExtensionsConf(o));
            var start := Begin(plan, "itp-incoming", did);
            && start.Some? && Run(plan, call, start.value, fuel).Ended?
            && RingsGroup(o.exts, call.input(0), Run(plan, call, start.value, fuel).trace)
  {
    GeneratedFileServesOutsideCalls(o, call, did, fuel);
    OutsideCallGets(o, call);
  }
}
