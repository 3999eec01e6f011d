/** The list of office ports an admin types, "tcp/445, udp/5000-5100, icmp", and
  * the access rules it becomes (backend/internal/api/officeports.go). */
module OfficePorts {
  import opened Text
  import opened Netbird

  datatype Parsed = Rules(rules: seq<PolicyRule>) | BadItem(index: nat)

  // ---- what a list means -----------------------------------------------------

  datatype Item = Icmp | Ports(proto: string, first: nat, last: nat)

  predicate PortText(s: string) { 1 <= |s| <= 5 && AllDigits(s) }

  /** One port is written plainly or as a range of one; leading zeros are fine. */
  ghost predicate Reads(s: string, it: Item) {
    match it
    case Icmp => s == "icmp"
    case Ports(proto, first, last) =>
      && (proto == "tcp" || proto == "udp")
      && 1 <= first <= last <= 65535
      && exists a, b :: Written(s, proto, a, b) && NatValue(a) == first
          && (if b == "" then last == first else NatValue(b) == last)
  }

  /** proto/a, or proto/a-b when b is not empty. */
  ghost predicate Written(s: string, proto: string, a: string, b: string) {
    && PortText(a) && (b == "" || PortText(b))
    && s == proto + "/" + a + (if b == "" then "" else "-" + b)
  }

  ghost predicate ItemAdmits(it: Item, f: Flow) {
    match it
    case Icmp => f.proto == "icmp"
    case Ports(proto, first, last) => f.proto == proto && first <= f.port <= last
  }

  /** strings.ToLower, on the characters that matter here: the capital I with a dot
    * is the one letter past ASCII that becomes one of ours. */
  function LowerChar(c: char): char {
    if 'A' <= c <= 'Z' then c - 'A' + 'a' else if c == '\U{130}' then 'i' else c
  }

  function Lower(s: string): (r: string)
    ensures |r| == |s|
  {
    seq(|s|, i requires 0 <= i < |s| => LowerChar(s[i]))
  }

  /** Capitals and small letters read the same, and small letters, digits and signs as
    * themselves. */
  lemma {:induction false} CaseIgnored(s: string, t: string)
    requires |s| == |t|
    requires forall i :: 0 <= i < |s| ==>
               || s[i] == t[i]
               || ('A' <= s[i] <= 'Z' && t[i] as int == s[i] as int - 'A' as int + 'a' as int)
    ensures Lower(s) == Lower(t)
    ensures (forall i :: 0 <= i < |t| ==> !('A' <= t[i] <= 'Z') && t[i] != '\U{130}') ==> Lower(t) == t
  {
  }

  /** The list's pieces, trimmed and in small letters. */
  function Piece(list: string, k: nat): string
    requires k < |Split(Trim(list), ',')|
  {
    Lower(Trim(Split(Trim(list), ',')[k]))
  }

  function Pieces(list: string): nat { |Split(Trim(list), ',')| }

  ghost predicate GoodItem(s: string) { exists it :: Reads(s, it) }

  ghost predicate PieceAdmits(s: string, f: Flow) { exists it :: Reads(s, it) && ItemAdmits(it, f) }

  /** Blank, or every piece an item. */
  ghost predicate GoodList(list: string) {
    Trim(list) == "" || forall k :: 0 <= k < Pieces(list) ==> GoodItem(Piece(list, k))
  }

  /** A blank list admits everything; any other, what one of its items names. */
  ghost predicate ListAdmits(list: string, f: Flow) {
    Trim(list) == "" || exists k :: 0 <= k < Pieces(list) && PieceAdmits(Piece(list, k), f)
  }

  // ---- matching one item -----------------------------------------------------

  datatype Match = NoMatch | IcmpMatch | PortMatch(proto: string, a: string, b: string)

  /** The submatches of ^(?:(tcp|udp)/(\d{1,5})(?:-(\d{1,5}))?|icmp)$. */
  function FindSubmatch(s: string): Match {
    if s == "icmp" then IcmpMatch
    else if |s| < 4 || (s[..4] != "tcp/" && s[..4] != "udp/") then NoMatch
    else
      var parts := Split(s[4..], '-');
      if |parts| == 1 && PortText(parts[0]) then PortMatch(s[..3], parts[0], "")
      else if |parts| == 2 && PortText(parts[0]) && PortText(parts[1]) then PortMatch(s[..3], parts[0], parts[1])
      else NoMatch
  }

  lemma {:induction false} DigitsNoDash(s: string)
    requires AllDigits(s)
    ensures '-' !in s
  {
  }

  /** The pattern matches exactly what is written that way, with one reading. */
  lemma {:induction false} MatchedIsWritten(s: string)
    requires FindSubmatch(s).PortMatch?
    ensures (var m := FindSubmatch(s); (m.proto == "tcp" || m.proto == "udp") && Written(s, m.proto, m.a, m.b))
  {
    var m, parts := FindSubmatch(s), Split(s[4..], '-');
    JoinSplit(s[4..], '-');
    assert s == s[..4] + s[4..] && s[..4] == m.proto + "/";
    if |parts| == 1 {
      assert s[4..] == m.a;
    } else {
      assert parts[1..] == [m.b];
      assert s[4..] == m.a + "-" + m.b;
      assert s == m.proto + "/" + m.a + ("-" + m.b);
    }
  }

  lemma {:induction false} WrittenIsMatched(s: string, proto: string, a: string, b: string)
    requires (proto == "tcp" || proto == "udp") && Written(s, proto, a, b)
    ensures FindSubmatch(s) == PortMatch(proto, a, b)
  {
    assert |s| >= 5 && s[..3] == proto && s[..4] == proto + "/";
    DigitsNoDash(a);
    if b == "" {
      assert s[4..] == a;
      SplitFree(a, '-');
    } else {
      assert s[4..] == a + "-" + b;
      DigitsNoDash(b);
      SplitCons(a, b, '-');
      SplitFree(b, '-');
    }
  }

  /** What an item reads as, going by its submatches. */
  function ItemOf(m: Match): Item
    requires m.PortMatch? ==> PortText(m.a) && (m.b == "" || PortText(m.b))
    requires !m.NoMatch?
  {
    if m.IcmpMatch? then Icmp
    else Ports(m.proto, NatValue(m.a), if m.b == "" then NatValue(m.a) else NatValue(m.b))
  }

  predicate InBounds(it: Item) { it.Icmp? || 1 <= it.first <= it.last <= 65535 }

  /** An item reads one way, if any. */
  lemma {:induction false} ReadsIff(s: string, it: Item)
    ensures FindSubmatch(s).PortMatch? ==> Written(s, FindSubmatch(s).proto, FindSubmatch(s).a, FindSubmatch(s).b)
    ensures Reads(s, it) <==> !FindSubmatch(s).NoMatch? && it == ItemOf(FindSubmatch(s)) && InBounds(it)
  {
    var m := FindSubmatch(s);
    if m.PortMatch? {
      MatchedIsWritten(s);
    }
    if Reads(s, it) && it.Ports? {
      var a, b :| Written(s, it.proto, a, b) && NatValue(a) == it.first
        && (if b == "" then it.last == it.first else NatValue(b) == it.last);
      WrittenIsMatched(s, it.proto, a, b);
    }
  }

  predicate Fine(m: Match)
  {
    m.PortMatch? ==> PortText(m.a) && (m.b == "" || PortText(m.b))
  }

  lemma {:induction false} OneReading(s: string)
    ensures Fine(FindSubmatch(s))
    ensures (var m := FindSubmatch(s);
             if m.NoMatch? || !InBounds(ItemOf(m)) then !GoodItem(s)
             else GoodItem(s) && forall f :: PieceAdmits(s, f) <==> ItemAdmits(ItemOf(m), f))
  {
    ReadsIff(s, Icmp);
    forall it ensures Reads(s, it) <==> !FindSubmatch(s).NoMatch? && it == ItemOf(FindSubmatch(s)) && InBounds(it) {
      ReadsIff(s, it);
    }
    var m := FindSubmatch(s);
    if !m.NoMatch? && InBounds(ItemOf(m)) {
      assert Reads(s, ItemOf(m));
    }
  }

  // ---- building the rules ----------------------------------------------------

  /** The flows the three collected rules let through. */
  ghost predicate Collected(tcp: PolicyRule, udp: PolicyRule, icmp: bool, f: Flow) {
    || (f.proto == "tcp" && Names(tcp, f.port))
    || (f.proto == "udp" && Names(udp, f.port))
    || (f.proto == "icmp" && icmp)
  }

  function WithPorts(r: PolicyRule, first: int, last: int): PolicyRule {
    if first == last then r.(ports := r.ports + [Itoa(first)]) else r.(ranges := r.ranges + [PortRange(first, last)])
  }

  lemma {:induction false} WithPortsNames(r: PolicyRule, first: int, last: int, port: nat)
    requires 1 <= first <= last
    ensures Names(WithPorts(r, first, last), port) <==> Names(r, port) || first <= port <= last
  {
    var r' := WithPorts(r, first, last);
    if first == last {
      if Itoa(port) == Itoa(first) {
        ItoaInjective(port, first);
      }
    } else {
      assert InRange(r'.ranges[|r.ranges|], port) <==> first <= port <= last;
      assert forall i :: 0 <= i < |r.ranges| ==> r'.ranges[i] == r.ranges[i];
    }
  }

  /** The rules the loop's results are turned into. */
  function Assembled(tcp: PolicyRule, udp: PolicyRule, icmp: bool): seq<PolicyRule> {
    (if tcp.ports != [] || tcp.ranges != [] then [tcp] else []) +
    (if udp.ports != [] || udp.ranges != [] then [udp] else []) +
    (if icmp then [PolicyRule("icmp", [], [])] else [])
  }

  lemma {:induction false} AssembledAdmit(tcp: PolicyRule, udp: PolicyRule, icmp: bool, f: Flow)
    requires tcp.protocol == "tcp" && udp.protocol == "udp"
    ensures RulesAdmit(Assembled(tcp, udp, icmp), f) <==> Collected(tcp, udp, icmp, f)
  {
    var rules := Assembled(tcp, udp, icmp);
    if Collected(tcp, udp, icmp, f) {
      if f.proto == "tcp" {
        assert rules[0] == tcp;
      } else if f.proto == "icmp" {
        assert rules[|rules| - 1] == PolicyRule("icmp", [], []);
      } else {
        assert udp in rules;
        var i :| 0 <= i < |rules| && rules[i] == udp;
        assert RuleAdmits(rules[i], f);
      }
    }
  }

  /** One more item among those collected. */
  lemma {:induction false} CollectOne(r: PolicyRule, tcp: PolicyRule, udp: PolicyRule, icmp: bool, it: Item, f: Flow)
    requires InBounds(it) && (it.Ports? ==> it.proto == "tcp" || it.proto == "udp")
    requires it.Ports? ==> r == WithPorts(if it.proto == "udp" then udp else tcp, it.first, it.last)
    ensures it.Icmp? ==> (Collected(tcp, udp, true, f) <==> Collected(tcp, udp, icmp, f) || ItemAdmits(it, f))
    ensures it.Ports? && it.proto == "udp"
            ==> (Collected(tcp, r, icmp, f) <==> Collected(tcp, udp, icmp, f) || ItemAdmits(it, f))
    ensures it.Ports? && it.proto == "tcp"
            ==> (Collected(r, udp, icmp, f) <==> Collected(tcp, udp, icmp, f) || ItemAdmits(it, f))
  {
    if it.Ports? {
      WithPortsNames(if it.proto == "udp" then udp else tcp, it.first, it.last, f.port);
    }
  }

  /** Some of the first n pieces admits the flow. */
  ghost predicate FirstAdmit(list: string, n: nat, f: Flow)
    requires n <= Pieces(list)
  {
    exists k :: 0 <= k < n && PieceAdmits(Piece(list, k), f)
  }

  lemma {:induction false} FirstAdmitStep(list: string, n: nat, f: Flow)
    requires n < Pieces(list)
    ensures FirstAdmit(list, n + 1, f) <==> FirstAdmit(list, n, f) || PieceAdmits(Piece(list, n), f)
  {
  }

  /** What the loop has collected after item n, once it is in. */
  ghost predicate TookItem(it: Item, tcp0: PolicyRule, udp0: PolicyRule, icmp0: bool, tcp: PolicyRule, udp: PolicyRule,
          icmp: bool)
  {
    match it
    case Icmp => icmp && tcp == tcp0 && udp == udp0
    case Ports(proto, first, last) =>
      && icmp == icmp0
      && (if proto == "udp" then tcp == tcp0 && udp == WithPorts(udp0, first, last)
          else udp == udp0 && tcp == WithPorts(tcp0, first, last))
  }

  lemma {:induction false} CollectStep(list: string, n: nat,
                                       tcp0: PolicyRule, udp0: PolicyRule, icmp0: bool, tcp: PolicyRule,
                                           udp: PolicyRule, icmp: bool)
    requires n < Pieces(list) && GoodItem(Piece(list, n))
    requires (var m := FindSubmatch(Piece(list, n));
              Fine(m) && !m.NoMatch? && TookItem(ItemOf(m), tcp0, udp0, icmp0, tcp, udp, icmp))
    requires forall f :: Collected(tcp0, udp0, icmp0, f) <==> FirstAdmit(list, n, f)
    ensures forall f :: Collected(tcp, udp, icmp, f) <==> FirstAdmit(list, n + 1, f)
  {
    var item := Piece(list, n);
    OneReading(item);
    var it := ItemOf(FindSubmatch(item));
    ReadsIff(item, it);
    forall f ensures Collected(tcp, udp, icmp, f) <==> FirstAdmit(list, n + 1, f) {
      CollectOne(if it.Ports? && it.proto == "udp" then udp else tcp, tcp0, udp0, icmp0, it, f);
      FirstAdmitStep(list, n, f);
    }
  }

  /** A list parses if and only if it is good, and then its rules admit exactly
    * what the list admits; if not, the first bad item is the one reported. */
  method ParseOfficePorts(list: string) returns (res: Parsed)
    ensures res.Rules? <==> GoodList(list)
    ensures res.Rules? ==> forall f :: RulesAdmit(res.rules, f) <==> ListAdmits(list, f)
    ensures res.BadItem? ==> res.index < Pieces(list) && !GoodItem(Piece(list, res.index))
    ensures res.BadItem? ==> forall k :: 0 <= k < res.index ==> GoodItem(Piece(list, k))
  {
    var text := Trim(list);
    if text == "" {
      res := Rules([PolicyRule("all", [], [])]);
      forall f ensures RulesAdmit(res.rules, f) {
        assert RuleAdmits(res.rules[0], f);
      }
      return;
    }
    var tcp, udp, icmp := PolicyRule("tcp", [], []), PolicyRule("udp", [], []), false;
    var items := Split(text, ',');
    for i := 0 to |items|
      invariant tcp.protocol == "tcp" && udp.protocol == "udp"
      invariant forall k :: 0 <= k < i ==> GoodItem(Piece(list, k))
      invariant forall f :: Collected(tcp, udp, icmp, f) <==> FirstAdmit(list, i, f)
    {
      var item := Lower(Trim(items[i]));
      assert item == Piece(list, i);
      var m := FindSubmatch(item);
      OneReading(item);
      if m == NoMatch {
        return BadItem(i);
      }
      ghost var it, tcp0, udp0, icmp0 := ItemOf(m), tcp, udp, icmp;
      if item == "icmp" {
        icmp := true;
      } else {
        var start := NatValue(m.a);
        var end := start;
        if m.b != "" {
          end := NatValue(m.b);
        }
        if start < 1 || end > 65535 || end < start {
          assert !InBounds(it);
          return BadItem(i);
        }
        if m.proto == "udp" {
          udp := WithPorts(udp, start, end);
        } else {
          tcp := WithPorts(tcp, start, end);
        }
      }
      CollectStep(list, i, tcp0, udp0, icmp0, tcp, udp, icmp);
    }
    res := Rules(Assembled(tcp, udp, icmp));
    forall f ensures RulesAdmit(res.rules, f) <==> ListAdmits(list, f) {
      AssembledAdmit(tcp, udp, icmp, f);
    }
  }
}
