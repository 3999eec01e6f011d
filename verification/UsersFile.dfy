/** The calendar server's users file, one name:hash line for each account: read into
  * a map and written back (backend/internal/radicalefs/sync.go). */
module UsersFile {
  import opened Text

  type Users = map<string, string>

  // ---- reading ---------------------------------------------------------------

  /** One line's account, if it has one: a blank line, or one without a colon, has
    * none. */
  function WithLine(users: Users, line: string): Users {
    var t := Trim(line);
    if t == "" || ':' !in t then users else users[Before(t, ':') := After(t, ':')]
  }

  function ParseFirst(lines: seq<string>, n: nat): Users
    requires n <= |lines|
  {
    if n == 0 then map[] else WithLine(ParseFirst(lines, n - 1), lines[n - 1])
  }

  function Parsed(raw: string): Users {
    var lines := Split(raw, '\n');
    ParseFirst(lines, |lines|)
  }

  method ParseUsers(raw: string) returns (users: Users)
    ensures users == Parsed(raw)
  {
    users := map[];
    var lines := Split(raw, '\n');
    for i := 0 to |lines|
      invariant users == ParseFirst(lines, i)
    {
      var line := Trim(lines[i]);
      if line == "" {
        continue;
      }
      if ':' !in line {
        continue;
      }
      users := users[Before(line, ':') := After(line, ':')];
    }
  }

  // ---- writing ---------------------------------------------------------------

  /** An order a map may be walked in: every key once. */
  ghost predicate WalkOf(order: seq<string>, users: Users) {
    && (forall i, j :: 0 <= i < j < |order| ==> order[i] != order[j])
    && (forall name :: name in order <==> name in users)
  }

  function Entry(name: string, hash: string): string { name + ":" + hash }

  function Formatted(order: seq<string>, users: Users): string
    requires forall i :: 0 <= i < |order| ==> order[i] in users
  {
    if order == [] then ""
    else Formatted(order[..|order| - 1], users) + (Entry(order[|order| - 1], users[order[|order| - 1]]) + "\n")
  }

  method FormatUsers(users: Users) returns (text: string)
    ensures exists order :: WalkOf(order, users) && text == Formatted(order, users)
  {
    text := "";
    ghost var order: seq<string> := [];
    var left := users.Keys;
    while left != {}
      invariant left <= users.Keys
      invariant forall i, j :: 0 <= i < j < |order| ==> order[i] != order[j]
      invariant forall i :: 0 <= i < |order| ==> order[i] in users && order[i] !in left
      invariant forall name :: name in users ==> name in left || name in order
      invariant text == Formatted(order, users)
    {
      var name :| name in left;
      left := left - {name};
      ghost var order' := order + [name];
      assert order'[..|order'| - 1] == order;
      text := text + (name + ":" + users[name] + "\n");
      order := order';
    }
    assert WalkOf(order, users);
  }

  // ---- what survives ---------------------------------------------------------

  /** Names without a colon, a newline or a blank in front; hashes without a newline
    * or a blank at the end. The empty name and the empty hash are fine. */
  predicate Plain(name: string, hash: string) {
    && ':' !in name && '\n' !in name && (name == "" || !IsSpace(name[0]))
    && '\n' !in hash && (hash == "" || !IsSpace(hash[|hash| - 1]))
  }

  predicate AllPlain(users: Users) { forall name :: name in users ==> Plain(name, users[name]) }

  lemma {:induction false} TrimFree(s: string, c: char)
    requires c !in s
    ensures c !in Trim(s)
  {
    TrimLeftFree(s, c);
  }

  lemma {:induction false} TrimLeftFree(s: string, c: char)
    requires c !in s
    ensures c !in TrimLeft(s)
  {
    if s != "" && IsSpace(s[0]) {
      TrimLeftFree(s[1..], c);
    }
  }

  lemma {:induction false} CutFree(s: string)
    requires ':' in s
    ensures ':' !in Before(s, ':') && s == Before(s, ':') + ":" + After(s, ':')
  {
    BeforeIsPrefix(s, ':');
    JoinSplit(s, ':');
    if Before(s, ':') == s {
      assert ':' !in Split(s, ':')[0];
    }
  }

  /** Whatever the file holds, what is read from it is plain. */
  lemma {:induction false} LinePlain(users: Users, line: string)
    requires AllPlain(users) && '\n' !in line
    ensures AllPlain(WithLine(users, line))
  {
    var t := Trim(line);
    TrimFree(line, '\n');
    if t != "" && ':' in t {
      CutFree(t);
      var name, hash := Before(t, ':'), After(t, ':');
      assert name != "" ==> name[0] == t[0];
      assert hash != "" ==> hash[|hash| - 1] == t[|t| - 1];
    }
  }

  lemma {:induction false} ParseFirstPlain(lines: seq<string>, n: nat)
    requires n <= |lines| && AllFree(lines, '\n')
    ensures AllPlain(ParseFirst(lines, n))
  {
    if n > 0 {
      ParseFirstPlain(lines, n - 1);
      LinePlain(ParseFirst(lines, n - 1), lines[n - 1]);
    }
  }

  lemma {:induction false} ParsedIsPlain(raw: string)
    ensures AllPlain(Parsed(raw))
  {
    JoinSplit(raw, '\n');
    ParseFirstPlain(Split(raw, '\n'), |Split(raw, '\n')|);
  }

  /** The lines that Formatted ends. */
  function Lines(order: seq<string>, users: Users): (r: seq<string>)
    requires forall i :: 0 <= i < |order| ==> order[i] in users
    ensures |r| == |order|
  {
    seq(|order|, i requires 0 <= i < |order| => Entry(order[i], users[order[i]]))
  }

  lemma {:induction false} SplitEnded(a: string, line: string, parts: seq<string>)
    requires Split(a, '\n') == parts + [""] && '\n' !in line
    ensures Split(a + (line + "\n"), '\n') == parts + [line, ""]
  {
    var s := a + (line + "\n");
    var all := parts + [line, ""];
    JoinSplit(a, '\n');
    JoinTwo(parts, line);
    assert Join(all, '\n') == s;
    forall i | 0 <= i < |all| ensures '\n' !in all[i] {
      assert i < |parts| ==> all[i] == Split(a, '\n')[i];
    }
    SplitJoin(all, '\n');
  }

  lemma {:induction false} JoinTwo(parts: seq<string>, line: string)
    ensures Join(parts + [line, ""], '\n') == Join(parts + [""], '\n') + (line + "\n")
  {
    if parts == [] {
      assert [] + [line, ""] == [line, ""] && [line, ""][1..] == [""];
      assert [] + [""] == [""];
    } else {
      JoinTwo(parts[1..], line);
      assert (parts + [line, ""])[1..] == parts[1..] + [line, ""] && (parts + [""])[1..] == parts[1..] + [""];
    }
  }

  lemma {:induction false} SplitFormatted(order: seq<string>, users: Users)
    requires (forall i :: 0 <= i < |order| ==> order[i] in users) && AllPlain(users)
    ensures Split(Formatted(order, users), '\n') == Lines(order, users) + [""]
  {
    if order != [] {
      var init, name := order[..|order| - 1], order[|order| - 1];
      SplitFormatted(init, users);
      SplitEnded(Formatted(init, users), Entry(name, users[name]), Lines(init, users));
      assert Lines(order, users) + [""] == Lines(init, users) + [Entry(name, users[name]), ""];
    }
  }

  lemma {:induction false} PlainLine(users: Users, name: string, hash: string)
    requires Plain(name, hash)
    ensures WithLine(users, Entry(name, hash)) == users[name := hash]
  {
    var line := Entry(name, hash);
    assert line[0] == if name == "" then ':' else name[0];
    assert line[|line| - 1] == if hash == "" then ':' else hash[|hash| - 1];
    TrimTight(line);
    assert line == name + [':'] + hash;
    BeforeAfter(name, hash, ':');
  }

  lemma {:induction false} ParsedLines(order: seq<string>, users: Users, n: nat)
    requires n <= |order| && (forall i :: 0 <= i < |order| ==> order[i] in users) && AllPlain(users)
    ensures ReadOf(order, users, n, ParseFirst(Lines(order, users) + [""], n))
  {
    if n > 0 {
      var lines := Lines(order, users) + [""];
      var before, name := ParseFirst(lines, n - 1), order[n - 1];
      ParsedLines(order, users, n - 1);
      assert lines[n - 1] == Entry(name, users[name]);
      PlainLine(before, name, users[name]);
      assert ParseFirst(lines, n) == before[name := users[name]];
      ReadNext(order, users, n - 1, before);
    }
  }

  /** The accounts of the first n names. */
  ghost predicate ReadOf(order: seq<string>, users: Users, n: nat, read: Users)
    requires n <= |order|
  {
    && (forall i :: 0 <= i < n ==> order[i] in read)
    && (forall name :: name in read ==> name in users && read[name] == users[name])
  }

  lemma {:induction false} ReadNext(order: seq<string>, users: Users, n: nat, read: Users)
    requires n < |order| && order[n] in users && ReadOf(order, users, n, read)
    ensures ReadOf(order, users, n + 1, read[order[n] := users[order[n]]])
  {
  }

  lemma {:induction false} LastLineBlank(lines: seq<string>)
    ensures ParseFirst(lines + [""], |lines| + 1) == ParseFirst(lines + [""], |lines|)
  {
    assert (lines + [""])[|lines|] == "" && Trim("") == "";
  }

  lemma {:induction false} AllRead(order: seq<string>, users: Users, read: Users)
    requires WalkOf(order, users) && ReadOf(order, users, |order|, read)
    ensures read == users
  {
    forall name | name in users ensures name in read {
      assert name in order;
    }
  }

  /** Written and read back, a users map is the same, in whatever order it was
    * written, if and only if all its names and hashes are plain. */
  lemma {:induction false} RoundTripIff(users: Users, order: seq<string>)
    requires WalkOf(order, users)
    ensures Parsed(Formatted(order, users)) == users <==> AllPlain(users)
  {
    if AllPlain(users) {
      var lines := Lines(order, users) + [""];
      SplitFormatted(order, users);
      ParsedLines(order, users, |order|);
      LastLineBlank(Lines(order, users));
      AllRead(order, users, ParseFirst(lines, |order|));
    } else {
      ParsedIsPlain(Formatted(order, users));
    }
  }
}
