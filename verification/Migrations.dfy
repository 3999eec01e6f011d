/** Bringing the database's schema up to date at every start, with a crash possible
  * at any step (backend/internal/db/db.go). */
module Migrations {
  import opened Text
  import opened StableSort

  /** What is recorded as applied (other modules record theirs in the same table),
    * what has in fact been run, in order, and the version mark, "" before the
    * first. */
  datatype Db = Db(applied: set<string>, effects: seq<string>, version: string)

  /** What a start did to the database or beside it, one step at a time. */
  datatype Event = Saved(contents: Db) | Ran(name: string) | Marked(version: string)

  function Done(db: Db, event: Event): Db {
    match event
    case Saved(_) => db
    case Ran(name) => db.(applied := db.applied + {name}, effects := db.effects + [name])
    case Marked(version) => db.(version := version)
  }

  /** The database after these steps. */
  function Replay(db: Db, events: seq<Event>): Db {
    if events == [] then db else Done(Replay(db, events[..|events| - 1]), events[|events| - 1])
  }

  /** File names in rising order. */
  ghost predicate Ascending(names: seq<string>) { forall i, j :: 0 <= i < j < |names| ==> Less(names[i], names[j]) }

  function Latest(names: seq<string>): string
    requires names != []
  {
    names[|names| - 1]
  }

  /** The first n names, as far as they are not recorded, in order. */
  function Missing(applied: set<string>, names: seq<string>, n: nat): seq<string>
    requires n <= |names|
  {
    if n == 0 then []
    else Missing(applied, names, n - 1) + if names[n - 1] in applied then [] else [names[n - 1]]
  }

  function FirstSet(names: seq<string>, n: nat): set<string>
    requires n <= |names|
  {
    set i | 0 <= i < n :: names[i]
  }

  // ---- one start -------------------------------------------------------------

  /** The first n files have been gone through. */
  ghost predicate Through(before: Db, names: seq<string>, n: nat, after: Db)
    requires n <= |names|
  {
    && after.applied == before.applied + FirstSet(names, n)
    && after.effects == before.effects + Missing(before.applied, names, n)
  }

  ghost predicate SomeApplied(before: Db, names: seq<string>) {
    exists i :: 0 <= i < |names| && names[i] in before.applied
  }

  ghost predicate AllApplied(before: Db, names: seq<string>) {
    forall i :: 0 <= i < |names| ==> names[i] in before.applied
  }

  function Runs(names: seq<string>): seq<Event> {
    seq(|names|, i requires 0 <= i < |names| => Ran(names[i]))
  }

  /** The snapshot a start takes of what it found. */
  ghost function Snapshots(before: Db, names: seq<string>): seq<Event> {
    if SomeApplied(before, names) && !AllApplied(before, names) then [Saved(before)] else []
  }

  /** All that a start has to do: the snapshot, then the missing files in order, then
    * the mark. */
  ghost function Plan(before: Db, names: seq<string>): seq<Event>
    requires names != []
  {
    Snapshots(before, names) + Runs(Missing(before.applied, names, |names|)) + [Marked(Latest(names))]
  }

  /** What a start may do: some beginning of what it has to, and that is what the
    * database shows. `read` says that the version mark could be read. */
  ghost predicate Start(before: Db, names: seq<string>, read: bool, after: Db, events: seq<Event>) {
    && after == Replay(before, events)
    && if names == [] || (read && Less(Latest(names), before.version)) then events == []
       else events <= Plan(before, names)
  }

  /** The contents of the snapshots among these steps. */
  function Contents(events: seq<Event>): seq<Db> {
    if events == [] then [] else
      var last := events[|events| - 1];
      Contents(events[..|events| - 1]) + (if last.Saved? then [last.contents] else [])
  }

  /** The database and, on the host's disk, the snapshots taken of it. */
  class Database {
    var applied: set<string>
    var effects: seq<string>
    var version: string
    var snapshots: seq<Db>
    /** How many steps and queries did not end well. */
    ghost var failures: nat

    constructor ()
      ensures Now() == Db({}, [], "") && snapshots == []
    {
      applied, effects, version, snapshots, failures := {}, [], "", [], 0;
    }

    function Now(): Db
      reads this`applied, this`effects, this`version
    {
      Db(applied, effects, version)
    }

    /** A query: answered or not. */
    method Ask() returns (ok: bool)
      modifies this`failures
      ensures failures == old(failures) + if ok then 0 else 1
    {
      ok := *;
      failures := failures + if ok then 0 else 1;
    }

    /** A step that is to be done as a whole. */
    method Try() returns (outcome: Outcome)
      modifies this`failures
      ensures failures == old(failures) + if outcome.Committed? then 0 else 1
    {
      outcome := *;
      failures := failures + if outcome.Committed? then 0 else 1;
    }

    /** How many files are recorded and how many are not; any query may fail. */
    method CountApplied(names: seq<string>) returns (ok: bool, pending: nat, done: nat)
      modifies this`failures
      ensures failures >= old(failures) && (ok <==> failures == old(failures))
      ensures ok ==> (done > 0 <==> SomeApplied(Now(), names))
      ensures ok ==> (pending == 0 <==> AllApplied(Now(), names))
    {
      pending, done := 0, 0;
      for i := 0 to |names|
        invariant failures == old(failures)
        invariant done > 0 <==> exists j :: 0 <= j < i && names[j] in applied
        invariant pending == 0 <==> forall j :: 0 <= j < i ==> names[j] in applied
      {
        var answered := Ask();
        if !answered {
          return false, pending, done;
        }
        if names[i] in applied {
          done := done + 1;
        } else {
          pending := pending + 1;
        }
      }
      ok := true;
    }

    /** A snapshot of the database as it is; one may have been written although the
      * step reports an error. */
    method TakeSnapshot() returns (ok: bool, ghost events: seq<Event>)
      modifies this`snapshots, this`failures
      ensures failures >= old(failures) && (ok <==> failures == old(failures))
      ensures events == [] || events == [Saved(Now())]
      ensures snapshots == old(snapshots) + Contents(events)
      ensures ok ==> events != []
    {
      var outcome := Try();
      events := [];
      if outcome != RolledBack {
        snapshots := snapshots + [Now()];
        events := [Saved(Now())];
        assert events[..0] == [];
      }
      ok := outcome == Committed;
    }

    /** Each file that is not recorded is run and recorded in one transaction. */
    method ApplyAll(names: seq<string>) returns (ok: bool, ghost n: nat, ghost events: seq<Event>)
      requires Ascending(names)
      modifies this`applied, this`effects, this`failures
      ensures failures >= old(failures) && (ok <==> failures == old(failures))
      ensures n <= |names| && events == Runs(Missing(old(applied), names, n))
      ensures Now() == Replay(old(Now()), events)
      ensures ok ==> n == |names|
    {
      ghost var before := Now();
      n, events := 0, [];
      for i := 0 to |names|
        invariant failures == old(failures) && n == i && events == Runs(Missing(before.applied, names, i))
        invariant Now() == Replay(before, events)
      {
        RunsNext(before, names, i);
        var answered := Ask();
        if !answered {
          return false, n, events;
        }
        if names[i] !in applied {
          var outcome := Try();
          if outcome != RolledBack {
            effects := effects + [names[i]];
            applied := applied + {names[i]};
            ReplayNext(before, events, Ran(names[i]));
            events := events + [Ran(names[i])];
            n := i + 1;
          }
          if outcome != Committed {
            return false, n, events;
          }
        }
        n := i + 1;
      }
      ok := true;
    }

    method SetMark(latest: string) returns (ok: bool, ghost events: seq<Event>)
      modifies this`version, this`failures
      ensures failures >= old(failures) && (ok <==> failures == old(failures))
      ensures events == [] || events == [Marked(latest)]
      ensures Now() == Replay(old(Now()), events)
      ensures ok ==> events != []
    {
      var outcome := Try();
      events := [];
      if outcome != RolledBack {
        ReplayNext(Now(), [], Marked(latest));
        events := [] + [Marked(latest)];
        version := latest;
      }
      ok := outcome == Committed;
    }

    /** Migrate; any step may fail or be the last one before a crash. It succeeds if and
      * only if all of them do, but for the reading of the mark, whose error is ignored,
      * and the mark it reads is not of a newer version. */
    method Migrate(names: seq<string>) returns (ok: bool, read: bool, ghost events: seq<Event>)
      requires Ascending(names)
      modifies this
      ensures failures >= old(failures)
      ensures ok <==> failures == (old(failures) + if read then 0 else 1)
                      && !(names != [] && read && Less(Latest(names), old(version)))
      ensures Start(old(Now()), names, read, Now(), events)
      ensures snapshots == old(snapshots) + Contents(events)
      ensures ok && names != [] ==> events == Plan(old(Now()), names)
    {
      read, events := true, [];
      var made := Ask();
      if names == [] || !made {
        return made, read, events;
      }
      read := Ask();
      var dbVersion := if read then version else "";
      if Less(Latest(names), dbVersion) {
        return false, read, events;
      }
      ok, events := Upgrade(names);
    }

    /** From the counting on. */
    method Upgrade(names: seq<string>) returns (ok: bool, ghost events: seq<Event>)
      requires Ascending(names) && names != []
      modifies this
      ensures failures >= old(failures) && (ok <==> failures == old(failures))
      ensures Now() == Replay(old(Now()), events) && events <= Plan(old(Now()), names)
      ensures snapshots == old(snapshots) + Contents(events)
      ensures ok ==> events == Plan(old(Now()), names)
    {
      ghost var before := Now();
      events := [];
      var counted, pending, done := CountApplied(names);
      if !counted {
        return false, events;
      }
      if pending > 0 && done > 0 {
        var saved;
        saved, events := TakeSnapshot();
        if !saved {
          return false, events;
        }
      }
      LeadChangesNothing(before, names);
      var finished;
      ghost var n, ran;
      finished, n, ran := ApplyAll(names);
      PlanGrows(before, names, n);
      Onward(before, events, ran);
      events := events + ran;
      if !finished {
        return false, events;
      }
      ghost var marked;
      ok, marked := SetMark(Latest(names));
      Onward(before, events, marked);
      events := events + marked;
    }
  }

  /** How a step ends: done, not done, or done with the answer lost. */
  datatype Outcome = Committed | RolledBack | Unanswered

  lemma {:induction false} ReplayConcat(db: Db, first: seq<Event>, second: seq<Event>)
    ensures Replay(db, first + second) == Replay(Replay(db, first), second)
    decreases |second|
  {
    if second == [] {
      assert first + second == first;
    } else {
      assert (first + second)[..|first + second| - 1] == first + second[..|second| - 1];
      ReplayConcat(db, first, second[..|second| - 1]);
    }
  }

  lemma {:induction false} RunsSaveNothing(first: seq<Event>, second: seq<Event>)
    requires forall i :: 0 <= i < |second| ==> !second[i].Saved?
    ensures Contents(first + second) == Contents(first)
    decreases |second|
  {
    if second == [] {
      assert first + second == first;
    } else {
      assert (first + second)[..|first + second| - 1] == first + second[..|second| - 1];
      RunsSaveNothing(first, second[..|second| - 1]);
    }
  }

  lemma {:induction false} Onward(db: Db, first: seq<Event>, second: seq<Event>)
    requires forall i :: 0 <= i < |second| ==> !second[i].Saved?
    ensures Replay(db, first + second) == Replay(Replay(db, first), second)
    ensures Contents(first + second) == Contents(first)
  {
    ReplayConcat(db, first, second);
    RunsSaveNothing(first, second);
  }

  lemma {:induction false} LeadChangesNothing(before: Db, names: seq<string>)
    ensures Replay(before, Snapshots(before, names)) == before
  {
    ReplayNext(before, [], Saved(before));
    assert [] + [Saved(before)] == [Saved(before)];
  }

  lemma {:induction false} MissingGrows(applied: set<string>, names: seq<string>, n: nat, m: nat)
    requires n <= m <= |names|
    ensures Missing(applied, names, n) <= Missing(applied, names, m)
    decreases m
  {
    if n < m {
      MissingGrows(applied, names, n, m - 1);
    }
  }

  lemma {:induction false} PlanGrows(before: Db, names: seq<string>, n: nat)
    requires n <= |names| && names != []
    ensures Snapshots(before, names) + Runs(Missing(before.applied, names, n)) <= Plan(before, names)
  {
    MissingGrows(before.applied, names, n, |names|);
  }

  lemma {:induction false} ReplayNext(db: Db, events: seq<Event>, event: Event)
    ensures Replay(db, events + [event]) == Done(Replay(db, events), event)
  {
    assert (events + [event])[..|events|] == events;
  }

  lemma {:induction false} FirstSetNext(names: seq<string>, n: nat)
    requires n < |names|
    ensures FirstSet(names, n + 1) == FirstSet(names, n) + {names[n]}
  {
  }

  lemma {:induction false} RunsSnoc(names: seq<string>, name: string)
    ensures Runs(names + [name]) == Runs(names) + [Ran(name)]
  {
  }

  lemma {:induction false} RunsEffect(before: Db, names: seq<string>)
    ensures var after := Replay(before, Runs(names));
            && after.effects == before.effects + names && after.version == before.version
            && after.applied == before.applied + set name | name in names
    decreases |names|
  {
    if names != [] {
      var shorter := names[..|names| - 1];
      assert names == shorter + [names[|names| - 1]];
      RunsEffect(before, shorter);
      RunsSnoc(shorter, names[|names| - 1]);
      ReplayNext(before, Runs(shorter), Ran(names[|names| - 1]));
    }
  }

  lemma {:induction false} MissingAdds(applied: set<string>, names: seq<string>, n: nat)
    requires n <= |names|
    ensures forall name :: name in applied || name in Missing(applied, names, n) <==>
                           name in applied || name in FirstSet(names, n)
  {
    if n > 0 {
      MissingAdds(applied, names, n - 1);
      FirstSetNext(names, n - 1);
    }
  }

  /** Running the missing ones of the first n files goes through these. */
  lemma {:induction false} RunsGoThrough(before: Db, names: seq<string>, n: nat)
    requires n <= |names|
    ensures Through(before, names, n, Replay(before, Runs(Missing(before.applied, names, n))))
    ensures Replay(before, Runs(Missing(before.applied, names, n))).version == before.version
  {
    RunsEffect(before, Missing(before.applied, names, n));
    MissingAdds(before.applied, names, n);
  }

  /** What the next file adds: a step if it is missing, and then it is missing still. */
  lemma {:induction false} RunsNext(before: Db, names: seq<string>, n: nat)
    requires Ascending(names) && n < |names|
    ensures Runs(Missing(before.applied, names, n + 1)) ==
            Runs(Missing(before.applied, names, n)) + if names[n] in before.applied then [] else [Ran(names[n])]
    ensures names[n] in Replay(before, Runs(Missing(before.applied, names, n))).applied <==> names[n] in before.applied
  {
    RunsGoThrough(before, names, n);
    RunsSnoc(Missing(before.applied, names, n), names[n]);
    forall i | 0 <= i < n ensures names[i] != names[n] {
      LessAsymmetric(names[i], names[n]);
      assert Less(names[i], names[n]);
    }
  }

  /** Every beginning of the missing files is what is missing of the first n. */
  lemma {:induction false} MissingCut(applied: set<string>, names: seq<string>, k: nat, m: nat) returns (n: nat)
    requires m <= |names| && k <= |Missing(applied, names, m)|
    ensures n <= m && Missing(applied, names, m)[..k] == Missing(applied, names, n)
  {
    if k == |Missing(applied, names, m)| {
      n := m;
    } else {
      n := MissingCut(applied, names, k, m - 1);
    }
  }

  /** Wherever a start was stopped, it has gone through some first files, and has
    * marked the database only after all of them. */
  lemma {:induction false} StartGoesThrough(before: Db, names: seq<string>, read: bool, after: Db, events: seq<Event>)
    returns (n: nat)
    requires Start(before, names, read, after, events)
    ensures n <= |names| && Through(before, names, n, after)
    ensures after.version == before.version || (names != [] && n == |names| && after.version == Latest(names))
    ensures after.version != before.version ==> events == Plan(before, names)
    ensures names != [] && events == Plan(before, names) ==> after.version == Latest(names)
    ensures names == [] || (read && Less(Latest(names), before.version)) ==> after == before
    ensures after.effects != before.effects && SomeApplied(before, names) ==> events != [] && events[0] == Saved(before)
  {
    n := 0;
    if events != [] {
      var lead, missing := Snapshots(before, names), Missing(before.applied, names, |names|);
      LeadChangesNothing(before, names);
      var full := lead + Runs(missing);
      if events == Plan(before, names) {
        n := |names|;
        assert events == full + [Marked(Latest(names))];
        ReplayConcat(before, full, [Marked(Latest(names))]);
        assert [Marked(Latest(names))][..0] == [];
        ReplayConcat(before, lead, Runs(missing));
        RunsGoThrough(before, names, n);
      } else if |events| > |lead| {
        var k := |events| - |lead|;
        n := MissingCut(before.applied, names, k, |names|);
        assert events == lead + Runs(missing[..k]);
        ReplayConcat(before, lead, Runs(missing[..k]));
        RunsGoThrough(before, names, n);
      } else {
        assert events == lead;
      }
      if AllApplied(before, names) {
        NothingMissing(before.applied, names, n);
      }
    }
  }

  lemma {:induction false} NothingMissing(applied: set<string>, names: seq<string>, n: nat)
    requires n <= |names| && forall i :: 0 <= i < |names| ==> names[i] in applied
    ensures Missing(applied, names, n) == []
  {
    if n > 0 {
      NothingMissing(applied, names, n - 1);
    }
  }

  // ---- whole histories -------------------------------------------------------

  /** One start of a history: how many of all the files this version knows, whether
    * its read of the mark worked, and what it left. */
  datatype Boot = Boot(known: nat, read: bool, after: Db, events: seq<Event>)

  /** Starts of versions that each know a beginning of the same list of files, in
    * any order, on a database that was empty of them. */
  ghost predicate History(all: seq<string>, first: Db, starts: seq<Boot>) {
    starts != [] ==>
      var init, last := starts[..|starts| - 1], starts[|starts| - 1];
      && History(all, first, init)
      && 1 <= last.known <= |all|
      && Start(Left(first, init), all[..last.known], last.read, last.after, last.events)
  }

  function Left(first: Db, starts: seq<Boot>): Db { if starts == [] then first else starts[|starts| - 1].after }

  /** None of the platform's files has been applied. */
  ghost predicate Untouched(all: seq<string>, db: Db) {
    db.effects == [] && db.version == "" && forall i :: 0 <= i < |all| ==> all[i] !in db.applied
  }

  /** Exactly the first k files have been run, each once and in order, and the mark
    * is that of a version that knows no more than these. */
  ghost predicate Prefix(all: seq<string>, db: Db, k: nat) {
    && k <= |all| && db.effects == all[..k]
    && (forall i :: 0 <= i < |all| ==> (all[i] in db.applied <==> i < k))
    && (db.version == "" || exists m :: 0 <= m < k && db.version == all[m])
  }

  lemma {:induction false} MissingIsRest(all: seq<string>, db: Db, k: nat, n: nat)
    requires Prefix(all, db, k) && n <= |all|
    ensures Missing(db.applied, all, n) == if n <= k then [] else all[k..n]
  {
    if n > 0 {
      MissingIsRest(all, db, k, n - 1);
      if n > k {
        SliceSnoc(all, k, n);
      }
    }
  }

  lemma {:induction false} SliceSnoc(all: seq<string>, k: nat, n: nat)
    requires k < n <= |all|
    ensures all[k..n] == all[k..n - 1] + [all[n - 1]]
    ensures n - 1 == k ==> all[k..n - 1] == []
  {
  }

  lemma {:induction false} MissingPrefix(applied: set<string>, all: seq<string>, known: nat, n: nat)
    requires n <= known <= |all|
    ensures Missing(applied, all[..known], n) == Missing(applied, all, n)
    ensures FirstSet(all[..known], n) == FirstSet(all, n)
  {
    if n > 0 {
      MissingPrefix(applied, all, known, n - 1);
    }
  }

  /** A start leaves a prefix where it found one, never a shorter one. */
  lemma {:induction false} StartKeepsPrefix(all: seq<string>, db: Db, k: nat, st: Boot) returns (k': nat)
    requires Ascending(all) && Prefix(all, db, k) && 1 <= st.known <= |all|
    requires Start(db, all[..st.known], st.read, st.after, st.events)
    ensures k <= k' && Prefix(all, st.after, k')
    ensures st.after.version != db.version ==> st.known <= k' && st.after.version == all[st.known - 1]
  {
    var names := all[..st.known];
    if st.after == db {
      return k;
    }
    var n := StartGoesThrough(db, names, st.read, st.after, st.events);
    k' := if n <= k then k else n;
    ThroughEffects(all, db, k, st.known, n, st.after);
    ThroughApplied(all, db, k, st.known, n, st.after);
  }

  lemma {:induction false} ThroughEffects(all: seq<string>, db: Db, k: nat, known: nat, n: nat, after: Db)
    requires Prefix(all, db, k) && n <= known <= |all| && Through(db, all[..known], n, after)
    ensures after.effects == all[..if n <= k then k else n]
  {
    MissingPrefix(db.applied, all, known, n);
    MissingIsRest(all, db, k, n);
    if n > k {
      assert all[..k] + all[k..n] == all[..n];
    }
  }

  lemma {:induction false} ThroughApplied(all: seq<string>, db: Db, k: nat, known: nat, n: nat, after: Db)
    requires Ascending(all) && Prefix(all, db, k) && n <= known <= |all| && Through(db, all[..known], n, after)
    ensures forall i :: 0 <= i < |all| ==> (all[i] in after.applied <==> i < k || i < n)
  {
    MissingPrefix(db.applied, all, known, n);
    forall i | 0 <= i < |all| ensures all[i] in FirstSet(all, n) <==> i < n {
      InFirst(all, n, i);
    }
  }

  lemma {:induction false} InFirst(all: seq<string>, n: nat, i: nat)
    requires Ascending(all) && n <= |all| && i < |all|
    ensures all[i] in FirstSet(all, n) <==> i < n
  {
    if i >= n {
      forall j | 0 <= j < n ensures all[j] != all[i] {
        LessAsymmetric(all[j], all[i]);
        assert Less(all[j], all[i]);
      }
    }
  }

  /** After any number of starts and crashes each file has been run at most once, in
    * order, with none left out before another. */
  lemma {:induction false} RunOnceInOrder(all: seq<string>, first: Db, starts: seq<Boot>) returns (k: nat)
    requires Ascending(all) && Untouched(all, first) && History(all, first, starts)
    ensures Prefix(all, Left(first, starts), k)
  {
    if starts == [] {
      k := 0;
    } else {
      var k0 := RunOnceInOrder(all, first, starts[..|starts| - 1]);
      k := StartKeepsPrefix(all, Left(first, starts[..|starts| - 1]), k0, starts[|starts| - 1]);
    }
  }

  lemma {:induction false} LessByIndex(all: seq<string>, i: nat, j: nat)
    requires Ascending(all) && i < |all| && j < |all|
    ensures Less(all[i], all[j]) <==> i < j
  {
    if i < j {
      assert Less(all[i], all[j]);
    } else if j < i {
      assert Less(all[j], all[i]);
      LessAsymmetric(all[i], all[j]);
    } else {
      LessAsymmetric(all[i], all[j]);
    }
  }

  /** A start of a version older than the mark changes nothing, when it reads the
    * mark; when it does not, it runs nothing all the same, for all it knows has
    * been run. */
  lemma {:induction false} OlderRunsNothing(all: seq<string>, db: Db, k: nat, st: Boot)
    requires Ascending(all) && Prefix(all, db, k) && 1 <= st.known <= |all|
    requires Start(db, all[..st.known], st.read, st.after, st.events) && Less(all[st.known - 1], db.version)
    ensures st.read ==> st.after == db
    ensures st.after.effects == db.effects
  {
    if st.after != db {
      var m :| 0 <= m < k && db.version == all[m];
      LessByIndex(all, st.known - 1, m);
      var names := all[..st.known];
      var n := StartGoesThrough(db, names, st.read, st.after, st.events);
      ThroughEffects(all, db, k, st.known, n, st.after);
    }
  }

  /** The mark goes down in a start if and only if the version is older than it, the
    * mark could not be read, and the start did its whole plan: the error of that read
    * is ignored. */
  lemma {:induction false} MarkFallsIff(all: seq<string>, db: Db, k: nat, st: Boot)
    requires Ascending(all) && Prefix(all, db, k) && 1 <= st.known <= |all|
    requires Start(db, all[..st.known], st.read, st.after, st.events)
    ensures Less(st.after.version, db.version)
            <==> !st.read && Less(all[st.known - 1], db.version) && st.events == Plan(db, all[..st.known])
  {
    LessAsymmetric(db.version, db.version);
    var n := StartGoesThrough(db, all[..st.known], st.read, st.after, st.events);
  }

  /** And it is only ever written when every file the version knows is recorded. */
  lemma {:induction false} MarkedWhenDone(all: seq<string>, db: Db, k: nat, st: Boot, i: nat)
    requires Ascending(all) && Prefix(all, db, k) && i < st.known <= |all|
    requires Start(db, all[..st.known], st.read, st.after, st.events) && st.after.version != db.version
    ensures all[i] in st.after.applied
  {
    var k' := StartKeepsPrefix(all, db, k, st);
  }

  /** A database with something in it is not changed by running a file unless the
    * same start saved it first, exactly as it was before anything was run: the first
    * step of the start is that snapshot. */
  lemma {:induction false} SnapshotFirst(all: seq<string>, db: Db, k: nat, st: Boot)
    requires Prefix(all, db, k) && k > 0 && 1 <= st.known <= |all|
    requires Start(db, all[..st.known], st.read, st.after, st.events)
    requires st.after.effects != db.effects
    ensures st.events != [] && st.events[0] == Saved(db)
  {
    assert all[..st.known][0] == all[0];
    assert SomeApplied(db, all[..st.known]);
    var n := StartGoesThrough(db, all[..st.known], st.read, st.after, st.events);
  }

  /** The mark can fall: a version that knows one file, on a database marked by one
    * that knows two, goes through when its read of the mark fails. */
  lemma {:induction false} FailedReadLowersMark(a: string, b: string) returns (db: Db, st: Boot)
    requires Less(a, b)
    ensures Prefix([a, b], db, 2) && db.version == b && st.known <= 2
    ensures Start(db, [a, b][..st.known], st.read, st.after, st.events) && Less(st.after.version, db.version)
  {
    LessAsymmetric(a, b);
    db := Db({a, b}, [a, b], b);
    st := Boot(1, false, db.(version := a), [Marked(a)]);
    var names := [a, b][..1];
    assert names == [a] && [a, b][..2] == [a, b];
    assert [a, b][1] == b;
    assert Missing(db.applied, names, 1) == [] by {
      assert Missing(db.applied, names, 0) == [];
    }
    assert FirstSet(names, 1) <= db.applied;
    assert Through(db, names, 1, st.after);
  }
}
