/** Updating a module, and putting everything back when that fails
  * (backend/internal/modules/update_safe.go). */
module ModuleUpdate {
  import opened Modules
  import opened Options

  // ---- files -----------------------------------------------------------------

  datatype Node = File(data: string) | Special

  /** A directory's contents by path; directories themselves are left out. */
  type Tree = map<string, Node>

  function RegularFiles(t: Tree): Tree { map p | p in t && t[p].File? :: t[p] }

  /** One entry of a bundle, its name cleaned. */
  datatype Entry = Folder(path: string) | Regular(path: string, data: string) | Odd(path: string)

  predicate Escapes(path: string) { ".." <= path || "/" <= path }

  /** No entry of the bundle names a place outside the directory. */
  predicate StaysInside(bundle: seq<Entry>) {
    forall i :: 0 <= i < |bundle| && bundle[i].path != "." ==> !Escapes(bundle[i].path)
  }

  /** Every entry's path, but for the directory's own, starts with neither a slash nor two
    * dots. */
  lemma {:induction false} InsideIff(bundle: seq<Entry>)
    ensures StaysInside(bundle) <==>
            forall i :: 0 <= i < |bundle| && bundle[i].path != "." ==>
              var p := bundle[i].path; !(|p| >= 1 && p[0] == '/') && !(|p| >= 2 && p[0] == '.' && p[1] == '.')
  {
    forall i | 0 <= i < |bundle| ensures Escapes(bundle[i].path) <==>
      (var p := bundle[i].path; (|p| >= 1 && p[0] == '/') || (|p| >= 2 && p[0] == '.' && p[1] == '.'))
    {
    }
  }

  function Unpacked(t: Tree, bundle: seq<Entry>, n: nat): Tree
    requires n <= |bundle|
  {
    if n == 0 then t
    else
      var t' := Unpacked(t, bundle, n - 1);
      var e := bundle[n - 1];
      if e.Regular? && e.path != "." then t'[e.path := File(e.data)] else t'
  }

  predicate Mentions(bundle: seq<Entry>, p: string) { exists i :: 0 <= i < |bundle| && bundle[i].path == p }

  /** Unpacking writes what the bundle holds, its last entry for a path deciding, and
    * nothing else. */
  lemma {:induction false} UnpackedAt(t: Tree, bundle: seq<Entry>, n: nat, p: string)
    requires n <= |bundle| && p != "."
    ensures (var t' := Unpacked(t, bundle, n);
             if exists i :: 0 <= i < n && bundle[i].Regular? && bundle[i].path == p
             then exists i :: 0 <= i < n && bundle[i].Regular? && bundle[i].path == p && p in t'
                              && t'[p] == File(bundle[i].data)
                              && forall j :: i < j < n && bundle[j].Regular? ==> bundle[j].path != p
             else (p in t' <==> p in t) && (p in t ==> t'[p] == t[p]))
  {
    if n > 0 {
      UnpackedAt(t, bundle, n - 1, p);
    }
  }

  // ---- the server ------------------------------------------------------------

  datatype Parsed = Broken | NoManifest | Parsed(manifest: Manifest)

  /** The shared database: the tables of the module's own and the two rows about it. */
  datatype Database = Database(tables: string, row: Option<Row>, archive: Option<Config>)

  /** How a request to install, enable, disable or uninstall is answered. */
  datatype Answer = UnknownModule | NotAvailable | BadValue | Busy | Begun

  /** A value that would break out of its line of the .env file. */
  predicate BreaksLine(v: string) { '\r' in v || '\n' in v }

  predicate AnyBreaksLine(config: Config) { exists k :: k in config && BreaksLine(config[k]) }

  function InstallAnswer(catalog: Option<Manifest>, busy: bool, submitted: Config): Answer {
    if catalog.None? then UnknownModule
    else if catalog.value.composeFile == "" then NotAvailable
    else if AnyBreaksLine(submitted) then BadValue
    else if busy then Busy
    else Begun
  }

  /** A value with a line break is refused before anything else is looked at but the
    * module itself; then, whether an operation is under way. */
  lemma {:induction false} AnswerIs(catalog: Option<Manifest>, busy: bool, submitted: Config)
    ensures var broken := exists k, i :: k in submitted && 0 <= i < |submitted[k]|
                                         && (submitted[k][i] == '\n' || submitted[k][i] == '\r');
            InstallAnswer(catalog, busy, submitted) ==
              if catalog.None? then UnknownModule
              else if catalog.value.composeFile == "" then NotAvailable
              else if broken then BadValue
              else if busy then Busy
              else Begun
  {
    forall k | k in submitted ensures BreaksLine(submitted[k]) <==>
      exists i :: 0 <= i < |submitted[k]| && (submitted[k][i] == '\n' || submitted[k][i] == '\r')
    {
    }
  }

  method FindBroken(config: Config) returns (found: bool)
    ensures found == AnyBreaksLine(config)
  {
    var left := config.Keys;
    while left != {}
      invariant left <= config.Keys
      invariant forall k :: k in config && k !in left ==> !BreaksLine(config[k])
    {
      var k :| k in left;
      left := left - {k};
      if BreaksLine(config[k]) {
        return true;
      }
    }
    found := false;
  }

  /** One module on the server: its rows and tables in the shared database, the .env
    * file of its containers, its files and the copy kept of them, its entry in the
    * catalog, the snapshots taken of the database, and the mark of an operation under
    * way. */
  class Manager {
    var row: Option<Row>
    var archive: Option<Config>
    var env: Option<Config>
    var tables: string
    var files: Tree
    var kept: Tree
    var catalog: Option<Manifest>
    var snapshots: seq<Database>
    var busy: bool

    constructor ()
    {
      row, archive, env, tables := None, None, None, "";
      files, kept, catalog, snapshots, busy := map[], map[], None, [], false;
    }

    function Data(): Database
      reads this`tables, this`row, this`archive
    {
      Database(tables, row, archive)
    }

    function St(): Store
      reads this`row, this`archive, this`env
    {
      Store(row, archive, env)
    }

    /** doInstall. What is started may change its tables. */
    method DoInstall(m: Manifest, config: Config, given: Given, fault: Fault) returns (ok: bool)
      modifies this`row, this`env, this`tables
      ensures fault.Early? || fault.Writing? ==> tables == old(tables)
      ensures St() == AfterDoInstall(old(St()), m, config, given, fault)
      ensures ok <==> fault.NoFault?
    {
      var resolved: Config := map[];
      resolved := resolved["BASE_DOMAIN" := given.baseDomain];
      resolved := resolved["MODULE_ID" := given.moduleId];
      resolved := resolved["MODULE_DIR" := m.dir];
      resolved := resolved["MODULE_VERSION" := m.version];
      if m.needsDatabase {
        resolved := resolved["DATABASE_URL" := given.databaseUrl];
      }
      if m.needsHostIP {
        resolved := resolved["HOST_IP" := given.hostIP];
      }
      for i := 0 to |m.schema|
        invariant resolved == Resolved(m, config, given, i)
      {
        var field := m.schema[i];
        var v := if field.key in config then config[field.key] else "";
        if v == "" {
          v := field.byDefault;
        }
        if v == "" && field.kind.Secret? {
          v := given.random(field.key);
        }
        resolved := resolved[field.key := v];
      }
      match fault {
        case Early => return false;
        case Writing(lines) =>
          env := Some(map k | k in resolved && k in lines :: resolved[k]);
          return false;
        case _ =>
      }
      env := Some(resolved);
      tables := *;
      if fault.Starting? {
        return false;
      }
      if row.Some? && (fault.NoFault? || fault.done) {
        row := Some(Row("running", row.value.config + resolved));
      }
      ok := fault.NoFault?;
    }

    method MarkError()
      modifies this`row
      ensures St() == SetStatus(old(St()), "error")
    {
      if row.Some? {
        row := Some(row.value.(status := "error"));
      }
    }

    /** Install, from its checks to the end of its background run. */
    method Install(submitted: Config, given: Given, rowRead: bool, archiveRead: bool, recorded: Call, fault: Fault)
      returns (answer: Answer, ok: bool)
      modifies this`row, this`env, this`tables, this`busy
      ensures answer == InstallAnswer(catalog, old(busy), submitted) && busy == old(busy)
      ensures !answer.Begun? ==> St() == old(St()) && tables == old(tables) && !ok
      ensures answer.Begun? ==>
        && St() == Next(old(St()), Op.Install(submitted, catalog.value, given, rowRead, archiveRead, recorded, fault))
        && (ok <==> recorded == Done && fault.NoFault?)
    {
      if catalog.None? {
        return UnknownModule, false;
      }
      var manifest := catalog.value;
      if manifest.composeFile == "" {
        return NotAvailable, false;
      }
      var broken := FindBroken(submitted);
      if broken {
        return BadValue, false;
      }
      if busy {
        return Busy, false;
      }
      answer, busy := Begun, true;
      ok := Reinstall(submitted, manifest, given, rowRead, archiveRead, recorded, fault);
      busy := false;
    }

    /** From the reads of earlier values on. */
    method Reinstall(submitted: Config, manifest: Manifest, given: Given, rowRead: bool, archiveRead: bool,
                     recorded: Call, fault: Fault)
      returns (ok: bool)
      modifies this`row, this`env, this`tables
      ensures St() == Next(old(St()), Op.Install(submitted, manifest, given, rowRead, archiveRead, recorded, fault))
      ensures ok <==> recorded == Done && fault.NoFault?
    {
      var previous: Option<Config> := None;
      if rowRead && row.Some? {
        previous := Some(row.value.config);
      } else if archiveRead {
        previous := archive;
      }
      var config := Merged(if previous.Some? then previous.value else map[], submitted);
      if Took(recorded) {
        row := if row.Some? then Some(row.value.(status := "installing")) else Some(Row("installing", map[]));
      }
      if recorded != Done {
        return false;
      }
      ok := DoInstall(manifest, config, given, fault);
      if !ok {
        MarkError();
      }
    }

    method Enable(started: bool, recorded: Call) returns (answer: Answer)
      modifies this`row, this`busy
      ensures answer == (if old(busy) then Busy else if catalog.None? then UnknownModule else Begun)
      ensures St() == (if answer.Begun? then Next(old(St()), Op.Enable(started, recorded)) else old(St()))
      ensures busy == old(busy)
    {
      if busy {
        return Busy;
      }
      busy := true;
      if catalog.None? {
        busy := false;
        return UnknownModule;
      }
      if started && Took(recorded) && row.Some? {
        row := Some(row.value.(status := "running"));
      }
      answer, busy := Begun, false;
    }

    method Disable(stopped: bool, recorded: Call) returns (answer: Answer)
      modifies this`row, this`busy
      ensures answer == (if old(busy) then Busy else Begun)
      ensures St() == (if answer.Begun? then Next(old(St()), Op.Disable(stopped, recorded)) else old(St()))
      ensures busy == old(busy)
    {
      if busy {
        return Busy;
      }
      busy := true;
      if stopped && Took(recorded) && row.Some? {
        row := Some(row.value.(status := "stopped"));
      }
      answer, busy := Begun, false;
    }

    method Uninstall(stopped: bool, envRemoved: bool, archived: Call, deleted: Call) returns (answer: Answer)
      modifies this`row, this`archive, this`env, this`busy
      ensures answer == (if old(busy) then Busy else Begun)
      ensures St() == (if answer.Begun? then Next(old(St()), Op.Uninstall(stopped, envRemoved, archived, deleted))
                       else old(St()))
      ensures busy == old(busy)
    {
      if busy {
        return Busy;
      }
      answer, busy := Begun, true;
      Forget(stopped, envRemoved, archived, deleted);
      busy := false;
    }

    method Forget(stopped: bool, envRemoved: bool, archived: Call, deleted: Call)
      modifies this`row, this`archive, this`env
      ensures St() == Next(old(St()), Op.Uninstall(stopped, envRemoved, archived, deleted))
    {
      if !stopped || !envRemoved {
        return;
      }
      env := None;
      if Took(archived) && row.Some? {
        archive := Some(row.value.config);
      }
      if archived != Done {
        return;
      }
      if Took(deleted) {
        row := None;
      }
    }

    // ---- steps of an update --------------------------------------------------

    /** extractBundle; when it fails, any part of the bundle may have been written. `works`
      * says that the bundle opens and everything can be written. */
    method Extract(bundle: seq<Entry>, works: bool) returns (ok: bool)
      modifies this`files
      ensures ok <==> works && StaysInside(bundle)
      ensures ok ==> files == Unpacked(old(files), bundle, |bundle|)
      ensures forall p :: !Mentions(bundle, p)
                          ==> (p in files <==> p in old(files)) && (p in files ==> files[p] == old(files)[p])
    {
      var broken: nat := *;
      if !works && broken == 0 {
        return false;
      }
      for i := 0 to |bundle|
        invariant files == Unpacked(old(files), bundle, i)
        invariant forall j :: 0 <= j < i && bundle[j].path != "." ==> !Escapes(bundle[j].path)
        invariant forall p :: !Mentions(bundle, p)
                              ==> (p in files <==> p in old(files)) && (p in files ==> files[p] == old(files)[p])
      {
        var e := bundle[i];
        if e.path != "." {
          if Escapes(e.path) {
            return false;
          }
          if e.Regular? {
            if !works && broken == i + 1 {
              var part: string := *;
              files := files[e.path := File(part)];
              return false;
            }
            files := files[e.path := File(e.data)];
          }
        }
      }
      ok := works;
    }

    /** The manifest is read from the module's files; a broken one, here or (not `others`)
      * in any other module, leaves the catalog as it was. */
    method Reload(read: Tree -> Parsed, others: bool) returns (ok: bool)
      modifies this`catalog
      ensures ok <==> others && !read(files).Broken?
      ensures ok ==> !read(files).Broken?
                     && catalog == (if read(files).Parsed? then Some(read(files).manifest) else None)
      ensures !ok ==> catalog == old(catalog)
    {
      var parsed := read(files);
      if !others || parsed.Broken? {
        return false;
      }
      catalog := if parsed.Parsed? then Some(parsed.manifest) else None;
      ok := true;
    }

    /** restoreFiles; its errors are ignored. */
    method RestoreFiles(emptied: bool, copied: bool)
      modifies this`files
      ensures emptied && copied ==> files == RegularFiles(kept)
    {
      var rest := RemoveAll(files, emptied);
      var _, now := CopyDir(kept, rest, copied);
      files := now;
      assert emptied && copied ==> map[] + RegularFiles(kept) == RegularFiles(kept);
    }
  }

  /** Without an error nothing is left. */
  method RemoveAll(t: Tree, works: bool) returns (left: Tree)
    ensures works ==> left == map[]
    ensures left.Keys <= t.Keys && forall p :: p in left ==> left[p] == t[p]
  {
    left := map[];
    if !works {
      var stuck: set<string> := *;
      left := map p | p in t && p in stuck :: t[p];
    }
  }

  /** copyDir: only regular files, one after the other; it stops at the first error. */
  method CopyDir(src: Tree, dst: Tree, works: bool) returns (ok: bool, res: Tree)
    ensures ok <==> works
    ensures ok ==> res == dst + RegularFiles(src)
  {
    res := dst;
    var left, done: set<string> := src.Keys, {};
    while left != {}
      invariant left + done == src.Keys && left !! done
      invariant res == dst + map p | p in done && src[p].File? :: src[p]
    {
      var p :| p in left;
      left, done := left - {p}, done + {p};
      if src[p].File? {
        var broken: bool := *;
        if !works && broken {
          return false, res;
        }
        res := res[p := src[p]];
      }
    }
    assert (map p | p in done && src[p].File? :: src[p]) == RegularFiles(src);
    ok := works;
  }

  // ---- health ----------------------------------------------------------------

  const NEEDED := 4

  /** The checks up to the n-th end in four good ones. */
  ghost predicate Streak(checks: seq<bool>, n: nat) {
    4 <= n <= |checks| && forall i :: n - 4 <= i < n ==> checks[i]
  }

  /** There are four good checks in a row. */
  ghost predicate GetsHealthy(checks: seq<bool>) { exists n :: Streak(checks, n) }

  /** WaitHealthy: one check every four seconds; `checks` is what they find until the
    * time is up. It says yes exactly when four in a row are good, and at the first
    * such four. */
  method WaitHealthy(checks: seq<bool>) returns (ok: bool, asked: nat)
    ensures ok <==> GetsHealthy(checks)
    ensures if ok then Streak(checks, asked) else asked == |checks|
    ensures forall n :: 0 <= n < asked ==> !Streak(checks, n)
  {
    var streak := 0;
    for i := 0 to |checks|
      invariant streak < NEEDED && streak <= i
      invariant forall j :: i - streak <= j < i ==> checks[j]
      invariant streak < i ==> !checks[i - streak - 1]
      invariant forall n :: 0 <= n <= i ==> !Streak(checks, n)
    {
      if checks[i] {
        streak := streak + 1;
        if streak >= NEEDED {
          assert Streak(checks, i + 1);
          return true, i + 1;
        }
      } else {
        streak := 0;
      }
    }
    ok, asked := false, |checks|;
  }

  // ---- the update ------------------------------------------------------------

  /** One for each place where applyBundle returns. */
  datatype Verdict =
    | StatusUnreadable | NoSnapshot | NoVolumeCopy | NoFileCopy
    | BundleBroken | CatalogUnreadable | CatalogMissing
    | Fetched | Updated
    | OldUnreadable | OldMissing | OldNotStarted | OldUnhealthy | RolledBack

  predicate Succeeded(v: Verdict) { v.Fetched? || v.Updated? }

  /** It gave up before anything was unpacked. */
  predicate BeforeUnpacking(v: Verdict) { v.StatusUnreadable? || v.NoSnapshot? || v.NoVolumeCopy? || v.NoFileCopy? }

  /** The new files are in place when it returns. */
  predicate LeavesNew(v: Verdict) { Succeeded(v) || v.CatalogUnreadable? || v.CatalogMissing? }

  predicate IsRollback(v: Verdict) {
    v.OldUnreadable? || v.OldMissing? || v.OldNotStarted? || v.OldUnhealthy? || v.RolledBack?
  }

  predicate Live(catalog: Option<Manifest>, row: Option<Row>) {
    catalog.Some? && row.Some? && row.value.status != "not_installed"
  }

  /** One start of a version: what it is given, where it fails if it does, and how its
    * containers fare. */
  datatype Trial = Trial(given: Given, fault: Fault, checks: seq<bool>)

  /** How everything outside goes: reading the install's row, recording the snapshot, the
    * copies of the volumes, emptying the place for the copy and making it, unpacking, the
    * other modules' manifests, the new version's start; and, where it comes to that,
    * emptying the directory and copying back, the manifests, the old version's start. */
  datatype World = World(
    statusRead: bool, snapshot: Call, volumes: bool, emptied: bool, copied: bool,
    unpacks: bool, loads: bool, first: Trial,
    emptiedBack: bool, copiedBack: bool, loadsBack: bool, second: Trial)

  /** None of the errors that are ignored happens. */
  predicate Clean(w: World) { w.emptied && w.emptiedBack && w.copiedBack }

  predicate Starts(t: Trial) { t.fault.NoFault? }

  ghost predicate Works(t: Trial) { Starts(t) && GetsHealthy(t.checks) }

  /** Whether an update gets past its safety copies, and if not, where it ends. */
  predicate Saves(w: World, needsDatabase: bool) {
    (needsDatabase ==> w.snapshot == Done) && w.volumes && w.copied
  }

  /** How an update ends. `unpacked` is what the module's files read as with the bundle
    * unpacked, and `back` what they read as at the end. */
  ghost function VerdictOf(w: World, live: bool, needsDatabase: bool, safe: bool, unpacked: Parsed, back: Parsed)
    : Verdict
  {
    if !w.statusRead then StatusUnreadable
    else if live && needsDatabase && w.snapshot != Done then NoSnapshot
    else if live && !w.volumes then NoVolumeCopy
    else if live && !w.copied then NoFileCopy
    else AfterSaving(w, live, safe, unpacked, back)
  }

  ghost function AfterSaving(w: World, live: bool, safe: bool, unpacked: Parsed, back: Parsed): Verdict {
    if !w.unpacks || !safe then BundleBroken
    else if !w.loads || unpacked.Broken? then CatalogUnreadable
    else if unpacked.NoManifest? then CatalogMissing
    else if !live then Fetched
    else if Works(w.first) then Updated
    else AfterFailure(w, back)
  }

  ghost function AfterFailure(w: World, back: Parsed): Verdict {
    if !w.loadsBack || back.Broken? then OldUnreadable
    else if back.NoManifest? then OldMissing
    else if !Starts(w.second) then OldNotStarted
    else if GetsHealthy(w.second.checks) then RolledBack
    else OldUnhealthy
  }

  /** What is in the module's directory afterwards. */
  ghost predicate FilesAfter(v: Verdict, live: bool, clean: bool, bundle: seq<Entry>, before: Tree, after: Tree) {
    if BeforeUnpacking(v) then after == before
    else if LeavesNew(v) then after == Unpacked(before, bundle, |bundle|)
    else live && clean ==> after == RegularFiles(before)
  }

  /** What the catalog says afterwards. */
  ghost predicate CatalogAfter(v: Verdict, read: Tree -> Parsed, unpacked: Parsed, files: Tree,
          before: Option<Manifest>, after: Option<Manifest>) {
    if BeforeUnpacking(v) || v.BundleBroken? || v.CatalogUnreadable? then after == before
    else if Succeeded(v) || v.OldUnreadable? then unpacked.Parsed? && after == Some(unpacked.manifest)
    else if v.CatalogMissing? || v.OldMissing? then after == None
    else after.Some? && read(files) == Parsed(after.value)
  }

  /** The new version's start, and the old one's. */
  function First(w: World, unpacked: Parsed): Attempt
    requires unpacked.Parsed?
  {
    Attempt(unpacked.manifest, w.first.given, w.first.fault)
  }

  function Back(w: World, catalog: Option<Manifest>): Option<Attempt> {
    if catalog.None? then None else Some(Attempt(catalog.value, w.second.given, w.second.fault))
  }

  /** What was started. */
  ghost predicate StoreAfter(v: Verdict, w: World, unpacked: Parsed, before: Store, catalog: Option<Manifest>,
          after: Store) {
    if !v.Updated? && !IsRollback(v) then after == before
    else
      && unpacked.Parsed?
      && after == AfterUpdate(before, First(w, unpacked),
                              if v.Updated? || v.OldUnreadable? || v.OldMissing? then None else Back(w, catalog))
  }

  /** The whole database as it was when the update began, if that was needed and the
    * copy was made, whatever came after. */
  function SnapshotsAfter(w: World, needed: bool, data: Database, before: seq<Database>): seq<Database> {
    if w.statusRead && needed && Took(w.snapshot) then before + [data] else before
  }

  ghost predicate NeedsDatabase(m: Manager)
    reads m`catalog
  {
    m.catalog.Some? && m.catalog.value.needsDatabase
  }

  /** applyBundle, for everything that may happen outside. */
  method ApplyBundle(m: Manager, bundle: seq<Entry>, read: Tree -> Parsed, w: World) returns (v: Verdict)
    modifies m
    ensures v == VerdictOf(w, old(Live(m.catalog, m.row)), old(NeedsDatabase(m)), StaysInside(bundle),
                           old(read(Unpacked(m.files, bundle, |bundle|))), read(m.files))
    ensures FilesAfter(v, old(Live(m.catalog, m.row)), Clean(w), bundle, old(m.files), m.files)
    ensures CatalogAfter(v, read, old(read(Unpacked(m.files, bundle, |bundle|))), m.files, old(m.catalog), m.catalog)
    ensures StoreAfter(v, w, old(read(Unpacked(m.files, bundle, |bundle|))), old(m.St()), m.catalog, m.St())
    ensures m.snapshots == SnapshotsAfter(w, old(Live(m.catalog, m.row) && NeedsDatabase(m)), old(m.Data()),
                                          old(m.snapshots))
    ensures !v.Updated? && !IsRollback(v) ==> m.Data() == old(m.Data())
    ensures m.busy == old(m.busy)
  {
    var prior, row := m.catalog, m.row;
    if !w.statusRead {
      return StatusUnreadable;
    }
    var live := prior.Some? && row.Some? && row.value.status != "not_installed";
    if live {
      var safe;
      safe, v := SaveFirst(m, prior.value, w);
      if !safe {
        return;
      }
    }
    v := Proceed(m, bundle, read, w, live);
  }

  /** From unpacking on. */
  method Proceed(m: Manager, bundle: seq<Entry>, read: Tree -> Parsed, w: World, live: bool) returns (v: Verdict)
    requires live ==> m.row.Some?
    requires live && w.emptied ==> m.kept == RegularFiles(m.files)
    modifies m`files, m`catalog, m`row, m`env, m`tables
    ensures v == AfterSaving(w, live, StaysInside(bundle), old(read(Unpacked(m.files, bundle, |bundle|))),
                             read(m.files))
    ensures FilesAfter(v, live, Clean(w), bundle, old(m.files), m.files)
    ensures CatalogAfter(v, read, old(read(Unpacked(m.files, bundle, |bundle|))), m.files, old(m.catalog), m.catalog)
    ensures StoreAfter(v, w, old(read(Unpacked(m.files, bundle, |bundle|))), old(m.St()), m.catalog, m.St())
    ensures !v.Updated? && !IsRollback(v) ==> m.tables == old(m.tables)
  {
    var ok;
    ok, v := Unpack(m, bundle, read, w, live);
    if !ok {
      return;
    }
    if !live {
      v := Fetched;
      return;
    }
    v := Switch(m, read, w, m.row.value.config);
  }

  /** The bundle unpacked and the catalog read again. */
  method Unpack(m: Manager, bundle: seq<Entry>, read: Tree -> Parsed, w: World, live: bool)
    returns (ok: bool, v: Verdict)
    modifies m`files, m`catalog
    ensures var unpacked := old(read(Unpacked(m.files, bundle, |bundle|)));
            if !w.unpacks || !StaysInside(bundle) then !ok && v.BundleBroken? && m.catalog == old(m.catalog)
            else
              && m.files == Unpacked(old(m.files), bundle, |bundle|)
              && (ok <==> w.loads && unpacked.Parsed?)
              && (!ok ==> v == (if !w.loads || unpacked.Broken? then CatalogUnreadable else CatalogMissing))
              && m.catalog == (if !w.loads || unpacked.Broken? then old(m.catalog)
                               else if unpacked.Parsed? then Some(unpacked.manifest) else None)
    ensures !ok && v.BundleBroken? && live && w.emptiedBack && w.copiedBack ==> m.files == RegularFiles(m.kept)
  {
    v := BundleBroken;
    ok := m.Extract(bundle, w.unpacks);
    if !ok {
      if live {
        m.RestoreFiles(w.emptiedBack, w.copiedBack);
      }
      return;
    }
    ok := m.Reload(read, w.loads);
    if !ok {
      v := CatalogUnreadable;
    } else if m.catalog.None? {
      ok, v := false, CatalogMissing;
    }
  }

  /** The new version started on its files; the old one again if that fails. */
  method Switch(m: Manager, read: Tree -> Parsed, w: World, config: Config) returns (v: Verdict)
    requires m.catalog.Some? && m.row.Some? && config == m.row.value.config
    modifies m`files, m`catalog, m`row, m`env, m`tables
    ensures v == if Works(w.first) then Updated else AfterFailure(w, read(m.files))
    ensures if v.Updated? then m.files == old(m.files)
            else w.emptiedBack && w.copiedBack ==> m.files == RegularFiles(m.kept)
    ensures v.Updated? || v.OldUnreadable? ==> m.catalog == old(m.catalog)
    ensures v.OldMissing? ==> m.catalog == None
    ensures v.OldNotStarted? || v.OldUnhealthy? || v.RolledBack?
            ==> m.catalog.Some? && read(m.files) == Parsed(m.catalog.value)
    ensures StoreAfter(v, w, Parsed(old(m.catalog.value)), old(m.St()), m.catalog, m.St())
  {
    var ok := m.DoInstall(m.catalog.value, config, w.first.given, w.first.fault);
    if ok {
      var asked;
      ok, asked := WaitHealthy(w.first.checks);
    }
    if ok {
      v := Updated;
      return;
    }
    v := RollBack(m, read, w, config);
  }

  /** The safety copies; any of them failing ends the update. */
  method SaveFirst(m: Manager, manifest: Manifest, w: World) returns (ok: bool, v: Verdict)
    modifies m`kept, m`snapshots
    ensures ok <==> Saves(w, manifest.needsDatabase)
    ensures !ok ==> v == if manifest.needsDatabase && w.snapshot != Done then NoSnapshot
                         else if !w.volumes then NoVolumeCopy else NoFileCopy
    ensures m.snapshots == old(m.snapshots) + if manifest.needsDatabase && Took(w.snapshot) then [m.Data()] else []
    ensures ok && w.emptied ==> m.kept == RegularFiles(m.files)
  {
    if manifest.needsDatabase {
      if Took(w.snapshot) {
        m.snapshots := m.snapshots + [m.Data()];
      }
      if w.snapshot != Done {
        return false, NoSnapshot;
      }
    }
    if !w.volumes {
      return false, NoVolumeCopy;
    }
    var rest := RemoveAll(m.kept, w.emptied);
    var copied, now := CopyDir(m.files, rest, w.copied);
    m.kept := now;
    assert w.emptied ==> map[] + RegularFiles(m.files) == RegularFiles(m.files);
    ok, v := copied, NoFileCopy;
  }

  /** Back to the version that was working. */
  method RollBack(m: Manager, read: Tree -> Parsed, w: World, config: Config) returns (v: Verdict)
    modifies m`files, m`catalog, m`row, m`env, m`tables
    ensures v == AfterFailure(w, read(m.files))
    ensures w.emptiedBack && w.copiedBack ==> m.files == RegularFiles(m.kept)
    ensures v.OldUnreadable? ==> m.catalog == old(m.catalog)
    ensures v.OldMissing? ==> m.catalog == None
    ensures v.OldNotStarted? || v.OldUnhealthy? || v.RolledBack?
            ==> m.catalog.Some? && read(m.files) == Parsed(m.catalog.value)
    ensures m.St() ==
            if v.OldUnreadable? || v.OldMissing? then old(m.St())
            else
              var s := AfterDoInstall(old(m.St()), m.catalog.value, config, w.second.given, w.second.fault);
              if v.OldNotStarted? then SetStatus(s, "error") else s
  {
    m.RestoreFiles(w.emptiedBack, w.copiedBack);
    var ok := m.Reload(read, w.loadsBack);
    if !ok {
      v := OldUnreadable;
      return;
    }
    if m.catalog.None? {
      v := OldMissing;
      return;
    }
    ok := m.DoInstall(m.catalog.value, config, w.second.given, w.second.fault);
    if !ok {
      m.MarkError();
      v := OldNotStarted;
      return;
    }
    var asked;
    ok, asked := WaitHealthy(w.second.checks);
    v := if ok then RolledBack else OldUnhealthy;
  }

  // ---- what an update promises -----------------------------------------------

  /** The statuses an install's row can have. */
  predicate HasStatus(row: Option<Row>) {
    row.Some? && (row.value.status == "running" || row.value.status == "stopped" || row.value.status == "installing"
                  || row.value.status == "error")
  }

  /** Every operation leaves such a row, or none. */
  lemma {:induction false} StatusesStay(s: Store, op: Op)
    requires s.row.None? || HasStatus(s.row)
    ensures Next(s, op).row.None? || HasStatus(Next(s, op).row)
  {
  }

  lemma {:induction false} RunStatuses(s: Store, ops: seq<Op>)
    requires s.row.None? || HasStatus(s.row)
    ensures Run(s, ops).row.None? || HasStatus(Run(s, ops).row)
  {
    if ops != [] {
      RunStatuses(s, ops[..|ops| - 1]);
      StatusesStay(Run(s, ops[..|ops| - 1]), ops[|ops| - 1]);
    }
  }

  /** Whatever its status, an installed module is never overwritten unsaved: an update
    * that unpacks anything has the snapshot it needs, the volumes' copies and its files';
    * the new version is started, and only a healthy one is kept; and unless new files
    * stay because they could not be read, the regular files are as they were. */
  lemma {:induction false} InstalledIsProtected(w: World, catalog: Option<Manifest>, row: Option<Row>,
          bundle: seq<Entry>, read: Tree -> Parsed, files: Tree, after: Tree, v: Verdict, data: Database,
          snapshots: seq<Database>, snapshots': seq<Database>, p: string)
    requires catalog.Some? && HasStatus(row)
    requires snapshots' == SnapshotsAfter(w, Live(catalog, row) && catalog.value.needsDatabase, data, snapshots)
    requires v == VerdictOf(w, Live(catalog, row), catalog.value.needsDatabase, StaysInside(bundle),
                            read(Unpacked(files, bundle, |bundle|)), read(after))
    requires FilesAfter(v, Live(catalog, row), Clean(w), bundle, files, after)
    ensures !v.Fetched?
    ensures after != files ==>
              w.volumes && w.copied && (catalog.value.needsDatabase ==> snapshots' == snapshots + [data])
    ensures v.Updated? ==> w.first.fault.NoFault? && GetsHealthy(w.first.checks)
    ensures Clean(w) && !v.Updated? && !v.CatalogUnreadable? && !v.CatalogMissing? ==>
              if p in files && files[p].File? then p in after && after[p] == files[p]
              else p in after ==> after == files
  {
  }

  /** An update of an installed module succeeds if and only if the copies are made, the
    * bundle unpacks and reads as a module, and the new version starts and gets healthy. */
  lemma {:induction false} UpdatesIff(w: World, catalog: Option<Manifest>, row: Option<Row>, safe: bool,
          unpacked: Parsed, back: Parsed)
    requires catalog.Some? && HasStatus(row)
    ensures VerdictOf(w, Live(catalog, row), catalog.value.needsDatabase, safe, unpacked, back) == Updated <==>
            && w.statusRead && (catalog.value.needsDatabase ==> w.snapshot == Done) && w.volumes && w.copied
            && w.unpacks && safe && w.loads && unpacked.Parsed?
            && w.first.fault.NoFault? && GetsHealthy(w.first.checks)
  {
  }

  /** And when the new version does not, the old one is running again if and only if its
    * files can be read again and it starts and gets healthy. */
  lemma {:induction false} RollsBackIff(w: World, catalog: Option<Manifest>, row: Option<Row>, safe: bool,
          unpacked: Parsed, back: Parsed)
    requires catalog.Some? && HasStatus(row)
    ensures VerdictOf(w, Live(catalog, row), catalog.value.needsDatabase, safe, unpacked, back) == RolledBack <==>
            && w.statusRead && (catalog.value.needsDatabase ==> w.snapshot == Done) && w.volumes && w.copied
            && w.unpacks && safe && w.loads && unpacked.Parsed?
            && !(w.first.fault.NoFault? && GetsHealthy(w.first.checks))
            && w.loadsBack && back.Parsed? && w.second.fault.NoFault? && GetsHealthy(w.second.checks)
  {
  }

  /** A module nobody has installed is fetched if and only if its bundle unpacks and
    * reads as a module. */
  lemma {:induction false} FetchesIff(w: World, catalog: Option<Manifest>, row: Option<Row>, needsDatabase: bool,
          safe: bool, unpacked: Parsed, back: Parsed)
    requires catalog.None? || row.None?
    ensures VerdictOf(w, Live(catalog, row), needsDatabase, safe, unpacked, back) == Fetched <==>
            w.statusRead && w.unpacks && safe && w.loads && unpacked.Parsed?
  {
  }

  /** However an update ends, a recorded secret stays on record, and no container is
    * started with another. */
  lemma {:induction false} UpdateKeepsSecrets(v: Verdict, w: World, unpacked: Parsed, s: Store,
          catalog: Option<Manifest>, s': Store, k: string, value: string)
    requires StoreAfter(v, w, unpacked, s, catalog, s') && Keeps(s, k, value) && !FixedName(k)
    ensures Keeps(s', k, value)
  {
    if v.Updated? || IsRollback(v) {
      StepKeepsIff(s, Update(First(w, unpacked), Back(w, catalog)), k, value);
      StepKeepsIff(s, Update(First(w, unpacked), None), k, value);
    }
  }
}
