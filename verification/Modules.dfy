/** One module's installs and what becomes of its secrets
  * (backend/internal/modules/lifecycle.go). */
module Modules {
  import opened Options

  type Config = map<string, string>

  datatype Kind = Plain | Secret

  datatype Field = Field(key: string, kind: Kind, byDefault: string)

  datatype Manifest = Manifest(
    version: string, dir: string, composeFile: string, needsDatabase: bool, needsHostIP: bool, schema: seq<Field>)

  /** What an install uses from outside: the platform's own values, and a new random
    * secret for each field that may need one. */
  datatype Given = Given(baseDomain: string, moduleId: string, databaseUrl: string, hostIP: string,
      random: string -> string)

  datatype Row = Row(status: string, config: Config)

  /** The two database rows and the .env file of the running containers. */
  datatype Store = Store(row: Option<Row>, archive: Option<Config>, env: Option<Config>)

  // ---- settling the values ---------------------------------------------------

  /** The values every module is given, whatever its schema. */
  function Fixed(m: Manifest, given: Given): Config {
    var c: Config := map["BASE_DOMAIN" := given.baseDomain, "MODULE_ID" := given.moduleId, "MODULE_DIR" := m.dir,
      "MODULE_VERSION" := m.version];
    var c' := if m.needsDatabase then c["DATABASE_URL" := given.databaseUrl] else c;
    if m.needsHostIP then c'["HOST_IP" := given.hostIP] else c'
  }

  predicate FixedName(k: string) {
    k == "BASE_DOMAIN" || k == "MODULE_ID" || k == "MODULE_DIR" || k == "MODULE_VERSION" || k == "HOST_IP"
        || k == "DATABASE_URL"
  }

  /** What was handed in, else the default, else for a secret a new random value. */
  function ValueOf(config: Config, f: Field, random: string): string {
    var v := if f.key in config then config[f.key] else "";
    var w := if v == "" then f.byDefault else v;
    if w == "" && f.kind.Secret? then random else w
  }

  function Resolved(m: Manifest, config: Config, given: Given, n: nat): Config
    requires n <= |m.schema|
  {
    if n == 0 then Fixed(m, given)
    else
      var f := m.schema[n - 1];
      Resolved(m, config, given, n - 1)[f.key := ValueOf(config, f, given.random(f.key))]
  }

  predicate InSchema(m: Manifest, k: string) { exists i :: 0 <= i < |m.schema| && m.schema[i].key == k }

  /** What a field gets that nothing was handed in for: its default, else for a secret
    * a new random value. Of fields with one key the last decides. */
  function Fresh(schema: seq<Field>, given: Given, k: string): string {
    if schema == [] then ""
    else
      var f := schema[|schema| - 1];
      if f.key != k then Fresh(schema[..|schema| - 1], given, k)
      else if f.byDefault == "" && f.kind.Secret? then given.random(k)
      else f.byDefault
  }

  lemma {:induction false} ResolvedKeys(m: Manifest, config: Config, given: Given, n: nat, k: string)
    requires n <= |m.schema| && !FixedName(k)
    ensures k in Resolved(m, config, given, n) <==> exists i :: 0 <= i < n && m.schema[i].key == k
  {
    if n > 0 {
      ResolvedKeys(m, config, given, n - 1, k);
    }
  }

  /** Exactly the schema's fields are settled: what was handed in non-blank is taken
    * as it is, and everything else gets its default or a new secret. */
  lemma {:induction false} ResolvedAt(m: Manifest, config: Config, given: Given, n: nat, k: string)
    requires n <= |m.schema| && !FixedName(k)
    ensures var resolved := Resolved(m, config, given, n);
            && (k in resolved <==> exists i :: 0 <= i < n && m.schema[i].key == k)
            && (k in resolved ==>
                resolved[k] == if k in config && config[k] != "" then config[k] else Fresh(m.schema[..n], given, k))
  {
    ResolvedKeys(m, config, given, n, k);
    if n > 0 {
      var f := m.schema[n - 1];
      FreshNext(m.schema, given, n, k);
      if f.key != k {
        ResolvedAt(m, config, given, n - 1, k);
      }
    }
  }

  lemma {:induction false} FreshNext(schema: seq<Field>, given: Given, n: nat, k: string)
    requires 0 < n <= |schema|
    ensures var f := schema[n - 1];
            Fresh(schema[..n], given, k) ==
              if f.key == k then ValueOf(map[], f, given.random(k)) else Fresh(schema[..n - 1], given, k)
  {
    assert schema[..n][..n - 1] == schema[..n - 1];
  }

  /** A secret without a value or a default is given the random one. */
  lemma {:induction false} NewSecretResolved(m: Manifest, config: Config, given: Given, n: nat, k: string)
    requires n <= |m.schema| && (k in config ==> config[k] == "")
    requires forall i :: 0 <= i < |m.schema| && m.schema[i].key == k
                         ==> m.schema[i].kind.Secret? && m.schema[i].byDefault == ""
    requires exists i :: 0 <= i < n && m.schema[i].key == k
    ensures k in Resolved(m, config, given, n) && Resolved(m, config, given, n)[k] == given.random(k)
  {
    if m.schema[n - 1].key != k {
      NewSecretResolved(m, config, given, n - 1, k);
    }
  }

  // ---- doInstall -------------------------------------------------------------

  /** Where doInstall fails, if it does: before writing .env, while writing it (with
    * some of its lines written), starting or routing the containers, or recording
    * the result, which may have been done all the same. */
  datatype Fault = NoFault | Early | Writing(lines: set<string>) | Starting | Recording(done: bool)

  function Rendered(env: Option<Config>, resolved: Config, fault: Fault): Option<Config> {
    match fault
    case Early => env
    case Writing(lines) => Some(map k | k in resolved && k in lines :: resolved[k])
    case _ => Some(resolved)
  }

  /** config || resolved: what is stored and not resolved stays. */
  function Recorded(row: Option<Row>, resolved: Config, fault: Fault): Option<Row> {
    if row.Some? && (fault.NoFault? || (fault.Recording? && fault.done))
    then Some(Row("running", row.value.config + resolved)) else row
  }

  function AfterDoInstall(s: Store, m: Manifest, config: Config, given: Given, fault: Fault): Store {
    var resolved := Resolved(m, config, given, |m.schema|);
    Store(Recorded(s.row, resolved, fault), s.archive, Rendered(s.env, resolved, fault))
  }

  function SetStatus(s: Store, status: string): Store {
    if s.row.Some? then s.(row := Some(s.row.value.(status := status))) else s
  }

  // ---- operations ------------------------------------------------------------

  /** The stored values, with what was handed in non-blank on top. */
  function Merged(stored: Config, submitted: Config): Config {
    stored + map k | k in submitted && submitted[k] != "" :: submitted[k]
  }

  /** The outcome of one call to the database: done, not done, or done with the
    * answer lost. */
  datatype Call = Done | Refused | Lost

  /** One start of a version. */
  datatype Attempt = Attempt(manifest: Manifest, given: Given, fault: Fault)

  datatype Op =
    | Install(submitted: Config, manifest: Manifest, given: Given, rowRead: bool, archiveRead: bool, recorded: Call,
        fault: Fault)
    | Enable(started: bool, recorded: Call)
    | Disable(stopped: bool, recorded: Call)
    | Uninstall(stopped: bool, envRemoved: bool, archived: Call, deleted: Call)
    | Update(first: Attempt, back: Option<Attempt>)
    | Stash(key: string, value: string)

  function Took(c: Call): bool { c != Refused }

  /** What Install finds of an earlier one. A read that fails is taken for a missing
    * row, and the archive is asked; if that fails too, nothing is found. */
  function Previous(s: Store, rowRead: bool, archiveRead: bool): Config {
    if rowRead && s.row.Some? then s.row.value.config
    else if archiveRead && s.archive.Some? then s.archive.value
    else map[]
  }

  function WithRow(s: Store): Store {
    if s.row.Some? then SetStatus(s, "installing") else s.(row := Some(Row("installing", map[])))
  }

  function AfterInstall(s: Store, op: Op): Store
    requires op.Install?
  {
    var config := Merged(Previous(s, op.rowRead, op.archiveRead), op.submitted);
    if op.recorded != Done then (if Took(op.recorded) then WithRow(s) else s)
    else
      var s' := AfterDoInstall(WithRow(s), op.manifest, config, op.given, op.fault);
      if op.fault.NoFault? then s' else SetStatus(s', "error")
  }

  function AfterUninstall(s: Store, op: Op): Store
    requires op.Uninstall?
  {
    if !op.stopped then s
    else
      var s1 := if op.envRemoved then s.(env := None) else s;
      if !op.envRemoved then s1
      else
        var s2 := if Took(op.archived) && s1.row.Some? then s1.(archive := Some(s1.row.value.config)) else s1;
        if op.archived != Done then s2
        else if Took(op.deleted) then s2.(row := None) else s2
  }

  /** An update starts the new version, and if that fails the old one again, both
    * with the values on record when it began. */
  function AfterUpdate(s: Store, first: Attempt, back: Option<Attempt>): Store {
    if s.row.None? then s
    else
      var config := s.row.value.config;
      var s1 := AfterDoInstall(s, first.manifest, config, first.given, first.fault);
      if back.None? then s1
      else
        var s2 := AfterDoInstall(s1, back.value.manifest, config, back.value.given, back.value.fault);
        if back.value.fault.NoFault? then s2 else SetStatus(s2, "error")
  }

  function Next(s: Store, op: Op): Store {
    match op
    case Install(_, _, _, _, _, _, _) => AfterInstall(s, op)
    case Enable(started, recorded) => if started && Took(recorded) then SetStatus(s, "running") else s
    case Disable(stopped, recorded) => if stopped && Took(recorded) then SetStatus(s, "stopped") else s
    case Uninstall(_, _, _, _) => AfterUninstall(s, op)
    case Update(first, back) => AfterUpdate(s, first, back)
    case Stash(k, v) => if s.row.Some? then s.(row := Some(s.row.value.(config := s.row.value.config[k := v]))) else s
  }

  function Run(s: Store, ops: seq<Op>): Store {
    if ops == [] then s else Next(Run(s, ops[..|ops| - 1]), ops[|ops| - 1])
  }

  // ---- a secret, once recorded -----------------------------------------------

  /** The record that counts: the install row, or the archive when there is none. */
  function Current(s: Store): Option<Config> { if s.row.Some? then Some(s.row.value.config) else s.archive }

  predicate Has(c: Option<Config>, k: string, v: string) { c.Some? && k in c.value && c.value[k] == v }

  /** The secret is on record, and no running container was given another. */
  predicate Keeps(s: Store, k: string, v: string) {
    v != "" && Has(Current(s), k, v) && (s.env.Some? && k in s.env.value ==> s.env.value[k] == v)
  }

  predicate Succeeds(f: Fault) { f.NoFault? || f == Recording(true) }

  function Lookup(c: Config, k: string): string { if k in c then c[k] else "" }

  /** The value an install settles on: what is handed in, else what it finds of an
    * earlier one, else a fresh one. */
  function Chosen(s: Store, op: Op, k: string): string
    requires op.Install?
  {
    var found := Lookup(Previous(s, op.rowRead, op.archiveRead), k);
    if Lookup(op.submitted, k) != "" then op.submitted[k]
    else if found != "" then found
    else Fresh(op.manifest.schema, op.given, k)
  }

  /** doInstall gets as far as writing this value. */
  predicate Reaches(fault: Fault, k: string) { !fault.Early? && (fault.Writing? ==> k in fault.lines) }

  /** An install that does not lose the secret. With no row to go by it must not leave
    * one without the secret in front of the archive that has it; and whatever value it
    * gets as far as writing must be the one on record. */
  predicate CarefulInstall(s: Store, op: Op, k: string, v: string)
    requires op.Install?
  {
    match op.recorded
    case Refused => true
    case Lost => s.row.Some?
    case Done =>
      && (s.row.Some? || (Succeeds(op.fault) && InSchema(op.manifest, k)))
      && (InSchema(op.manifest, k) && Reaches(op.fault, k) ==> Chosen(s, op, k) == v)
  }

  /** Everything but a careless install, and other code writing another value, is
    * careful. */
  predicate Careful(s: Store, op: Op, k: string, v: string) {
    match op
    case Install(_, _, _, _, _, _, _) => CarefulInstall(s, op, k, v)
    case Stash(key, value) => s.row.None? || key != k || value == v
    case _ => true
  }

  lemma {:induction false} DoInstallKeeps(s: Store, m: Manifest, config: Config, given: Given, fault: Fault, k: string,
          v: string)
    requires s.row.Some? && k in config && config[k] == v && !FixedName(k) && Keeps(s, k, v)
    ensures Keeps(AfterDoInstall(s, m, config, given, fault), k, v)
  {
    ResolvedAt(m, config, given, |m.schema|, k);
  }

  /** The same for what doInstall does with the values it has settled. */
  lemma {:induction false} WrittenKeepsIff(s: Store, resolved: Config, fault: Fault, k: string, v: string)
    requires s.row.Some? && v != "" && (k in s.row.value.config ==> s.row.value.config[k] == v)
    requires s.env.Some? && k in s.env.value ==> s.env.value[k] == v
    ensures Keeps(Store(Recorded(s.row, resolved, fault), s.archive, Rendered(s.env, resolved, fault)), k, v) <==>
            && (k in s.row.value.config || (Succeeds(fault) && k in resolved))
            && (k in resolved && Reaches(fault, k) ==> resolved[k] == v)
  {
  }

  /** An install, with its reads of the row and of the archive working or not, any
    * values handed in, any schema, and a failure anywhere or nowhere, keeps a recorded
    * secret if and only if it is careful. */
  lemma {:induction false} InstallKeepsIff(s: Store, op: Op, k: string, v: string)
    requires op.Install? && Keeps(s, k, v) && !FixedName(k)
    ensures Keeps(Next(s, op), k, v) <==> CarefulInstall(s, op, k, v)
  {
    if op.recorded == Done {
      var m, n, s1 := op.manifest, |op.manifest.schema|, WithRow(s);
      var config := Merged(Previous(s, op.rowRead, op.archiveRead), op.submitted);
      var resolved := Resolved(m, config, op.given, n);
      ResolvedAt(m, config, op.given, n, k);
      assert m.schema[..n] == m.schema;
      assert k in resolved ==> resolved[k] == Chosen(s, op, k);
      WrittenKeepsIff(s1, resolved, op.fault, k, v);
      StatusKeeps(AfterDoInstall(s1, m, config, op.given, op.fault), "error", k, v);
    }
  }

  lemma {:induction false} StatusKeeps(s: Store, status: string, k: string, v: string)
    ensures Keeps(SetStatus(s, status), k, v) <==> Keeps(s, k, v)
  {
  }

  /** When both reads work and the field is left blank, that is: there is a row, or the
    * install is not recorded, or it goes through and its schema has the field. */
  lemma {:induction false} BlankInstallKeepsIff(s: Store, op: Op, k: string, v: string)
    requires op.Install? && op.rowRead && op.archiveRead && Lookup(op.submitted, k) == ""
    requires Keeps(s, k, v) && !FixedName(k)
    ensures Keeps(Next(s, op), k, v) <==>
            s.row.Some? || op.recorded == Refused
            || (op.recorded == Done && Succeeds(op.fault) && InSchema(op.manifest, k))
  {
    InstallKeepsIff(s, op, k, v);
  }

  /** A step keeps a recorded secret if and only if it is careful. */
  lemma {:induction false} StepKeepsIff(s: Store, op: Op, k: string, v: string)
    requires Keeps(s, k, v) && !FixedName(k)
    ensures Keeps(Next(s, op), k, v) <==> Careful(s, op, k, v)
  {
    match op {
      case Install(_, _, _, _, _, _, _) => InstallKeepsIff(s, op, k, v);
      case Update(first, back) =>
        if s.row.Some? {
          var config := s.row.value.config;
          DoInstallKeeps(s, first.manifest, config, first.given, first.fault, k, v);
          if back.Some? {
            var s1 := AfterDoInstall(s, first.manifest, config, first.given, first.fault);
            DoInstallKeeps(s1, back.value.manifest, config, back.value.given, back.value.fault, k, v);
          }
        }
      case _ =>
    }
  }

  /** Once on record, a secret survives every run of careful steps: any number of
    * enables, disables, updates kept or rolled back, uninstalls and installs. */
  lemma {:induction false} RunKeeps(s: Store, ops: seq<Op>, k: string, v: string)
    requires Keeps(s, k, v) && !FixedName(k)
    requires forall i :: 0 <= i < |ops| ==> Careful(Run(s, ops[..i]), ops[i], k, v)
    ensures Keeps(Run(s, ops), k, v)
  {
    if ops != [] {
      var init := ops[..|ops| - 1];
      forall i | 0 <= i < |init| ensures Careful(Run(s, init[..i]), init[i], k, v) {
        assert init[..i] == ops[..i];
      }
      RunKeeps(s, init, k, v);
      StepKeepsIff(Run(s, init), ops[|ops| - 1], k, v);
    }
  }

  // ---- what the steps leave, told outright -----------------------------------

  /** The platform's own values, unless the schema has a field of that name. */
  lemma {:induction false} FixedValues(m: Manifest, config: Config, given: Given, n: nat, k: string)
    requires n <= |m.schema| && !exists i :: 0 <= i < n && m.schema[i].key == k
    ensures var c := Resolved(m, config, given, n);
            && (k == "BASE_DOMAIN" ==> k in c && c[k] == given.baseDomain)
            && (k == "MODULE_ID" ==> k in c && c[k] == given.moduleId)
            && (k == "MODULE_DIR" ==> k in c && c[k] == m.dir)
            && (k == "MODULE_VERSION" ==> k in c && c[k] == m.version)
            && (k == "DATABASE_URL" ==> if m.needsDatabase then k in c && c[k] == given.databaseUrl else k !in c)
            && (k == "HOST_IP" ==> if m.needsHostIP then k in c && c[k] == given.hostIP else k !in c)
            && (!FixedName(k) ==> k !in c)
  {
    if n > 0 {
      FixedValues(m, config, given, n - 1, k);
    }
  }

  /** After an install that goes through the module is running, with every field of its
    * schema in the containers' settings and in the row alike: what was handed in non-blank,
    * else what was stored non-blank, else its default or a new secret. Stored values
    * outside the schema stay, and are not given to the containers. */
  lemma {:induction false} InstalledHas(s: Store, op: Op, k: string)
    requires op.Install? && op.recorded == Done && op.fault.NoFault? && !FixedName(k)
    ensures var s' := Next(s, op);
            && s'.row.Some? && s'.row.value.status == "running" && s'.env.Some? && s'.archive == s.archive
            && (if InSchema(op.manifest, k) then
                  && k in s'.env.value && k in s'.row.value.config && s'.env.value[k] == s'.row.value.config[k]
                  && s'.env.value[k] == SettledValue(s, op, k)
                else
                  && k !in s'.env.value
                  && (k in s'.row.value.config <==> s.row.Some? && k in s.row.value.config)
                  && (k in s'.row.value.config ==> s'.row.value.config[k] == s.row.value.config[k]))
  {
    var m, n := op.manifest, |op.manifest.schema|;
    var config := Merged(Previous(s, op.rowRead, op.archiveRead), op.submitted);
    ResolvedAt(m, config, op.given, n, k);
    assert m.schema[..n] == m.schema;
  }

  function SettledValue(s: Store, op: Op, k: string): string
    requires op.Install?
  {
    var stored := if op.rowRead && s.row.Some? then s.row.value.config
                  else if op.archiveRead && s.archive.Some? then s.archive.value else map[];
    if k in op.submitted && op.submitted[k] != "" then op.submitted[k]
    else if k in stored && stored[k] != "" then stored[k]
    else Fresh(op.manifest.schema, op.given, k)
  }

  /** The last field of that name decides what is fresh. */
  lemma {:induction false} FreshIs(schema: seq<Field>, given: Given, k: string, i: nat)
    requires i < |schema| && schema[i].key == k && forall j :: i < j < |schema| ==> schema[j].key != k
    ensures Fresh(schema, given, k) ==
            if schema[i].byDefault == "" && schema[i].kind == Secret then given.random(k) else schema[i].byDefault
  {
    if i < |schema| - 1 {
      FreshIs(schema[..|schema| - 1], given, k, i);
    }
  }

  /** The status after each operation, where there is a row and the database takes it: an
    * install that fails leaves an error, an uninstall no row. */
  lemma {:induction false} StatusAfter(s: Store, op: Op)
    requires s.row.Some?
    ensures var row, was := Next(s, op).row, s.row.value.status;
            match op
            case Install(_, _, _, _, _, recorded, fault) =>
              row.Some? && row.value.status ==
                (if recorded == Refused then was else if recorded == Lost then "installing"
                 else if fault.NoFault? then "running" else "error")
            case Enable(started, recorded) =>
              row == Some(s.row.value.(status := if started && recorded != Refused then "running" else was))
            case Disable(stopped, recorded) =>
              row == Some(s.row.value.(status := if stopped && recorded != Refused then "stopped" else was))
            case Uninstall(stopped, envRemoved, archived, deleted) =>
              row == if stopped && envRemoved && archived == Done && deleted != Refused then None else s.row
            case Update(first, back) =>
              row.Some? && (back.Some? && !back.value.fault.NoFault? ==> row.value.status == "error")
                        && (back.None? && first.fault.NoFault? ==> row.value.status == "running")
            case Stash(_, _) => row.Some? && row.value.status == was
  {
  }

  // ---- what the other steps lose ---------------------------------------------

  /** Uninstalled, reinstalled with a failure, reinstalled again: the last install
    * generates a new secret, for data volumes created with the old one, which the
    * archive still has. */
  lemma {:induction false} LostAfterFailedReinstall(s: Store, m: Manifest, k: string, v: string, given: Given)
    requires Keeps(s, k, v) && s.row.Some? && !FixedName(k) && given.random(k) != v && given.random(k) != ""
    requires InSchema(m, k) && forall i :: 0 <= i < |m.schema| && m.schema[i].key == k
                                           ==> m.schema[i].kind.Secret? && m.schema[i].byDefault == ""
    ensures (var ops := [Uninstall(true, true, Done, Done), Install(map[], m, given, true, true, Done, Starting),
                         Install(map[], m, given, true, true, Done, NoFault)];
             Has(Current(Next(Next(Next(s, ops[0]), ops[1]), ops[2])), k, given.random(k))
             && Has(Next(Next(Next(s, ops[0]), ops[1]), ops[2]).archive, k, v))
  {
    NewSecretResolved(m, map[], given, |m.schema|, k);
  }

  /** A failed read of the row is enough, unless the archive happens to have the field:
    * the values of a live install are then generated anew, over the ones on record. */
  lemma {:induction false} LostAfterFailedRead(s: Store, m: Manifest, k: string, v: string, given: Given,
          archiveRead: bool)
    requires Keeps(s, k, v) && s.row.Some? && !FixedName(k) && given.random(k) != v && given.random(k) != ""
    requires archiveRead && s.archive.Some? ==> Lookup(s.archive.value, k) == ""
    requires InSchema(m, k)
    requires forall i :: 0 <= i < |m.schema| && m.schema[i].key == k ==>
               m.schema[i].kind.Secret? && m.schema[i].byDefault == ""
    ensures Has(Current(Next(s, Install(map[], m, given, false, archiveRead, Done, NoFault))), k, given.random(k))
  {
    NewSecretResolved(m, Merged(Previous(s, false, archiveRead), map[]), given, |m.schema|, k);
  }
}
