/** hypervisor/job_definition.go: the registry of job definitions with its `@latest` index,
    proved to behave as a plain table that has no index at all. */
module Registry {
  import opened Wrappers
  import Text

  datatype RetryPolicy = RetryPolicy(maxRetries: int, retryDelay: string)

  datatype JobDefinition = JobDefinition(
    name: string,
    version: string,
    runtimeType: string,
    config: Option<string>,
    retryPolicy: Option<RetryPolicy>,
    metadata: map<string, string>
  )

  datatype RegistryError =
    | NameRequired
    | VersionRequired
    | RuntimeTypeRequired
    | ConfigRequired
    | NameNotFound
    | VersionNotFound(version: string)
    | NoVersions

  datatype Result<+T> = Ok(value: T) | Err(error: RegistryError)

  const VERSION_LATEST := "@latest"

  function Validate(jd: JobDefinition): Option<RegistryError> {
    if jd.name == "" then Some(NameRequired)
    else if jd.version == "" then Some(VersionRequired)
    else if jd.runtimeType == "" then Some(RuntimeTypeRequired)
    else if jd.config.None? then Some(ConfigRequired)
    else None
  }

  // ----- the table the registry stands for -----

  datatype Key = Key(name: string, version: string)

  type Table = map<Key, JobDefinition>

  function Versions(table: Table, name: string): set<string> {
    set k | k in table && k.name == name :: k.version
  }

  ghost predicate IsMaximum(v: string, vs: set<string>) {
    v in vs && forall u :: u in vs && u != v ==> Text.Less(u, v)
  }

  lemma {:induction false} MaximumExists(vs: set<string>) returns (v: string)
    requires vs != {}
    ensures IsMaximum(v, vs)
    decreases |vs|
  {
    var x :| x in vs;
    if vs == {x} {
      v := x;
    } else {
      var y := MaximumExists(vs - {x});
      Text.LessTotal(x, y);
      v := if Text.Less(y, x) then x else y;
      forall u | u in vs && u != v ensures Text.Less(u, v) {
        if u != x && u != y && v == x {
          assert u in vs - {x};
          Text.LessTransitive(u, y, x);
        }
      }
    }
  }

  lemma MaximumIsUnique(u: string, v: string, vs: set<string>)
    requires IsMaximum(u, vs) && IsMaximum(v, vs)
    ensures u == v
  {
    if u != v {
      Text.LessTransitive(u, v, u);
      Text.LessIrreflexive(u);
    }
  }

  /** The lexicographically greatest version. */
  ghost function Latest(vs: set<string>): (v: string)
    requires vs != {}
    ensures IsMaximum(v, vs)
  {
    assert exists v :: IsMaximum(v, vs) by { var v := MaximumExists(vs); }
    var v :| IsMaximum(v, vs);
    v
  }

  ghost function Lookup(table: Table, name: string, version: string): Result<JobDefinition> {
    var vs := Versions(table, name);
    if vs == {} then Err(NameNotFound)
    else
      var v := if version == VERSION_LATEST then Latest(vs) else version;
      if Key(name, v) in table then Ok(table[Key(name, v)]) else Err(VersionNotFound(v))
  }

  function RemovalError(table: Table, name: string, version: string): Option<RegistryError> {
    if Versions(table, name) == {} then Some(NameNotFound)
    else if Key(name, version) !in table then Some(VersionNotFound(version))
    else None
  }

  // ----- the nested maps and the index -----

  type Definitions = map<string, map<string, JobDefinition>>

  ghost predicate Holds(definitions: Definitions, table: Table) {
    && (forall k :: k in table <==> k.name in definitions && k.version in definitions[k.name])
    && (forall k :: k in table ==> table[k] == definitions[k.name][k.version] && k.version != "")
  }

  /** The index names, for exactly the names with a definition, the greatest version. */
  ghost predicate Indexed(definitions: Definitions, latestVersions: map<string, string>) {
    && definitions.Keys == latestVersions.Keys
    && (forall n :: n in definitions ==> IsMaximum(latestVersions[n], definitions[n].Keys))
  }

  function Added(definitions: Definitions, jd: JobDefinition): Definitions {
    var d := if jd.name in definitions then definitions else definitions[jd.name := map[]];
    d[jd.name := d[jd.name][jd.version := jd]]
  }

  lemma AddedHolds(definitions: Definitions, table: Table, jd: JobDefinition)
    requires Holds(definitions, table) && jd.version != ""
    ensures Holds(Added(definitions, jd), table[Key(jd.name, jd.version) := jd])
  {}

  function Reindexed(latestVersions: map<string, string>, jd: JobDefinition): map<string, string> {
    if jd.name !in latestVersions || latestVersions[jd.name] == "" || Text.Less(latestVersions[jd.name], jd.version)
    then latestVersions[jd.name := jd.version] else latestVersions
  }

  lemma AddedIndexed(definitions: Definitions, latestVersions: map<string, string>, jd: JobDefinition)
    requires Indexed(definitions, latestVersions) && jd.version != ""
    ensures Indexed(Added(definitions, jd), Reindexed(latestVersions, jd))
  {
    if jd.name in definitions {
      RaisedMaximum(latestVersions[jd.name], definitions[jd.name].Keys, jd.version);
      assert definitions[jd.name][jd.version := jd].Keys == definitions[jd.name].Keys + {jd.version};
    }
  }

  function Removed(definitions: Definitions, name: string, version: string): Definitions
    requires name in definitions
  {
    var versions := definitions[name] - {version};
    if versions == map[] then definitions - {name} else definitions[name := versions]
  }

  lemma RemovedHolds(definitions: Definitions, table: Table, name: string, version: string)
    requires Holds(definitions, table) && name in definitions
    ensures Holds(Removed(definitions, name, version), table - {Key(name, version)})
  {
    var removed := Removed(definitions, name, version);
    forall k ensures k in table - {Key(name, version)} <==> k.name in removed && k.version in removed[k.name] {
      if k.name == name && k.version in definitions[name] && k.version != version {
        assert k.version in definitions[name] - {version};
      }
    }
  }

  lemma RemovedIndexed(definitions: Definitions, latestVersions: map<string, string>, name: string,
                       version: string, latest: string)
    requires Indexed(definitions, latestVersions) && name in definitions
    requires var versions := definitions[name] - {version}; versions != map[] ==> IsMaximum(latest, versions.Keys)
    ensures Indexed(Removed(definitions, name, version),
                    if definitions[name] - {version} == map[] then latestVersions - {name}
                    else latestVersions[name := latest])
  {}

  /** What the nested maps say about a name, the table says too. */
  lemma NameVersions(definitions: Definitions, table: Table, name: string)
    requires Holds(definitions, table)
    ensures name in definitions ==> Versions(table, name) == definitions[name].Keys && "" !in definitions[name]
    ensures name !in definitions ==> Versions(table, name) == {}
  {
    if name in definitions {
      forall v | v in definitions[name] ensures v in Versions(table, name) && v != "" {
        assert Key(name, v) in table;
      }
    }
  }

  lemma RemovalByIndex(definitions: Definitions, latestVersions: map<string, string>, table: Table,
                       name: string, version: string)
    requires Holds(definitions, table) && Indexed(definitions, latestVersions)
    ensures RemovalError(table, name, version) ==
            if name !in definitions then Some(NameNotFound)
            else if version !in definitions[name] then Some(VersionNotFound(version))
            else None
  {
    NameVersions(definitions, table, name);
    assert Key(name, version) in table <==> name in definitions && version in definitions[name];
  }

  // ----- the registry -----

  class JobDefinitionRegistry {
    var definitions: Definitions
    var latestVersions: map<string, string>
    ghost var table: Table

    ghost predicate Valid()
      reads this
    {
      Holds(definitions, table) && Indexed(definitions, latestVersions)
    }

    constructor ()
      ensures Valid() && table == map[]
    {
      definitions, latestVersions, table := map[], map[], map[];
    }

    method Register(jd: JobDefinition) returns (err: Option<RegistryError>)
      requires Valid()
      modifies this
      ensures Valid()
      ensures err == Validate(jd)
      ensures table == if err.None? then old(table)[Key(jd.name, jd.version) := jd] else old(table)
    {
      err := Validate(jd);
      if err.Some? {
        return;
      }
      AddedHolds(definitions, table, jd);
      AddedIndexed(definitions, latestVersions, jd);
      hide Holds, Indexed, IsMaximum;
      table := table[Key(jd.name, jd.version) := jd];
      if jd.name !in definitions {
        definitions := definitions[jd.name := map[]];
      }
      definitions := definitions[jd.name := definitions[jd.name][jd.version := jd]];
      assert definitions == Added(old(definitions), jd);
      if jd.name !in latestVersions || latestVersions[jd.name] == "" || Text.Less(latestVersions[jd.name], jd.version) {
        latestVersions := latestVersions[jd.name := jd.version];
      }
    }

    method Get(name: string, version: string) returns (r: Result<JobDefinition>)
      requires Valid()
      ensures r == Lookup(table, name, version)
    {
      NameVersions(definitions, table, name);
      if name !in definitions {
        return Err(NameNotFound);
      }
      var versions := definitions[name];
      var v := version;
      if version == VERSION_LATEST {
        v := if name in latestVersions then latestVersions[name] else "";
        MaximumIsUnique(v, Latest(Versions(table, name)), versions.Keys);
        if v == "" {
          return Err(NoVersions);
        }
      }
      assert Key(name, v) in table <==> v in versions;
      if v !in versions {
        return Err(VersionNotFound(v));
      }
      return Ok(versions[v]);
    }

    method Unregister(name: string, version: string) returns (err: Option<RegistryError>)
      requires Valid()
      modifies this
      ensures Valid()
      ensures err == RemovalError(old(table), name, version)
      ensures table == if err.None? then old(table) - {Key(name, version)} else old(table)
    {
      RemovalByIndex(definitions, latestVersions, table, name, version);
      hide RemovalError;
      if name !in definitions {
        return Some(NameNotFound);
      }
      if version !in definitions[name] {
        return Some(VersionNotFound(version));
      }
      Remove(name, version);
      return None;
    }

    /** The rest of Unregister, for a version that is registered. */
    method Remove(name: string, version: string)
      requires Valid() && name in definitions && version in definitions[name]
      modifies this
      ensures Valid()
      ensures table == old(table) - {Key(name, version)}
    {
      hide Holds, Versions, IsMaximum, Indexed;
      NameVersions(definitions, table, name);
      RemovedHolds(definitions, table, name, version);
      var versions := definitions[name] - {version};
      table := table - {Key(name, version)};
      if |versions| == 0 {
        RemovedIndexed(definitions, latestVersions, name, version, "");
        definitions := definitions - {name};
        latestVersions := latestVersions - {name};
      } else {
        var latest := Recalculate(versions);
        RemovedIndexed(definitions, latestVersions, name, version, latest);
        definitions := definitions[name := versions];
        latestVersions := latestVersions[name := latest];
      }
    }
  }

  /** The loop of Unregister, over the versions in whatever order the map yields them. */
  method Recalculate(versions: map<string, JobDefinition>) returns (latest: string)
    requires versions != map[] && "" !in versions
    ensures IsMaximum(latest, versions.Keys)
  {
    latest := "";
    var todo := versions.Keys;
    while todo != {}
      invariant todo <= versions.Keys
      invariant if todo == versions.Keys then latest == "" else IsMaximum(latest, versions.Keys - todo)
    {
      var v :| v in todo;
      ghost var seen := versions.Keys - todo;
      if latest != "" {
        RaisedMaximum(latest, seen, v);
      }
      if latest == "" || Text.Less(latest, v) {
        latest := v;
      }
      assert versions.Keys - (todo - {v}) == seen + {v};
      todo := todo - {v};
    }
    assert versions.Keys - {} == versions.Keys;
  }

  lemma RaisedMaximum(latest: string, seen: set<string>, v: string)
    requires IsMaximum(latest, seen)
    ensures IsMaximum(if Text.Less(latest, v) then v else latest, seen + {v})
  {
    Text.LessTotal(latest, v);
    forall u | u in seen && u != latest && Text.Less(latest, v) ensures Text.Less(u, v) {
      Text.LessTransitive(u, latest, v);
    }
  }

  // ----- what lookups answer -----

  /** The index carries no history: valid registries of the same definitions have the same
      index, whatever was registered and unregistered in whatever order. */
  lemma IndexIsDetermined(a: JobDefinitionRegistry, b: JobDefinitionRegistry)
    requires a.Valid() && b.Valid() && a.table == b.table
    ensures a.latestVersions == b.latestVersions
  {
    forall n ensures n in a.latestVersions <==> n in b.latestVersions {
      NameVersions(a.definitions, a.table, n);
      NameVersions(b.definitions, b.table, n);
    }
    forall n | n in a.latestVersions ensures a.latestVersions[n] == b.latestVersions[n] {
      NameVersions(a.definitions, a.table, n);
      NameVersions(b.definitions, b.table, n);
      MaximumIsUnique(a.latestVersions[n], b.latestVersions[n], a.definitions[n].Keys);
    }
  }

  /** `@latest` finds something exactly for the names with a definition, and then what a
      lookup of the greatest version finds. */
  lemma LatestIsGreatestVersion(table: Table, name: string)
    ensures Lookup(table, name, VERSION_LATEST).Ok? <==> Versions(table, name) != {}
    ensures Versions(table, name) != {} ==>
              && Lookup(table, name, VERSION_LATEST) == Lookup(table, name, Latest(Versions(table, name)))
              && Lookup(table, name, VERSION_LATEST) == Ok(table[Key(name, Latest(Versions(table, name)))])
  {
    if Versions(table, name) != {} {
      var v := Latest(Versions(table, name));
      assert Key(name, v) in table by {
        var k :| k in table && k.name == name && k.version == v;
        assert k == Key(name, v);
      }
    }
  }

  /** A registered definition is found under its own version, unless that version is spelled
      `@latest` and is not the greatest one. */
  lemma RegisteredIsFoundUnless(table: Table, k: Key)
    requires k in table
    requires forall j :: j in table ==> table[j].version == j.version
    ensures k.version in Versions(table, k.name)
    ensures Lookup(table, k.name, k.version) == Ok(table[k]) <==>
              !(k.version == VERSION_LATEST && Latest(Versions(table, k.name)) != VERSION_LATEST)
  {
    assert k.version in Versions(table, k.name) && k == Key(k.name, k.version);
    LatestIsGreatestVersion(table, k.name);
    if k.version == VERSION_LATEST {
      var v := Latest(Versions(table, k.name));
      assert Key(k.name, v) in table;
    }
  }

  /** A new definition becomes `@latest` exactly when no registered version is greater. */
  lemma NewDefinitionIsLatestExactlyWhen(table: Table, jd: JobDefinition)
    requires forall j :: j in table ==> table[j].version == j.version
    ensures var after := table[Key(jd.name, jd.version) := jd];
            Lookup(after, jd.name, VERSION_LATEST) == Ok(jd) <==>
              forall v :: v in Versions(table, jd.name) && v != jd.version ==> Text.Less(v, jd.version)
  {
    var after := table[Key(jd.name, jd.version) := jd];
    assert Key(jd.name, jd.version) in after;
    var vs := Versions(after, jd.name);
    assert jd.version in vs;
    assert vs == Versions(table, jd.name) + {jd.version} by {
      forall v | v in Versions(table, jd.name) ensures v in vs {
        assert Key(jd.name, v) in after;
      }
    }
    LatestIsGreatestVersion(after, jd.name);
    assert Key(jd.name, Latest(vs)) in after;
    if IsMaximum(jd.version, vs) {
      MaximumIsUnique(jd.version, Latest(vs), vs);
    }
  }

  // ----- whole histories -----

  datatype Op = Add(jd: JobDefinition) | Remove(key: Key)

  /** What Register and Unregister do to the table. */
  function Apply(table: Table, op: Op): Table {
    match op
    case Add(jd) => if Validate(jd).None? then table[Key(jd.name, jd.version) := jd] else table
    case Remove(key) => table - {key}
  }

  function ApplyOn(table: Table, ops: seq<Op>): Table {
    if ops == [] then table else Apply(ApplyOn(table, ops[..|ops| - 1]), ops[|ops| - 1])
  }

  function ApplyAll(ops: seq<Op>): Table {
    ApplyOn(map[], ops)
  }

  /** A registry driven through a history ends with the table of that history. */
  method RunOps(registry: JobDefinitionRegistry, ops: seq<Op>)
    requires registry.Valid()
    modifies registry
    ensures registry.Valid() && registry.table == ApplyOn(old(registry.table), ops)
  {
    hide Holds, Indexed;
    for i := 0 to |ops|
      invariant registry.Valid() && registry.table == ApplyOn(old(registry.table), ops[..i])
    {
      assert ops[..i + 1][..i] == ops[..i];
      match ops[i] {
        case Add(jd) => var err := registry.Register(jd);
        case Remove(key) =>
          AbsentRemoval(registry.table, key);
          var err := registry.Unregister(key.name, key.version);
      }
    }
    assert ops[..|ops|] == ops;
  }

  lemma AbsentRemoval(table: Table, key: Key)
    ensures RemovalError(table, key.name, key.version).Some? ==> table - {key} == table
    ensures Key(key.name, key.version) == key
  {
    assert key in table ==> key.version in Versions(table, key.name);
  }

  /** A definition row, and whether its runtime is registered and its columns parse. */
  datatype StoredDefinition = StoredDefinition(
    jd: JobDefinition,
    runtimeRegistered: bool,
    configParses: bool,
    policyParses: bool,
    metadataParses: bool
  ) {
    predicate Usable() {
      runtimeRegistered && configParses && policyParses && metadataParses
    }
  }

  function RecoveryOps(dbDefs: seq<StoredDefinition>): seq<Op> {
    if dbDefs == [] then []
    else
      var last := dbDefs[|dbDefs| - 1];
      RecoveryOps(dbDefs[..|dbDefs| - 1]) + if last.Usable() then [Add(last.jd)] else []
  }

  /** recoverJobDefinitions: a row that cannot be used is skipped. */
  method RecoverJobDefinitions(registry: JobDefinitionRegistry, dbDefs: seq<StoredDefinition>)
    requires registry.Valid()
    modifies registry
    ensures registry.Valid() && registry.table == ApplyOn(old(registry.table), RecoveryOps(dbDefs))
  {
    hide Holds, Indexed;
    for i := 0 to |dbDefs|
      invariant registry.Valid() && registry.table == ApplyOn(old(registry.table), RecoveryOps(dbDefs[..i]))
    {
      assert dbDefs[..i + 1][..i] == dbDefs[..i];
      assert RecoveryOps(dbDefs[..i]) + [] == RecoveryOps(dbDefs[..i]);
      var dbDef := dbDefs[i];
      if !dbDef.runtimeRegistered || !dbDef.configParses || !dbDef.policyParses || !dbDef.metadataParses {
        continue;
      }
      AppliedLast(old(registry.table), RecoveryOps(dbDefs[..i]), Add(dbDef.jd));
      var err := registry.Register(dbDef.jd);
    }
    assert dbDefs[..|dbDefs|] == dbDefs;
  }

  lemma AppliedLast(table: Table, ops: seq<Op>, op: Op)
    ensures ApplyOn(table, ops + [op]) == Apply(ApplyOn(table, ops), op)
  {
    assert (ops + [op])[..|ops|] == ops;
  }

  /** After a recovery into an empty registry, a definition is found by name and version
      exactly if some usable, valid row has them. */
  lemma {:induction false} RecoveredExactlyUsable(dbDefs: seq<StoredDefinition>, key: Key)
    ensures key in ApplyAll(RecoveryOps(dbDefs)) <==>
              exists i :: 0 <= i < |dbDefs| && dbDefs[i].Usable() && Validate(dbDefs[i].jd).None?
                          && Key(dbDefs[i].jd.name, dbDefs[i].jd.version) == key
  {
    if dbDefs != [] {
      var n := |dbDefs| - 1;
      var init := dbDefs[..n];
      RecoveredExactlyUsable(init, key);
      AppliedLast(map[], RecoveryOps(init), Add(dbDefs[n].jd));
      assert RecoveryOps(init) + [] == RecoveryOps(init);
      assert forall i :: 0 <= i < n ==> init[i] == dbDefs[i];
      if key in ApplyAll(RecoveryOps(dbDefs)) && key !in ApplyAll(RecoveryOps(init)) {
        assert dbDefs[n].Usable() && Validate(dbDefs[n].jd).None? && Key(dbDefs[n].jd.name, dbDefs[n].jd.version) == key;
      }
    }
  }

  /** A definition with everything a job needs. */
  predicate Complete(jd: JobDefinition) {
    jd.name != "" && jd.version != "" && jd.runtimeType != "" && jd.config.Some?
  }

  /** Registration takes exactly the complete definitions, and names something that is missing in
      any other. */
  lemma TakesExactlyComplete(table: Table, jd: JobDefinition)
    ensures Complete(jd) <==> Validate(jd).None?
    ensures Complete(jd) ==> Apply(table, Add(jd)) == table[Key(jd.name, jd.version) := jd]
    ensures !Complete(jd) ==> Apply(table, Add(jd)) == table
    ensures match Validate(jd)
            case None => true
            case Some(NameRequired) => jd.name == ""
            case Some(VersionRequired) => jd.version == ""
            case Some(RuntimeTypeRequired) => jd.runtimeType == ""
            case Some(ConfigRequired) => jd.config.None?
            case Some(_) => false
  {}

  /** After any history every definition that is found is complete. */
  lemma {:induction false} RegisteredAreComplete(ops: seq<Op>, key: Key)
    requires key in ApplyAll(ops)
    ensures Complete(ApplyAll(ops)[key])
  {
    if ops != [] {
      var init := ops[..|ops| - 1];
      if key in ApplyAll(init) {
        RegisteredAreComplete(init, key);
      }
    }
  }

  /** Unregistering succeeds exactly for what is registered, and says otherwise which of name and
      version is unknown. */
  lemma RemovalFailsExactlyWhenAbsent(table: Table, name: string, version: string)
    ensures RemovalError(table, name, version).None? <==> Key(name, version) in table
    ensures RemovalError(table, name, version) == Some(NameNotFound) <==> forall k :: k in table ==> k.name != name
    ensures RemovalError(table, name, version).Some? && (exists k :: k in table && k.name == name) ==>
              RemovalError(table, name, version) == Some(VersionNotFound(version))
  {
    if Key(name, version) in table {
      assert version in Versions(table, name);
    }
    forall k | k in table && k.name == name ensures Versions(table, name) != {} {
      assert k.version in Versions(table, name);
    }
  }

  /** The last operation that said anything about a key. */
  function LastWord(ops: seq<Op>, key: Key): Option<JobDefinition> {
    if ops == [] then None
    else
      match ops[|ops| - 1]
      case Add(jd) =>
        if Validate(jd).None? && Key(jd.name, jd.version) == key then Some(jd) else LastWord(ops[..|ops| - 1], key)
      case Remove(k) => if k == key then None else LastWord(ops[..|ops| - 1], key)
  }

  /** After any history each key holds what was last registered and not unregistered since;
      no empty name or version is ever held. */
  lemma {:induction false} HistoryDecides(ops: seq<Op>, key: Key)
    ensures var table := ApplyAll(ops);
            && LastWord(ops, key) == (if key in table then Some(table[key]) else None)
            && (key in table ==> table[key].name == key.name != "" && table[key].version == key.version != "")
  {
    if ops != [] {
      HistoryDecides(ops[..|ops| - 1], key);
    }
  }

  /** After any history a name has a latest version exactly when one of its versions was
      registered and not unregistered since, and it is the greatest of those. */
  lemma LatestAfterHistory(ops: seq<Op>, name: string)
    ensures var r := Lookup(ApplyAll(ops), name, VERSION_LATEST);
            && (r.Ok? <==> exists v :: LastWord(ops, Key(name, v)).Some?)
            && (r.Ok? ==>
                  && LastWord(ops, Key(name, r.value.version)) == Some(r.value)
                  && forall v :: LastWord(ops, Key(name, v)).Some? && v != r.value.version ==> Text.Less(v, r.value.version))
  {
    var table := ApplyAll(ops);
    LatestIsGreatestVersion(table, name);
    forall v ensures LastWord(ops, Key(name, v)).Some? <==> v in Versions(table, name) {
      HistoryDecides(ops, Key(name, v));
    }
    if Versions(table, name) != {} {
      HistoryDecides(ops, Key(name, Latest(Versions(table, name))));
    }
  }
}
