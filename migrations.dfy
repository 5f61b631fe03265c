/** The configuration-extension migration run on the user's configuration
    mapping (crates/a8e-core/src/config/migrations.rs).

    The specification is a set of functions: `PlatformLoop` and `BuiltinLoop`
    are the two `for` loops over the definition tables, folded over a prefix
    of the table so that they double as loop invariants; `PlatformMigrated`,
    `BuiltinMigrated` and `Migrated` are the two passes and `run_migrations`.
    `ConfigDocument` holds the mapping that the source changes in place and
    its methods are proved against those functions. The lemmas state what
    the migration promises: which entries are rewritten, what survives a
    rewrite, that nothing else changes, that the result reports exactly
    whether the mapping changed, and that a second run changes nothing. */
module Migrations {
  import opened Wrappers
  import opened Extensions

  const ExtensionsKey: string := "extensions"

  /** One entry of `PLATFORM_EXTENSIONS`. */
  datatype PlatformDef = PlatformDef(name: string, displayName: string, description: string, defaultEnabled: bool)

  /** `BuiltinExtensionDef`. */
  datatype BuiltinDef = BuiltinDef(name: string, displayName: string, defaultEnabled: bool, timeout: u64)

  /** `PLATFORM_EXTENSIONS` is a hash map from extension name to definition;
      it is given here as its (key, definition) pairs, in the unspecified
      order in which the map is iterated. */
  type PlatformTable = seq<(string, PlatformDef)>

  /** The keys of a hash map are distinct. */
  predicate DistinctKeys(t: PlatformTable) {
    forall i, j :: 0 <= i < j < |t| ==> t[i].0 != t[j].0
  }

  function Keys(t: PlatformTable): set<string> {
    set i | 0 <= i < |t| :: t[i].0
  }

  function BuiltinNames(t: seq<BuiltinDef>): set<string> {
    set i | 0 <= i < |t| :: t[i].name
  }

  /** `BUILTIN_EXTENSIONS`: the one default extension, `"developer"`. The
      values of `DEFAULT_DISPLAY_NAME` and `DEFAULT_EXTENSION_TIMEOUT` are
      defined elsewhere and are parameters here. */
  function BuiltinTable(displayName: string, timeout: u64): seq<BuiltinDef> {
    [BuiltinDef("developer", displayName, true, timeout)]
  }

  /** `Mapping::get`. */
  function Lookup(m: map<string, Value>, k: string): Option<Value> {
    if k in m then Some(m[k]) else None
  }

  /** The `"extensions"` sub-map as both passes read it: a missing key or a
      value that is not a mapping reads as an empty map. */
  function ExtensionsMap(config: map<string, Value>): (ext: map<string, Value>)
    ensures ext != map[] ==> ExtensionsKey in config && config[ExtensionsKey].Mapping?
    ensures ExtensionsKey in config && config[ExtensionsKey].Mapping? ==> ext == config[ExtensionsKey].entries
  {
    if ExtensionsKey in config && config[ExtensionsKey].Mapping? then config[ExtensionsKey].entries else map[]
  }

  /** Whether the stored entry of a platform extension must be rewritten:
      it is absent, does not parse, is not the `Platform` variant, or its
      description or display name is stale. */
  predicate NeedsMigration(existing: Option<Value>, def: PlatformDef) {
    match existing
    case None => true
    case Some(v) =>
      match Parse(v)
      case None => true
      case Some(entry) =>
        match entry.config
        case Platform(_, description, displayName, _, _) =>
          description != def.description || displayName != Some(def.displayName)
        case _ => true
  }

  /** The `enabled` flag of a rewritten entry: the old entry's when it
      parses, otherwise the definition's default. */
  function MigratedEnabled(existing: Option<Value>, def: PlatformDef): bool {
    match existing
    case None => def.defaultEnabled
    case Some(v) => match Parse(v) { case Some(e) => e.enabled case None => def.defaultEnabled }
  }

  function PlatformEntry(def: PlatformDef, enabled: bool): ExtensionEntry {
    ExtensionEntry(Platform(def.name, def.description, Some(def.displayName), Some(true), []), enabled)
  }

  function BuiltinEntry(def: BuiltinDef): ExtensionEntry {
    ExtensionEntry(Builtin(def.name, Some(def.displayName), "", Some(def.timeout), Some(true), []), def.defaultEnabled)
  }

  /** A mapping and whether a pass inserted anything into it. */
  datatype Pass = Pass(entries: map<string, Value>, changed: bool)

  /** One iteration of the platform loop. */
  function PlatformStep(ext: map<string, Value>, key: string, def: PlatformDef): Pass {
    var existing := Lookup(ext, key);
    if NeedsMigration(existing, def) then
      Pass(ext[key := ToValue(PlatformEntry(def, MigratedEnabled(existing, def)))], true)
    else
      Pass(ext, false)
  }

  /** The platform loop over the first `|t|` table entries. */
  function PlatformLoop(ext: map<string, Value>, t: PlatformTable): (r: Pass)
    ensures r.entries.Keys == ext.Keys + Keys(t)
    ensures !r.changed ==> r.entries == ext
  {
    if t == [] then Pass(ext, false)
    else
      var before := PlatformLoop(ext, t[..|t| - 1]);
      var step := PlatformStep(before.entries, t[|t| - 1].0, t[|t| - 1].1);
      KeysSplit(t);
      Pass(step.entries, before.changed || step.changed)
  }

  /** `migrate_platform_extensions`: the extensions sub-map is written back
      only when something was inserted. */
  function PlatformMigrated(config: map<string, Value>, t: PlatformTable): (r: Pass)
    ensures forall k :: k != ExtensionsKey ==> Lookup(r.entries, k) == Lookup(config, k)
    ensures ExtensionsMap(r.entries) == PlatformLoop(ExtensionsMap(config), t).entries
    ensures !r.changed ==> r.entries == config
  {
    var loop := PlatformLoop(ExtensionsMap(config), t);
    if loop.changed then Pass(config[ExtensionsKey := Mapping(loop.entries)], true) else Pass(config, false)
  }

  /** One iteration of the builtin loop: an existing key is skipped. */
  function BuiltinStep(ext: map<string, Value>, def: BuiltinDef): Pass {
    if def.name in ext then Pass(ext, false)
    else Pass(ext[def.name := ToValue(BuiltinEntry(def))], true)
  }

  /** The builtin loop over the first `|t|` table entries. */
  function BuiltinLoop(ext: map<string, Value>, t: seq<BuiltinDef>): (r: Pass)
    ensures r.entries.Keys == ext.Keys + BuiltinNames(t)
    ensures forall k :: k in ext ==> r.entries[k] == ext[k]
    ensures !r.changed ==> r.entries == ext
  {
    if t == [] then Pass(ext, false)
    else
      var before := BuiltinLoop(ext, t[..|t| - 1]);
      var step := BuiltinStep(before.entries, t[|t| - 1]);
      BuiltinNamesSplit(t);
      Pass(step.entries, before.changed || step.changed)
  }

  /** `migrate_builtin_extensions`. */
  function BuiltinMigrated(config: map<string, Value>, t: seq<BuiltinDef>): (r: Pass)
    ensures forall k :: k != ExtensionsKey ==> Lookup(r.entries, k) == Lookup(config, k)
    ensures ExtensionsMap(r.entries) == BuiltinLoop(ExtensionsMap(config), t).entries
    ensures !r.changed ==> r.entries == config
  {
    var loop := BuiltinLoop(ExtensionsMap(config), t);
    if loop.changed then Pass(config[ExtensionsKey := Mapping(loop.entries)], true) else Pass(config, false)
  }

  /** `run_migrations`: both passes always run, and the result is the
      disjunction of theirs. */
  function Migrated(config: map<string, Value>, platform: PlatformTable, builtin: seq<BuiltinDef>): (r: Pass)
    ensures forall k :: k != ExtensionsKey ==> Lookup(r.entries, k) == Lookup(config, k)
    ensures !r.changed ==> r.entries == config
  {
    var p := PlatformMigrated(config, platform);
    var b := BuiltinMigrated(p.entries, builtin);
    Pass(b.entries, p.changed || b.changed)
  }

  /** The names of a builtin table are those of its front and its last name. */
  lemma BuiltinNamesSplit(t: seq<BuiltinDef>)
    requires t != []
    ensures BuiltinNames(t) == BuiltinNames(t[..|t| - 1]) + {t[|t| - 1].name}
  {
    var front := t[..|t| - 1];
    forall k | k in BuiltinNames(t) ensures k in BuiltinNames(front) + {t[|t| - 1].name} {
      var i :| 0 <= i < |t| && t[i].name == k;
      if i < |t| - 1 { assert front[i] == t[i]; }
    }
    forall k | k in BuiltinNames(front) ensures k in BuiltinNames(t) {
      var i :| 0 <= i < |front| && front[i].name == k;
      assert t[i] == front[i];
    }
  }

  /** The first definition in a builtin table with the given name: the
      one whose entry the builtin loop inserts. */
  function FirstBuiltin(t: seq<BuiltinDef>, name: string): (r: Option<BuiltinDef>)
    ensures r.Some? <==> name in BuiltinNames(t)
    ensures r.Some? ==> r.value in t && r.value.name == name
  {
    if t == [] then None
    else match FirstBuiltin(t[..|t| - 1], name)
      case Some(d) => Some(d)
      case None => if t[|t| - 1].name == name then Some(t[|t| - 1]) else None
  }

  /** The entry a platform key holds after the platform pass. */
  function PlatformOutcome(ext: map<string, Value>, key: string, def: PlatformDef): Option<Value> {
    var existing := Lookup(ext, key);
    if NeedsMigration(existing, def) then Some(ToValue(PlatformEntry(def, MigratedEnabled(existing, def))))
    else existing
  }

  /** The entry the builtin loop adds for an absent key. */
  function BuiltinOutcome(t: seq<BuiltinDef>, key: string): Option<Value> {
    match FirstBuiltin(t, key)
    case None => None
    case Some(d) => Some(ToValue(BuiltinEntry(d)))
  }

  /** No platform entry of the table needs migration. */
  predicate Settled(ext: map<string, Value>, t: PlatformTable) {
    forall i :: 0 <= i < |t| ==> !NeedsMigration(Lookup(ext, t[i].0), t[i].1)
  }

  // ---------------------------------------------------------------------
  // The state the source changes in place

  /** The `config: &mut Mapping` that `run_migrations` updates. */
  class ConfigDocument {
    var mapping: map<string, Value>

    constructor (initial: map<string, Value>)
      ensures mapping == initial
    {
      mapping := initial;
    }

    method MigratePlatformExtensions(table: PlatformTable) returns (needsSave: bool)
      modifies this
      ensures Pass(mapping, needsSave) == PlatformMigrated(old(mapping), table)
    {
      var extensionsValue := if ExtensionsKey in mapping then mapping[ExtensionsKey] else Mapping(map[]);
      var extensionsMap := if extensionsValue.Mapping? then extensionsValue.entries else map[];
      needsSave := false;
      for i := 0 to |table|
        invariant Pass(extensionsMap, needsSave) == PlatformLoop(ExtensionsMap(old(mapping)), table[..i])
      {
        var (name, def) := table[i];
        var existing := Lookup(extensionsMap, name);
        if NeedsMigration(existing, def) {
          var enabled := MigratedEnabled(existing, def);
          extensionsMap := extensionsMap[name := ToValue(PlatformEntry(def, enabled))];
          needsSave := true;
        }
        assert table[..i + 1][..i] == table[..i];
      }
      assert table[..|table|] == table;
      if needsSave {
        mapping := mapping[ExtensionsKey := Mapping(extensionsMap)];
      }
    }

    method MigrateBuiltinExtensions(table: seq<BuiltinDef>) returns (needsSave: bool)
      modifies this
      ensures Pass(mapping, needsSave) == BuiltinMigrated(old(mapping), table)
    {
      var extensionsValue := if ExtensionsKey in mapping then mapping[ExtensionsKey] else Mapping(map[]);
      var extensionsMap := if extensionsValue.Mapping? then extensionsValue.entries else map[];
      needsSave := false;
      for i := 0 to |table|
        invariant Pass(extensionsMap, needsSave) == BuiltinLoop(ExtensionsMap(old(mapping)), table[..i])
      {
        var def := table[i];
        assert table[..i + 1][..i] == table[..i];
        if def.name in extensionsMap {
          continue;
        }
        extensionsMap := extensionsMap[def.name := ToValue(BuiltinEntry(def))];
        needsSave := true;
      }
      assert table[..|table|] == table;
      if needsSave {
        mapping := mapping[ExtensionsKey := Mapping(extensionsMap)];
      }
    }

    /** `run_migrations`. With distinct platform keys the result says
        exactly whether the mapping changed. */
    method RunMigrations(platform: PlatformTable, builtin: seq<BuiltinDef>) returns (changed: bool)
      requires DistinctKeys(platform)
      modifies this
      ensures Pass(mapping, changed) == Migrated(old(mapping), platform, builtin)
      ensures changed <==> mapping != old(mapping)
    {
      changed := false;
      var platformChanged := MigratePlatformExtensions(platform);
      changed := changed || platformChanged;
      var builtinChanged := MigrateBuiltinExtensions(builtin);
      changed := changed || builtinChanged;
      MigratedChangedIff(old(mapping), platform, builtin);
    }
  }

  // ---------------------------------------------------------------------
  // One entry

  /** A rewritten platform entry never needs another rewrite. */
  lemma RewriteSettles(def: PlatformDef, enabled: bool)
    ensures !NeedsMigration(Some(ToValue(PlatformEntry(def, enabled))), def)
    ensures Parse(ToValue(PlatformEntry(def, enabled))) == Some(PlatformEntry(def, enabled))
  {
    ParseToValue(PlatformEntry(def, enabled));
  }

  /** For a stored entry that the migration wrote or a user wrote in the
      entry format: it needs migration exactly when it is not a `Platform`
      entry with the definition's description and display name. */
  lemma NeedsMigrationOfEntry(e: ExtensionEntry, def: PlatformDef)
    ensures NeedsMigration(Some(ToValue(e)), def)
        <==> !(e.config.Platform? && e.config.description == def.description && e.config.displayName == Some(def.displayName))
  {
    ParseToValue(e);
  }

  /** A rewrite keeps the `enabled` flag of a stored entry that parses, and
      falls back to the definition's default for a missing or unparseable one. */
  lemma MigratedEnabledOfEntry(e: ExtensionEntry, v: Value, def: PlatformDef)
    requires Parse(v).None?
    ensures MigratedEnabled(Some(ToValue(e)), def) == e.enabled
    ensures MigratedEnabled(Some(v), def) == def.defaultEnabled
    ensures MigratedEnabled(None, def) == def.defaultEnabled
  {
    ParseToValue(e);
  }

  /** The entry the builtin pass inserts reads back as the `Builtin`
      variant with the definition's name, display name and timeout, an
      empty description, and the definition's default `enabled` flag. */
  lemma BuiltinEntryRoundTrip(def: BuiltinDef)
    ensures Parse(ToValue(BuiltinEntry(def)))
         == Some(ExtensionEntry(Builtin(def.name, Some(def.displayName), "", Some(def.timeout), Some(true), []), def.defaultEnabled))
  {
    ParseToValue(BuiltinEntry(def));
  }

  /** A rewrite always changes the stored entry. */
  lemma RewriteChanges(existing: Option<Value>, def: PlatformDef)
    requires NeedsMigration(existing, def)
    ensures existing != Some(ToValue(PlatformEntry(def, MigratedEnabled(existing, def))))
  {
    RewriteSettles(def, MigratedEnabled(existing, def));
  }

  lemma LookupExtensional(m1: map<string, Value>, m2: map<string, Value>)
    requires forall k :: Lookup(m1, k) == Lookup(m2, k)
    ensures m1 == m2
  {
    assert forall k :: k in m1 <==> k in m2 by {
      forall k ensures k in m1 <==> k in m2 { assert Lookup(m1, k) == Lookup(m2, k); }
    }
    forall k | k in m1 ensures m1[k] == m2[k] { assert Lookup(m1, k) == Lookup(m2, k); }
  }

  // ---------------------------------------------------------------------
  // The platform loop

  /** The keys of a table are those of its front and its last key. */
  lemma KeysSplit(t: PlatformTable)
    requires t != []
    ensures Keys(t) == Keys(t[..|t| - 1]) + {t[|t| - 1].0}
  {
    var front := t[..|t| - 1];
    forall k | k in Keys(t) ensures k in Keys(front) + {t[|t| - 1].0} {
      var i :| 0 <= i < |t| && t[i].0 == k;
      if i < |t| - 1 { assert front[i] == t[i]; }
    }
    forall k | k in Keys(front) ensures k in Keys(t) {
      var i :| 0 <= i < |front| && front[i].0 == k;
      assert t[i] == front[i];
    }
  }

  /** The last key of a table with distinct keys is not among the others. */
  lemma LastKeyFresh(t: PlatformTable)
    requires t != [] && DistinctKeys(t)
    ensures t[|t| - 1].0 !in Keys(t[..|t| - 1])
    ensures DistinctKeys(t[..|t| - 1])
  {
    var n := |t| - 1;
    forall j | 0 <= j < n ensures t[..n][j].0 != t[n].0 {
      assert t[..n][j] == t[j];
    }
  }

  /** Keys outside the table are untouched by the platform loop. */
  lemma {:induction false} PlatformLoopFrame(ext: map<string, Value>, t: PlatformTable)
    ensures forall k :: k !in Keys(t) ==> Lookup(PlatformLoop(ext, t).entries, k) == Lookup(ext, k)
  {
    if t != [] {
      PlatformLoopFrame(ext, t[..|t| - 1]);
      KeysSplit(t);
    }
  }

  /** Each table key ends up with its rewritten entry when the stored one
      needed migration and with its old entry otherwise. */
  lemma {:induction false} PlatformLoopEntries(ext: map<string, Value>, t: PlatformTable)
    requires DistinctKeys(t)
    ensures forall i :: 0 <= i < |t| ==> Lookup(PlatformLoop(ext, t).entries, t[i].0) == PlatformOutcome(ext, t[i].0, t[i].1)
  {
    if t != [] {
      var n := |t| - 1;
      var front := t[..n];
      LastKeyFresh(t);
      PlatformLoopEntries(ext, front);
      PlatformLoopFrame(ext, front);
      forall i | 0 <= i < n
        ensures Lookup(PlatformLoop(ext, t).entries, t[i].0) == PlatformOutcome(ext, t[i].0, t[i].1)
      {
        assert t[i] == front[i];
        assert t[i].0 != t[n].0;
      }
    }
  }

  /** The platform loop reports a change exactly when some entry needed
      migration. */
  lemma {:induction false} PlatformLoopReports(ext: map<string, Value>, t: PlatformTable)
    requires DistinctKeys(t)
    ensures PlatformLoop(ext, t).changed <==> exists i :: 0 <= i < |t| && NeedsMigration(Lookup(ext, t[i].0), t[i].1)
  {
    if t != [] {
      var n := |t| - 1;
      var front := t[..n];
      var before := PlatformLoop(ext, front);
      LastKeyFresh(t);
      PlatformLoopReports(ext, front);
      PlatformLoopFrame(ext, front);
      assert Lookup(before.entries, t[n].0) == Lookup(ext, t[n].0);
      assert PlatformLoop(ext, t).changed
          <==> before.changed || NeedsMigration(Lookup(ext, t[n].0), t[n].1);
      if before.changed {
        var j :| 0 <= j < |front| && NeedsMigration(Lookup(ext, front[j].0), front[j].1);
        assert t[j] == front[j];
      }
      forall i | 0 <= i < n ensures t[i] == front[i] { }
    }
  }

  /** What the platform loop does, entry by entry: each table key holds
      its rewritten entry exactly when the stored one needed migration and
      its old entry otherwise; every other key is untouched; and the loop
      reports a change exactly when some entry needed migration. */
  lemma PlatformLoopPointwise(ext: map<string, Value>, t: PlatformTable)
    requires DistinctKeys(t)
    ensures forall i :: 0 <= i < |t| ==> Lookup(PlatformLoop(ext, t).entries, t[i].0) == PlatformOutcome(ext, t[i].0, t[i].1)
    ensures forall k :: k !in Keys(t) ==> Lookup(PlatformLoop(ext, t).entries, k) == Lookup(ext, k)
    ensures PlatformLoop(ext, t).changed <==> exists i :: 0 <= i < |t| && NeedsMigration(Lookup(ext, t[i].0), t[i].1)
  {
    PlatformLoopEntries(ext, t);
    PlatformLoopFrame(ext, t);
    PlatformLoopReports(ext, t);
  }

  /** After the platform loop no table entry needs migration. */
  lemma PlatformLoopSettles(ext: map<string, Value>, t: PlatformTable)
    requires DistinctKeys(t)
    ensures Settled(PlatformLoop(ext, t).entries, t)
  {
    PlatformLoopPointwise(ext, t);
    forall i | 0 <= i < |t| ensures !NeedsMigration(Lookup(PlatformLoop(ext, t).entries, t[i].0), t[i].1) {
      var existing := Lookup(ext, t[i].0);
      if NeedsMigration(existing, t[i].1) {
        RewriteSettles(t[i].1, MigratedEnabled(existing, t[i].1));
      }
    }
  }

  /** The platform loop reports a change exactly when it changed the map. */
  lemma PlatformLoopChangedIff(ext: map<string, Value>, t: PlatformTable)
    requires DistinctKeys(t)
    ensures PlatformLoop(ext, t).changed <==> PlatformLoop(ext, t).entries != ext
  {
    PlatformLoopPointwise(ext, t);
    var r := PlatformLoop(ext, t);
    if r.changed {
      var i :| 0 <= i < |t| && NeedsMigration(Lookup(ext, t[i].0), t[i].1);
      RewriteChanges(Lookup(ext, t[i].0), t[i].1);
      assert Lookup(r.entries, t[i].0) != Lookup(ext, t[i].0);
    } else {
      forall k ensures Lookup(r.entries, k) == Lookup(ext, k) {
        if k in Keys(t) {
          var i :| 0 <= i < |t| && t[i].0 == k;
        }
      }
      LookupExtensional(r.entries, ext);
    }
  }

  /** A platform entry is rewritten exactly when it needs migration. */
  lemma PlatformRewrittenIff(ext: map<string, Value>, t: PlatformTable, i: nat)
    requires DistinctKeys(t) && i < |t|
    ensures Lookup(PlatformLoop(ext, t).entries, t[i].0) != Lookup(ext, t[i].0)
        <==> NeedsMigration(Lookup(ext, t[i].0), t[i].1)
  {
    PlatformLoopPointwise(ext, t);
    if NeedsMigration(Lookup(ext, t[i].0), t[i].1) {
      RewriteChanges(Lookup(ext, t[i].0), t[i].1);
    }
  }

  /** An element of a table is found at some index of any permutation of it. */
  lemma IndexInPermutation(t1: PlatformTable, t2: PlatformTable, i: nat) returns (j: nat)
    requires multiset(t1) == multiset(t2) && i < |t1|
    ensures j < |t2| && t2[j] == t1[i]
  {
    assert t1[i] in multiset(t2);
    j :| 0 <= j < |t2| && t2[j] == t1[i];
  }

  lemma KeysOfPermutation(t1: PlatformTable, t2: PlatformTable)
    requires multiset(t1) == multiset(t2)
    ensures Keys(t1) == Keys(t2)
  {
    forall k | k in Keys(t1) ensures k in Keys(t2) {
      var i :| 0 <= i < |t1| && t1[i].0 == k;
      var j := IndexInPermutation(t1, t2, i);
    }
    forall k | k in Keys(t2) ensures k in Keys(t1) {
      var j :| 0 <= j < |t2| && t2[j].0 == k;
      var i := IndexInPermutation(t2, t1, j);
    }
  }

  lemma PlatformLoopEntriesOrderIndependent(ext: map<string, Value>, t1: PlatformTable, t2: PlatformTable)
    requires DistinctKeys(t1) && DistinctKeys(t2) && multiset(t1) == multiset(t2)
    ensures PlatformLoop(ext, t1).entries == PlatformLoop(ext, t2).entries
  {
    PlatformLoopPointwise(ext, t1);
    PlatformLoopPointwise(ext, t2);
    KeysOfPermutation(t1, t2);
    var m1, m2 := PlatformLoop(ext, t1).entries, PlatformLoop(ext, t2).entries;
    forall k ensures Lookup(m1, k) == Lookup(m2, k) {
      if k in Keys(t1) {
        var i :| 0 <= i < |t1| && t1[i].0 == k;
        var j := IndexInPermutation(t1, t2, i);
      }
    }
    LookupExtensional(m1, m2);
  }

  /** The iteration order of the platform table does not matter. */
  lemma PlatformLoopOrderIndependent(ext: map<string, Value>, t1: PlatformTable, t2: PlatformTable)
    requires DistinctKeys(t1) && DistinctKeys(t2) && multiset(t1) == multiset(t2)
    ensures PlatformLoop(ext, t1) == PlatformLoop(ext, t2)
  {
    PlatformLoopEntriesOrderIndependent(ext, t1, t2);
    PlatformLoopReports(ext, t1);
    PlatformLoopReports(ext, t2);
    if PlatformLoop(ext, t1).changed {
      var i :| 0 <= i < |t1| && NeedsMigration(Lookup(ext, t1[i].0), t1[i].1);
      var j := IndexInPermutation(t1, t2, i);
    }
    if PlatformLoop(ext, t2).changed {
      var j :| 0 <= j < |t2| && NeedsMigration(Lookup(ext, t2[j].0), t2[j].1);
      var i := IndexInPermutation(t2, t1, j);
    }
  }

  // ---------------------------------------------------------------------
  // The builtin loop

  /** What the builtin loop does: it never touches an existing key, adds
      the first definition's entry for every absent table name and nothing
      else, and reports a change exactly when some table name was absent. */
  lemma {:induction false} BuiltinLoopPointwise(ext: map<string, Value>, t: seq<BuiltinDef>)
    ensures forall k :: k in ext ==> Lookup(BuiltinLoop(ext, t).entries, k) == Some(ext[k])
    ensures forall k :: k !in ext ==> Lookup(BuiltinLoop(ext, t).entries, k) == BuiltinOutcome(t, k)
    ensures BuiltinLoop(ext, t).changed <==> exists i :: 0 <= i < |t| && t[i].name !in ext
  {
    if t != [] {
      var n := |t| - 1;
      var front := t[..n];
      BuiltinLoopPointwise(ext, front);
      var r := BuiltinLoop(ext, t);
      forall k | k !in ext ensures Lookup(r.entries, k) == BuiltinOutcome(t, k) {
      }
      if r.changed {
        if BuiltinLoop(ext, front).changed {
          var j :| 0 <= j < |front| && front[j].name !in ext;
          assert t[j] == front[j];
        } else {
          assert t[n].name !in BuiltinLoop(ext, front).entries;
          assert FirstBuiltin(front, t[n].name) == None;
          assert t[n].name !in ext;
        }
      } else {
        forall i | 0 <= i < |t| ensures t[i].name in ext {
          if i < n {
            assert t[i] == front[i];
          }
        }
      }
    }
  }

  /** After the builtin loop every table name has an entry. */
  lemma BuiltinLoopCovers(ext: map<string, Value>, t: seq<BuiltinDef>)
    ensures forall i :: 0 <= i < |t| ==> t[i].name in BuiltinLoop(ext, t).entries
  {
    BuiltinLoopPointwise(ext, t);
    forall i | 0 <= i < |t| ensures t[i].name in BuiltinLoop(ext, t).entries {
      var k := t[i].name;
      assert k in BuiltinNames(t);
      assert Lookup(BuiltinLoop(ext, t).entries, k).Some?;
    }
  }

  /** The builtin loop reports a change exactly when it changed the map. */
  lemma BuiltinLoopChangedIff(ext: map<string, Value>, t: seq<BuiltinDef>)
    ensures BuiltinLoop(ext, t).changed <==> BuiltinLoop(ext, t).entries != ext
  {
    BuiltinLoopPointwise(ext, t);
    var r := BuiltinLoop(ext, t);
    if r.changed {
      var i :| 0 <= i < |t| && t[i].name !in ext;
      BuiltinLoopCovers(ext, t);
      assert t[i].name in r.entries;
    } else {
      forall k ensures Lookup(r.entries, k) == Lookup(ext, k) {
      }
      LookupExtensional(r.entries, ext);
    }
  }

  // ---------------------------------------------------------------------
  // The two passes on the whole configuration

  /** Whatever each pass reports, the extensions it leaves behind are its
      loop's result, and no other configuration key changes. */
  lemma MigratedExtensions(config: map<string, Value>, platform: PlatformTable, builtin: seq<BuiltinDef>)
    requires DistinctKeys(platform)
    ensures var p := PlatformLoop(ExtensionsMap(config), platform).entries;
      ExtensionsMap(Migrated(config, platform, builtin).entries) == BuiltinLoop(p, builtin).entries
    ensures forall k :: k != ExtensionsKey ==> Lookup(Migrated(config, platform, builtin).entries, k) == Lookup(config, k)
  {
    var p := PlatformMigrated(config, platform);
    PlatformLoopChangedIff(ExtensionsMap(config), platform);
    assert ExtensionsMap(p.entries) == PlatformLoop(ExtensionsMap(config), platform).entries;
    BuiltinLoopChangedIff(ExtensionsMap(p.entries), builtin);
  }

  /** `run_migrations` returns true exactly when it changed the mapping. */
  lemma MigratedChangedIff(config: map<string, Value>, platform: PlatformTable, builtin: seq<BuiltinDef>)
    requires DistinctKeys(platform)
    ensures Migrated(config, platform, builtin).changed <==> Migrated(config, platform, builtin).entries != config
  {
    var ext := ExtensionsMap(config);
    var p := PlatformMigrated(config, platform);
    var b := BuiltinMigrated(p.entries, builtin);
    PlatformLoopChangedIff(ext, platform);
    BuiltinLoopChangedIff(ExtensionsMap(p.entries), builtin);
    MigratedExtensions(config, platform, builtin);
    if p.changed {
      PlatformLoopPointwise(ext, platform);
      PlatformLoopSettles(ext, platform);
      var i :| 0 <= i < |platform| && NeedsMigration(Lookup(ext, platform[i].0), platform[i].1);
      var key := platform[i].0;
      var m := PlatformLoop(ext, platform).entries;
      assert key in m;
      BuiltinLoopPointwise(m, builtin);
      assert Lookup(ExtensionsMap(b.entries), key) == Lookup(m, key);
      assert !NeedsMigration(Lookup(ExtensionsMap(b.entries), key), platform[i].1);
      assert ExtensionsMap(b.entries) != ext;
    } else if b.changed {
      assert ExtensionsMap(b.entries) != ext;
    }
  }

  /** Running the migrations on their own output reports no change and
      leaves the mapping as it is. */
  lemma MigratedIdempotent(config: map<string, Value>, platform: PlatformTable, builtin: seq<BuiltinDef>)
    requires DistinctKeys(platform)
    ensures var once := Migrated(config, platform, builtin);
      var twice := Migrated(once.entries, platform, builtin);
      !twice.changed && twice.entries == once.entries
  {
    var once := Migrated(config, platform, builtin);
    var ext := ExtensionsMap(config);
    var m := PlatformLoop(ext, platform).entries;
    MigratedExtensions(config, platform, builtin);
    PlatformLoopSettles(ext, platform);
    BuiltinLoopPointwise(m, builtin);
    BuiltinLoopCovers(m, builtin);
    var ext1 := ExtensionsMap(once.entries);
    assert ext1 == BuiltinLoop(m, builtin).entries;
    assert Settled(ext1, platform) by {
      forall i | 0 <= i < |platform| ensures !NeedsMigration(Lookup(ext1, platform[i].0), platform[i].1) {
        assert Lookup(ext1, platform[i].0) == Lookup(m, platform[i].0);
      }
    }
    PlatformLoopPointwise(ext1, platform);
    assert !PlatformLoop(ext1, platform).changed;
    var p2 := PlatformMigrated(once.entries, platform);
    assert p2.entries == once.entries;
    BuiltinLoopPointwise(ext1, builtin);
    assert !BuiltinLoop(ext1, builtin).changed;
  }

  /** Entries whose names are in neither table, and every configuration key
      other than `"extensions"`, are left as they were. */
  lemma MigratedLeavesOthers(config: map<string, Value>, platform: PlatformTable, builtin: seq<BuiltinDef>, k: string)
    requires DistinctKeys(platform)
    requires k !in Keys(platform) && k !in BuiltinNames(builtin)
    ensures Lookup(ExtensionsMap(Migrated(config, platform, builtin).entries), k) == Lookup(ExtensionsMap(config), k)
  {
    var ext := ExtensionsMap(config);
    MigratedExtensions(config, platform, builtin);
    PlatformLoopPointwise(ext, platform);
    var m := PlatformLoop(ext, platform).entries;
    BuiltinLoopPointwise(m, builtin);
    if k !in m {
      assert FirstBuiltin(builtin, k) == None;
    }
  }

  /** A platform entry is rewritten by `run_migrations` exactly when it
      needs migration; the rewritten entry carries the definition's
      description and display name and keeps the old entry's `enabled` flag
      when that entry parsed, the definition's default otherwise. */
  lemma MigratedPlatformEntry(config: map<string, Value>, platform: PlatformTable, builtin: seq<BuiltinDef>, i: nat)
    requires DistinctKeys(platform) && i < |platform|
    ensures var (key, def) := platform[i];
      var before := Lookup(ExtensionsMap(config), key);
      var after := Lookup(ExtensionsMap(Migrated(config, platform, builtin).entries), key);
      && (after != before <==> NeedsMigration(before, def))
      && (NeedsMigration(before, def) ==>
            after.Some? && Parse(after.value) == Some(PlatformEntry(def, MigratedEnabled(before, def))))
      && (before.Some? && Parse(before.value).Some? ==> MigratedEnabled(before, def) == Parse(before.value).value.enabled)
      && (before.None? || Parse(before.value).None? ==> MigratedEnabled(before, def) == def.defaultEnabled)
  {
    var ext := ExtensionsMap(config);
    var (key, def) := platform[i];
    MigratedExtensions(config, platform, builtin);
    PlatformLoopPointwise(ext, platform);
    PlatformRewrittenIff(ext, platform, i);
    var m := PlatformLoop(ext, platform).entries;
    BuiltinLoopPointwise(m, builtin);
    assert Lookup(ExtensionsMap(Migrated(config, platform, builtin).entries), key) == Lookup(m, key);
    RewriteSettles(def, MigratedEnabled(Lookup(ext, key), def));
  }

  /** An existing builtin entry is kept as it is. */
  lemma MigratedKeepsBuiltin(config: map<string, Value>, platform: PlatformTable, builtin: seq<BuiltinDef>, name: string)
    requires DistinctKeys(platform)
    requires name !in Keys(platform) && name in ExtensionsMap(config)
    ensures Lookup(ExtensionsMap(Migrated(config, platform, builtin).entries), name) == Some(ExtensionsMap(config)[name])
  {
    var ext := ExtensionsMap(config);
    MigratedExtensions(config, platform, builtin);
    PlatformLoopPointwise(ext, platform);
    BuiltinLoopPointwise(PlatformLoop(ext, platform).entries, builtin);
  }

  /** On an empty configuration `run_migrations` reports a change, creates
      `"extensions"`, and adds an enabled builtin `"developer"` entry. */
  lemma MigratedEmptyConfig(platform: PlatformTable, displayName: string, timeout: u64)
    requires DistinctKeys(platform) && "developer" !in Keys(platform)
    ensures var r := Migrated(map[], platform, BuiltinTable(displayName, timeout));
      && r.changed
      && ExtensionsKey in r.entries
      && "developer" in ExtensionsMap(r.entries)
      && Parse(ExtensionsMap(r.entries)["developer"])
         == Some(ExtensionEntry(Builtin("developer", Some(displayName), "", Some(timeout), Some(true), []), true))
  {
    var builtin := BuiltinTable(displayName, timeout);
    var r := Migrated(map[], platform, builtin);
    MigratedChangedIff(map[], platform, builtin);
    MigratedExtensions(map[], platform, builtin);
    PlatformLoopPointwise(map[], platform);
    var m := PlatformLoop(map[], platform).entries;
    assert "developer" !in m;
    BuiltinLoopPointwise(m, builtin);
    assert FirstBuiltin(builtin, "developer") == Some(builtin[0]);
    ParseToValue(BuiltinEntry(builtin[0]));
    assert r.changed;
  }
}
