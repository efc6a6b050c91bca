/** The migration scripts and the runner that executes the whole list at every start.
    Each script is one transaction: it changes the database as a whole or not at all. */
module Migrations {
  import opened Wrappers
  import opened Collections
  import opened RouteSelection
  import opened Schema
  import opened Statements
  import opened Integrity
  import opened AdminOps
  import opened Loaders
  import opened LegacySchema
  import opened PolicyMigration
  import opened MigrationMeaning

  /** The tables that exist; `keySuffix` is whether the column of that name does. */
  datatype Db = Db(
    core: Option<Core>, legacy: Option<Legacy>, tables: Option<PolicyTables>,
    rules: Option<seq<RuleRow>>, keySuffix: bool)

  datatype MigrationError = UndefinedColumn | UndefinedTable

  const SCRIPTS: nat := 5

  const NO_CORE_ROWS :=
    Core(map[], map[], map[], map[], map[], AuditForeignKeys(NoAction, NoAction, NoAction, NoAction))
  const NO_LEGACY_ROWS := Legacy([], [], [])

  /** The order in which a scan of the policy table returns its rows. */
  type Scan = map<Id, PolicyRow> -> seq<Id>

  ghost predicate IsScan(scan: Scan) {
    forall policies :: Enumerates(scan(policies), policies)
  }

  // ---- The scripts ----

  /** 001: CREATE TABLE IF NOT EXISTS, also for the tables 002 drops. */
  function InitTables(db: Db): Db {
    db.(core := Some(db.core.GetOr(NO_CORE_ROWS)), legacy := Some(db.legacy.GetOr(NO_LEGACY_ROWS)))
  }

  /** 002: only while the old tables exist and the new ones do not. */
  function MovePolicies(db: Db): Db {
    if db.legacy.Some? && db.tables.None?
    then db.(tables := Some(Migrated(db.legacy.value)), legacy := None) else db
  }

  /** The rule of a policy with both limit columns set. */
  function RuleFrom(usage: map<Id, Usage>, id: Id, now: nat): seq<RuleRow> {
    if id in usage && usage[id].limitType.Some? && usage[id].value.Some?
    then [RuleRow(id, usage[id].limitType.value, usage[id].value.value, now)] else []
  }

  function RulesFrom(usage: map<Id, Usage>, order: seq<Id>, now: nat): seq<RuleRow> {
    if order == [] then []
    else RulesFrom(usage, order[..|order| - 1], now) + RuleFrom(usage, order[|order| - 1], now)
  }

  /** 003: only while policies exist and rules do not; it reads the limit columns
      without looking whether they are there. */
  function MoveLimits(db: Db, scan: Scan, now: nat): Result<Db, MigrationError> {
    if db.tables.None? || db.rules.Some? then Ok(db)
    else if db.tables.value.usage.None? then Err(UndefinedColumn)
    else
      var t := db.tables.value;
      Ok(db.(rules := Some(RulesFrom(t.usage.value, scan(t.policies), now)), tables := Some(t.(usage := None))))
  }

  function SetNullIf(k: OnDelete): OnDelete {
    match k
    case NoAction => SetNull
    case SetNull => SetNull
  }

  /** 004: every audit foreign key that is still NO ACTION. */
  function ReleaseAudit(db: Db): Db {
    if db.core.None? then db
    else
      var k := db.core.value.auditKeys;
      db.(core := Some(db.core.value.(auditKeys :=
        AuditForeignKeys(SetNullIf(k.key), SetNullIf(k.model), SetNullIf(k.provider), SetNullIf(k.providerModel)))))
  }

  /** 005 */
  function AddKeySuffix(db: Db): Result<Db, MigrationError> {
    if db.core.None? then Err(UndefinedTable) else Ok(db.(keySuffix := true))
  }

  function Script(i: nat, db: Db, scan: Scan, now: nat): Result<Db, MigrationError>
    requires i < SCRIPTS
  {
    if i == 0 then Ok(InitTables(db))
    else if i == 1 then Ok(MovePolicies(db))
    else if i == 2 then MoveLimits(db, scan, now)
    else if i == 3 then Ok(ReleaseAudit(db))
    else AddKeySuffix(db)
  }

  /** The database after the first n scripts, and the error that stopped them, if any. */
  function Scripts(n: nat, db: Db, scan: Scan, now: nat): (Db, Option<MigrationError>)
    requires n <= SCRIPTS
  {
    if n == 0 then (db, None)
    else
      var (before, failed) := Scripts(n - 1, db, scan, now);
      if failed.Some? then (before, failed)
      else match Script(n - 1, before, scan, now)
        case Ok(after) => (after, None)
        case Err(e) => (before, Some(e))
  }

  // ---- Limit columns to rules ----

  function RuleOf(policyId: Id): RuleRow -> bool { (r: RuleRow) => r.policyId == policyId }

  lemma {:induction false} RulesExactly(usage: map<Id, Usage>, order: seq<Id>, now: nat, id: Id)
    requires NoRepeats(order)
    ensures Filter(RuleOf(id), RulesFrom(usage, order, now)) == if id in order then RuleFrom(usage, id, now) else []
  {
    if order != [] {
      var m := |order| - 1;
      assert order == order[..m] + [order[m]];
      RulesExactly(usage, order[..m], now, id);
      FilterAppend(RuleOf(id), RulesFrom(usage, order[..m], now), RuleFrom(usage, order[m], now));
      if order[m] == id {
        assert id !in order[..m];
        FilterAll(RuleOf(id), RuleFrom(usage, id, now));
      } else {
        FilterNone(RuleOf(id), RuleFrom(usage, order[m], now));
      }
    }
  }

  /** The rules of a policy are what its two columns say: one rule of just that type and
      value if both are set, and none otherwise. */
  ghost predicate RulesSay(rules: seq<RuleRow>, t: PolicyTables, now: nat, id: Id)
    requires t.usage.Some?
  {
    var mine := Filter(RuleOf(id), rules);
    if id !in t.policies || id !in t.usage.value then mine == []
    else match t.usage.value[id]
      case Usage(Some(limitType), Some(value)) => mine == [RuleRow(id, limitType, value, now)]
      case _ => mine == []
  }

  /** Each policy with both columns set gets exactly one rule, of that type and value;
      every other policy gets none. The columns are gone afterwards. */
  lemma LimitsBecomeRules(db: Db, scan: Scan, now: nat, id: Id)
    requires IsScan(scan) && db.tables.Some? && db.rules.None? && db.tables.value.usage.Some?
    ensures var after := MoveLimits(db, scan, now);
            && after.Ok? && after.value.rules.Some?
            && after.value == db.(rules := after.value.rules, tables := Some(db.tables.value.(usage := None)))
            && RulesSay(after.value.rules.value, db.tables.value, now, id)
  {
    var t := db.tables.value;
    assert Enumerates(scan(t.policies), t.policies);
    RulesExactly(t.usage.value, scan(t.policies), now, id);
  }

  lemma {:induction false} RuleRows(usage: map<Id, Usage>, order: seq<Id>, now: nat)
    requires NoRepeats(order)
    ensures RulesUnique(RulesFrom(usage, order, now))
    ensures forall r :: r in RulesFrom(usage, order, now) ==>
        r.policyId in order && r in RuleFrom(usage, r.policyId, now)
  {
    if order != [] {
      var m := |order| - 1;
      assert order == order[..m] + [order[m]];
      RuleRows(usage, order[..m], now);
      var before, last := RulesFrom(usage, order[..m], now), RuleFrom(usage, order[m], now);
      forall r | r in before ensures r.policyId != order[m] {
        assert order[m] !in order[..m];
      }
    }
  }

  /** With the column checks in force no INSERT of 003 can fail: one rule per policy and
      type, each positive and of a policy that exists. */
  lemma MovedLimitsAreValid(db: Db, scan: Scan, now: nat)
    requires IsScan(scan) && db.tables.Some? && db.rules.None? && db.tables.value.usage.Some?
    requires var usage := db.tables.value.usage.value;
             forall id :: id in usage && usage[id].value.Some? ==> usage[id].value.value > 0
    ensures var rules := MoveLimits(db, scan, now).value.rules.value;
            RulesUnique(rules) && forall r :: r in rules ==> r.value > 0 && r.policyId in db.tables.value.policies
  {
    var t := db.tables.value;
    assert Enumerates(scan(t.policies), t.policies);
    RuleRows(t.usage.value, scan(t.policies), now);
  }

  // ---- Running the list again ----

  /** What the admin API and the gateway use: everything but the old tables. */
  function Live(db: Db): Db {
    db.(legacy := None)
  }

  ghost predicate IsMigrated(db: Db) {
    && db.core.Some? && db.core.value.auditKeys == ALL_SET_NULL
    && db.tables.Some? && db.tables.value.usage.None?
    && db.rules.Some? && db.keySuffix
  }

  lemma FullRun(db: Db, scan: Scan, now: nat)
    ensures Scripts(SCRIPTS, db, scan, now) ==
      var a := MovePolicies(InitTables(db));
      match MoveLimits(a, scan, now)
      case Err(e) => (a, Some(e))
      case Ok(b) => (ReleaseAudit(b).(keySuffix := true), None)
  {
    assert Scripts(0, db, scan, now) == (db, None);
    var one := Scripts(1, db, scan, now);
    assert one == (InitTables(db), None);
    assert Scripts(2, db, scan, now) == (MovePolicies(InitTables(db)), None);
    var three := Scripts(3, db, scan, now);
    var four := Scripts(4, db, scan, now);
    var five := Scripts(5, db, scan, now);
  }

  /** The limit columns exist exactly while the rules table does not. */
  predicate Coherent(db: Db) {
    && (db.tables.Some? ==> (db.tables.value.usage.Some? <==> db.rules.None?))
    && (db.rules.Some? ==> db.tables.Some?)
  }

  lemma ScriptKeepsCoherent(i: nat, db: Db, scan: Scan, now: nat)
    requires i < SCRIPTS && Coherent(db) && Script(i, db, scan, now).Ok?
    ensures Coherent(Script(i, db, scan, now).value)
  {
  }

  /** From every coherent database, new or half migrated, the list succeeds and leaves
      a migrated one. Otherwise it fails exactly where limit columns are missed. */
  lemma ListMigrates(db: Db, scan: Scan, now: nat)
    ensures var (after, failed) := Scripts(SCRIPTS, db, scan, now);
            && (Coherent(db) ==> failed.None? && IsMigrated(after) && Coherent(after))
            && (failed.Some? <==> db.tables.Some? && db.rules.None? && db.tables.value.usage.None?)
  {
    FullRun(db, scan, now);
  }

  /** On a migrated database the list changes no row of a live table; it only creates
      the old tables again, empty, if they are gone. */
  lemma RerunChangesNothing(db: Db, scan: Scan, now: nat)
    requires IsMigrated(db)
    ensures Scripts(SCRIPTS, db, scan, now) == (db.(legacy := Some(db.legacy.GetOr(NO_LEGACY_ROWS))), None)
  {
    FullRun(db, scan, now);
  }

  /** Stopped after any number of scripts and started again, the list ends with the same
      live tables as one run without a stop. */
  lemma RestartConverges(db: Db, n: nat, scan: Scan, first: nat, second: nat)
    requires n <= SCRIPTS && Scripts(n, db, scan, first).1.None?
    requires Scripts(SCRIPTS, db, scan, first).1.None?
    ensures var stopped := Scripts(n, db, scan, first).0;
            var (again, failed) := Scripts(SCRIPTS, stopped, scan, second);
            && failed.None?
            && Live(again) == Live(Scripts(SCRIPTS, db, scan, if n < 3 then second else first).0)
  {
    FullRun(db, scan, first);
    FullRun(db, scan, second);
    FullRun(Scripts(n, db, scan, first).0, scan, second);
    assert Scripts(1, db, scan, first) == (InitTables(db), None);
    assert Scripts(2, db, scan, first) == (MovePolicies(InitTables(db)), None);
  }

  // ---- The store the admin API starts with ----

  function StoreOf(db: Db): Store
    requires db.core.Some? && db.tables.Some? && db.rules.Some?
  {
    var c, t := db.core.value, db.tables.value;
    Store(c.models, c.providers, c.providerModels, c.keys, t.policies, t.routes, t.links, db.rules.value,
          c.audit, c.auditKeys)
  }

  /** A first start on an empty database gives the empty store. */
  lemma FreshStartIsEmpty(scan: Scan, now: nat)
    requires IsScan(scan)
    ensures var (after, failed) := Scripts(SCRIPTS, Db(None, None, None, None, false), scan, now);
            failed.None? && IsMigrated(after) && StoreOf(after) == EMPTY
  {
    var db := Db(None, None, None, None, false);
    FullRun(db, scan, now);
    var t := MovePolicies(InitTables(db)).tables.value;
    NoLimitsNoRules(t.usage.value, scan(t.policies), now);
  }

  lemma {:induction false} NoLimitsNoRules(usage: map<Id, Usage>, order: seq<Id>, now: nat)
    requires forall id :: id in usage ==> usage[id] == Usage(None, None)
    ensures RulesFrom(usage, order, now) == []
  {
    if order != [] {
      NoLimitsNoRules(usage, order[..|order| - 1], now);
    }
  }

  lemma UpgradedDb(db: Db, scan: Scan, now: nat)
    requires db.core.Some? && db.legacy.Some? && db.tables.None? && db.rules.None?
    ensures Scripts(SCRIPTS, db, scan, now) ==
              (Db(Some(db.core.value.(auditKeys := ALL_SET_NULL)), None,
                  Some(Migrated(db.legacy.value).(usage := None)), Some([]), true), None)
  {
    FullRun(db, scan, now);
    assert InitTables(db) == db;
    var t := Migrated(db.legacy.value);
    NoLimitsNoRules(t.usage.value, scan(t.policies), now);
  }

  /** Upgrading a database of the first schema: every constraint of the live store holds,
      and each key reaches what it reached exactly when every config is faithful. */
  lemma UpgradePreserves(db: Db, scan: Scan, now: nat)
    requires db.core.Some? && db.legacy.Some? && db.tables.None? && db.rules.None?
    requires CoreValid(db.core.value) && LegacyValid(db.legacy.value, db.core.value)
    ensures var (after, failed) := Scripts(SCRIPTS, db, scan, now);
            var l := db.legacy.value;
            && failed.None? && IsMigrated(after) && Valid(StoreOf(after))
            && after.core == Some(db.core.value.(auditKeys := ALL_SET_NULL)) && after.rules == Some([])
            && after.tables == Some(Migrated(l).(usage := None))
            && LinksResolve(after.tables.value)
            && (NewAccess(after.tables.value) == OldAccess(l) <==> forall c :: c in l.configs ==> Kept(l, c.id))
  {
    var l, core := db.legacy.value, db.core.value;
    UpgradedDb(db, scan, now);
    MigratedStoreIsValid(l, core);
    ReleasedStillValid(MigratedStore(l, core));
    AccessPreservedIff(l, core);
    UsageIsNoAccess(Migrated(l));
  }

  lemma UsageIsNoAccess(t: PolicyTables)
    requires LinksResolve(t)
    ensures LinksResolve(t.(usage := None)) && NewAccess(t.(usage := None)) == NewAccess(t)
  {
  }

  /** Upgrading a half migrated database, with policies and their limit columns but no
      rules table: if its rows and positive columns are valid, so is the live store, and
      each policy has exactly the rule its columns held. */
  lemma HalfMigratedUpgrades(db: Db, scan: Scan, now: nat, id: Id)
    requires IsScan(scan) && db.core.Some? && db.tables.Some? && db.rules.None? && db.tables.value.usage.Some?
    requires Valid(StoreOf(db.(rules := Some([]))))
    requires var usage := db.tables.value.usage.value;
             forall p :: p in usage && usage[p].value.Some? ==> usage[p].value.value > 0
    ensures var (after, failed) := Scripts(SCRIPTS, db, scan, now);
            && failed.None? && IsMigrated(after) && Valid(StoreOf(after))
            && after.core == Some(db.core.value.(auditKeys := ALL_SET_NULL))
            && after.tables == Some(db.tables.value.(usage := None))
            && RulesSay(after.rules.value, db.tables.value, now, id)
  {
    FullRun(db, scan, now);
    MovedLimitsAreValid(InitTables(db), scan, now);
    LimitsBecomeRules(InitTables(db), scan, now, id);
    var s := StoreOf(db.(rules := Some([])));
    var rules := MoveLimits(InitTables(db), scan, now).value.rules.value;
    WithRulesValid(s, rules);
    ReleasedStillValid(s.(rules := rules));
  }

  lemma WithRulesValid(s: Store, rules: seq<RuleRow>)
    requires Valid(s) && RulesUnique(rules) && forall r :: r in rules ==> r.value > 0 && r.policyId in s.policies
    ensures Valid(s.(rules := rules))
  {
    forall id | id in s.audit ensures AuditRowLinked(s.audit[id], s.(rules := rules)) {
      assert AuditRowLinked(s.audit[id], s);
    }
  }

  lemma ReleasedStillValid(s: Store)
    requires Valid(s)
    ensures Valid(s.(auditKeys := ALL_SET_NULL))
  {
    forall id | id in s.audit ensures AuditRowLinked(s.audit[id], s.(auditKeys := ALL_SET_NULL)) {
      assert AuditRowLinked(s.audit[id], s);
    }
  }

  /** Before 004 an audit row blocks every delete that reaches what it names; on a
      migrated database none ever does. */
  lemma DeletesFreedBy004(s: Store, d: Doomed, db: Db)
    requires s.auditKeys == NO_CORE_ROWS.auditKeys && IsMigrated(db)
    ensures Delete(s, d).Err? <==>
              exists id :: id in s.audit &&
                var all, row := Cascaded(s, d), s.audit[id];
                Hits(row.keyId, all.keys) || Hits(row.modelId, all.models)
                || Hits(row.providerId, all.providers) || Hits(row.providerModelId, all.providerModels)
    ensures Delete(StoreOf(db), d).Ok?
  {
    DeleteRefusedIff(StoreOf(db), d);
  }

  // ---- The scripts as the database runs them ----

  class Database {
    var core: Option<Core>
    var legacy: Option<Legacy>
    var tables: Option<PolicyTables>
    var rules: Option<seq<RuleRow>>
    var keySuffix: bool

    function View(): Db
      reads this
    {
      Db(core, legacy, tables, rules, keySuffix)
    }

    constructor (db: Db)
      ensures View() == db
    {
      core, legacy, tables, rules, keySuffix := db.core, db.legacy, db.tables, db.rules, db.keySuffix;
    }

    method RunInit()
      modifies this
      ensures View() == InitTables(old(View()))
    {
      if core.None? {
        core := Some(NO_CORE_ROWS);
      }
      if legacy.None? {
        legacy := Some(NO_LEGACY_ROWS);
      }
    }

    method RunMovePolicies()
      modifies this
      ensures View() == MovePolicies(old(View()))
    {
      if legacy.None? || tables.Some? {
        return;
      }
      var l := legacy.value;
      var policies := InsertConfigPolicies(l.configs);
      var routes := InsertTranslatedRoutes(l);
      var links := InsertLinks(l.configs);
      var orphans := FindOrphans(l);
      policies := InsertOrphanPolicies(orphans, policies);
      routes := InsertOrphanRoutes(orphans, routes);
      tables := Some(PolicyTables(policies, Some(map id | id in policies :: Usage(None, None)), routes, links));
      legacy := None;
    }

    method RunMoveLimits(scan: Scan, now: nat) returns (failed: Option<MigrationError>)
      modifies this
      ensures match MoveLimits(old(View()), scan, now)
              case Ok(after) => failed.None? && View() == after
              case Err(e) => failed == Some(e) && View() == old(View())
    {
      if tables.None? || rules.Some? {
        return None;
      }
      if tables.value.usage.None? {
        return Some(UndefinedColumn);
      }
      var usage, order := tables.value.usage.value, scan(tables.value.policies);
      var rows := [];
      for i := 0 to |order|
        invariant rows == RulesFrom(usage, order[..i], now)
        invariant View() == old(View())
      {
        assert order[..i + 1][..i] == order[..i];
        if order[i] in usage && usage[order[i]].limitType.Some? && usage[order[i]].value.Some? {
          rows := rows + [RuleRow(order[i], usage[order[i]].limitType.value, usage[order[i]].value.value, now)];
        }
      }
      assert order[..|order|] == order;
      rules := Some(rows);
      tables := Some(tables.value.(usage := None));
      return None;
    }

    method RunReleaseAudit()
      modifies this
      ensures View() == ReleaseAudit(old(View()))
    {
      if core.None? {
        return;
      }
      var k := core.value.auditKeys;
      if k.key.NoAction? {
        k := k.(key := SetNull);
      }
      if k.model.NoAction? {
        k := k.(model := SetNull);
      }
      if k.provider.NoAction? {
        k := k.(provider := SetNull);
      }
      if k.providerModel.NoAction? {
        k := k.(providerModel := SetNull);
      }
      core := Some(core.value.(auditKeys := k));
    }

    method RunAddKeySuffix() returns (failed: Option<MigrationError>)
      modifies this
      ensures match AddKeySuffix(old(View()))
              case Ok(after) => failed.None? && View() == after
              case Err(e) => failed == Some(e) && View() == old(View())
    {
      if core.None? {
        return Some(UndefinedTable);
      }
      keySuffix := true;
      return None;
    }

    /** Runs every script in order and stops at the first that fails. */
    method RunInitSchema(scan: Scan, now: nat) returns (failed: Option<MigrationError>)
      modifies this
      ensures (View(), failed) == Scripts(SCRIPTS, old(View()), scan, now)
    {
      failed := None;
      var i := 0;
      while i < SCRIPTS && failed.None?
        invariant i <= SCRIPTS
        invariant failed.None? ==> (View(), failed) == Scripts(i, old(View()), scan, now)
        invariant failed.Some? ==> (View(), failed) == Scripts(SCRIPTS, old(View()), scan, now)
      {
        ghost var before := View();
        if i == 0 {
          RunInit();
        } else if i == 1 {
          RunMovePolicies();
        } else if i == 2 {
          failed := RunMoveLimits(scan, now);
        } else if i == 3 {
          RunReleaseAudit();
        } else {
          failed := RunAddKeySuffix();
        }
        i := i + 1;
        assert (View(), failed) == Scripts(i, old(View()), scan, now);
        StoppedStays(i, SCRIPTS, old(View()), scan, now);
      }
    }
  }

  lemma {:induction false} StoppedStays(i: nat, n: nat, db: Db, scan: Scan, now: nat)
    requires i <= n <= SCRIPTS
    ensures Scripts(i, db, scan, now).1.Some? ==> Scripts(n, db, scan, now) == Scripts(i, db, scan, now)
  {
    if i < n {
      StoppedStays(i, n - 1, db, scan, now);
    }
  }

  method InsertConfigPolicies(configs: seq<ConfigRow>) returns (policies: map<Id, PolicyRow>)
    ensures policies == ConfigPolicies(configs)
  {
    policies := map[];
    for i := 0 to |configs|
      invariant policies == ConfigPolicies(configs[..i])
    {
      assert configs[..i + 1][..i] == configs[..i];
      var c := configs[i];
      var strategy := Weighted;
      if c.strategy == Priority {
        strategy := Priority;
      }
      policies := policies[c.id := PolicyRow(c.modelId, strategy, c.enabled, c.createdAt)];
    }
    assert configs[..|configs|] == configs;
  }

  /** A nested-loop join: each route with each mapping of its id. */
  method InsertTranslatedRoutes(l: Legacy) returns (routes: seq<RouteRow>)
    ensures routes == PutNewRoutes([], TranslatedAll(l.mappings, l.routes))
  {
    routes := [];
    for i := 0 to |l.routes|
      invariant routes == PutNewRoutes([], TranslatedAll(l.mappings, l.routes[..i]))
    {
      TranslatedAllStep(l.mappings, l.routes, i);
      PutJoin([], TranslatedAll(l.mappings, l.routes[..i]), Translated(l.mappings, l.routes[i]));
      routes := InsertTranslated(l.mappings, l.routes[i], routes);
    }
    assert l.routes[..|l.routes|] == l.routes;
  }

  /** One route with each mapping of its id. */
  method InsertTranslated(mappings: seq<MappingRow>, r: KeyRouteRow, routes0: seq<RouteRow>)
    returns (routes: seq<RouteRow>)
    ensures routes == PutNewRoutes(routes0, Translated(mappings, r))
  {
    routes := routes0;
    for j := 0 to |mappings|
      invariant routes == PutNewRoutes(routes0, Translated(mappings[..j], r))
    {
      var m := mappings[j];
      TranslatedStep(mappings, j, r);
      if m.id == r.mappingId {
        var row := RouteRow(r.configId, m.providerModelId, r.weight, r.priority, r.enabled, r.createdAt);
        PutLast(routes0, Translated(mappings[..j], r), row);
        if !(exists x :: x in routes && SameRoute(x, row)) {
          routes := routes + [row];
        }
      }
    }
    assert mappings[..|mappings|] == mappings;
  }

  lemma PutLast(routes: seq<RouteRow>, rows: seq<RouteRow>, row: RouteRow)
    ensures PutNewRoutes(routes, rows + [row]) == PutNewRoute(PutNewRoutes(routes, rows), row)
  {
    assert (rows + [row])[..|rows|] == rows;
  }

  lemma {:induction false} PutJoin(routes: seq<RouteRow>, xs: seq<RouteRow>, ys: seq<RouteRow>)
    ensures PutNewRoutes(routes, xs + ys) == PutNewRoutes(PutNewRoutes(routes, xs), ys)
  {
    if ys == [] {
      assert xs + ys == xs;
    } else {
      var m := |ys| - 1;
      assert xs + ys == (xs + ys[..m]) + [ys[m]];
      PutLast(routes, xs + ys[..m], ys[m]);
      PutJoin(routes, xs, ys[..m]);
    }
  }

  lemma TranslatedStep(mappings: seq<MappingRow>, j: nat, r: KeyRouteRow)
    requires j < |mappings|
    ensures var m := mappings[j];
            Translated(mappings[..j + 1], r) ==
              if m.id == r.mappingId
              then Translated(mappings[..j], r)
                   + [RouteRow(r.configId, m.providerModelId, r.weight, r.priority, r.enabled, r.createdAt)]
              else Translated(mappings[..j], r)
  {
    assert mappings[..j + 1] == mappings[..j] + [mappings[j]];
    FilterAppend(WithId(r.mappingId), mappings[..j], [mappings[j]]);
    FilterCons(WithId(r.mappingId), mappings[j], []);
    assert [mappings[j]] + [] == [mappings[j]];
  }

  lemma {:induction false} TranslatedAllStep(mappings: seq<MappingRow>, routes: seq<KeyRouteRow>, i: nat)
    requires i < |routes|
    ensures TranslatedAll(mappings, routes[..i + 1]) ==
              TranslatedAll(mappings, routes[..i]) + Translated(mappings, routes[i])
    decreases i
  {
    if i > 0 {
      TranslatedAllStep(mappings, routes[1..], i - 1);
      assert routes[..i + 1][1..] == routes[1..][..i] && routes[..i][1..] == routes[1..][..i - 1];
    } else {
      assert routes[..1][1..] == [];
    }
  }

  method InsertLinks(configs: seq<ConfigRow>) returns (links: seq<LinkRow>)
    ensures links == MapSeq(LinkFor(), configs)
  {
    links := [];
    for i := 0 to |configs|
      invariant links == MapSeq(LinkFor(), configs[..i])
    {
      links := links + [LinkRow(configs[i].keyId, configs[i].id, configs[i].enabled, configs[i].createdAt)];
    }
    assert configs[..|configs|] == configs;
  }

  method InsertOrphanPolicies(orphans: seq<MappingRow>, policies0: map<Id, PolicyRow>)
    returns (policies: map<Id, PolicyRow>)
    ensures policies == PutNewPolicies(policies0, orphans)
  {
    policies := policies0;
    for i := 0 to |orphans|
      invariant policies == PutNewPolicies(policies0, orphans[..i])
    {
      assert orphans[..i + 1][..i] == orphans[..i];
      var m := orphans[i];
      if m.id !in policies {
        policies := policies[m.id := PolicyRow(m.modelId, Weighted, m.enabled, m.createdAt)];
      }
    }
    assert orphans[..|orphans|] == orphans;
  }

  method InsertOrphanRoutes(orphans: seq<MappingRow>, routes0: seq<RouteRow>) returns (routes: seq<RouteRow>)
    ensures routes == PutNewRoutes(routes0, MapSeq(OrphanRoute(), orphans))
  {
    routes := routes0;
    for i := 0 to |orphans|
      invariant routes == PutNewRoutes(routes0, MapSeq(OrphanRoute(), orphans[..i]))
    {
      var m := orphans[i];
      var row := RouteRow(m.id, m.providerModelId, 100, 100, m.enabled, m.createdAt);
      assert MapSeq(OrphanRoute(), orphans[..i + 1]) == MapSeq(OrphanRoute(), orphans[..i]) + [row];
      PutLast(routes0, MapSeq(OrphanRoute(), orphans[..i]), row);
      if !(exists x :: x in routes && SameRoute(x, row)) {
        routes := routes + [row];
      }
    }
    assert orphans[..|orphans|] == orphans;
  }

  /** `WHERE id NOT IN (SELECT DISTINCT model_mapping_id ...)` */
  method FindOrphans(l: Legacy) returns (orphans: seq<MappingRow>)
    ensures orphans == Orphans(l)
    ensures forall m :: m in orphans <==> Unreferenced(l, m)
  {
    var referenced: set<Id> := {};
    for i := 0 to |l.routes|
      invariant forall id :: id in referenced <==> exists r :: r in l.routes[..i] && r.mappingId == id
    {
      assert l.routes[..i + 1] == l.routes[..i] + [l.routes[i]];
      assert l.routes[i] in l.routes[..i + 1];
      referenced := referenced + {l.routes[i].mappingId};
    }
    assert l.routes[..|l.routes|] == l.routes;
    orphans := [];
    for i := 0 to |l.mappings|
      invariant orphans == Filter(IsOrphan(l.routes), l.mappings[..i])
    {
      var m := l.mappings[i];
      assert l.mappings[..i + 1] == l.mappings[..i] + [m];
      FilterAppend(IsOrphan(l.routes), l.mappings[..i], [m]);
      FilterCons(IsOrphan(l.routes), m, []);
      assert [m] + [] == [m];
      if m.id !in referenced {
        orphans := orphans + [m];
      }
    }
    assert l.mappings[..|l.mappings|] == l.mappings;
    OrphansAreUnreferenced(l);
  }
}
