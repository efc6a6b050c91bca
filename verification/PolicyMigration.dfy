/** Moving per-key configurations, routes and mappings to policies, routes and links,
    and exactly when that preserves what each key reaches. */
module PolicyMigration {
  import opened Wrappers
  import opened MachineInts
  import opened Collections
  import opened RouteSelection
  import opened Schema
  import opened Statements
  import opened LegacySchema

  datatype Usage = Usage(limitType: Option<LimitType>, value: Option<i32>)

  /** The new tables. The usage columns exist until the rules table replaces them. */
  datatype PolicyTables = PolicyTables(
    policies: map<Id, PolicyRow>, usage: Option<map<Id, Usage>>, routes: seq<RouteRow>, links: seq<LinkRow>)

  // ---- The statements ----

  /** `CASE WHEN strategy = 'priority' THEN 'priority' ELSE 'weighted' END` */
  function PolicyFor(c: ConfigRow): PolicyRow {
    PolicyRow(c.modelId, if c.strategy.Priority? then Priority else Weighted, c.enabled, c.createdAt)
  }

  function ConfigPolicies(configs: seq<ConfigRow>): map<Id, PolicyRow> {
    if configs == [] then map[]
    else
      var last := configs[|configs| - 1];
      ConfigPolicies(configs[..|configs| - 1])[last.id := PolicyFor(last)]
  }

  function WithId(id: Id): MappingRow -> bool { (m: MappingRow) => m.id == id }

  /** The mappings with this id, as a join finds them. */
  function MappingsWith(mappings: seq<MappingRow>, id: Id): seq<MappingRow> {
    Filter(WithId(id), mappings)
  }

  /** What the SELECT makes of a route and its mapping: the mapping's flag is dropped. */
  function Carried(r: KeyRouteRow): MappingRow -> RouteRow {
    (m: MappingRow) => RouteRow(r.configId, m.providerModelId, r.weight, r.priority, r.enabled, r.createdAt)
  }

  /** One legacy route joined with its mapping. */
  function Translated(mappings: seq<MappingRow>, r: KeyRouteRow): seq<RouteRow> {
    MapSeq(Carried(r), MappingsWith(mappings, r.mappingId))
  }

  function TranslatedAll(mappings: seq<MappingRow>, routes: seq<KeyRouteRow>): seq<RouteRow> {
    if routes == [] then [] else Translated(mappings, routes[0]) + TranslatedAll(mappings, routes[1..])
  }

  /** INSERT ... ON CONFLICT (mapping_policy_id, provider_model_id) DO NOTHING */
  function PutNewRoute(routes: seq<RouteRow>, row: RouteRow): seq<RouteRow> {
    if HasRoute(routes, row) then routes else routes + [row]
  }

  function PutNewRoutes(routes: seq<RouteRow>, rows: seq<RouteRow>): seq<RouteRow> {
    if rows == [] then routes
    else PutNewRoute(PutNewRoutes(routes, rows[..|rows| - 1]), rows[|rows| - 1])
  }

  function LinkFor(): ConfigRow -> LinkRow {
    (c: ConfigRow) => LinkRow(c.keyId, c.id, c.enabled, c.createdAt)
  }

  /** Not referenced by any route. */
  function IsOrphan(routes: seq<KeyRouteRow>): MappingRow -> bool {
    (m: MappingRow) => !exists r :: r in routes && r.mappingId == m.id
  }

  function Orphans(l: Legacy): seq<MappingRow> {
    Filter(IsOrphan(l.routes), l.mappings)
  }

  function OrphanPolicy(m: MappingRow): PolicyRow {
    PolicyRow(m.modelId, Weighted, m.enabled, m.createdAt)
  }

  function OrphanRoute(): MappingRow -> RouteRow {
    (m: MappingRow) => RouteRow(m.id, m.providerModelId, 100, 100, m.enabled, m.createdAt)
  }

  /** INSERT ... ON CONFLICT (id) DO NOTHING */
  function PutNewPolicies(policies: map<Id, PolicyRow>, orphans: seq<MappingRow>): map<Id, PolicyRow> {
    if orphans == [] then policies
    else
      var before := PutNewPolicies(policies, orphans[..|orphans| - 1]);
      var last := orphans[|orphans| - 1];
      if last.id in before then before else before[last.id := OrphanPolicy(last)]
  }

  function Migrated(l: Legacy): PolicyTables {
    var policies := PutNewPolicies(ConfigPolicies(l.configs), Orphans(l));
    PolicyTables(
      policies,
      Some(map id | id in policies :: Usage(None, None)),
      PutNewRoutes(PutNewRoutes([], TranslatedAll(l.mappings, l.routes)), MapSeq(OrphanRoute(), Orphans(l))),
      MapSeq(LinkFor(), l.configs))
  }

  // ---- Inserting without conflicts ----

  lemma AppendUnique(routes: seq<RouteRow>, row: RouteRow)
    requires RoutesUnique(routes) && !HasRoute(routes, row)
    ensures RoutesUnique(routes + [row])
  {
    forall i | 0 <= i < |routes| ensures !SameRoute(routes[i], row) {
      assert routes[i] in routes;
    }
  }

  lemma {:induction false} PutNewKeepsUnique(routes: seq<RouteRow>, rows: seq<RouteRow>)
    requires RoutesUnique(routes)
    ensures RoutesUnique(PutNewRoutes(routes, rows))
  {
    if rows != [] {
      PutNewKeepsUnique(routes, rows[..|rows| - 1]);
      var before, last := PutNewRoutes(routes, rows[..|rows| - 1]), rows[|rows| - 1];
      if !HasRoute(before, last) {
        AppendUnique(before, last);
      }
    }
  }

  lemma {:induction false} PutNewMembers(routes: seq<RouteRow>, rows: seq<RouteRow>)
    ensures forall r :: r in PutNewRoutes(routes, rows) ==> r in routes || r in rows
    ensures routes <= PutNewRoutes(routes, rows)
    ensures forall r :: r in rows ==> HasRoute(PutNewRoutes(routes, rows), r)
  {
    if rows != [] {
      var m := |rows| - 1;
      PutNewMembers(routes, rows[..m]);
      assert rows == rows[..m] + [rows[m]];
      var before := PutNewRoutes(routes, rows[..m]);
      var after := PutNewRoutes(routes, rows);
      assert HasRoute(after, rows[m]) by {
        assert HasRoute(before, rows[m]) || rows[m] in after;
      }
      forall r | r in rows[..m] ensures HasRoute(after, r) {
        var x :| x in before && SameRoute(x, r);
        assert x in after;
      }
    }
  }

  lemma PutOnePerPolicy(routes: seq<RouteRow>, row: RouteRow, id: Id)
    ensures var mine := Filter(RouteOf(id), routes);
            Filter(RouteOf(id), PutNewRoute(routes, row)) == if row.policyId == id then PutNewRoute(mine, row) else mine
  {
    FilterAppend(RouteOf(id), routes, [row]);
    FilterCons(RouteOf(id), row, []);
    assert [row] + [] == [row];
    assert Filter(RouteOf(id), routes) + [] == Filter(RouteOf(id), routes);
    HasRoutePerPolicy(routes, row);
  }

  lemma FilterLast(rows: seq<RouteRow>, id: Id)
    requires rows != []
    ensures var m := |rows| - 1;
            var before := Filter(RouteOf(id), rows[..m]);
            Filter(RouteOf(id), rows) == if rows[m].policyId == id then before + [rows[m]] else before
  {
    var m := |rows| - 1;
    assert rows == rows[..m] + [rows[m]];
    FilterAppend(RouteOf(id), rows[..m], [rows[m]]);
    FilterCons(RouteOf(id), rows[m], []);
    assert [rows[m]] + [] == [rows[m]];
  }

  /** Conflicts are per policy. */
  lemma {:induction false} PutNewPerPolicy(routes: seq<RouteRow>, rows: seq<RouteRow>, id: Id)
    ensures Filter(RouteOf(id), PutNewRoutes(routes, rows))
         == PutNewRoutes(Filter(RouteOf(id), routes), Filter(RouteOf(id), rows))
  {
    if rows != [] {
      var m := |rows| - 1;
      PutNewPerPolicy(routes, rows[..m], id);
      PutOnePerPolicy(PutNewRoutes(routes, rows[..m]), rows[m], id);
      FilterLast(rows, id);
      var mine := Filter(RouteOf(id), rows[..m]);
      assert (mine + [rows[m]])[..|mine|] == mine;
    }
  }

  lemma HasRoutePerPolicy(routes: seq<RouteRow>, row: RouteRow)
    ensures HasRoute(Filter(RouteOf(row.policyId), routes), row) <==> HasRoute(routes, row)
  {
    FilterMembers(RouteOf(row.policyId), routes);
    if r :| r in routes && SameRoute(r, row) {
      assert r in Filter(RouteOf(row.policyId), routes);
    }
  }

  /** Rows that are distinct from each other and from the table all go in. */
  lemma {:induction false} UniqueGoesIn(routes: seq<RouteRow>, rows: seq<RouteRow>)
    requires RoutesUnique(routes + rows)
    ensures PutNewRoutes(routes, rows) == routes + rows
  {
    if rows == [] {
      assert routes + rows == routes;
    } else {
      var m := |rows| - 1;
      var all := routes + rows;
      assert all == routes + rows[..m] + [rows[m]];
      assert RoutesUnique(routes + rows[..m]) by {
        assert forall i :: 0 <= i < |routes| + m ==> (routes + rows[..m])[i] == all[i];
      }
      UniqueGoesIn(routes, rows[..m]);
      forall r | r in routes + rows[..m] ensures !SameRoute(r, rows[m]) {
        var i :| 0 <= i < |routes + rows[..m]| && (routes + rows[..m])[i] == r;
        assert all[i] == r && all[|all| - 1] == rows[m];
      }
    }
  }

  /** None goes in exactly when each conflicts with the table. */
  lemma {:induction false} NoneInsertedIff(routes: seq<RouteRow>, rows: seq<RouteRow>)
    ensures PutNewRoutes(routes, rows) == routes <==> forall r :: r in rows ==> HasRoute(routes, r)
  {
    PutNewMembers(routes, rows);
    if forall r :: r in rows ==> HasRoute(routes, r) {
      NothingNew(routes, rows);
    }
  }

  lemma {:induction false} NothingNew(routes: seq<RouteRow>, rows: seq<RouteRow>)
    requires forall r :: r in rows ==> HasRoute(routes, r)
    ensures PutNewRoutes(routes, rows) == routes
  {
    if rows != [] {
      assert rows[|rows| - 1] in rows;
      assert forall r :: r in rows[..|rows| - 1] ==> r in rows;
      NothingNew(routes, rows[..|rows| - 1]);
    }
  }

  // ---- What a key reaches, before and after ----

  /** One permission of a key: model, strategy, flags and routes in order. */
  datatype Access = Access(
    keyId: Id, modelId: Id, strategy: Strategy, enabled: bool, linkEnabled: bool, routes: seq<RouteRow>)

  function OfConfig(id: Id): KeyRouteRow -> bool { (r: KeyRouteRow) => r.configId == id }

  /** A config's routes, each leading to the provider model of its mapping, with the
      flags of the routes alone. */
  function CarriedRoutes(l: Legacy, id: Id): seq<RouteRow> {
    TranslatedAll(l.mappings, Filter(OfConfig(id), l.routes))
  }

  /** What a route means: it is in force while it and its mapping are enabled. */
  function Meaning(r: KeyRouteRow): MappingRow -> RouteRow {
    (m: MappingRow) =>
      RouteRow(r.configId, m.providerModelId, r.weight, r.priority, r.enabled && m.enabled, r.createdAt)
  }

  function MeantAll(mappings: seq<MappingRow>, routes: seq<KeyRouteRow>): seq<RouteRow> {
    if routes == [] then []
    else MapSeq(Meaning(routes[0]), MappingsWith(mappings, routes[0].mappingId)) + MeantAll(mappings, routes[1..])
  }

  /** A config's routes as they are in force. */
  function OldRoutes(l: Legacy, id: Id): seq<RouteRow> {
    MeantAll(l.mappings, Filter(OfConfig(id), l.routes))
  }

  function OldAccess(l: Legacy): seq<Access> {
    seq(|l.configs|, i requires 0 <= i < |l.configs| =>
      var c := l.configs[i];
      Access(c.keyId, c.modelId, c.strategy, c.enabled, c.enabled, OldRoutes(l, c.id)))
  }

  predicate LinksResolve(t: PolicyTables) {
    forall i :: 0 <= i < |t.links| ==> t.links[i].policyId in t.policies
  }

  function NewRoutes(t: PolicyTables, id: Id): seq<RouteRow> {
    Filter(RouteOf(id), t.routes)
  }

  function NewAccess(t: PolicyTables): seq<Access>
    requires LinksResolve(t)
  {
    seq(|t.links|, i requires 0 <= i < |t.links| =>
      var link := t.links[i];
      var p := t.policies[link.policyId];
      Access(link.keyId, p.modelId, p.strategy, p.enabled, link.enabled, NewRoutes(t, link.policyId)))
  }

  /** No two routes of the config lead to the same provider model, and an orphan mapping
      that shares the config's id adds nothing the config does not route to. */
  ghost predicate Faithful(l: Legacy, id: Id) {
    && RoutesUnique(CarriedRoutes(l, id))
    && forall m :: m in Orphans(l) && m.id == id ==> HasRoute(CarriedRoutes(l, id), OrphanRoute()(m))
  }

  /** No enabled one of these routes uses a disabled mapping. */
  ghost predicate NoneRevived(mappings: seq<MappingRow>, routes: seq<KeyRouteRow>) {
    forall r, m :: r in routes && m in mappings && m.id == r.mappingId && r.enabled ==> m.enabled
  }

  /** What the migration must find in a config to keep what it reaches. */
  ghost predicate Kept(l: Legacy, id: Id) {
    Faithful(l, id) && NoneRevived(l.mappings, Filter(OfConfig(id), l.routes))
  }

  lemma {:induction false} TranslatedFor(mappings: seq<MappingRow>, routes: seq<KeyRouteRow>, id: Id)
    ensures Filter(RouteOf(id), TranslatedAll(mappings, routes))
         == TranslatedAll(mappings, Filter(OfConfig(id), routes))
  {
    if routes != [] {
      TranslatedFor(mappings, routes[1..], id);
      var head := Translated(mappings, routes[0]);
      FilterAppend(RouteOf(id), head, TranslatedAll(mappings, routes[1..]));
      if routes[0].configId == id {
        FilterAll(RouteOf(id), head);
        assert Filter(OfConfig(id), routes)[1..] == Filter(OfConfig(id), routes[1..]);
      } else {
        FilterNone(RouteOf(id), head);
        assert Filter(OfConfig(id), routes) == Filter(OfConfig(id), routes[1..]);
        assert [] + Filter(RouteOf(id), TranslatedAll(mappings, routes[1..]))
             == Filter(RouteOf(id), TranslatedAll(mappings, routes[1..]));
      }
    }
  }

  function OrphanRoutesOf(l: Legacy, id: Id): seq<RouteRow> {
    Filter(RouteOf(id), MapSeq(OrphanRoute(), Orphans(l)))
  }

  lemma OrphanRoutesMembers(l: Legacy, id: Id)
    ensures forall r :: r in OrphanRoutesOf(l, id) <==>
        exists m :: m in Orphans(l) && m.id == id && r == OrphanRoute()(m)
  {
    var rows := MapSeq(OrphanRoute(), Orphans(l));
    FilterMembers(RouteOf(id), rows);
    forall m | m in Orphans(l) ensures OrphanRoute()(m) in rows {
      var i :| 0 <= i < |Orphans(l)| && Orphans(l)[i] == m;
      assert rows[i] == OrphanRoute()(m);
    }
    forall r | r in OrphanRoutesOf(l, id) ensures exists m :: m in Orphans(l) && m.id == id && r == OrphanRoute()(m) {
      var i :| 0 <= i < |rows| && rows[i] == r;
      assert Orphans(l)[i] in Orphans(l);
    }
  }

  /** What ends up under an id: its translated routes, then the orphan's, first come. */
  lemma NewRoutesAre(l: Legacy, id: Id)
    ensures NewRoutes(Migrated(l), id) == PutNewRoutes(PutNewRoutes([], CarriedRoutes(l, id)), OrphanRoutesOf(l, id))
  {
    var translated := TranslatedAll(l.mappings, l.routes);
    PutNewPerPolicy(PutNewRoutes([], translated), MapSeq(OrphanRoute(), Orphans(l)), id);
    PutNewPerPolicy([], translated, id);
    TranslatedFor(l.mappings, l.routes, id);
  }

  /** The first rows all go in and the others all conflict. */
  lemma OnlyFirstInsertedIff(carried: seq<RouteRow>, extra: seq<RouteRow>)
    ensures PutNewRoutes(PutNewRoutes([], carried), extra) == carried <==>
            RoutesUnique(carried) && forall r :: r in extra ==> HasRoute(carried, r)
  {
    PutNewKeepsUnique([], carried);
    PutNewKeepsUnique(PutNewRoutes([], carried), extra);
    if RoutesUnique(carried) {
      assert [] + carried == carried;
      UniqueGoesIn([], carried);
      NoneInsertedIff(carried, extra);
    }
  }

  /** The routes arrive as the SELECT reads them exactly when the config is faithful. */
  lemma RoutesCarriedIff(l: Legacy, id: Id)
    ensures NewRoutes(Migrated(l), id) == CarriedRoutes(l, id) <==> Faithful(l, id)
  {
    NewRoutesAre(l, id);
    OnlyFirstInsertedIff(CarriedRoutes(l, id), OrphanRoutesOf(l, id));
    OrphanRoutesMembers(l, id);
  }

  /** Meaning and translation differ in the flag alone. */
  predicate SameButFlag(a: RouteRow, b: RouteRow) {
    b == a.(enabled := b.enabled)
  }

  lemma {:induction false} MeantLikeTranslated(mappings: seq<MappingRow>, routes: seq<KeyRouteRow>)
    ensures var carried, meant := TranslatedAll(mappings, routes), MeantAll(mappings, routes);
            |meant| == |carried| && forall i :: 0 <= i < |meant| ==> SameButFlag(carried[i], meant[i])
  {
    if routes != [] {
      MeantLikeTranslated(mappings, routes[1..]);
    }
  }

  lemma OneMeansIff(mappings: seq<MappingRow>, r: KeyRouteRow)
    ensures MapSeq(Meaning(r), MappingsWith(mappings, r.mappingId)) == Translated(mappings, r) <==>
            forall m :: m in mappings && m.id == r.mappingId && r.enabled ==> m.enabled
  {
    var joined := MappingsWith(mappings, r.mappingId);
    var carried, meant := Translated(mappings, r), MapSeq(Meaning(r), joined);
    FilterMembers(WithId(r.mappingId), mappings);
    forall i | 0 <= i < |joined| ensures meant[i] == carried[i] <==> (r.enabled ==> joined[i].enabled) {
      assert carried[i] == Carried(r)(joined[i]) && meant[i] == Meaning(r)(joined[i]);
    }
    if m :| m in mappings && m.id == r.mappingId && r.enabled && !m.enabled {
      assert m in joined;
      var i :| 0 <= i < |joined| && joined[i] == m;
      assert meant[i] != carried[i];
    } else {
      forall i | 0 <= i < |joined| ensures meant[i] == carried[i] {
        assert joined[i] in joined;
      }
    }
  }

  lemma {:induction false} MeansAsCarriedIff(mappings: seq<MappingRow>, routes: seq<KeyRouteRow>)
    ensures MeantAll(mappings, routes) == TranslatedAll(mappings, routes) <==> NoneRevived(mappings, routes)
  {
    if routes != [] {
      var head, meant := Translated(mappings, routes[0]),
          MapSeq(Meaning(routes[0]), MappingsWith(mappings, routes[0].mappingId));
      OneMeansIff(mappings, routes[0]);
      MeansAsCarriedIff(mappings, routes[1..]);
      assert |head| == |meant|;
      SameParts(meant, MeantAll(mappings, routes[1..]), head, TranslatedAll(mappings, routes[1..]));
      assert forall r :: r in routes <==> r == routes[0] || r in routes[1..];
    }
  }

  lemma SameParts(a: seq<RouteRow>, b: seq<RouteRow>, c: seq<RouteRow>, d: seq<RouteRow>)
    requires |a| == |c|
    ensures a + b == c + d <==> a == c && b == d
  {
    if a + b == c + d {
      assert a == (a + b)[..|a|] && c == (c + d)[..|c|];
      assert b == (a + b)[|a|..] && d == (c + d)[|c|..];
    }
  }

  /** Under a config's id the migration leaves what its routes meant, in order, exactly
      when the config is faithful and no enabled route of it uses a disabled mapping. */
  lemma RoutesKeptIff(l: Legacy, id: Id)
    ensures NewRoutes(Migrated(l), id) == OldRoutes(l, id) <==> Kept(l, id)
  {
    var mine := Filter(OfConfig(id), l.routes);
    RoutesCarriedIff(l, id);
    MeansAsCarriedIff(l.mappings, mine);
    MeantLikeTranslated(l.mappings, mine);
    if NewRoutes(Migrated(l), id) == OldRoutes(l, id) {
      AllCarried(l, id);
    }
  }

  lemma FlagsKeepUnique(carried: seq<RouteRow>, meant: seq<RouteRow>)
    requires |meant| == |carried| && RoutesUnique(meant)
    requires forall i :: 0 <= i < |meant| ==> SameButFlag(carried[i], meant[i])
    ensures RoutesUnique(carried)
  {
    forall i, j | 0 <= i < j < |carried| ensures !SameRoute(carried[i], carried[j]) {
      assert SameButFlag(carried[i], meant[i]) && SameButFlag(carried[j], meant[j]);
      assert !SameRoute(meant[i], meant[j]);
    }
  }

  /** If the offered routes are distinct and as many arrive, they are the ones offered. */
  lemma AllArrive(carried: seq<RouteRow>, extra: seq<RouteRow>)
    requires RoutesUnique(carried)
    requires |PutNewRoutes(PutNewRoutes([], carried), extra)| == |carried|
    ensures PutNewRoutes(PutNewRoutes([], carried), extra) == carried
  {
    assert [] + carried == carried;
    UniqueGoesIn([], carried);
    PutNewMembers(carried, extra);
  }

  lemma AllCarried(l: Legacy, id: Id)
    requires NewRoutes(Migrated(l), id) == OldRoutes(l, id)
    ensures NewRoutes(Migrated(l), id) == CarriedRoutes(l, id)
  {
    var carried, extra := CarriedRoutes(l, id), OrphanRoutesOf(l, id);
    NewRoutesAre(l, id);
    PutNewKeepsUnique([], carried);
    PutNewKeepsUnique(PutNewRoutes([], carried), extra);
    MeantLikeTranslated(l.mappings, Filter(OfConfig(id), l.routes));
    FlagsKeepUnique(carried, OldRoutes(l, id));
    AllArrive(carried, extra);
  }
}
