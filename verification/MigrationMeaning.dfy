/** What the policy migration preserves, for every database the first schema allows. */
module MigrationMeaning {
  import opened Collections
  import opened RouteSelection
  import opened Schema
  import opened Statements
  import opened Integrity
  import opened LegacySchema
  import opened PolicyMigration

  // ---- Policies ----

  lemma {:induction false} ConfigPoliciesAre(configs: seq<ConfigRow>)
    requires ConfigIdsDiffer(configs)
    ensures forall id :: id in ConfigPolicies(configs) <==> IsConfig(configs, id)
    ensures forall c :: c in configs ==>
        c.id in ConfigPolicies(configs) && ConfigPolicies(configs)[c.id] == PolicyFor(c)
  {
    if configs != [] {
      var m := |configs| - 1;
      ConfigPoliciesAre(configs[..m]);
      assert configs == configs[..m] + [configs[m]];
      forall c | c in configs[..m] ensures c.id != configs[m].id {
        var i :| 0 <= i < m && configs[i] == c;
      }
      assert configs[m] in configs;
    }
  }

  lemma LastMapping(mappings: seq<MappingRow>)
    requires mappings != [] && MappingIdsDiffer(mappings)
    ensures var k := |mappings| - 1;
            && MappingIdsDiffer(mappings[..k])
            && (forall m :: m in mappings <==> m in mappings[..k] || m == mappings[k])
            && !HasMapping(mappings[..k], mappings[k].id)
  {
    var k := |mappings| - 1;
    assert mappings == mappings[..k] + [mappings[k]];
    forall m | m in mappings[..k] ensures m.id != mappings[k].id {
      var i :| 0 <= i < k && mappings[i] == m;
    }
  }

  lemma {:induction false} NewPolicyIds(policies: map<Id, PolicyRow>, orphans: seq<MappingRow>)
    requires MappingIdsDiffer(orphans)
    ensures forall id :: id in PutNewPolicies(policies, orphans) <==> id in policies || HasMapping(orphans, id)
  {
    if orphans != [] {
      NewPolicyIds(policies, orphans[..|orphans| - 1]);
      LastMapping(orphans);
    }
  }

  lemma {:induction false} NewPoliciesAre(policies: map<Id, PolicyRow>, orphans: seq<MappingRow>)
    requires MappingIdsDiffer(orphans)
    ensures var after := PutNewPolicies(policies, orphans);
            && (forall id :: id in after <==> id in policies || HasMapping(orphans, id))
            && (forall id :: id in policies ==> after[id] == policies[id])
            && forall m :: m in orphans && m.id !in policies ==> after[m.id] == OrphanPolicy(m)
  {
    NewPolicyIds(policies, orphans);
    if orphans != [] {
      NewPoliciesAre(policies, orphans[..|orphans| - 1]);
      LastMapping(orphans);
    }
  }

  lemma FirstMapping(m: MappingRow, rest: seq<MappingRow>)
    requires MappingIdsDiffer(rest) && !HasMapping(rest, m.id)
    ensures MappingIdsDiffer([m] + rest)
  {
    var all := [m] + rest;
    forall i, j | 0 <= i < j < |all| ensures all[i].id != all[j].id {
      assert all[j] == rest[j - 1] && rest[j - 1] in rest;
    }
  }

  lemma FirstIdIsOwn(mappings: seq<MappingRow>)
    requires mappings != [] && MappingIdsDiffer(mappings)
    ensures MappingIdsDiffer(mappings[1..]) && !HasMapping(mappings[1..], mappings[0].id)
  {
    forall m | m in mappings[1..] ensures m.id != mappings[0].id {
      var i :| 0 <= i < |mappings[1..]| && mappings[1..][i] == m;
      assert mappings[i + 1] == m;
    }
  }

  lemma {:induction false} OrphanIdsDiffer(routes: seq<KeyRouteRow>, mappings: seq<MappingRow>)
    requires MappingIdsDiffer(mappings)
    ensures MappingIdsDiffer(Filter(IsOrphan(routes), mappings))
  {
    if mappings != [] {
      var orphans := Filter(IsOrphan(routes), mappings[1..]);
      FirstIdIsOwn(mappings);
      OrphanIdsDiffer(routes, mappings[1..]);
      FilterMembers(IsOrphan(routes), mappings[1..]);
      assert !HasMapping(orphans, mappings[0].id);
      FirstMapping(mappings[0], orphans);
      FilterHead(IsOrphan(routes), mappings);
    }
  }

  /** No route refers to the mapping. */
  ghost predicate Unreferenced(l: Legacy, m: MappingRow) {
    m in l.mappings && forall r :: r in l.routes ==> r.mappingId != m.id
  }

  lemma OrphansAreUnreferenced(l: Legacy)
    ensures forall m :: m in Orphans(l) <==> Unreferenced(l, m)
  {
    FilterMembers(IsOrphan(l.routes), l.mappings);
  }

  /** Every config becomes the policy of its id, priority staying priority and all else
      becoming weighted, and every unreferenced mapping whose id is free becomes a weighted
      one, each with its own model, flag and time; there is no other policy. */
  lemma PoliciesAreExactly(l: Legacy, core: Core)
    requires LegacyValid(l, core)
    ensures var policies := Migrated(l).policies;
            && (forall id :: id in policies <==>
                  IsConfig(l.configs, id) || exists m :: Unreferenced(l, m) && m.id == id)
            && (forall c :: c in l.configs ==>
                  policies[c.id] ==
                  PolicyRow(c.modelId, if c.strategy == Priority then Priority else Weighted, c.enabled, c.createdAt))
            && (forall m :: Unreferenced(l, m) && !IsConfig(l.configs, m.id) ==>
                  policies[m.id] == PolicyRow(m.modelId, Weighted, m.enabled, m.createdAt))
  {
    ConfigPoliciesAre(l.configs);
    OrphanIdsDiffer(l.routes, l.mappings);
    NewPoliciesAre(ConfigPolicies(l.configs), Orphans(l));
    OrphansAreUnreferenced(l);
  }

  /** Every config becomes one link of its key, with its flag and time, in order. */
  lemma LinksAreExactly(l: Legacy)
    ensures var links := Migrated(l).links;
            && |links| == |l.configs|
            && forall i :: 0 <= i < |links| ==>
                 var c := l.configs[i]; links[i] == LinkRow(c.keyId, c.id, c.enabled, c.createdAt)
  {
  }

  // ---- Access ----

  lemma AccessAt(l: Legacy, core: Core, i: nat)
    requires LegacyValid(l, core) && i < |l.configs|
    ensures Migrated(l).links[i].policyId in Migrated(l).policies
    ensures LinksResolve(Migrated(l)) ==>
              (NewAccess(Migrated(l))[i] == OldAccess(l)[i] <==> Kept(l, l.configs[i].id))
  {
    var c := l.configs[i];
    assert c in l.configs;
    PoliciesAreExactly(l, core);
    RoutesKeptIff(l, c.id);
    assert Migrated(l).links[i] == LinkFor()(c);
    assert PolicyFor(c).strategy == c.strategy;
  }

  /** What every key reaches is preserved (strategy, flags, and routes with weight,
      priority, flag, time and order) exactly when every config is faithful and no
      enabled route uses a disabled mapping. */
  lemma AccessPreservedIff(l: Legacy, core: Core)
    requires LegacyValid(l, core)
    ensures LinksResolve(Migrated(l))
    ensures NewAccess(Migrated(l)) == OldAccess(l) <==> forall c :: c in l.configs ==> Kept(l, c.id)
  {
    var t := Migrated(l);
    forall i | 0 <= i < |t.links| ensures t.links[i].policyId in t.policies {
      AccessAt(l, core, i);
    }
    var before, after := OldAccess(l), NewAccess(t);
    forall i | 0 <= i < |l.configs| ensures after[i] == before[i] <==> Kept(l, l.configs[i].id) {
      AccessAt(l, core, i);
    }
    SameWhereKept(l, before, after);
  }

  lemma SameWhereKept(l: Legacy, before: seq<Access>, after: seq<Access>)
    requires |before| == |after| == |l.configs|
    requires forall i :: 0 <= i < |l.configs| ==> (after[i] == before[i] <==> Kept(l, l.configs[i].id))
    ensures after == before <==> forall c :: c in l.configs ==> Kept(l, c.id)
  {
    if after == before {
      forall c | c in l.configs ensures Kept(l, c.id) {
        var i :| 0 <= i < |l.configs| && l.configs[i] == c;
        assert after[i] == before[i];
      }
    } else {
      var i :| 0 <= i < |l.configs| && after[i] != before[i];
      assert l.configs[i] in l.configs;
    }
  }

  /** Routes only use mappings of their config's own model, and no mapping has the id
      of a config. */
  ghost predicate WellKept(l: Legacy) {
    && (forall r, c, m :: r in l.routes && c in l.configs && m in l.mappings ==>
          (c.id == r.configId && m.id == r.mappingId ==> m.modelId == c.modelId))
    && forall m :: m in l.mappings ==> !IsConfig(l.configs, m.id)
  }

  lemma {:induction false} JoinIsOne(mappings: seq<MappingRow>, id: Id) returns (m: MappingRow)
    requires MappingIdsDiffer(mappings)
    requires HasMapping(mappings, id)
    ensures m in mappings && m.id == id && MappingsWith(mappings, id) == [m]
  {
    if mappings[0].id == id {
      m := mappings[0];
      forall x | x in mappings[1..] ensures x.id != id {
        var i :| 0 <= i < |mappings[1..]| && mappings[1..][i] == x;
        assert mappings[i + 1] == x;
      }
      FilterNone(WithId(id), mappings[1..]);
    } else {
      m := JoinIsOne(mappings[1..], id);
    }
  }

  ghost predicate Joins(l: Legacy, routes: seq<KeyRouteRow>) {
    forall r :: r in routes ==> HasMapping(l.mappings, r.mappingId)
  }

  /** The row a route becomes, by a mapping with its id. */
  predicate Becomes(r: KeyRouteRow, m: MappingRow, row: RouteRow) {
    m.id == r.mappingId
    && row == RouteRow(r.configId, m.providerModelId, r.weight, r.priority, r.enabled, r.createdAt)
  }

  ghost predicate RowFor(mappings: seq<MappingRow>, r: KeyRouteRow, row: RouteRow) {
    exists m :: m in mappings && Becomes(r, m, row)
  }

  /** The join loses and repeats no route. */
  lemma {:induction false} TranslatedRows(l: Legacy, routes: seq<KeyRouteRow>)
    requires MappingIdsDiffer(l.mappings) && Joins(l, routes)
    ensures var rows := TranslatedAll(l.mappings, routes);
            |rows| == |routes| && forall i :: 0 <= i < |rows| ==> RowFor(l.mappings, routes[i], rows[i])
  {
    if routes != [] {
      TranslatedRows(l, routes[1..]);
      var m := JoinIsOne(l.mappings, routes[0].mappingId);
      var rest, rows := TranslatedAll(l.mappings, routes[1..]), TranslatedAll(l.mappings, routes);
      assert rows == Translated(l.mappings, routes[0]) + rest;
      assert Becomes(routes[0], m, rows[0]);
      forall i | 0 < i < |rows| ensures RowFor(l.mappings, routes[i], rows[i]) {
        assert rows[i] == rest[i - 1] && routes[i] == routes[1..][i - 1];
      }
    }
  }

  lemma SameMapping(l: Legacy, core: Core, a: MappingRow, b: MappingRow)
    requires MappingsOk(l.mappings, core) && a in l.mappings && b in l.mappings
    requires a.modelId == b.modelId && a.providerModelId == b.providerModelId
    ensures a == b
  {
    var i :| 0 <= i < |l.mappings| && l.mappings[i] == a;
    var j :| 0 <= j < |l.mappings| && l.mappings[j] == b;
  }

  /** In a well-kept database no two routes of one config meet. */
  lemma TranslatedUnique(l: Legacy, core: Core)
    requires LegacyValid(l, core) && WellKept(l)
    ensures RoutesUnique(TranslatedAll(l.mappings, l.routes))
    ensures |TranslatedAll(l.mappings, l.routes)| == |l.routes|
    ensures forall r :: r in TranslatedAll(l.mappings, l.routes) ==> IsConfig(l.configs, r.policyId)
  {
    var rows := TranslatedAll(l.mappings, l.routes);
    TranslatedRows(l, l.routes);
    forall i, j | 0 <= i < j < |rows| ensures !SameRoute(rows[i], rows[j]) {
      if SameRoute(rows[i], rows[j]) {
        RoutesMeet(l, core, i, j);
      }
    }
    forall r | r in rows ensures IsConfig(l.configs, r.policyId) {
      var i :| 0 <= i < |rows| && rows[i] == r;
      assert RowFor(l.mappings, l.routes[i], rows[i]);
      assert l.routes[i] in l.routes;
    }
  }

  lemma RoutesMeet(l: Legacy, core: Core, i: nat, j: nat)
    requires LegacyValid(l, core) && WellKept(l) && i < j < |l.routes|
    requires |TranslatedAll(l.mappings, l.routes)| == |l.routes|
    requires RowFor(l.mappings, l.routes[i], TranslatedAll(l.mappings, l.routes)[i])
    requires RowFor(l.mappings, l.routes[j], TranslatedAll(l.mappings, l.routes)[j])
    ensures !SameRoute(TranslatedAll(l.mappings, l.routes)[i], TranslatedAll(l.mappings, l.routes)[j])
  {
    var a, b := l.routes[i], l.routes[j];
    var rows := TranslatedAll(l.mappings, l.routes);
    var m :| m in l.mappings && Becomes(a, m, rows[i]);
    var n :| n in l.mappings && Becomes(b, n, rows[j]);
    assert a in l.routes && b in l.routes;
    if a.configId == b.configId && m.modelId == n.modelId && m.providerModelId == n.providerModelId {
      SameMapping(l, core, m, n);
    }
  }

  lemma WellKeptIsFaithful(l: Legacy, core: Core, id: Id)
    requires LegacyValid(l, core) && WellKept(l) && IsConfig(l.configs, id)
    ensures Faithful(l, id)
  {
    TranslatedUnique(l, core);
    TranslatedFor(l.mappings, l.routes, id);
    FilteredRoutesUnique(RouteOf(id), TranslatedAll(l.mappings, l.routes));
    FilterMembers(IsOrphan(l.routes), l.mappings);
  }

  /** In a well-kept database every route arrives, in order, with its own flag; and every
      key reaches what it reached before exactly when no enabled route uses a disabled
      mapping, whose flag the new tables do not have. */
  lemma MeaningPreserved(l: Legacy, core: Core)
    requires LegacyValid(l, core) && WellKept(l)
    ensures LinksResolve(Migrated(l))
    ensures forall c :: c in l.configs ==> NewRoutes(Migrated(l), c.id) == CarriedRoutes(l, c.id)
    ensures NewAccess(Migrated(l)) == OldAccess(l) <==> NoneRevived(l.mappings, l.routes)
  {
    AccessPreservedIff(l, core);
    forall c | c in l.configs
      ensures Faithful(l, c.id) && NewRoutes(Migrated(l), c.id) == CarriedRoutes(l, c.id)
    {
      WellKeptIsFaithful(l, core, c.id);
      RoutesCarriedIff(l, c.id);
    }
    RevivedSomewhere(l);
  }

  /** Every route belongs to some config. */
  lemma RevivedSomewhere(l: Legacy)
    requires KeyRoutesOk(l)
    ensures NoneRevived(l.mappings, l.routes) <==>
            forall c :: c in l.configs ==> NoneRevived(l.mappings, Filter(OfConfig(c.id), l.routes))
  {
    forall c | c in l.configs {
      FilterMembers(OfConfig(c.id), l.routes);
    }
    if r, m :| r in l.routes && m in l.mappings && m.id == r.mappingId && r.enabled && !m.enabled {
      var c :| c in l.configs && c.id == r.configId;
      assert r in Filter(OfConfig(c.id), l.routes);
    }
  }

  // ---- Disabled mappings come back ----

  /** In a well-kept database an enabled route on a disabled mapping, out of force before
      the migration, is in force after it. */
  lemma DisabledMappingComesBack(l: Legacy, core: Core, r: KeyRouteRow, m: MappingRow)
    requires LegacyValid(l, core) && WellKept(l)
    requires r in l.routes && m in l.mappings && m.id == r.mappingId && r.enabled && !m.enabled
    ensures Meaning(r)(m) in OldRoutes(l, r.configId) && !Meaning(r)(m).enabled
    ensures Carried(r)(m) in NewRoutes(Migrated(l), r.configId) && Carried(r)(m).enabled
  {
    var mine := Filter(OfConfig(r.configId), l.routes);
    FilterMembers(OfConfig(r.configId), l.routes);
    WellKeptIsFaithful(l, core, r.configId);
    RoutesCarriedIff(l, r.configId);
    RowsOfRoute(l.mappings, mine, r, m);
  }

  lemma {:induction false} RowsOfRoute(mappings: seq<MappingRow>, routes: seq<KeyRouteRow>, r: KeyRouteRow,
                                       m: MappingRow)
    requires r in routes && m in mappings && m.id == r.mappingId
    ensures Carried(r)(m) in TranslatedAll(mappings, routes) && Meaning(r)(m) in MeantAll(mappings, routes)
  {
    if routes[0] == r {
      var joined := MappingsWith(mappings, r.mappingId);
      FilterMembers(WithId(r.mappingId), mappings);
      var i :| 0 <= i < |joined| && joined[i] == m;
      assert Translated(mappings, r)[i] == Carried(r)(m);
      assert MapSeq(Meaning(r), joined)[i] == Meaning(r)(m);
    } else {
      RowsOfRoute(mappings, routes[1..], r, m);
    }
  }

  /** One config, whose only route is enabled and uses a disabled mapping. */
  const SLEEPING := Legacy(
    [MappingRow("a", "m1", "x", false, 0)], [ConfigRow("c", "k", "m1", Weighted, true, 0)], [FIRST])

  lemma SleepingIsValid()
    ensures LegacyValid(SLEEPING, TWO_MODELS) && CoreValid(TWO_MODELS) && WellKept(SLEEPING)
  {
    MeetingCore();
    var m, c := SLEEPING.mappings[0], SLEEPING.configs[0];
    assert m in SLEEPING.mappings && c in SLEEPING.configs;
    assert m.id[0] != c.id[0];
  }

  /** A database of the first schema in which a key gains a route: it is valid and well
      kept, and its one disabled mapping is in force after the migration. */
  lemma AccessGainedByMigration()
    ensures LegacyValid(SLEEPING, TWO_MODELS) && CoreValid(TWO_MODELS) && WellKept(SLEEPING)
    ensures OldRoutes(SLEEPING, "c") == [RouteRow("c", "x", 1, 0, false, 0)]
    ensures NewRoutes(Migrated(SLEEPING), "c") == [RouteRow("c", "x", 1, 0, true, 0)]
  {
    SleepingIsValid();
    var m := MappingRow("a", "m1", "x", false, 0);
    assert SLEEPING.mappings[0] == m && SLEEPING.configs[0] in SLEEPING.configs;
    LoneRoute(SLEEPING, TWO_MODELS, FIRST, m);
  }

  lemma LoneRoute(l: Legacy, core: Core, r: KeyRouteRow, m: MappingRow)
    requires LegacyValid(l, core) && WellKept(l) && l.routes == [r]
    requires m in l.mappings && m.id == r.mappingId && r.enabled && !m.enabled
    ensures OldRoutes(l, r.configId) == [Meaning(r)(m)]
    ensures NewRoutes(Migrated(l), r.configId) == [Carried(r)(m)]
  {
    assert r in l.routes;
    DisabledMappingComesBack(l, core, r, m);
    WellKeptIsFaithful(l, core, r.configId);
    RoutesCarriedIff(l, r.configId);
    OneRouteOnly(l, r);
    TheOnly(OldRoutes(l, r.configId), Meaning(r)(m));
    TheOnly(NewRoutes(Migrated(l), r.configId), Carried(r)(m));
  }

  lemma OneRouteOnly(l: Legacy, r: KeyRouteRow)
    requires MappingIdsDiffer(l.mappings) && l.routes == [r] && HasMapping(l.mappings, r.mappingId)
    ensures |OldRoutes(l, r.configId)| == |CarriedRoutes(l, r.configId)| == 1
  {
    FilterAll(OfConfig(r.configId), l.routes);
    TranslatedRows(l, l.routes);
    MeantLikeTranslated(l.mappings, l.routes);
  }

  lemma TheOnly(rows: seq<RouteRow>, row: RouteRow)
    requires |rows| == 1 && row in rows
    ensures rows == [row]
  {
  }

  // ---- Rows lost to ON CONFLICT ----

  /** All the rows the two INSERTs into the route table offer. */
  function Offered(l: Legacy): seq<RouteRow> {
    TranslatedAll(l.mappings, l.routes) + MapSeq(OrphanRoute(), Orphans(l))
  }

  lemma BothInsertedIff(a: seq<RouteRow>, b: seq<RouteRow>)
    ensures PutNewRoutes(PutNewRoutes([], a), b) == a + b <==> RoutesUnique(a + b)
  {
    PutBothOk(a, b);
    if RoutesUnique(a + b) {
      UniqueFront(a, b);
      assert [] + a == a;
      UniqueGoesIn([], a);
      UniqueGoesIn(a, b);
    }
  }

  lemma UniqueFront(a: seq<RouteRow>, b: seq<RouteRow>)
    requires RoutesUnique(a + b)
    ensures RoutesUnique(a)
  {
    forall i, j | 0 <= i < j < |a| ensures !SameRoute(a[i], a[j]) {
      assert (a + b)[i] == a[i] && (a + b)[j] == a[j];
    }
  }

  /** Each old route and each orphan offers one row, and none is lost exactly when no
      two of them meet. */
  lemma NoRowLostIff(l: Legacy, core: Core)
    requires LegacyValid(l, core)
    ensures |Offered(l)| == |l.routes| + |Orphans(l)|
    ensures Migrated(l).routes == Offered(l) <==> RoutesUnique(Offered(l))
    ensures WellKept(l) ==> Migrated(l).routes == Offered(l)
  {
    TranslatedRows(l, l.routes);
    BothInsertedIff(TranslatedAll(l.mappings, l.routes), MapSeq(OrphanRoute(), Orphans(l)));
    if WellKept(l) {
      OfferedUnique(l, core);
    }
  }

  /** Whether two rows meet does not depend on their order. */
  lemma UniqueInAnyOrder(xs: seq<RouteRow>, ys: seq<RouteRow>)
    requires multiset(xs) == multiset(ys) && RoutesUnique(xs)
    ensures RoutesUnique(ys)
  {
    forall i, j | 0 <= i < j < |ys| ensures !SameRoute(ys[i], ys[j]) {
      var k, n := TwoPlaces(xs, ys, i, j);
      assert !SameRoute(xs[if k < n then k else n], xs[if k < n then n else k]);
    }
  }

  /** The two INSERTs name no order. In whatever order their rows come, none is lost
      exactly when no two of all the offered rows meet. */
  lemma NoRowLostInAnyOrderIff(l: Legacy, translated: seq<RouteRow>, orphaned: seq<RouteRow>)
    requires multiset(translated) == multiset(TranslatedAll(l.mappings, l.routes))
    requires multiset(orphaned) == multiset(MapSeq(OrphanRoute(), Orphans(l)))
    ensures PutNewRoutes(PutNewRoutes([], translated), orphaned) == translated + orphaned <==> RoutesUnique(Offered(l))
  {
    BothInsertedIff(translated, orphaned);
    assert multiset(translated + orphaned) == multiset(Offered(l));
    if RoutesUnique(Offered(l)) {
      UniqueInAnyOrder(Offered(l), translated + orphaned);
    } else if RoutesUnique(translated + orphaned) {
      UniqueInAnyOrder(translated + orphaned, Offered(l));
    }
  }

  lemma OfferedUnique(l: Legacy, core: Core)
    requires LegacyValid(l, core) && WellKept(l)
    ensures RoutesUnique(Offered(l))
  {
    var a, b := TranslatedAll(l.mappings, l.routes), MapSeq(OrphanRoute(), Orphans(l));
    TranslatedUnique(l, core);
    OrphanIdsDiffer(l.routes, l.mappings);
    FilterMembers(IsOrphan(l.routes), l.mappings);
    forall i, j | 0 <= i < j < |a + b| ensures !SameRoute((a + b)[i], (a + b)[j]) {
      if j < |a| {
      } else if i < |a| {
        assert a[i] in a && Orphans(l)[j - |a|] in Orphans(l);
      } else {
        assert Orphans(l)[i - |a|].id != Orphans(l)[j - |a|].id;
      }
    }
  }

  // ---- A database the old constraints allow, and a route it loses ----

  const TWO_MODELS := Core(
    map["m1" := ModelRow("one", ChatModel), "m2" := ModelRow("two", ChatModel)],
    map["p" := ProviderRow("p", "https://p", "secret")],
    map["x" := ProviderModelRow("p", "x")],
    map["k" := KeyRow("k", "hash", true)],
    map[], ALL_SET_NULL)

  const FIRST := KeyRouteRow("c", "a", 1, 0, true, 0)
  const SECOND := KeyRouteRow("c", "b", 5, 0, true, 0)

  /** Config c of model m1 also uses m2's mapping to the same provider model. */
  const MEETING := Legacy(
    [MappingRow("a", "m1", "x", true, 0), MappingRow("b", "m2", "x", true, 0)],
    [ConfigRow("c", "k", "m1", Weighted, true, 0)],
    [FIRST, SECOND])

  lemma MeetingCore()
    ensures CoreValid(TWO_MODELS)
  {
  }

  lemma MeetingMappings()
    ensures MappingsOk(MEETING.mappings, TWO_MODELS)
  {
    assert MEETING.mappings[0].id == "a" && MEETING.mappings[1].id == "b";
    assert MEETING.mappings[0].modelId == "m1" && MEETING.mappings[1].modelId == "m2";
  }

  lemma MeetingRoutes()
    ensures ConfigsOk(MEETING.configs, TWO_MODELS) && KeyRoutesOk(MEETING)
  {
    assert MEETING.configs[0].id == "c";
    assert MEETING.configs[0] in MEETING.configs;
    assert MEETING.mappings[0] in MEETING.mappings && MEETING.mappings[1] in MEETING.mappings;
  }

  lemma MeetingIsValid()
    ensures LegacyValid(MEETING, TWO_MODELS) && CoreValid(TWO_MODELS)
  {
    MeetingCore();
    MeetingMappings();
    MeetingRoutes();
  }

  lemma MeetingRows()
    ensures TranslatedAll(MEETING.mappings, MEETING.routes)
         == [RouteRow("c", "x", 1, 0, true, 0), RouteRow("c", "x", 5, 0, true, 0)]
  {
    MeetingIsValid();
    TranslatedRows(MEETING, MEETING.routes);
    var rows := TranslatedAll(MEETING.mappings, MEETING.routes);
    assert MEETING.routes[0] == FIRST && MEETING.routes[1] == SECOND;
    assert RowFor(MEETING.mappings, FIRST, rows[0]) && RowFor(MEETING.mappings, SECOND, rows[1]);
  }

  const LIGHT := RouteRow("c", "x", 1, 0, true, 0)
  const HEAVY := RouteRow("c", "x", 5, 0, true, 0)

  /** Of two rows that meet the first to come is kept. */
  lemma OneOfTwoIsKept(a: RouteRow, b: RouteRow)
    requires SameRoute(a, b)
    ensures PutNewRoutes([], [a, b]) == [a]
  {
    OnlyOne(a);
    assert [a, b][..1] == [a];
    assert a in [a];
  }

  /** In whatever order the join delivers them, one of the two routes is lost; either may
      be. */
  lemma OneOfTwoIsLost(offered: seq<RouteRow>)
    requires multiset(offered) == multiset([LIGHT, HEAVY])
    ensures |offered| == 2 && PutNewRoutes([], offered) == [offered[0]]
  {
    assert multiset([LIGHT, HEAVY]) == multiset{LIGHT, HEAVY};
    assert |offered| == |multiset(offered)| == 2;
    assert offered == [offered[0], offered[1]];
    assert offered[0] in multiset(offered) && offered[1] in multiset(offered);
    OneOfTwoIsKept(offered[0], offered[1]);
  }

  lemma MeetingHasNoOrphans()
    ensures Orphans(MEETING) == [] && MapSeq(OrphanRoute(), Orphans(MEETING)) == []
  {
    forall m | m in MEETING.mappings ensures !IsOrphan(MEETING.routes)(m) {
      assert FIRST in MEETING.routes && SECOND in MEETING.routes;
    }
    FilterNone(IsOrphan(MEETING.routes), MEETING.mappings);
  }

  /** One of config c's two routes is gone after the migration, whatever the order; with
      the rows in table order it is the second, of weight 5. */
  lemma RouteLostWhereModelsMeet()
    ensures LegacyValid(MEETING, TWO_MODELS) && !Faithful(MEETING, "c")
    ensures CarriedRoutes(MEETING, "c") == TranslatedAll(MEETING.mappings, MEETING.routes) == [LIGHT, HEAVY]
    ensures Orphans(MEETING) == [] && Migrated(MEETING).routes == [LIGHT]
    ensures forall offered :: multiset(offered) == multiset([LIGHT, HEAVY]) ==>
              |offered| == 2 && PutNewRoutes([], offered) == [offered[0]]
  {
    MeetingIsValid();
    MeetingCarried();
    MeetingHasNoOrphans();
    OneOfTwoIsKept(LIGHT, HEAVY);
    assert SameRoute(CarriedRoutes(MEETING, "c")[0], CarriedRoutes(MEETING, "c")[1]);
    forall offered | multiset(offered) == multiset([LIGHT, HEAVY])
      ensures |offered| == 2 && PutNewRoutes([], offered) == [offered[0]]
    {
      OneOfTwoIsLost(offered);
    }
  }

  lemma MeetingCarried()
    ensures CarriedRoutes(MEETING, "c") == TranslatedAll(MEETING.mappings, MEETING.routes) == [LIGHT, HEAVY]
  {
    MeetingRows();
    FilterAll(OfConfig("c"), MEETING.routes);
  }

  // ---- Orphan mappings ----

  /** The mapping became a policy of its own: one route 100/100, no key attached. */
  ghost predicate OwnPolicy(t: PolicyTables, m: MappingRow) {
    && m.id in t.policies && t.policies[m.id] == PolicyRow(m.modelId, Weighted, m.enabled, m.createdAt)
    && NewRoutes(t, m.id) == [RouteRow(m.id, m.providerModelId, 100, 100, m.enabled, m.createdAt)]
    && forall link :: link in t.links ==> link.policyId != m.id
  }

  lemma NoRoutesWithoutConfig(l: Legacy, id: Id)
    requires KeyRoutesOk(l) && !IsConfig(l.configs, id)
    ensures CarriedRoutes(l, id) == []
  {
    FilterNone(OfConfig(id), l.routes);
  }

  lemma {:induction false} OneOrphanRow(orphans: seq<MappingRow>, m: MappingRow)
    requires MappingIdsDiffer(orphans) && m in orphans
    ensures Filter(RouteOf(m.id), MapSeq(OrphanRoute(), orphans)) == [OrphanRoute()(m)]
  {
    var rows := MapSeq(OrphanRoute(), orphans);
    assert rows[1..] == MapSeq(OrphanRoute(), orphans[1..]);
    if orphans[0] == m {
      forall r | r in rows[1..] ensures !RouteOf(m.id)(r) {
        var i :| 0 <= i < |rows[1..]| && rows[1..][i] == r;
        assert orphans[i + 1].id != m.id;
      }
      FilterNone(RouteOf(m.id), rows[1..]);
    } else {
      assert m in orphans[1..];
      OneOrphanRow(orphans[1..], m);
      var i :| 0 <= i < |orphans[1..]| && orphans[1..][i] == m;
      assert orphans[0].id != orphans[i + 1].id;
    }
  }

  lemma LinkOfConfig(l: Legacy, id: Id)
    ensures (exists link :: link in Migrated(l).links && link.policyId == id) <==> IsConfig(l.configs, id)
  {
    var links := MapSeq(LinkFor(), l.configs);
    if c :| c in l.configs && c.id == id {
      var i :| 0 <= i < |l.configs| && l.configs[i] == c;
      assert links[i] in links && links[i].policyId == id;
    }
    if link :| link in links && link.policyId == id {
      var i :| 0 <= i < |links| && links[i] == link;
      assert l.configs[i] in l.configs;
    }
  }

  lemma OrphanRoutes(l: Legacy, m: MappingRow)
    requires MappingIdsDiffer(l.mappings) && KeyRoutesOk(l)
    requires m in Orphans(l) && !IsConfig(l.configs, m.id)
    ensures NewRoutes(Migrated(l), m.id) == [OrphanRoute()(m)]
  {
    OrphanIdsDiffer(l.routes, l.mappings);
    OneOrphanRow(Orphans(l), m);
    NoRoutesWithoutConfig(l, m.id);
    NewRoutesAre(l, m.id);
    OnlyOne(OrphanRoute()(m));
  }

  /** A mapping becomes exactly one single-route policy of its own if and only if no route
      refers to it and no config has its id. */
  lemma OrphanGetsOwnPolicyIff(l: Legacy, core: Core, m: MappingRow)
    requires LegacyValid(l, core) && m in l.mappings
    ensures OwnPolicy(Migrated(l), m) <==>
              (forall r :: r in l.routes ==> r.mappingId != m.id) && (forall c :: c in l.configs ==> c.id != m.id)
  {
    LinkOfConfig(l, m.id);
    PoliciesAreExactly(l, core);
    OrphansAreUnreferenced(l);
    if Unreferenced(l, m) && !IsConfig(l.configs, m.id) {
      OrphanRoutes(l, m);
    }
    if other :| Unreferenced(l, other) && other.id == m.id {
      SameId(l.mappings, other, m);
    }
  }

  lemma SameId(mappings: seq<MappingRow>, a: MappingRow, b: MappingRow)
    requires MappingIdsDiffer(mappings) && a in mappings && b in mappings && a.id == b.id
    ensures a == b
  {
    var i :| 0 <= i < |mappings| && mappings[i] == a;
    var j :| 0 <= j < |mappings| && mappings[j] == b;
  }

  lemma OnlyOne(row: RouteRow)
    ensures PutNewRoutes([], [row]) == [row]
  {
    assert [row][..0] == [];
    assert PutNewRoutes([], []) == [];
    assert !HasRoute([], row);
  }

  // ---- Constraints of the new tables ----

  function MigratedStore(l: Legacy, core: Core): Store {
    var t := Migrated(l);
    Store(core.models, core.providers, core.providerModels, core.keys, t.policies, t.routes, t.links, [],
          core.audit, core.auditKeys)
  }

  lemma TranslatedLinked(l: Legacy, core: Core, policies: map<Id, PolicyRow>)
    requires LegacyValid(l, core) && forall id :: IsConfig(l.configs, id) ==> id in policies
    ensures forall r :: r in TranslatedAll(l.mappings, l.routes) ==>
              RouteChecked(r) && RouteLinked(r, policies, core.providerModels)
  {
    var rows := TranslatedAll(l.mappings, l.routes);
    TranslatedRows(l, l.routes);
    forall r | r in rows ensures RouteChecked(r) && RouteLinked(r, policies, core.providerModels) {
      var i :| 0 <= i < |rows| && rows[i] == r;
      assert RowFor(l.mappings, l.routes[i], rows[i]) && l.routes[i] in l.routes;
    }
  }

  lemma OrphansLinked(l: Legacy, core: Core, policies: map<Id, PolicyRow>)
    requires MappingsOk(l.mappings, core) && forall m :: m in Orphans(l) ==> m.id in policies
    ensures forall r :: r in MapSeq(OrphanRoute(), Orphans(l)) ==>
              RouteChecked(r) && RouteLinked(r, policies, core.providerModels)
  {
    var rows := MapSeq(OrphanRoute(), Orphans(l));
    FilterMembers(IsOrphan(l.routes), l.mappings);
    forall r | r in rows ensures RouteChecked(r) && RouteLinked(r, policies, core.providerModels) {
      var i :| 0 <= i < |rows| && rows[i] == r;
      assert Orphans(l)[i] in Orphans(l);
    }
  }

  lemma MigratedRoutesOk(l: Legacy, core: Core)
    requires LegacyValid(l, core)
    ensures RoutesOk(MigratedStore(l, core))
  {
    var a, b := TranslatedAll(l.mappings, l.routes), MapSeq(OrphanRoute(), Orphans(l));
    PoliciesAreExactly(l, core);
    OrphansAreUnreferenced(l);
    TranslatedLinked(l, core, Migrated(l).policies);
    OrphansLinked(l, core, Migrated(l).policies);
    PutBothOk(a, b);
  }

  lemma PutBothOk(a: seq<RouteRow>, b: seq<RouteRow>)
    ensures var rows := PutNewRoutes(PutNewRoutes([], a), b);
            RoutesUnique(rows) && forall r :: r in rows ==> r in a || r in b
  {
    PutNewKeepsUnique([], a);
    PutNewKeepsUnique(PutNewRoutes([], a), b);
    PutNewMembers([], a);
    PutNewMembers(PutNewRoutes([], a), b);
  }

  lemma LinksOfConfigs(configs: seq<ConfigRow>, core: Core, policies: map<Id, PolicyRow>)
    requires ConfigsOk(configs, core) && forall id :: IsConfig(configs, id) ==> id in policies
    ensures LinksUnique(MapSeq(LinkFor(), configs))
    ensures forall link :: link in MapSeq(LinkFor(), configs) ==> link.keyId in core.keys && link.policyId in policies
  {
    var links := MapSeq(LinkFor(), configs);
    forall link | link in links ensures link.keyId in core.keys && link.policyId in policies {
      var i :| 0 <= i < |links| && links[i] == link;
      assert configs[i] in configs;
    }
  }

  lemma MigratedLinksOk(l: Legacy, core: Core)
    requires LegacyValid(l, core)
    ensures LinksOk(MigratedStore(l, core))
  {
    PoliciesAreExactly(l, core);
    LinksOfConfigs(l.configs, core, Migrated(l).policies);
  }

  lemma OrphanModels(l: Legacy, core: Core, m: MappingRow)
    requires MappingsOk(l.mappings, core) && m in Orphans(l)
    ensures m.modelId in core.models
  {
    FilterMembers(IsOrphan(l.routes), l.mappings);
  }

  lemma MigratedPoliciesOk(l: Legacy, core: Core)
    requires LegacyValid(l, core)
    ensures PoliciesOk(MigratedStore(l, core))
  {
    var policies := Migrated(l).policies;
    PoliciesAreExactly(l, core);
    forall id | id in policies ensures policies[id].modelId in core.models {
      if IsConfig(l.configs, id) {
        var c :| c in l.configs && c.id == id;
        assert policies[id].modelId == c.modelId;
      } else {
        OrphansAreUnreferenced(l);
        var m :| m in Orphans(l) && m.id == id;
        OrphanModels(l, core, m);
      }
    }
  }

  /** No INSERT of the migration violates a constraint: all foreign keys, primary keys
      and checks of the new tables hold afterwards. */
  lemma MigratedStoreIsValid(l: Legacy, core: Core)
    requires LegacyValid(l, core) && CoreValid(core)
    ensures Valid(MigratedStore(l, core))
  {
    MigratedRoutesOk(l, core);
    MigratedLinksOk(l, core);
    MigratedPoliciesOk(l, core);
    var s := MigratedStore(l, core);
    var c := Store(core.models, core.providers, core.providerModels, core.keys,
                map[], [], [], [], core.audit, core.auditKeys);
    forall id | id in s.audit ensures AuditRowLinked(s.audit[id], s) {
      assert AuditRowLinked(c.audit[id], c);
    }
  }
}
