/** Reading policies back: the single-policy queries, the bulk queries with their
    grouping loops, and the listings built on them. */
module Loaders {
  import opened Wrappers
  import opened MachineInts
  import opened Collections
  import opened RouteSelection
  import opened Schema
  import opened Statements

  datatype JoinedRoute = JoinedRoute(
    policyId: Id, providerModelId: Id, providerModelName: string, providerId: Id, providerName: string,
    weight: i32, priority: i32, enabled: bool, createdAt: nat)

  datatype PolicyRoute = PolicyRoute(
    providerModelId: Id, providerModelName: string, providerId: Id, providerName: string,
    weight: u32, priority: u32, enabled: bool)

  datatype LimitRule = LimitRule(limitType: LimitType, value: i32)

  datatype MappingPolicy = MappingPolicy(
    id: Id, modelId: Id, modelName: string, strategy: Strategy, rules: seq<LimitRule>,
    enabled: bool, routes: seq<PolicyRoute>, createdAt: nat)

  // ---- Queries ----

  /** The inner joins from routes to provider models and providers. */
  function JoinRoutes(s: Store, rows: seq<RouteRow>): seq<JoinedRoute> {
    if rows == [] then []
    else
      var r := rows[0];
      (if r.providerModelId in s.providerModels && s.providerModels[r.providerModelId].providerId in s.providers
       then [JoinRoute(s, r)] else [])
      + JoinRoutes(s, rows[1..])
  }

  function JoinRoute(s: Store, r: RouteRow): JoinedRoute
    requires r.providerModelId in s.providerModels && s.providerModels[r.providerModelId].providerId in s.providers
  {
    var pm := s.providerModels[r.providerModelId];
    JoinedRoute(r.policyId, r.providerModelId, pm.name, pm.providerId, s.providers[pm.providerId].name,
                r.weight, r.priority, r.enabled, r.createdAt)
  }

  /** ORDER BY priority ASC, created_at ASC */
  function RouteOrder(): (JoinedRoute, JoinedRoute) -> bool {
    (a: JoinedRoute, b: JoinedRoute) =>
      a.priority < b.priority || (a.priority == b.priority && a.createdAt <= b.createdAt)
  }

  /** ORDER BY created_at ASC */
  function RuleOrder(): (RuleRow, RuleRow) -> bool {
    (a: RuleRow, b: RuleRow) => a.createdAt <= b.createdAt
  }

  function RouteIn(ids: seq<Id>): RouteRow -> bool { (r: RouteRow) => r.policyId in ids }
  function RuleIn(ids: seq<Id>): RuleRow -> bool { (r: RuleRow) => r.policyId in ids }
  function JoinedPolicy(): JoinedRoute -> Id { (r: JoinedRoute) => r.policyId }
  function RulePolicy(): RuleRow -> Id { (r: RuleRow) => r.policyId }

  function QueryRoutes(s: Store, id: Id): seq<JoinedRoute> {
    Sort(RouteOrder(), JoinRoutes(s, Filter(RouteOf(id), s.routes)))
  }

  function QueryRoutesBulk(s: Store, ids: seq<Id>): seq<JoinedRoute> {
    Sort(RouteOrder(), JoinRoutes(s, Filter(RouteIn(ids), s.routes)))
  }

  function QueryRules(s: Store, id: Id): seq<RuleRow> {
    Sort(RuleOrder(), Filter(HasKey(RulePolicy(), id), s.rules))
  }

  function QueryRulesBulk(s: Store, ids: seq<Id>): seq<RuleRow> {
    Sort(RuleOrder(), Filter(RuleIn(ids), s.rules))
  }

  function RouteFromRow(): JoinedRoute -> PolicyRoute {
    (r: JoinedRoute) =>
      PolicyRoute(r.providerModelId, r.providerModelName, r.providerId, r.providerName,
                  I32ToU32(r.weight), I32ToU32(r.priority), r.enabled)
  }

  function RuleFromRow(): RuleRow -> LimitRule {
    (r: RuleRow) => LimitRule(r.limitType, r.value)
  }

  function LoadRoutes(s: Store, id: Id): seq<PolicyRoute> {
    MapSeq(RouteFromRow(), QueryRoutes(s, id))
  }

  function LoadRules(s: Store, id: Id): seq<LimitRule> {
    MapSeq(RuleFromRow(), QueryRules(s, id))
  }

  function GetMappingPolicy(s: Store, id: Id): Result<MappingPolicy, DbError> {
    if id in s.policies && s.policies[id].modelId in s.models then
      var p := s.policies[id];
      Ok(MappingPolicy(id, p.modelId, s.models[p.modelId].name, p.strategy, LoadRules(s, id),
                       p.enabled, LoadRoutes(s, id), p.createdAt))
    else Err(RowNotFound)
  }

  // ---- Bulk queries agree with single queries ----

  lemma OrdersAreTotal()
    ensures TotalPreorder(RouteOrder()) && TotalPreorder(RuleOrder())
  {
  }

  lemma {:induction false} JoinFiltered(s: Store, rows: seq<RouteRow>, id: Id)
    ensures Filter(HasKey(JoinedPolicy(), id), JoinRoutes(s, rows)) == JoinRoutes(s, Filter(RouteOf(id), rows))
  {
    if rows != [] {
      JoinFiltered(s, rows[1..], id);
      var r := rows[0];
      var joined :=
        if r.providerModelId in s.providerModels && s.providerModels[r.providerModelId].providerId in s.providers
                    then [JoinRoute(s, r)] else [];
      FilterAppend(HasKey(JoinedPolicy(), id), joined, JoinRoutes(s, rows[1..]));
      assert Filter(HasKey(JoinedPolicy(), id), joined) == if r.policyId == id then joined else [];
      var rest := Filter(RouteOf(id), rows[1..]);
      assert ([r] + rest)[1..] == rest;
      FilterCons(RouteOf(id), r, rows[1..]);
    }
  }

  lemma FilterListed(s: Store, ids: seq<Id>, id: Id)
    ensures Filter(RouteOf(id), Filter(RouteIn(ids), s.routes))
            == if id in ids then Filter(RouteOf(id), s.routes) else []
    ensures Filter(HasKey(RulePolicy(), id), Filter(RuleIn(ids), s.rules))
            == if id in ids then Filter(HasKey(RulePolicy(), id), s.rules) else []
  {
    if id in ids {
      FilterNested(RouteOf(id), RouteIn(ids), RouteOf(id), s.routes);
      FilterNested(HasKey(RulePolicy(), id), RuleIn(ids), HasKey(RulePolicy(), id), s.rules);
    } else {
      FilterMembers(RouteIn(ids), s.routes);
      FilterMembers(RuleIn(ids), s.rules);
      FilterNone(RouteOf(id), Filter(RouteIn(ids), s.routes));
      FilterNone(HasKey(RulePolicy(), id), Filter(RuleIn(ids), s.rules));
    }
  }

  /** The rows the bulk queries return for one id, in order, are the rows the single
      queries return, whether ids repeat or not; unlisted ids get none. */
  lemma BulkAgreesWithSingle(s: Store, ids: seq<Id>, id: Id)
    ensures Filter(HasKey(JoinedPolicy(), id), QueryRoutesBulk(s, ids)) == if id in ids then QueryRoutes(s, id) else []
    ensures Filter(HasKey(RulePolicy(), id), QueryRulesBulk(s, ids)) == if id in ids then QueryRules(s, id) else []
  {
    OrdersAreTotal();
    FilterListed(s, ids, id);
    FilterSort(RouteOrder(), HasKey(JoinedPolicy(), id), JoinRoutes(s, Filter(RouteIn(ids), s.routes)));
    JoinFiltered(s, Filter(RouteIn(ids), s.routes), id);
    FilterSort(RuleOrder(), HasKey(RulePolicy(), id), Filter(RuleIn(ids), s.rules));
  }

  /** For any id list the group of an id is exactly what loading that id alone
      returns; ids without rows are absent. */
  method LoadRoutesBulk(s: Store, ids: seq<Id>) returns (byPolicy: map<Id, seq<PolicyRoute>>)
    ensures forall id :: GroupOf(byPolicy, id) == if id in ids then LoadRoutes(s, id) else []
    ensures forall id :: id in byPolicy <==> id in ids && LoadRoutes(s, id) != []
  {
    if ids == [] {
      return map[];
    }
    byPolicy := map[];
    var rows := QueryRoutesBulk(s, ids);
    for i := 0 to |rows|
      invariant Grouped(byPolicy, RouteFromRow(), JoinedPolicy(), rows[..i])
    {
      PushGrouped(byPolicy, RouteFromRow(), JoinedPolicy(), rows, i);
      byPolicy := Pushed(byPolicy, rows[i].policyId, RouteFromRow()(rows[i]));
    }
    assert rows[..|rows|] == rows;
    forall id
      ensures GroupOf(byPolicy, id) == if id in ids then LoadRoutes(s, id) else []
      ensures id in byPolicy <==> id in ids && LoadRoutes(s, id) != []
    {
      assert GroupIs(byPolicy, RouteFromRow(), JoinedPolicy(), rows, id);
      BulkAgreesWithSingle(s, ids, id);
    }
  }

  method LoadRulesBulk(s: Store, ids: seq<Id>) returns (byPolicy: map<Id, seq<LimitRule>>)
    ensures forall id :: GroupOf(byPolicy, id) == if id in ids then LoadRules(s, id) else []
    ensures forall id :: id in byPolicy <==> id in ids && LoadRules(s, id) != []
  {
    if ids == [] {
      return map[];
    }
    byPolicy := map[];
    var rows := QueryRulesBulk(s, ids);
    for i := 0 to |rows|
      invariant Grouped(byPolicy, RuleFromRow(), RulePolicy(), rows[..i])
    {
      PushGrouped(byPolicy, RuleFromRow(), RulePolicy(), rows, i);
      byPolicy := Pushed(byPolicy, rows[i].policyId, RuleFromRow()(rows[i]));
    }
    assert rows[..|rows|] == rows;
    forall id
      ensures GroupOf(byPolicy, id) == if id in ids then LoadRules(s, id) else []
      ensures id in byPolicy <==> id in ids && LoadRules(s, id) != []
    {
      assert GroupIs(byPolicy, RuleFromRow(), RulePolicy(), rows, id);
      BulkAgreesWithSingle(s, ids, id);
    }
  }

  // ---- Listing policies ----

  /** The order in which an unordered query returns the rows of a table. */
  ghost predicate Enumerates<V>(order: seq<Id>, table: map<Id, V>) {
    NoRepeats(order) && forall id :: id in order <==> id in table
  }

  function ModelJoined(s: Store): Id -> bool {
    (id: Id) => id in s.policies && s.policies[id].modelId in s.models
  }

  function ListEntry(s: Store, id: Id, rules: map<Id, seq<LimitRule>>, routes: map<Id, seq<PolicyRoute>>): MappingPolicy
    requires ModelJoined(s)(id)
  {
    var p := s.policies[id];
    MappingPolicy(id, p.modelId, s.models[p.modelId].name, p.strategy, GroupOf(rules, id),
                  p.enabled, GroupOf(routes, id), p.createdAt)
  }

  /** Entry i of a listing is what getting the i-th joined policy returns. */
  ghost predicate ListsPolicies(s: Store, ids: seq<Id>, list: seq<MappingPolicy>) {
    |list| == |ids| && forall i :: 0 <= i < |ids| ==> GetMappingPolicy(s, ids[i]) == Ok(list[i])
  }

  lemma NoPolicyLost(s: Store, order: seq<Id>)
    requires Valid(s) && Enumerates(order, s.policies)
    ensures Filter(ModelJoined(s), order) == order
  {
    FilterAll(ModelJoined(s), order);
  }

  method ListEntries(s: Store, ids: seq<Id>, rules: map<Id, seq<LimitRule>>, routes: map<Id, seq<PolicyRoute>>)
    returns (list: seq<MappingPolicy>)
    requires forall id :: id in ids ==> ModelJoined(s)(id)
    requires forall id :: id in ids ==>
        GroupOf(rules, id) == LoadRules(s, id) && GroupOf(routes, id) == LoadRoutes(s, id)
    ensures ListsPolicies(s, ids, list)
  {
    list := [];
    for i := 0 to |ids|
      invariant |list| == i
      invariant forall j :: 0 <= j < i ==> GetMappingPolicy(s, ids[j]) == Ok(list[j])
    {
      assert ids[i] in ids;
      list := list + [ListEntry(s, ids[i], rules, routes)];
    }
  }

  /** Listing agrees with getting each policy, and in a valid store loses none. */
  method ListMappingPolicies(s: Store, order: seq<Id>) returns (list: seq<MappingPolicy>)
    requires Enumerates(order, s.policies)
    ensures ListsPolicies(s, Filter(ModelJoined(s), order), list)
    ensures Valid(s) ==> ListsPolicies(s, order, list)
  {
    var ids := Filter(ModelJoined(s), order);
    FilterMembers(ModelJoined(s), order);
    var routesByPolicy := LoadRoutesBulk(s, ids);
    var rulesByPolicy := LoadRulesBulk(s, ids);
    list := ListEntries(s, ids, rulesByPolicy, routesByPolicy);
    if Valid(s) {
      NoPolicyLost(s, order);
    }
  }

  // ---- No row is lost to an inner join ----

  lemma {:induction false} JoinLosesNothing(s: Store, rows: seq<RouteRow>)
    requires Valid(s) && forall r :: r in rows ==> r in s.routes
    ensures |JoinRoutes(s, rows)| == |rows|
    ensures forall i :: 0 <= i < |rows| ==>
              rows[i].providerModelId in s.providerModels
              && s.providerModels[rows[i].providerModelId].providerId in s.providers
              && JoinRoutes(s, rows)[i] == JoinRoute(s, rows[i])
  {
    if rows != [] {
      assert rows[0] in rows;
      JoinLosesNothing(s, rows[1..]);
    }
  }

  /** In a valid store reading a policy returns every one of its routes and rules. */
  lemma ReadsEveryRow(s: Store, id: Id)
    requires Valid(s)
    ensures |LoadRoutes(s, id)| == |Filter(RouteOf(id), s.routes)|
    ensures |LoadRules(s, id)| == |Filter(HasKey(RulePolicy(), id), s.rules)|
    ensures id in s.policies ==> GetMappingPolicy(s, id).Ok?
  {
    FilterMembers(RouteOf(id), s.routes);
    JoinLosesNothing(s, Filter(RouteOf(id), s.routes));
    SortKeepsRows(RouteOrder(), JoinRoutes(s, Filter(RouteOf(id), s.routes)));
    SortKeepsRows(RuleOrder(), Filter(HasKey(RulePolicy(), id), s.rules));
    SameSize(QueryRoutes(s, id), JoinRoutes(s, Filter(RouteOf(id), s.routes)));
    SameSize(QueryRules(s, id), Filter(HasKey(RulePolicy(), id), s.rules));
  }

  // ---- A policy read back, said of the tables alone ----

  /** The route as read: names from the joined rows, numbers never below zero. */
  predicate RouteReads(s: Store, r: RouteRow, read: PolicyRoute) {
    && read.providerModelId == r.providerModelId && read.enabled == r.enabled
    && read.weight == (if r.weight < 0 then 0 else r.weight)
    && read.priority == (if r.priority < 0 then 0 else r.priority)
    && r.providerModelId in s.providerModels
    && var pm := s.providerModels[r.providerModelId];
       && read.providerModelName == pm.name && read.providerId == pm.providerId
       && pm.providerId in s.providers && read.providerName == s.providers[pm.providerId].name
  }

  /** All routes of the policy, each once, by priority and then age. */
  ghost predicate RoutesRead(s: Store, id: Id, rows: seq<RouteRow>, read: seq<PolicyRoute>) {
    && (forall r :: multiset(rows)[r] == if r.policyId == id then multiset(s.routes)[r] else 0)
    && |read| == |rows|
    && (forall i :: 0 <= i < |rows| ==> RouteReads(s, rows[i], read[i]))
    && forall i, j :: 0 <= i < j < |rows| ==>
         rows[i].priority < rows[j].priority
         || (rows[i].priority == rows[j].priority && rows[i].createdAt <= rows[j].createdAt)
  }

  /** All rules of the policy, each once, oldest first. */
  ghost predicate RulesRead(s: Store, id: Id, rows: seq<RuleRow>, read: seq<LimitRule>) {
    && (forall r :: multiset(rows)[r] == if r.policyId == id then multiset(s.rules)[r] else 0)
    && |read| == |rows|
    && (forall i :: 0 <= i < |rows| ==> read[i].limitType == rows[i].limitType && read[i].value == rows[i].value)
    && forall i, j :: 0 <= i < j < |rows| ==> rows[i].createdAt <= rows[j].createdAt
  }

  /** The policy's own columns. */
  predicate PolicyReads(s: Store, id: Id, read: MappingPolicy) {
    && id in s.policies && s.policies[id].modelId in s.models
    && read.id == id && read.modelId == s.policies[id].modelId
    && read.modelName == s.models[s.policies[id].modelId].name
    && read.strategy == s.policies[id].strategy && read.enabled == s.policies[id].enabled
    && read.createdAt == s.policies[id].createdAt
  }

  predicate JoinsTo(s: Store, r: RouteRow, j: JoinedRoute) {
    && r.providerModelId in s.providerModels && s.providerModels[r.providerModelId].providerId in s.providers
    && j == JoinRoute(s, r)
  }

  lemma RoutesQueried(s: Store, id: Id) returns (rows: seq<RouteRow>)
    requires Valid(s)
    ensures multiset(rows) == multiset(Filter(RouteOf(id), s.routes)) && |rows| == |QueryRoutes(s, id)|
    ensures forall i :: 0 <= i < |rows| ==> JoinsTo(s, rows[i], QueryRoutes(s, id)[i])
  {
    var mine := Filter(RouteOf(id), s.routes);
    FilterMembers(RouteOf(id), s.routes);
    JoinLosesNothing(s, mine);
    var joined, sorted := JoinRoutes(s, mine), QueryRoutes(s, id);
    SortKeepsRows(RouteOrder(), joined);
    rows := Reordered(sorted, joined, mine);
    forall i | 0 <= i < |rows| ensures JoinsTo(s, rows[i], sorted[i]) {
      PairJoins(s, mine, joined, rows[i], sorted[i]);
    }
  }

  lemma PairJoins(s: Store, mine: seq<RouteRow>, joined: seq<JoinedRoute>, r: RouteRow, j: JoinedRoute)
    requires |joined| == |mine| && Paired(j, r, joined, mine)
    requires forall k :: 0 <= k < |mine| ==> JoinsTo(s, mine[k], joined[k])
    ensures JoinsTo(s, r, j)
  {
  }

  lemma QueriedInOrder(s: Store, id: Id)
    ensures Sorted(RouteOrder(), QueryRoutes(s, id)) && Sorted(RuleOrder(), QueryRules(s, id))
  {
    OrdersAreTotal();
    SortIsSorted(RouteOrder(), JoinRoutes(s, Filter(RouteOf(id), s.routes)));
    SortIsSorted(RuleOrder(), Filter(HasKey(RulePolicy(), id), s.rules));
  }

  lemma InOrderJoined(s: Store, rows: seq<RouteRow>, sorted: seq<JoinedRoute>, i: nat, j: nat)
    requires |sorted| == |rows| && i < j < |rows| && Sorted(RouteOrder(), sorted)
    requires JoinsTo(s, rows[i], sorted[i]) && JoinsTo(s, rows[j], sorted[j])
    ensures rows[i].priority < rows[j].priority
         || (rows[i].priority == rows[j].priority && rows[i].createdAt <= rows[j].createdAt)
  {
    assert RouteOrder()(sorted[i], sorted[j]);
  }

  lemma RoutesReadBack(s: Store, id: Id) returns (rows: seq<RouteRow>)
    requires Valid(s)
    ensures RoutesRead(s, id, rows, LoadRoutes(s, id))
  {
    rows := RoutesQueried(s, id);
    QueriedInOrder(s, id);
    forall i | 0 <= i < |rows| ensures RouteReads(s, rows[i], LoadRoutes(s, id)[i]) {
      assert JoinsTo(s, rows[i], QueryRoutes(s, id)[i]);
    }
    forall i, j | 0 <= i < j < |rows|
      ensures rows[i].priority < rows[j].priority
           || (rows[i].priority == rows[j].priority && rows[i].createdAt <= rows[j].createdAt)
    {
      InOrderJoined(s, rows, QueryRoutes(s, id), i, j);
    }
    forall r: RouteRow ensures multiset(rows)[r] == if r.policyId == id then multiset(s.routes)[r] else 0 {
      FilterCounts(RouteOf(id), s.routes, r);
    }
  }

  lemma RulesReadBack(s: Store, id: Id) returns (rows: seq<RuleRow>)
    ensures RulesRead(s, id, rows, LoadRules(s, id))
  {
    rows := QueryRules(s, id);
    var mine := Filter(HasKey(RulePolicy(), id), s.rules);
    SortKeepsRows(RuleOrder(), mine);
    QueriedInOrder(s, id);
    forall i, j | 0 <= i < j < |rows| ensures RuleOrder()(rows[i], rows[j]) {
    }
    forall r: RuleRow ensures multiset(rows)[r] == if r.policyId == id then multiset(s.rules)[r] else 0 {
      FilterCounts(HasKey(RulePolicy(), id), s.rules, r);
    }
  }

  /** In a valid store reading a policy tells its own row, every one of its routes by
      priority and age with the names of provider model and provider, and every one of
      its rules by age; no other policy's. */
  lemma PolicyReadsTables(s: Store, id: Id) returns (routes: seq<RouteRow>, rules: seq<RuleRow>)
    requires Valid(s) && id in s.policies
    ensures GetMappingPolicy(s, id).Ok?
    ensures var read := GetMappingPolicy(s, id).value;
            && PolicyReads(s, id, read)
            && RoutesRead(s, id, routes, read.routes) && RulesRead(s, id, rules, read.rules)
  {
    routes := RoutesReadBack(s, id);
    rules := RulesReadBack(s, id);
  }

  lemma SameSize<T>(xs: seq<T>, ys: seq<T>)
    requires multiset(xs) == multiset(ys)
    ensures |xs| == |ys|
  {
    assert |multiset(xs)| == |xs| && |multiset(ys)| == |ys|;
  }
}
