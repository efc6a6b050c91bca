/** Written policies read back through the queries. */
module PolicyReadBack {
  import opened Wrappers
  import opened Collections
  import opened Schema
  import opened Statements
  import opened PolicyWrites
  import opened Loaders

  /** A stored route is among the loaded routes of its policy. */
  lemma StoredRouteIsLoaded(s: Store, row: RouteRow)
    requires Valid(s) && row in s.routes
    ensures s.providerModels[row.providerModelId].providerId in s.providers
    ensures RouteFromRow()(JoinRoute(s, row)) in LoadRoutes(s, row.policyId)
  {
    var mine := Filter(RouteOf(row.policyId), s.routes);
    FilterMembers(RouteOf(row.policyId), s.routes);
    JoinLosesNothing(s, mine);
    var i :| 0 <= i < |mine| && mine[i] == row;
    SortedMember(JoinRoutes(s, mine), i);
    var loaded := QueryRoutes(s, row.policyId);
    var j :| 0 <= j < |loaded| && loaded[j] == JoinRoute(s, row);
    assert LoadRoutes(s, row.policyId)[j] == RouteFromRow()(JoinRoute(s, row));
  }

  lemma SortedMember(joined: seq<JoinedRoute>, i: nat)
    requires i < |joined|
    ensures joined[i] in Sort(RouteOrder(), joined)
  {
    SortKeepsRows(RouteOrder(), joined);
    assert joined[i] in multiset(joined);
  }

  /** After a create, the last entry requested for a provider model reads back with
      the very weight, priority and flag that were sent. */
  lemma CreatedRouteReadsBack(s: Store, id: Id, request: CreateRequest, now: nat, pm: Id)
    requires Valid(s) && CreatePolicy(s, id, request, now).Ok?
    requires LastRoute(request.routes, pm).Some?
    ensures var sent := LastRoute(request.routes, pm).value;
            exists r :: r in LoadRoutes(CreatePolicy(s, id, request, now).value, id)
              && r.providerModelId == pm && r.weight == sent.weight
              && r.priority == sent.priority && r.enabled == sent.enabled
  {
    var sent := LastRoute(request.routes, pm).value;
    var s' := CreatePolicy(s, id, request, now).value;
    CreateKeepsLast(s, id, request, now);
    CreatePolicyValid(s, id, request, now);
    assert RouteAgrees(StoredRoute(s'.routes, id, pm), None, Some(sent));
    StoredRouteHasKey(s'.routes, id, pm);
    var row := StoredRoute(s'.routes, id, pm).value;
    StoredRouteIsLoaded(s', row);
    var r := RouteFromRow()(JoinRoute(s', row));
    assert r in LoadRoutes(s', id) && r.providerModelId == pm && r.weight == sent.weight;
  }

  lemma {:induction false} StoredRouteHasKey(routes: seq<RouteRow>, id: Id, pm: Id)
    ensures StoredRoute(routes, id, pm).Some? ==>
              var row := StoredRoute(routes, id, pm).value;
              row in routes && row.policyId == id && row.providerModelId == pm
  {
    if routes != [] {
      StoredRouteHasKey(routes[1..], id, pm);
    }
  }

  /** Creating and then updating to duplicate-free lists reads back exactly like
      creating with those lists, but for the creation time of the policy. */
  lemma CreateThenUpdateReadsLikeCreate(s: Store, id: Id, request: CreateRequest, update: UpdateRequest, t0: nat,
                                        t1: nat)
    requires Valid(s)
    requires update.rules.Some? && update.routes.Some?
    requires CreatePolicy(s, id, request, t0).Ok?
    requires WritePolicyUpdate(CreatePolicy(s, id, request, t0).value, id, update, t1).Ok?
    ensures CreatePolicy(s, id, Merged(request, update), t1).Ok?
    ensures var stepwise :=
            GetMappingPolicy(WritePolicyUpdate(CreatePolicy(s, id, request, t0).value, id, update, t1).value, id);
            var direct := GetMappingPolicy(CreatePolicy(s, id, Merged(request, update), t1).value, id);
            && stepwise.Ok? && direct.Ok?
            && stepwise.value.(createdAt := t1) == direct.value
  {
    CreateThenUpdateIsCreate(s, id, request, update, t0, t1);
    CreateKeepsLast(s, id, Merged(request, update), t1);
    SamePolicy(s, WritePolicyUpdate(CreatePolicy(s, id, request, t0).value, id, update, t1).value,
               CreatePolicy(s, id, Merged(request, update), t1).value, id, Merged(request, update), t1);
  }

  lemma SamePolicy(s: Store, stepwise: Store, direct: Store, id: Id, request: CreateRequest, t1: nat)
    requires CreateAcceptable(s, id, request) && CreatesOnly(s, direct, id, request, t1)
    requires id in stepwise.policies
    requires stepwise.(policies := stepwise.policies[id := stepwise.policies[id].(createdAt := t1)]) == direct
    ensures GetMappingPolicy(stepwise, id).Ok? && GetMappingPolicy(direct, id).Ok?
    ensures GetMappingPolicy(stepwise, id).value.(createdAt := t1) == GetMappingPolicy(direct, id).value
  {
    SameReads(stepwise, direct, id);
    assert direct.policies[id] == stepwise.policies[id].(createdAt := t1);
  }

  /** Reading depends on the policy's row and on the other tables only. */
  lemma SameReads(a: Store, b: Store, id: Id)
    requires b == a.(policies := b.policies)
    ensures LoadRoutes(a, id) == LoadRoutes(b, id) && LoadRules(a, id) == LoadRules(b, id)
  {
    SameJoins(a, b, Filter(RouteOf(id), a.routes));
  }

  lemma {:induction false} SameJoins(a: Store, b: Store, rows: seq<RouteRow>)
    requires b == a.(policies := b.policies)
    ensures JoinRoutes(a, rows) == JoinRoutes(b, rows)
  {
    if rows != [] {
      SameJoins(a, b, rows[1..]);
    }
  }
}
