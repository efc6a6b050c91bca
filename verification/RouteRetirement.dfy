/** A policy, provider, provider model or route that is disabled or deleted, and what
    the admin operations do with it afterwards. */
module RouteRetirement {
  import opened Wrappers
  import opened Collections
  import opened Schema
  import opened Statements
  import opened PolicyWrites
  import opened AdminOps
  import opened CacheLoader
  import opened Integrity

  /** What a route needs to be served. */
  datatype Part =
    | Policy(policyId: Id)
    | Provider(providerId: Id)
    | ProviderModel(providerModelId: Id)
    | Route(routePolicyId: Id, routeProviderModelId: Id)

  /** Disabled or not there. */
  ghost predicate Off(s: Store, part: Part) {
    match part
    case Policy(id) => id in s.policies ==> !s.policies[id].enabled
    case Provider(id) => id !in s.providers
    case ProviderModel(id) => id !in s.providerModels
    case Route(id, pm) => forall r :: r in s.routes && r.policyId == id && r.providerModelId == pm ==> !r.enabled
  }

  predicate Needs(s: Store, r: RouteRow, part: Part) {
    match part
    case Policy(id) => r.policyId == id
    case Provider(id) => r.providerModelId in s.providerModels && s.providerModels[r.providerModelId].providerId == id
    case ProviderModel(id) => r.providerModelId == id
    case Route(id, pm) => r.policyId == id && r.providerModelId == pm
  }

  lemma OffIsNotServed(s: Store, r: RouteRow, part: Part)
    requires Off(s, part) && r in s.routes && Needs(s, r, part)
    ensures forall model :: !ServesModel(s, r, model)
  {
  }

  predicate SwitchesOn(routes: seq<RouteRequest>, pm: Id) {
    exists r :: r in routes && r.providerModelId == pm && r.enabled
  }

  /** The operation may bring the part back. */
  predicate Restores(op: Op, part: Part) {
    match part
    case Policy(id) =>
      || (op.CreateMappingPolicy? && op.id == id)
      || (op.UpdateMappingPolicy? && op.id == id && op.update.enabled == Some(true))
    case Provider(id) => op.CreateProvider? && op.id == id
    case ProviderModel(id) => op.CreateProviderModel? && op.id == id
    case Route(id, pm) =>
      || (op.CreateMappingPolicy? && op.id == id && SwitchesOn(op.create.routes, pm))
      || (op.UpdateMappingPolicy? && op.id == id && op.update.routes.Some? && SwitchesOn(op.update.routes.value, pm))
  }

  /** Disabling or deleting the part, or what it hangs on. */
  predicate Retires(s: Store, op: Op, part: Part) {
    match part
    case Policy(id) =>
      || (op.DeleteMappingPolicy? && op.id == id)
      || (op.DeleteModel? && id in s.policies && s.policies[id].modelId == op.id)
      || (op.UpdateMappingPolicy? && op.id == id && op.update.enabled == Some(false))
    case Provider(id) => op.DeleteProvider? && op.id == id
    case ProviderModel(id) =>
      || (op.DeleteProviderModel? && op.id == id)
      || (op.DeleteProvider? && id in s.providerModels && s.providerModels[id].providerId == op.id)
    case Route(id, pm) =>
      op.UpdateMappingPolicy? && op.id == id && op.update.routes.Some? && !SwitchesOn(op.update.routes.value, pm)
  }

  // ---- What the policy writes leave alone ----

  /** A row of the policy that the request put there. */
  predicate Requested(r: RouteRow, id: Id, routes: seq<RouteRequest>) {
    r.policyId == id && exists q :: q in routes && q.providerModelId == r.providerModelId && q.enabled == r.enabled
  }

  lemma {:induction false} RulesTouchRules(s: Store, id: Id, rules: seq<RuleRequest>, now: nat)
    ensures var done := UpsertRules(s, id, rules, now); done.Ok? ==> done.value == s.(rules := done.value.rules)
  {
    if rules != [] {
      RulesTouchRules(s, id, rules[..|rules| - 1], now);
    }
  }

  lemma {:induction false} RoutesTouchRoutes(s: Store, id: Id, routes: seq<RouteRequest>, now: nat)
    ensures var done := UpsertRoutes(s, id, routes, now);
            done.Ok? ==>
              && done.value == s.(routes := done.value.routes)
              && forall r :: r in done.value.routes ==> r in s.routes || Requested(r, id, routes)
  {
    if routes != [] {
      var m := |routes| - 1;
      RoutesTouchRoutes(s, id, routes[..m], now);
      if UpsertRoutes(s, id, routes, now).Ok? {
        var tx := UpsertRoutes(s, id, routes[..m], now).value;
        PutRouteMembers(tx.routes, RouteRowFor(id, routes[m], now));
        assert routes == routes[..m] + [routes[m]];
        forall r | r in UpsertRoutes(s, id, routes, now).value.routes
          ensures r in s.routes || Requested(r, id, routes)
        {
          assert r in tx.routes || Requested(r, id, routes);
        }
      }
    }
  }

  /** Whatever an operation does to policies, no provider or provider model comes of it,
      and no route but those it asks for. */
  lemma PolicyWriteFrame(s: Store, op: Op)
    requires op.CreateMappingPolicy? || op.UpdateMappingPolicy?
    ensures var after := Step(s, op);
            && after.providers == s.providers && after.providerModels == s.providerModels
            && (forall id :: id in after.policies && id != op.id ==>
                  id in s.policies && after.policies[id] == s.policies[id])
            && forall r :: r in after.routes ==>
                 r in s.routes
                 || (op.CreateMappingPolicy? && Requested(r, op.id, op.create.routes))
                 || (op.UpdateMappingPolicy? && op.update.routes.Some? && Requested(r, op.id, op.update.routes.value))
  {
    if op.CreateMappingPolicy? {
      CreateFrame(s, op.id, op.create, op.now);
    } else {
      UpdateFrame(s, op.id, op.update, op.now);
    }
  }

  lemma CreateFrame(s: Store, id: Id, create: CreateRequest, now: nat)
    ensures var done := CreatePolicy(s, id, create, now);
            done.Ok? ==>
              && done.value.providers == s.providers && done.value.providerModels == s.providerModels
              && done.value.policies
                 == s.policies[id := PolicyRow(create.modelId, create.strategy, create.enabled, now)]
              && forall r :: r in done.value.routes ==> r in s.routes || Requested(r, id, create.routes)
  {
    var first := InsertPolicy(s, id, PolicyRow(create.modelId, create.strategy, create.enabled, now));
    if first.Ok? {
      RulesTouchRules(first.value, id, create.rules, now);
      var ruled := UpsertRules(first.value, id, create.rules, now);
      if ruled.Ok? {
        RoutesTouchRoutes(ruled.value, id, create.routes, now);
      }
    }
  }

  lemma UpdateFrame(s: Store, id: Id, update: UpdateRequest, now: nat)
    ensures var done := WritePolicyUpdate(s, id, update, now);
            done.Ok? ==>
              && done.value.providers == s.providers && done.value.providerModels == s.providerModels
              && done.value.policies == UpdatePolicy(s, id, update.strategy, update.enabled).policies
              && (update.routes.None? ==> done.value.routes == s.routes)
              && (update.routes.Some? ==>
                    forall r :: r in done.value.routes ==>
                      (r in s.routes && r.policyId != id) || Requested(r, id, update.routes.value))
  {
    UpdateReplacesExactly(s, id, update, now);
    FilterMembers(RouteNotOf(id), s.routes);
    if update.routes.Some? {
      forall r | r in RouteRows(id, update.routes.value, now) ensures Requested(r, id, update.routes.value) {
        var i :| 0 <= i < |RouteRows(id, update.routes.value, now)| && RouteRows(id, update.routes.value, now)[i] == r;
        assert update.routes.value[i] in update.routes.value;
      }
    }
  }

  /** Every other operation only takes policies and routes away. */
  lemma OthersOnlyTakeAway(s: Store, op: Op)
    requires !op.CreateMappingPolicy? && !op.UpdateMappingPolicy?
    ensures var after := Step(s, op);
            && (forall id :: id in after.policies ==> id in s.policies && after.policies[id] == s.policies[id])
            && (forall r :: r in after.routes ==> r in s.routes)
            && (forall id :: id in after.providers && !(op.CreateProvider? && op.id == id) ==> id in s.providers)
            && (forall id :: id in after.providerModels && !(op.CreateProviderModel? && op.id == id) ==>
                  id in s.providerModels)
  {
    if IsDelete(op) {
      assert Perform(s, op) == Delete(s, DoomedBy(op));
      FilterMembers(RouteSurvives(Cascaded(s, DoomedBy(op))), s.routes);
    } else {
      EntityOpFrame(s, op);
    }
  }

  lemma EntityOpFrame(s: Store, op: Op)
    requires !IsDelete(op) && !op.CreateMappingPolicy? && !op.UpdateMappingPolicy?
    ensures Perform(s, op).Ok? ==>
              var after := Perform(s, op).value;
              && after.policies == s.policies && after.routes == s.routes
              && (forall id :: id in after.providers && !(op.CreateProvider? && op.id == id) ==> id in s.providers)
              && (forall id :: id in after.providerModels && !(op.CreateProviderModel? && op.id == id) ==>
                    id in s.providerModels)
  {
  }

  // ---- Off, and off from then on ----

  /** Disabling and deleting turn the part off. */
  lemma RetiringTurnsOff(s: Store, op: Op, part: Part)
    requires Perform(s, op).Ok? && Retires(s, op, part)
    ensures Off(Step(s, op), part)
  {
    if op.UpdateMappingPolicy? {
      UpdateFrame(s, op.id, op.update, op.now);
    } else {
      assert IsDelete(op) && Perform(s, op) == Delete(s, DoomedBy(op));
    }
  }

  /** It stays off until an operation restores it. */
  lemma StaysOff(s: Store, op: Op, part: Part)
    requires Off(s, part) && !Restores(op, part)
    ensures Off(Step(s, op), part)
  {
    if op.CreateMappingPolicy? || op.UpdateMappingPolicy? {
      PolicyWriteFrame(s, op);
      if op.UpdateMappingPolicy? {
        UpdateFrame(s, op.id, op.update, op.now);
      }
    } else {
      OthersOnlyTakeAway(s, op);
    }
  }

  predicate NeverRestored(ops: seq<Op>, part: Part, v: nat) {
    forall j :: v <= j < |ops| ==> !Restores(ops[j], part)
  }

  lemma OffOneStep(history: seq<Store>, ops: seq<Op>, part: Part, j: nat)
    requires MadeBy(history, ops) && j < |ops|
    requires Off(history[j], part) && !Restores(ops[j], part)
    ensures Off(history[j + 1], part)
  {
    StaysOff(history[j], ops[j], part);
  }

  lemma {:induction false} OffFromThenOn(history: seq<Store>, ops: seq<Op>, part: Part, v: nat, i: nat)
    requires MadeBy(history, ops) && v <= i < |history|
    requires Off(history[v], part) && NeverRestored(ops, part, v)
    ensures Off(history[i], part)
  {
    if i > v {
      OffFromThenOn(history, ops, part, v, i - 1);
      OffOneStep(history, ops, part, i - 1);
    }
  }
}
