/** Creating and updating a mapping policy with its limit rules and routes, each in
    one transaction: a failing statement undoes the whole write. */
module PolicyWrites {
  import opened Wrappers
  import opened MachineInts
  import opened Collections
  import opened RouteSelection
  import opened Schema
  import opened Statements
  import opened Integrity

  datatype RuleRequest = RuleRequest(limitType: LimitType, value: i32)
  datatype RouteRequest = RouteRequest(providerModelId: Id, weight: u32, priority: u32, enabled: bool)

  datatype CreateRequest = CreateRequest(
    modelId: Id, strategy: Strategy, rules: seq<RuleRequest>, enabled: bool, routes: seq<RouteRequest>)

  datatype UpdateRequest = UpdateRequest(
    strategy: Option<Strategy>, rules: Option<seq<RuleRequest>>,
    enabled: Option<bool>, routes: Option<seq<RouteRequest>>)

  function RuleRowFor(id: Id, rule: RuleRequest, now: nat): RuleRow {
    RuleRow(id, rule.limitType, rule.value, now)
  }

  /** The u32 weight and priority are cast to i32 on the way into the table. */
  function RouteRowFor(id: Id, route: RouteRequest, now: nat): RouteRow {
    RouteRow(id, route.providerModelId, AsI32(route.weight), AsI32(route.priority), route.enabled, now)
  }

  function UpsertRules(s: Store, id: Id, rules: seq<RuleRequest>, now: nat): Outcome {
    if rules == [] then Ok(s)
    else match UpsertRules(s, id, rules[..|rules| - 1], now)
         case Err(e) => Err(e)
         case Ok(tx) => UpsertRule(tx, RuleRowFor(id, rules[|rules| - 1], now))
  }

  function UpsertRoutes(s: Store, id: Id, routes: seq<RouteRequest>, now: nat): Outcome {
    if routes == [] then Ok(s)
    else match UpsertRoutes(s, id, routes[..|routes| - 1], now)
         case Err(e) => Err(e)
         case Ok(tx) => UpsertRoute(tx, RouteRowFor(id, routes[|routes| - 1], now))
  }

  function InsertRules(s: Store, id: Id, rules: seq<RuleRequest>, now: nat): Outcome {
    if rules == [] then Ok(s)
    else match InsertRules(s, id, rules[..|rules| - 1], now)
         case Err(e) => Err(e)
         case Ok(tx) => InsertRule(tx, RuleRowFor(id, rules[|rules| - 1], now))
  }

  function InsertRoutes(s: Store, id: Id, routes: seq<RouteRequest>, now: nat): Outcome {
    if routes == [] then Ok(s)
    else match InsertRoutes(s, id, routes[..|routes| - 1], now)
         case Err(e) => Err(e)
         case Ok(tx) => InsertRoute(tx, RouteRowFor(id, routes[|routes| - 1], now))
  }

  function CreatePolicy(s: Store, id: Id, request: CreateRequest, now: nat): Outcome {
    match InsertPolicy(s, id, PolicyRow(request.modelId, request.strategy, request.enabled, now))
    case Err(e) => Err(e)
    case Ok(s1) =>
      match UpsertRules(s1, id, request.rules, now)
      case Err(e) => Err(e)
      case Ok(s2) => UpsertRoutes(s2, id, request.routes, now)
  }

  function ReplaceRules(s: Store, id: Id, rules: Option<seq<RuleRequest>>, now: nat): Outcome {
    if rules.None? then Ok(s) else InsertRules(DeleteRules(s, id), id, rules.value, now)
  }

  function ReplaceRoutes(s: Store, id: Id, routes: Option<seq<RouteRequest>>, now: nat): Outcome {
    if routes.None? then Ok(s) else InsertRoutes(DeleteRoutes(s, id), id, routes.value, now)
  }

  /** The transaction of an update; an unknown id updates no row. */
  function WritePolicyUpdate(s: Store, id: Id, request: UpdateRequest, now: nat): Outcome {
    match ReplaceRules(UpdatePolicy(s, id, request.strategy, request.enabled), id, request.rules, now)
    case Err(e) => Err(e)
    case Ok(s1) => ReplaceRoutes(s1, id, request.routes, now)
  }

  // ---- Constraints are kept ----

  lemma {:induction false} UpsertRulesValid(s: Store, id: Id, rules: seq<RuleRequest>, now: nat)
    requires Valid(s) && UpsertRules(s, id, rules, now).Ok?
    ensures Valid(UpsertRules(s, id, rules, now).value)
  {
    if rules != [] {
      UpsertRulesValid(s, id, rules[..|rules| - 1], now);
      UpsertRuleValid(UpsertRules(s, id, rules[..|rules| - 1], now).value, RuleRowFor(id, rules[|rules| - 1], now));
    }
  }

  lemma {:induction false} UpsertRoutesValid(s: Store, id: Id, routes: seq<RouteRequest>, now: nat)
    requires Valid(s) && UpsertRoutes(s, id, routes, now).Ok?
    ensures Valid(UpsertRoutes(s, id, routes, now).value)
  {
    if routes != [] {
      UpsertRoutesValid(s, id, routes[..|routes| - 1], now);
      UpsertRouteValid(UpsertRoutes(s, id, routes[..|routes| - 1], now).value,
                       RouteRowFor(id, routes[|routes| - 1], now));
    }
  }

  lemma {:induction false} InsertRulesValid(s: Store, id: Id, rules: seq<RuleRequest>, now: nat)
    requires Valid(s) && InsertRules(s, id, rules, now).Ok?
    ensures Valid(InsertRules(s, id, rules, now).value)
  {
    if rules != [] {
      InsertRulesValid(s, id, rules[..|rules| - 1], now);
      InsertRuleValid(InsertRules(s, id, rules[..|rules| - 1], now).value, RuleRowFor(id, rules[|rules| - 1], now));
    }
  }

  lemma {:induction false} InsertRoutesValid(s: Store, id: Id, routes: seq<RouteRequest>, now: nat)
    requires Valid(s) && InsertRoutes(s, id, routes, now).Ok?
    ensures Valid(InsertRoutes(s, id, routes, now).value)
  {
    if routes != [] {
      InsertRoutesValid(s, id, routes[..|routes| - 1], now);
      InsertRouteValid(InsertRoutes(s, id, routes[..|routes| - 1], now).value,
                       RouteRowFor(id, routes[|routes| - 1], now));
    }
  }

  lemma CreatePolicyValid(s: Store, id: Id, request: CreateRequest, now: nat)
    requires Valid(s) && CreatePolicy(s, id, request, now).Ok?
    ensures Valid(CreatePolicy(s, id, request, now).value)
  {
    var row := PolicyRow(request.modelId, request.strategy, request.enabled, now);
    InsertPolicyValid(s, id, row);
    var s1 := InsertPolicy(s, id, row).value;
    UpsertRulesValid(s1, id, request.rules, now);
    UpsertRoutesValid(UpsertRules(s1, id, request.rules, now).value, id, request.routes, now);
  }

  lemma WritePolicyUpdateValid(s: Store, id: Id, request: UpdateRequest, now: nat)
    requires Valid(s) && WritePolicyUpdate(s, id, request, now).Ok?
    ensures Valid(WritePolicyUpdate(s, id, request, now).value)
  {
    var s0 := UpdatePolicy(s, id, request.strategy, request.enabled);
    UpdatePolicyValid(s, id, request.strategy, request.enabled);
    if request.rules.Some? {
      DeleteRulesValid(s0, id);
      InsertRulesValid(DeleteRules(s0, id), id, request.rules.value, now);
    }
    var s1 := ReplaceRules(s0, id, request.rules, now).value;
    if request.routes.Some? {
      DeleteRoutesValid(s1, id);
      InsertRoutesValid(DeleteRoutes(s1, id), id, request.routes.value, now);
    }
  }

  // ---- What an insert list does ----

  function RuleRows(id: Id, rules: seq<RuleRequest>, now: nat): (rows: seq<RuleRow>)
    ensures |rows| == |rules|
  {
    seq(|rules|, i requires 0 <= i < |rules| => RuleRowFor(id, rules[i], now))
  }

  function RouteRows(id: Id, routes: seq<RouteRequest>, now: nat): (rows: seq<RouteRow>)
    ensures |rows| == |routes|
  {
    seq(|routes|, i requires 0 <= i < |routes| => RouteRowFor(id, routes[i], now))
  }

  predicate DistinctTypes(rules: seq<RuleRequest>) {
    forall i, j :: 0 <= i < j < |rules| ==> rules[i].limitType != rules[j].limitType
  }

  predicate DistinctTargets(routes: seq<RouteRequest>) {
    forall i, j :: 0 <= i < j < |routes| ==> routes[i].providerModelId != routes[j].providerModelId
  }

  predicate RulesPositive(rules: seq<RuleRequest>) {
    forall r :: r in rules ==> r.value > 0
  }

  predicate RouteAcceptable(s: Store, r: RouteRequest) {
    r.weight < TWO_31 && r.priority < TWO_31 && r.providerModelId in s.providerModels
  }

  predicate RoutesAcceptable(s: Store, routes: seq<RouteRequest>) {
    forall r :: r in routes ==> RouteAcceptable(s, r)
  }

  /** Plain inserts succeed exactly for a duplicate-free list of acceptable rules of
      an existing policy, and then append exactly the listed rows. */
  lemma {:induction false} InsertRulesExactly(s: Store, id: Id, rules: seq<RuleRequest>, now: nat)
    requires forall r :: r in s.rules ==> r.policyId != id
    ensures InsertRules(s, id, rules, now).Ok? <==>
              RulesPositive(rules) && DistinctTypes(rules) && (rules == [] || id in s.policies)
    ensures InsertRules(s, id, rules, now).Ok? ==>
              InsertRules(s, id, rules, now).value == s.(rules := s.rules + RuleRows(id, rules, now))
  {
    if rules != [] {
      var m := |rules| - 1;
      var front, last := rules[..m], rules[m];
      InsertRulesExactly(s, id, front, now);
      assert rules == front + [last];
      assert RulesPositive(rules) <==> RulesPositive(front) && last.value > 0;
      var row := RuleRowFor(id, last, now);
      var rows := RuleRows(id, front, now);
      assert RuleRows(id, rules, now) == rows + [row];
      if InsertRules(s, id, front, now).Ok? {
        var tx := InsertRules(s, id, front, now).value;
        RuleClash(s.rules, rows, id, front, last, now);
        assert DistinctTypes(rules) <==> DistinctTypes(front) && !HasRule(tx.rules, row);
        assert s.rules + (rows + [row]) == (s.rules + rows) + [row];
      }
    }
  }

  lemma RuleClash(others: seq<RuleRow>, rows: seq<RuleRow>, id: Id, front: seq<RuleRequest>, last: RuleRequest,
                  now: nat)
    requires forall r :: r in others ==> r.policyId != id
    requires rows == RuleRows(id, front, now)
    ensures HasRule(others + rows, RuleRowFor(id, last, now)) <==>
              exists i :: 0 <= i < |front| && front[i].limitType == last.limitType
  {
    if i :| 0 <= i < |front| && front[i].limitType == last.limitType {
      assert rows[i] in others + rows;
    }
  }

  lemma RowCheckedIff(id: Id, r: RouteRequest, now: nat)
    ensures RouteChecked(RouteRowFor(id, r, now)) <==> r.weight < TWO_31 && r.priority < TWO_31
  {
    StoredU32ReadsBack(r.weight);
    StoredU32ReadsBack(r.priority);
  }

  lemma {:induction false} InsertRoutesExactly(s: Store, id: Id, routes: seq<RouteRequest>, now: nat)
    requires forall r :: r in s.routes ==> r.policyId != id
    ensures InsertRoutes(s, id, routes, now).Ok? <==>
              RoutesAcceptable(s, routes) && DistinctTargets(routes) && (routes == [] || id in s.policies)
    ensures InsertRoutes(s, id, routes, now).Ok? ==>
              InsertRoutes(s, id, routes, now).value == s.(routes := s.routes + RouteRows(id, routes, now))
  {
    if routes != [] {
      var m := |routes| - 1;
      var front, last := routes[..m], routes[m];
      InsertRoutesExactly(s, id, front, now);
      assert routes == front + [last];
      assert RoutesAcceptable(s, routes) <==> RoutesAcceptable(s, front) && RouteAcceptable(s, last);
      assert DistinctTargets(routes) <==>
        DistinctTargets(front) && forall i :: 0 <= i < m ==> front[i].providerModelId != last.providerModelId;
      if InsertRoutes(s, id, front, now).Ok? {
        InsertRouteStep(s, id, front, last, now);
        assert RouteRows(id, routes, now) == RouteRows(id, front, now) + [RouteRowFor(id, last, now)];
      }
    }
  }

  lemma InsertRouteStep(s: Store, id: Id, front: seq<RouteRequest>, last: RouteRequest, now: nat)
    requires forall r :: r in s.routes ==> r.policyId != id
    ensures var tx, row := s.(routes := s.routes + RouteRows(id, front, now)), RouteRowFor(id, last, now);
            && (InsertRoute(tx, row).Ok? <==>
                  RouteAcceptable(s, last) && id in s.policies
                  && forall i :: 0 <= i < |front| ==> front[i].providerModelId != last.providerModelId)
            && (InsertRoute(tx, row).Ok? ==>
                  InsertRoute(tx, row).value == s.(routes := s.routes + (RouteRows(id, front, now) + [row])))
  {
    var rows, row := RouteRows(id, front, now), RouteRowFor(id, last, now);
    RouteClash(s.routes, rows, id, front, last, now);
    RowCheckedIff(id, last, now);
    assert s.routes + (rows + [row]) == (s.routes + rows) + [row];
  }

  lemma RouteClash(others: seq<RouteRow>, rows: seq<RouteRow>, id: Id, front: seq<RouteRequest>, last: RouteRequest,
                   now: nat)
    requires forall r :: r in others ==> r.policyId != id
    requires rows == RouteRows(id, front, now)
    ensures HasRoute(others + rows, RouteRowFor(id, last, now)) <==>
              exists i :: 0 <= i < |front| && front[i].providerModelId == last.providerModelId
  {
    if i :| 0 <= i < |front| && front[i].providerModelId == last.providerModelId {
      assert rows[i] in others + rows;
    }
  }

  // ---- Update ----

  predicate UpdateAcceptable(s: Store, id: Id, request: UpdateRequest) {
    && (request.rules.Some? ==>
          var rules := request.rules.value;
          RulesPositive(rules) && DistinctTypes(rules) && (rules == [] || id in s.policies))
    && (request.routes.Some? ==>
          var routes := request.routes.value;
          RoutesAcceptable(s, routes) && DistinctTargets(routes) && (routes == [] || id in s.policies))
  }

  lemma ReplaceRulesExactly(s: Store, id: Id, rules: Option<seq<RuleRequest>>, now: nat)
    ensures ReplaceRules(s, id, rules, now).Ok? <==>
              (rules.Some? ==>
                 RulesPositive(rules.value) && DistinctTypes(rules.value) && (rules.value == [] || id in s.policies))
    ensures ReplaceRules(s, id, rules, now).Ok? ==>
              ReplaceRules(s, id, rules, now).value == s.(
                rules := if rules.None? then s.rules
                         else Filter(RuleNotOf(id), s.rules) + RuleRows(id, rules.value, now))
  {
    FilterMembers(RuleNotOf(id), s.rules);
    if rules.Some? {
      InsertRulesExactly(DeleteRules(s, id), id, rules.value, now);
    }
  }

  lemma ReplaceRoutesExactly(s: Store, id: Id, routes: Option<seq<RouteRequest>>, now: nat)
    ensures ReplaceRoutes(s, id, routes, now).Ok? <==>
              (routes.Some? ==>
                 && RoutesAcceptable(s, routes.value) && DistinctTargets(routes.value)
                 && (routes.value == [] || id in s.policies))
    ensures ReplaceRoutes(s, id, routes, now).Ok? ==>
              ReplaceRoutes(s, id, routes, now).value == s.(
                routes := if routes.None? then s.routes
                          else Filter(RouteNotOf(id), s.routes) + RouteRows(id, routes.value, now))
  {
    FilterMembers(RouteNotOf(id), s.routes);
    if routes.Some? {
      InsertRoutesExactly(DeleteRoutes(s, id), id, routes.value, now);
      SameProviderModels(s, DeleteRoutes(s, id), routes.value);
    }
  }

  lemma SameProviderModels(s: Store, s': Store, routes: seq<RouteRequest>)
    requires s.providerModels == s'.providerModels
    ensures RoutesAcceptable(s, routes) <==> RoutesAcceptable(s', routes)
  {
    forall r | r in routes ensures RouteAcceptable(s, r) <==> RouteAcceptable(s', r) {
    }
  }

  /** The given fields of an existing policy are set; model and time stay. */
  predicate PolicyUpdated(before: map<Id, PolicyRow>, after: map<Id, PolicyRow>, id: Id, request: UpdateRequest) {
    if id !in before then after == before
    else
      && after.Keys == before.Keys
      && (forall other :: other in before && other != id ==> after[other] == before[other])
      && after[id].modelId == before[id].modelId && after[id].createdAt == before[id].createdAt
      && after[id].strategy == (if request.strategy.Some? then request.strategy.value else before[id].strategy)
      && after[id].enabled == (if request.enabled.Some? then request.enabled.value else before[id].enabled)
  }

  /** The listed rows, each for this policy, written now. */
  lemma WrittenRows(id: Id, rules: seq<RuleRequest>, routes: seq<RouteRequest>, now: nat)
    ensures forall i :: 0 <= i < |rules| ==>
              RuleRows(id, rules, now)[i] == RuleRow(id, rules[i].limitType, rules[i].value, now)
    ensures forall i :: 0 <= i < |routes| ==>
              var row, sent := RouteRows(id, routes, now)[i], routes[i];
              && row.policyId == id && row.providerModelId == sent.providerModelId && row.enabled == sent.enabled
              && row.createdAt == now
              && (sent.weight < TWO_31 ==> row.weight == sent.weight)
              && (sent.priority < TWO_31 ==> row.priority == sent.priority)
  {
  }

  /** An update commits exactly when its lists have no duplicate and no refused
      value; it then replaces the given lists, row for row, and nothing else. */
  lemma UpdateReplacesExactly(s: Store, id: Id, request: UpdateRequest, now: nat)
    ensures WritePolicyUpdate(s, id, request, now).Ok? <==> UpdateAcceptable(s, id, request)
    ensures WritePolicyUpdate(s, id, request, now).Ok? ==>
              WritePolicyUpdate(s, id, request, now).value == s.(
                policies := UpdatePolicy(s, id, request.strategy, request.enabled).policies,
                rules := if request.rules.None? then s.rules
                         else Filter(RuleNotOf(id), s.rules) + RuleRows(id, request.rules.value, now),
                routes := if request.routes.None? then s.routes
                          else Filter(RouteNotOf(id), s.routes) + RouteRows(id, request.routes.value, now))
  {
    var s0 := UpdatePolicy(s, id, request.strategy, request.enabled);
    ReplaceRulesExactly(s0, id, request.rules, now);
    if ReplaceRules(s0, id, request.rules, now).Ok? {
      var s1 := ReplaceRules(s0, id, request.rules, now).value;
      ReplaceRoutesExactly(s1, id, request.routes, now);
      if request.routes.Some? {
        SameProviderModels(s, s1, request.routes.value);
      }
    }
  }

  /** The fields an update sets, and those it leaves. */
  lemma UpdateSetsGivenFields(s: Store, id: Id, request: UpdateRequest, now: nat)
    requires WritePolicyUpdate(s, id, request, now).Ok?
    ensures PolicyUpdated(s.policies, WritePolicyUpdate(s, id, request, now).value.policies, id, request)
  {
    UpdateReplacesExactly(s, id, request, now);
  }

  // ---- Create ----

  /** The last requested entry for a limit type, or for a provider model. */
  function LastRule(rules: seq<RuleRequest>, t: LimitType): Option<RuleRequest> {
    if rules == [] then None
    else if rules[|rules| - 1].limitType == t then Some(rules[|rules| - 1])
    else LastRule(rules[..|rules| - 1], t)
  }

  function LastRoute(routes: seq<RouteRequest>, pm: Id): Option<RouteRequest> {
    if routes == [] then None
    else if routes[|routes| - 1].providerModelId == pm then Some(routes[|routes| - 1])
    else LastRoute(routes[..|routes| - 1], pm)
  }

  /** The policy's stored row for a limit type, or for a provider model. */
  function StoredRule(rules: seq<RuleRow>, id: Id, t: LimitType): Option<RuleRow> {
    if rules == [] then None
    else if rules[0].policyId == id && rules[0].limitType == t then Some(rules[0])
    else StoredRule(rules[1..], id, t)
  }

  function StoredRoute(routes: seq<RouteRow>, id: Id, pm: Id): Option<RouteRow> {
    if routes == [] then None
    else if routes[0].policyId == id && routes[0].providerModelId == pm then Some(routes[0])
    else StoredRoute(routes[1..], id, pm)
  }

  /** A stored row is found exactly if it is in the table. */
  lemma {:induction false} StoredRuleFound(rules: seq<RuleRow>, id: Id, t: LimitType)
    ensures StoredRule(rules, id, t).Some? <==> exists r :: r in rules && r.policyId == id && r.limitType == t
    ensures StoredRule(rules, id, t).Some? ==> StoredRule(rules, id, t).value in rules
  {
    if rules != [] {
      StoredRuleFound(rules[1..], id, t);
      assert rules[0] in rules;
      assert forall r :: r in rules ==> r == rules[0] || r in rules[1..];
    }
  }

  lemma {:induction false} StoredRouteFound(routes: seq<RouteRow>, id: Id, pm: Id)
    ensures StoredRoute(routes, id, pm).Some? <==>
        exists r :: r in routes && r.policyId == id && r.providerModelId == pm
    ensures StoredRoute(routes, id, pm).Some? ==> StoredRoute(routes, id, pm).value in routes
  {
    if routes != [] {
      StoredRouteFound(routes[1..], id, pm);
      assert routes[0] in routes;
      assert forall r :: r in routes ==> r == routes[0] || r in routes[1..];
    }
  }

  lemma {:induction false} PutRuleStored(rules: seq<RuleRow>, row: RuleRow, id: Id, t: LimitType)
    ensures var after := StoredRule(PutRule(rules, row), id, t);
            if row.policyId == id && row.limitType == t
            then after.Some? && after.value.value == row.value
            else after == StoredRule(rules, id, t)
  {
    if rules != [] && !SameRule(rules[0], row) {
      PutRuleStored(rules[1..], row, id, t);
    }
  }

  lemma {:induction false} PutRouteStored(routes: seq<RouteRow>, row: RouteRow, id: Id, pm: Id)
    ensures var after := StoredRoute(PutRoute(routes, row), id, pm);
            if row.policyId == id && row.providerModelId == pm
            then after.Some? && after.value == row.(createdAt := after.value.createdAt)
            else after == StoredRoute(routes, id, pm)
  {
    if routes != [] && !SameRoute(routes[0], row) {
      PutRouteStored(routes[1..], row, id, pm);
    }
  }

  lemma {:induction false} PutRuleOthers(rules: seq<RuleRow>, row: RuleRow)
    ensures Filter(RuleNotOf(row.policyId), PutRule(rules, row)) == Filter(RuleNotOf(row.policyId), rules)
  {
    if rules != [] && !SameRule(rules[0], row) {
      PutRuleOthers(rules[1..], row);
    }
  }

  lemma {:induction false} PutRouteOthers(routes: seq<RouteRow>, row: RouteRow)
    ensures Filter(RouteNotOf(row.policyId), PutRoute(routes, row)) == Filter(RouteNotOf(row.policyId), routes)
  {
    if routes != [] && !SameRoute(routes[0], row) {
      PutRouteOthers(routes[1..], row);
    }
  }

  /** The stored value agrees with the request's last entry for the type, if any. */
  predicate RuleAgrees(stored: Option<RuleRow>, before: Option<RuleRow>, last: Option<RuleRequest>) {
    if last.None? then stored == before
    else stored.Some? && stored.value.value == last.value.value
  }

  predicate RouteAgrees(stored: Option<RouteRow>, before: Option<RouteRow>, last: Option<RouteRequest>) {
    if last.None? then stored == before
    else
      && stored.Some?
      && stored.value.weight == last.value.weight
      && stored.value.priority == last.value.priority
      && stored.value.enabled == last.value.enabled
  }

  lemma {:induction false} UpsertRulesExactly(s: Store, id: Id, rules: seq<RuleRequest>, now: nat)
    requires id in s.policies
    ensures UpsertRules(s, id, rules, now).Ok? <==> RulesPositive(rules)
    ensures UpsertRules(s, id, rules, now).Ok? ==>
              var s' := UpsertRules(s, id, rules, now).value;
              && s' == s.(rules := s'.rules)
              && Filter(RuleNotOf(id), s'.rules) == Filter(RuleNotOf(id), s.rules)
              && forall t :: RuleAgrees(StoredRule(s'.rules, id, t), StoredRule(s.rules, id, t), LastRule(rules, t))
  {
    if rules != [] {
      var m := |rules| - 1;
      UpsertRulesExactly(s, id, rules[..m], now);
      assert rules == rules[..m] + [rules[m]];
      assert RulesPositive(rules) <==> RulesPositive(rules[..m]) && rules[m].value > 0;
      if UpsertRules(s, id, rules, now).Ok? {
        var tx := UpsertRules(s, id, rules[..m], now).value;
        var row := RuleRowFor(id, rules[m], now);
        PutRuleOthers(tx.rules, row);
        forall t ensures RuleAgrees(StoredRule(PutRule(tx.rules, row), id, t),
                                    StoredRule(s.rules, id, t), LastRule(rules, t)) {
          PutRuleStored(tx.rules, row, id, t);
          assert RuleAgrees(StoredRule(tx.rules, id, t), StoredRule(s.rules, id, t), LastRule(rules[..m], t));
        }
      }
    }
  }

  /** What the upserts of a prefix of the request have done. */
  ghost predicate RoutesUpserted(s: Store, s': Store, id: Id, routes: seq<RouteRequest>) {
    && s' == s.(routes := s'.routes)
    && (forall r :: r in s'.routes ==> r.providerModelId in s.providerModels)
    && Filter(RouteNotOf(id), s'.routes) == Filter(RouteNotOf(id), s.routes)
    && forall pm :: RouteAgrees(StoredRoute(s'.routes, id, pm), StoredRoute(s.routes, id, pm), LastRoute(routes, pm))
  }

  lemma {:induction false} UpsertRoutesExactly(s: Store, id: Id, routes: seq<RouteRequest>, now: nat)
    requires id in s.policies
    requires forall r :: r in s.routes ==> r.providerModelId in s.providerModels
    ensures UpsertRoutes(s, id, routes, now).Ok? <==> RoutesAcceptable(s, routes)
    ensures UpsertRoutes(s, id, routes, now).Ok? ==>
              RoutesUpserted(s, UpsertRoutes(s, id, routes, now).value, id, routes)
  {
    if routes != [] {
      var m := |routes| - 1;
      UpsertRoutesExactly(s, id, routes[..m], now);
      assert routes == routes[..m] + [routes[m]];
      assert RoutesAcceptable(s, routes) <==> RoutesAcceptable(s, routes[..m]) && RouteAcceptable(s, routes[m]);
      if UpsertRoutes(s, id, routes[..m], now).Ok? {
        UpsertRouteStep(s, UpsertRoutes(s, id, routes[..m], now).value, id, routes, now);
      }
    }
  }

  lemma UpsertRouteStep(s: Store, tx: Store, id: Id, routes: seq<RouteRequest>, now: nat)
    requires id in s.policies && routes != []
    requires RoutesUpserted(s, tx, id, routes[..|routes| - 1])
    ensures var last := routes[|routes| - 1];
            var result := UpsertRoute(tx, RouteRowFor(id, last, now));
            && (result.Ok? <==> RouteAcceptable(s, last))
            && (result.Ok? ==> RoutesUpserted(s, result.value, id, routes))
  {
    var m := |routes| - 1;
    var row := RouteRowFor(id, routes[m], now);
    RowCheckedIff(id, routes[m], now);
    if UpsertRoute(tx, row).Ok? {
      var after := PutRoute(tx.routes, row);
      PutRouteMembers(tx.routes, row);
      PutRouteOthers(tx.routes, row);
      forall pm ensures RouteAgrees(StoredRoute(after, id, pm), StoredRoute(s.routes, id, pm), LastRoute(routes, pm)) {
        assert RouteAgrees(StoredRoute(tx.routes, id, pm), StoredRoute(s.routes, id, pm), LastRoute(routes[..m], pm));
        UpsertedRouteAgrees(s, tx, id, routes, now, pm);
      }
    }
  }

  lemma UpsertedRouteAgrees(s: Store, tx: Store, id: Id, routes: seq<RouteRequest>, now: nat, pm: Id)
    requires routes != []
    requires RouteChecked(RouteRowFor(id, routes[|routes| - 1], now))
    requires RouteAgrees(StoredRoute(tx.routes, id, pm), StoredRoute(s.routes, id, pm),
                         LastRoute(routes[..|routes| - 1], pm))
    ensures var row := RouteRowFor(id, routes[|routes| - 1], now);
            RouteAgrees(StoredRoute(PutRoute(tx.routes, row), id, pm), StoredRoute(s.routes, id, pm),
                        LastRoute(routes, pm))
  {
    var last := routes[|routes| - 1];
    PutRouteStored(tx.routes, RouteRowFor(id, last, now), id, pm);
    StoredU32ReadsBack(last.weight);
    StoredU32ReadsBack(last.priority);
  }

  predicate CreateAcceptable(s: Store, id: Id, request: CreateRequest) {
    && id !in s.policies && request.modelId in s.models
    && RulesPositive(request.rules) && RoutesAcceptable(s, request.routes)
  }

  /** A create touches only its own policy's rows. */
  ghost predicate CreatesOnly(s: Store, s': Store, id: Id, request: CreateRequest, now: nat) {
    && s' == s.(policies := s'.policies, rules := s'.rules, routes := s'.routes)
    && s'.policies == s.policies[id := PolicyRow(request.modelId, request.strategy, request.enabled, now)]
    && Filter(RuleNotOf(id), s'.rules) == s.rules
    && Filter(RouteNotOf(id), s'.routes) == s.routes
  }

  /** For each limit type and provider model the last requested entry is stored, and
      nothing else. */
  ghost predicate StoresLast(s: Store, id: Id, request: CreateRequest) {
    && (forall t :: RuleAgrees(StoredRule(s.rules, id, t), None, LastRule(request.rules, t)))
    && (forall pm :: RouteAgrees(StoredRoute(s.routes, id, pm), None, LastRoute(request.routes, pm)))
  }

  /** A create commits exactly when its id is new, its model exists and no value is
      refused. Then, for each limit type and each provider model, exactly the last
      requested entry is stored, and every other policy's rows are untouched. */
  lemma CreateKeepsLast(s: Store, id: Id, request: CreateRequest, now: nat)
    requires Valid(s)
    ensures CreatePolicy(s, id, request, now).Ok? <==> CreateAcceptable(s, id, request)
    ensures CreatePolicy(s, id, request, now).Ok? ==>
              var s' := CreatePolicy(s, id, request, now).value;
              CreatesOnly(s, s', id, request, now) && StoresLast(s', id, request)
  {
    var first := InsertPolicy(s, id, PolicyRow(request.modelId, request.strategy, request.enabled, now));
    if first.Ok? {
      var s1 := first.value;
      NoRowsOfNewPolicy(s, id);
      UpsertRulesExactly(s1, id, request.rules, now);
      if UpsertRules(s1, id, request.rules, now).Ok? {
        var s2 := UpsertRules(s1, id, request.rules, now).value;
        UpsertRoutesExactly(s2, id, request.routes, now);
        SameProviderModels(s, s2, request.routes);
      }
    }
  }

  lemma NoRowsOfNewPolicy(s: Store, id: Id)
    requires Valid(s) && id !in s.policies
    ensures Filter(RuleNotOf(id), s.rules) == s.rules && Filter(RouteNotOf(id), s.routes) == s.routes
    ensures forall t :: StoredRule(s.rules, id, t).None?
    ensures forall pm :: StoredRoute(s.routes, id, pm).None?
  {
    FilterAll(RuleNotOf(id), s.rules);
    FilterAll(RouteNotOf(id), s.routes);
    forall t ensures StoredRule(s.rules, id, t).None? { StoredRuleFound(s.rules, id, t); }
    forall pm ensures StoredRoute(s.routes, id, pm).None? { StoredRouteFound(s.routes, id, pm); }
  }

  /** Without duplicates in the request a create stores the listed rows in order. */
  lemma {:induction false} UpsertRulesInOrder(s: Store, id: Id, rules: seq<RuleRequest>, now: nat)
    requires forall r :: r in s.rules ==> r.policyId != id
    requires DistinctTypes(rules) && UpsertRules(s, id, rules, now).Ok?
    ensures UpsertRules(s, id, rules, now).value == s.(rules := s.rules + RuleRows(id, rules, now))
  {
    if rules != [] {
      var m := |rules| - 1;
      var front, row := rules[..m], RuleRowFor(id, rules[m], now);
      UpsertRulesInOrder(s, id, front, now);
      var rows := RuleRows(id, front, now);
      RuleClash(s.rules, rows, id, front, rules[m], now);
      assert !HasRule(s.rules + rows, row);
      NewRuleAppended(s.rules + rows, row);
      assert RuleRows(id, rules, now) == rows + [row];
      assert s.rules + (rows + [row]) == (s.rules + rows) + [row];
    }
  }

  lemma {:induction false} UpsertRoutesInOrder(s: Store, id: Id, routes: seq<RouteRequest>, now: nat)
    requires forall r :: r in s.routes ==> r.policyId != id
    requires DistinctTargets(routes) && UpsertRoutes(s, id, routes, now).Ok?
    ensures UpsertRoutes(s, id, routes, now).value == s.(routes := s.routes + RouteRows(id, routes, now))
  {
    if routes != [] {
      var m := |routes| - 1;
      var front, row := routes[..m], RouteRowFor(id, routes[m], now);
      UpsertRoutesInOrder(s, id, front, now);
      var rows := RouteRows(id, front, now);
      RouteClash(s.routes, rows, id, front, routes[m], now);
      assert !HasRoute(s.routes + rows, row);
      NewRouteAppended(s.routes + rows, row);
      assert RouteRows(id, routes, now) == rows + [row];
      assert s.routes + (rows + [row]) == (s.routes + rows) + [row];
    }
  }

  lemma CreateInOrder(s: Store, id: Id, request: CreateRequest, now: nat)
    requires Valid(s) && CreatePolicy(s, id, request, now).Ok?
    requires DistinctTypes(request.rules) && DistinctTargets(request.routes)
    ensures CreatePolicy(s, id, request, now).value == s.(
              policies := s.policies[id := PolicyRow(request.modelId, request.strategy, request.enabled, now)],
              rules := s.rules + RuleRows(id, request.rules, now),
              routes := s.routes + RouteRows(id, request.routes, now))
  {
    var s1 := InsertPolicy(s, id, PolicyRow(request.modelId, request.strategy, request.enabled, now)).value;
    UpsertRulesInOrder(s1, id, request.rules, now);
    UpsertRoutesInOrder(UpsertRules(s1, id, request.rules, now).value, id, request.routes, now);
  }

  /** The one create that a create followed by an update amounts to. */
  function Merged(request: CreateRequest, update: UpdateRequest): CreateRequest
    requires update.rules.Some? && update.routes.Some?
  {
    CreateRequest(request.modelId, update.strategy.GetOr(request.strategy), update.rules.value,
                  update.enabled.GetOr(request.enabled), update.routes.value)
  }

  /** Creating with any lists and then updating to duplicate-free lists leaves the
      very tables that creating with those lists would have left, up to the creation
      time of the policy itself. */
  lemma CreateThenUpdateIsCreate(s: Store, id: Id, request: CreateRequest, update: UpdateRequest, t0: nat, t1: nat)
    requires Valid(s)
    requires update.rules.Some? && update.routes.Some?
    requires CreatePolicy(s, id, request, t0).Ok?
    requires WritePolicyUpdate(CreatePolicy(s, id, request, t0).value, id, update, t1).Ok?
    ensures CreatePolicy(s, id, Merged(request, update), t1).Ok?
    ensures var stepwise := WritePolicyUpdate(CreatePolicy(s, id, request, t0).value, id, update, t1).value;
            && id in stepwise.policies
            && stepwise.(policies := stepwise.policies[id := stepwise.policies[id].(createdAt := t1)])
               == CreatePolicy(s, id, Merged(request, update), t1).value
  {
    var created := CreatePolicy(s, id, request, t0).value;
    CreateKeepsLast(s, id, request, t0);
    UpdateReplacesExactly(created, id, update, t1);
    SameProviderModels(s, created, update.routes.value);
    CreateKeepsLast(s, id, Merged(request, update), t1);
    CreateInOrder(s, id, Merged(request, update), t1);
    SameTables(s, created, WritePolicyUpdate(created, id, update, t1).value,
               CreatePolicy(s, id, Merged(request, update), t1).value, id, request, update, t0, t1);
  }

  lemma SameTables(s: Store, created: Store, stepwise: Store, direct: Store, id: Id,
                   request: CreateRequest, update: UpdateRequest, t0: nat, t1: nat)
    requires update.rules.Some? && update.routes.Some?
    requires CreatesOnly(s, created, id, request, t0)
    requires stepwise == created.(
               policies := UpdatePolicy(created, id, update.strategy, update.enabled).policies,
               rules := Filter(RuleNotOf(id), created.rules) + RuleRows(id, update.rules.value, t1),
               routes := Filter(RouteNotOf(id), created.routes) + RouteRows(id, update.routes.value, t1))
    requires direct == s.(
               policies := s.policies[id := PolicyRow(request.modelId, update.strategy.GetOr(request.strategy),
                                                      update.enabled.GetOr(request.enabled), t1)],
               rules := s.rules + RuleRows(id, update.rules.value, t1),
               routes := s.routes + RouteRows(id, update.routes.value, t1))
    ensures id in stepwise.policies
    ensures stepwise.(policies := stepwise.policies[id := stepwise.policies[id].(createdAt := t1)]) == direct
  {
    assert stepwise.policies[id := stepwise.policies[id].(createdAt := t1)] == direct.policies;
  }
}
