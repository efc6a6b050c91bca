/** Loading the gateway's cache: three queries folded into three maps. */
module CacheLoader {
  import opened Wrappers
  import opened MachineInts
  import opened Collections
  import opened RateLimiter
  import opened RouteSelection
  import opened Schema
  import opened Cache

  // ---- Keys ----

  /** The enabled keys, by hash. */
  ghost predicate IsKeyView(s: Store, hashes: map<string, Id>) {
    && (forall hash :: hash in hashes ==>
          hashes[hash] in s.keys && s.keys[hashes[hash]].enabled && s.keys[hashes[hash]].hash == hash)
    && (forall id :: id in s.keys && s.keys[id].enabled ==>
          s.keys[id].hash in hashes && hashes[s.keys[id].hash] == id)
  }

  /** `order` is the order in which the rows arrive. With unique hashes the map is
      exactly the set of enabled keys. */
  method LoadKeyHashes(s: Store, order: seq<Id>) returns (hashes: map<string, Id>)
    requires forall id :: id in order <==> id in s.keys
    requires HashesUnique(s.keys)
    ensures IsKeyView(s, hashes)
  {
    hashes := map[];
    for i := 0 to |order|
      invariant forall hash :: hash in hashes ==>
        hashes[hash] in s.keys && s.keys[hashes[hash]].enabled && s.keys[hashes[hash]].hash == hash
      invariant forall j :: 0 <= j < i && s.keys[order[j]].enabled ==>
        s.keys[order[j]].hash in hashes && hashes[s.keys[order[j]].hash] == order[j]
    {
      assert order[i] in order;
      var row := s.keys[order[i]];
      if row.enabled {
        hashes := hashes[row.hash := order[i]];
      }
    }
  }

  // ---- Routes ----

  datatype CandidateRow = CandidateRow(
    modelName: string, providerModelName: string, provider: ProviderInfo,
    weight: i32, priority: i32, strategy: Strategy)

  predicate CandidateJoins(s: Store, r: RouteRow) {
    && r.enabled
    && r.policyId in s.policies && s.policies[r.policyId].enabled
    && s.policies[r.policyId].modelId in s.models
    && r.providerModelId in s.providerModels
    && s.providerModels[r.providerModelId].providerId in s.providers
  }

  function JoinCandidate(s: Store, r: RouteRow): CandidateRow
    requires CandidateJoins(s, r)
  {
    var policy := s.policies[r.policyId];
    var pm := s.providerModels[r.providerModelId];
    var p := s.providers[pm.providerId];
    CandidateRow(s.models[policy.modelId].name, pm.name, ProviderInfo(pm.providerId, p.name, p.baseUrl, p.key),
                 r.weight, r.priority, policy.strategy)
  }

  function JoinCandidates(s: Store, routes: seq<RouteRow>): seq<CandidateRow> {
    if routes == [] then []
    else (if CandidateJoins(s, routes[0]) then [JoinCandidate(s, routes[0])] else []) + JoinCandidates(s, routes[1..])
  }

  /** Every enabled route of every enabled policy, joined. */
  function CandidateView(s: Store): seq<CandidateRow> {
    JoinCandidates(s, s.routes)
  }

  predicate Preferred(a: CandidateRow, b: CandidateRow) {
    a.priority < b.priority || (a.priority == b.priority && a.weight >= b.weight)
  }

  /** A result of the query: all the joined rows, within each model by priority
      ascending and weight descending, ties in any order. */
  ghost predicate IsCandidateResult(s: Store, rows: seq<CandidateRow>) {
    && multiset(rows) == multiset(CandidateView(s))
    && forall i, j :: 0 <= i < j < |rows| && rows[i].modelName == rows[j].modelName ==> Preferred(rows[i], rows[j])
  }

  function RowModel(): CandidateRow -> string { (r: CandidateRow) => r.modelName }

  /** `max(0) as u32` on both numbers. */
  function Candidate(): CandidateRow -> RouteCandidate {
    (r: CandidateRow) =>
      RouteCandidate(r.providerModelName, I32ToU32(r.weight), I32ToU32(r.priority), r.provider)
  }

  function RowsOf(rows: seq<CandidateRow>, model: string): seq<CandidateRow> {
    Filter(HasKey(RowModel(), model), rows)
  }

  /** A model's target holds, in order, the candidates of its rows and no others, and
      the strategy of its first row; a model without rows has no target. */
  ghost predicate TargetIs(targets: map<string, ModelTarget>, rows: seq<CandidateRow>, model: string) {
    var mine := RowsOf(rows, model);
    && (model in targets <==> mine != [])
    && (mine != [] ==> targets[model] == ModelTarget(mine[0].strategy, MapSeq(Candidate(), mine)))
  }

  ghost predicate TargetsAre(targets: map<string, ModelTarget>, rows: seq<CandidateRow>) {
    forall model :: TargetIs(targets, rows, model)
  }

  /** `entry(name).or_insert_with(..).routes.push(candidate)` */
  function TargetPushed(targets: map<string, ModelTarget>, row: CandidateRow): map<string, ModelTarget> {
    var target := if row.modelName in targets then targets[row.modelName] else ModelTarget(row.strategy, []);
    targets[row.modelName := target.(routes := target.routes + [Candidate()(row)])]
  }

  lemma PushTarget(targets: map<string, ModelTarget>, rows: seq<CandidateRow>, i: nat)
    requires i < |rows| && TargetsAre(targets, rows[..i])
    ensures TargetsAre(TargetPushed(targets, rows[i]), rows[..i + 1])
  {
    assert rows[..i + 1] == rows[..i] + [rows[i]];
    forall model ensures TargetIs(TargetPushed(targets, rows[i]), rows[..i] + [rows[i]], model) {
      assert TargetIs(targets, rows[..i], model);
      var p := HasKey(RowModel(), model);
      FilterAppend(p, rows[..i], [rows[i]]);
      FilterCons(p, rows[i], []);
      assert [rows[i]] + [] == [rows[i]];
    }
  }

  method LoadModelRoutes(rows: seq<CandidateRow>) returns (targets: map<string, ModelTarget>)
    ensures TargetsAre(targets, rows)
  {
    targets := map[];
    for i := 0 to |rows|
      invariant TargetsAre(targets, rows[..i])
    {
      PushTarget(targets, rows, i);
      targets := TargetPushed(targets, rows[i]);
    }
    assert rows[..|rows|] == rows;
  }

  ghost predicate IsRouteView(s: Store, targets: map<string, ModelTarget>) {
    exists rows :: IsCandidateResult(s, rows) && TargetsAre(targets, rows)
  }

  /** The route lists together hold every row once, and none is empty. */
  lemma TargetsHoldEveryRow(targets: map<string, ModelTarget>, rows: seq<CandidateRow>, names: seq<string>)
    requires TargetsAre(targets, rows)
    requires NoRepeats(names) && forall name :: name in names <==> name in targets
    ensures forall name :: name in targets ==> |targets[name].routes| == |RowsOf(rows, name)| > 0
    ensures GroupSizes(RowModel(), names, rows) == |rows|
  {
    forall name | name in targets ensures |targets[name].routes| == |RowsOf(rows, name)| > 0 {
      assert TargetIs(targets, rows, name);
    }
    forall r | r in rows ensures RowModel()(r) in names {
      assert TargetIs(targets, rows, r.modelName);
      FilterMembers(HasKey(RowModel(), r.modelName), rows);
      assert r in RowsOf(rows, r.modelName);
    }
    GroupSizesAddUp(RowModel(), names, rows);
  }

  // ---- The same in terms of the tables ----

  /** An enabled route of an enabled policy for this model, whose provider model and
      provider exist. */
  predicate ServesModel(s: Store, r: RouteRow, model: string) {
    && r in s.routes && r.enabled
    && r.policyId in s.policies && s.policies[r.policyId].enabled
    && s.policies[r.policyId].modelId in s.models && s.models[s.policies[r.policyId].modelId].name == model
    && r.providerModelId in s.providerModels
    && s.providerModels[r.providerModelId].providerId in s.providers
  }

  function Serving(s: Store, model: string): RouteRow -> bool {
    (r: RouteRow) => ServesModel(s, r, model)
  }

  /** What the cache keeps of a route: its numbers, never below zero, the name of its
      provider model, and id, name, base URL and key of its provider. */
  predicate IsCandidateFor(s: Store, r: RouteRow, c: RouteCandidate) {
    && c.weight == (if r.weight < 0 then 0 else r.weight)
    && c.priority == (if r.priority < 0 then 0 else r.priority)
    && r.providerModelId in s.providerModels
    && var pm := s.providerModels[r.providerModelId];
       && c.providerModelName == pm.name && c.provider.id == pm.providerId
       && pm.providerId in s.providers
       && c.provider.name == s.providers[pm.providerId].name
       && c.provider.baseUrl == s.providers[pm.providerId].baseUrl
       && c.provider.key == s.providers[pm.providerId].key
  }

  /** Lower priority first, then higher weight. */
  predicate Outranks(a: RouteRow, b: RouteRow) {
    a.priority < b.priority || (a.priority == b.priority && a.weight >= b.weight)
  }

  /** The target holds these rows of the route table, best first, and the strategy of the
      first one's policy. */
  predicate Holds(s: Store, target: ModelTarget, routes: seq<RouteRow>) {
    && |target.routes| == |routes| > 0
    && routes[0].policyId in s.policies && target.strategy == s.policies[routes[0].policyId].strategy
    && (forall i :: 0 <= i < |routes| ==> IsCandidateFor(s, routes[i], target.routes[i]))
    && (forall i, j :: 0 <= i < j < |routes| ==> Outranks(routes[i], routes[j]))
  }

  lemma {:induction false} JoinedOfModel(s: Store, routes: seq<RouteRow>, model: string)
    requires forall r :: r in routes ==> r in s.routes
    ensures RowsOf(JoinCandidates(s, routes), model) == JoinCandidates(s, Filter(Serving(s, model), routes))
  {
    if routes != [] {
      var r := routes[0];
      assert r in routes && r in s.routes;
      JoinedOfModel(s, routes[1..], model);
      var p, q := HasKey(RowModel(), model), Serving(s, model);
      FilterHead(q, routes);
      if CandidateJoins(s, r) {
        FilterCons(p, JoinCandidate(s, r), JoinCandidates(s, routes[1..]));
        JoinCons(s, r, Filter(q, routes[1..]));
      } else {
        assert JoinCandidates(s, routes) == JoinCandidates(s, routes[1..]);
      }
    }
  }

  lemma JoinCons(s: Store, r: RouteRow, routes: seq<RouteRow>)
    requires CandidateJoins(s, r)
    ensures JoinCandidates(s, [r] + routes) == [JoinCandidate(s, r)] + JoinCandidates(s, routes)
  {
    assert ([r] + routes)[1..] == routes;
  }

  predicate AllJoin(s: Store, routes: seq<RouteRow>) {
    forall i :: 0 <= i < |routes| ==> CandidateJoins(s, routes[i])
  }

  /** Joined one by one. */
  predicate Pairs(s: Store, rows: seq<CandidateRow>, routes: seq<RouteRow>) {
    |rows| == |routes| && AllJoin(s, routes) && forall i :: 0 <= i < |rows| ==> rows[i] == JoinCandidate(s, routes[i])
  }

  lemma {:induction false} JoinedPairs(s: Store, routes: seq<RouteRow>)
    requires AllJoin(s, routes)
    ensures Pairs(s, JoinCandidates(s, routes), routes)
  {
    if routes != [] {
      JoinedPairs(s, routes[1..]);
    }
  }

  lemma PairsHold(s: Store, mine: seq<CandidateRow>, rs: seq<RouteRow>)
    requires mine != [] && Pairs(s, mine, rs)
    requires forall i, j :: 0 <= i < j < |mine| ==> Preferred(mine[i], mine[j])
    ensures Holds(s, ModelTarget(mine[0].strategy, MapSeq(Candidate(), mine)), rs)
  {
    forall i | 0 <= i < |rs| ensures IsCandidateFor(s, rs[i], MapSeq(Candidate(), mine)[i]) {
      assert mine[i] == JoinCandidate(s, rs[i]);
    }
  }

  lemma {:induction false} OfModelInOrder(rows: seq<CandidateRow>, model: string)
    requires forall i, j :: 0 <= i < j < |rows| && rows[i].modelName == rows[j].modelName ==>
        Preferred(rows[i], rows[j])
    ensures var mine := RowsOf(rows, model);
            forall i, j :: 0 <= i < j < |mine| ==> Preferred(mine[i], mine[j])
  {
    if rows != [] {
      OfModelInOrder(rows[1..], model);
      FilterMembers(HasKey(RowModel(), model), rows[1..]);
      var rest := RowsOf(rows[1..], model);
      if rows[0].modelName == model {
        forall j | 0 <= j < |rest| ensures Preferred(rows[0], rest[j]) {
          assert rest[j] in rest;
          var k :| 0 <= k < |rows[1..]| && rows[1..][k] == rest[j];
          assert rows[k + 1] == rest[j];
        }
      }
    }
  }

  /** A loaded target, said of the tables alone: it holds every enabled route of every
      enabled policy for the model once, with its own numbers and its provider, ordered by
      priority and then weight, and the first one's strategy; there is none exactly when
      the model has no such route. */
  lemma TargetHoldsServingRoutes(s: Store, targets: map<string, ModelTarget>, model: string)
    returns (routes: seq<RouteRow>)
    requires IsRouteView(s, targets)
    ensures multiset(routes) == multiset(Filter(Serving(s, model), s.routes))
    ensures model in targets <==> routes != []
    ensures model in targets ==> Holds(s, targets[model], routes)
  {
    var rows :| IsCandidateResult(s, rows) && TargetsAre(targets, rows);
    assert TargetIs(targets, rows, model);
    var mine, serving := RowsOf(rows, model), Filter(Serving(s, model), s.routes);
    FilterRearranged(HasKey(RowModel(), model), rows, CandidateView(s));
    JoinedOfModel(s, s.routes, model);
    FilterMembers(Serving(s, model), s.routes);
    forall i | 0 <= i < |serving| ensures CandidateJoins(s, serving[i]) {
      assert serving[i] in serving;
    }
    JoinedPairs(s, serving);
    routes := Reordered(mine, JoinCandidates(s, serving), serving);
    assert Pairs(s, mine, routes);
    if mine != [] {
      OfModelInOrder(rows, model);
      PairsHold(s, mine, routes);
    }
  }

  lemma ServingMembers(s: Store, routes: seq<RouteRow>, model: string)
    requires multiset(routes) == multiset(Filter(Serving(s, model), s.routes))
    ensures forall r :: r in routes <==> ServesModel(s, r, model)
  {
    var serving := Filter(Serving(s, model), s.routes);
    FilterMembers(Serving(s, model), s.routes);
    assert forall r :: r in routes <==> r in multiset(routes);
    assert forall r :: r in serving <==> r in multiset(serving);
  }

  /** A best route for the model: lowest priority, then highest weight, over all enabled
      routes of its enabled policies. */
  ghost predicate IsBest(s: Store, best: RouteRow, model: string) {
    ServesModel(s, best, model) && forall r :: ServesModel(s, r, model) ==> Outranks(best, r)
  }

  /** The first route of a loaded target, the one priority routing picks, is a best row of
      the route table for the model. */
  lemma FirstRouteIsBest(s: Store, targets: map<string, ModelTarget>, model: string) returns (best: RouteRow)
    requires IsRouteView(s, targets) && model in targets
    ensures targets[model].routes != [] && IsBest(s, best, model)
    ensures IsCandidateFor(s, best, targets[model].routes[0])
    ensures targets[model].strategy == s.policies[best.policyId].strategy
  {
    var routes := TargetHoldsServingRoutes(s, targets, model);
    ServingMembers(s, routes, model);
    best := routes[0];
    forall r | ServesModel(s, r, model) ensures Outranks(best, r) {
      var i :| 0 <= i < |routes| && routes[i] == r;
    }
  }

  /** A model has a target exactly when some enabled policy for it has an enabled
      route whose provider model and provider exist. */
  lemma ModelHasTargetIff(s: Store, targets: map<string, ModelTarget>, model: string)
    requires IsRouteView(s, targets)
    ensures model in targets <==> exists r :: ServesModel(s, r, model)
  {
    var routes := TargetHoldsServingRoutes(s, targets, model);
    ServingMembers(s, routes, model);
    assert routes != [] ==> routes[0] in routes;
  }

  // ---- Limits ----

  datatype LimitRow = LimitRow(keyHash: string, limitType: LimitType, value: i32)

  predicate LimitLinked(s: Store, l: LinkRow) {
    && l.enabled
    && l.keyId in s.keys && s.keys[l.keyId].enabled
    && l.policyId in s.policies && s.policies[l.policyId].enabled
  }

  function RulesJoined(hash: string, policyId: Id, rules: seq<RuleRow>): seq<LimitRow> {
    if rules == [] then []
    else (if rules[0].policyId == policyId then [LimitRow(hash, rules[0].limitType, rules[0].value)] else [])
         + RulesJoined(hash, policyId, rules[1..])
  }

  function LimitsJoined(s: Store, links: seq<LinkRow>): seq<LimitRow> {
    if links == [] then []
    else (if LimitLinked(s, links[0]) then RulesJoined(s.keys[links[0].keyId].hash, links[0].policyId, s.rules) else [])
         + LimitsJoined(s, links[1..])
  }

  function LimitView(s: Store): seq<LimitRow> {
    LimitsJoined(s, s.links)
  }

  /** The query has no ORDER BY: any order of the joined rows is a result. */
  ghost predicate IsLimitResult(s: Store, rows: seq<LimitRow>) {
    multiset(rows) == multiset(LimitView(s))
  }

  /** The value of the last row for a key and type. */
  function LastValue(rows: seq<LimitRow>, hash: string, t: LimitType): Option<i32> {
    if rows == [] then None
    else
      var last := rows[|rows| - 1];
      if last.keyHash == hash && last.limitType == t then Some(last.value)
      else LastValue(rows[..|rows| - 1], hash, t)
  }

  function Field(config: RateLimitConfig, t: LimitType): Option<i32> {
    match t
    case RequestsPerMinute => config.requestsPerMinute
    case RequestsPerDay => config.requestsPerDay
    case TokensPerMinute => config.tokensPerMinute
    case TokensPerDay => config.tokensPerDay
  }

  function WithField(config: RateLimitConfig, t: LimitType, value: i32): RateLimitConfig {
    match t
    case RequestsPerMinute => config.(requestsPerMinute := Some(value))
    case RequestsPerDay => config.(requestsPerDay := Some(value))
    case TokensPerMinute => config.(tokensPerMinute := Some(value))
    case TokensPerDay => config.(tokensPerDay := Some(value))
  }

  ghost predicate LimitsOf(limits: map<string, RateLimitConfig>, rows: seq<LimitRow>, hash: string) {
    && (hash in limits <==> exists r :: r in rows && r.keyHash == hash)
    && (hash in limits ==> forall t :: Field(limits[hash], t) == LastValue(rows, hash, t))
    && (hash !in limits ==> forall t :: LastValue(rows, hash, t).None?)
  }

  ghost predicate LimitsAre(limits: map<string, RateLimitConfig>, rows: seq<LimitRow>) {
    forall hash :: LimitsOf(limits, rows, hash)
  }

  method LoadRateLimits(rows: seq<LimitRow>) returns (limits: map<string, RateLimitConfig>)
    ensures LimitsAre(limits, rows)
  {
    limits := map[];
    for i := 0 to |rows|
      invariant LimitsAre(limits, rows[..i])
    {
      var row := rows[i];
      ghost var before := limits;
      var entry := if row.keyHash in limits then limits[row.keyHash] else RateLimitConfig(None, None, None, None);
      limits := limits[row.keyHash := WithField(entry, row.limitType, row.value)];
      assert rows[..i + 1] == rows[..i] + [row];
      forall hash ensures LimitsOf(limits, rows[..i] + [row], hash) {
        SetLimit(before, rows[..i], row, hash);
      }
    }
    assert rows[..|rows|] == rows;
  }

  lemma SetLimit(limits: map<string, RateLimitConfig>, rows: seq<LimitRow>, row: LimitRow, hash: string)
    requires LimitsAre(limits, rows)
    ensures var entry := if row.keyHash in limits then limits[row.keyHash] else RateLimitConfig(None, None, None, None);
            LimitsOf(limits[row.keyHash := WithField(entry, row.limitType, row.value)], rows + [row], hash)
  {
    assert LimitsOf(limits, rows, hash);
    assert (rows + [row])[..|rows|] == rows;
    assert row in rows + [row];
    assert forall t: LimitType ::
      LastValue(rows + [row], hash, t) ==
        if row.keyHash == hash && row.limitType == t then Some(row.value) else LastValue(rows, hash, t);
  }

  ghost predicate IsLimitView(s: Store, limits: map<string, RateLimitConfig>) {
    exists rows :: IsLimitResult(s, rows) && LimitsAre(limits, rows)
  }

  lemma {:induction false} LastValueFound(rows: seq<LimitRow>, hash: string, t: LimitType)
    ensures LastValue(rows, hash, t).None? <==> forall r :: r in rows ==> !(r.keyHash == hash && r.limitType == t)
    ensures LastValue(rows, hash, t).Some? ==> LimitRow(hash, t, LastValue(rows, hash, t).value) in rows
  {
    if rows != [] {
      var m := |rows| - 1;
      LastValueFound(rows[..m], hash, t);
      assert rows == rows[..m] + [rows[m]];
    }
  }

  /** No later row is for this key and type. */
  predicate IsLastFor(rows: seq<LimitRow>, i: nat, hash: string, t: LimitType)
    requires i < |rows|
  {
    && rows[i].keyHash == hash && rows[i].limitType == t
    && forall j :: i < j < |rows| ==> !(rows[j].keyHash == hash && rows[j].limitType == t)
  }

  /** A later row overwrites an earlier one. */
  lemma {:induction false} LastValueIsLast(rows: seq<LimitRow>, hash: string, t: LimitType)
    ensures forall i :: 0 <= i < |rows| && IsLastFor(rows, i, hash, t) ==>
              LastValue(rows, hash, t) == Some(rows[i].value)
  {
    if rows != [] {
      var m := |rows| - 1;
      LastValueIsLast(rows[..m], hash, t);
      forall i | 0 <= i < |rows| && IsLastFor(rows, i, hash, t)
        ensures LastValue(rows, hash, t) == Some(rows[i].value)
      {
        if i < m {
          assert IsLastFor(rows[..m], i, hash, t);
        }
      }
    }
  }

  lemma {:induction false} RulesJoinedMembers(hash: string, policyId: Id, rules: seq<RuleRow>)
    ensures forall l :: l in RulesJoined(hash, policyId, rules) <==>
              exists r :: r in rules && r.policyId == policyId && l == LimitRow(hash, r.limitType, r.value)
  {
    if rules != [] {
      RulesJoinedMembers(hash, policyId, rules[1..]);
      assert forall r :: r in rules <==> r == rules[0] || r in rules[1..];
    }
  }

  /** An enabled key has an enabled link to an enabled policy with this rule. */
  ghost predicate Limited(s: Store, links: seq<LinkRow>, row: LimitRow) {
    exists l, r :: l in links && r in s.rules
      && l.enabled && l.keyId in s.keys && s.keys[l.keyId].enabled && s.keys[l.keyId].hash == row.keyHash
      && l.policyId in s.policies && s.policies[l.policyId].enabled
      && r.policyId == l.policyId && r.limitType == row.limitType && r.value == row.value
  }

  lemma {:induction false} LimitsJoinedMembers(s: Store, links: seq<LinkRow>, row: LimitRow)
    ensures row in LimitsJoined(s, links) <==> Limited(s, links, row)
  {
    if links != [] {
      LimitsJoinedMembers(s, links[1..], row);
      assert forall l :: l in links <==> l == links[0] || l in links[1..];
      if LimitLinked(s, links[0]) {
        RulesJoinedMembers(s.keys[links[0].keyId].hash, links[0].policyId, s.rules);
      }
    }
  }

  lemma ResultRow(s: Store, rows: seq<LimitRow>, row: LimitRow)
    requires IsLimitResult(s, rows)
    ensures row in rows <==> Limited(s, s.links, row)
  {
    LimitsJoinedMembers(s, s.links, row);
    assert row in rows <==> row in multiset(rows);
    assert row in LimitView(s) <==> row in multiset(LimitView(s));
  }

  /** Whatever order the rows come in: a key has a limit of a type exactly when some
      policy attached to it has such a rule, and the value is one of those rules'. */
  lemma LimitExactlyWhenRule(s: Store, limits: map<string, RateLimitConfig>, hash: string, t: LimitType)
    requires IsLimitView(s, limits)
    ensures (hash in limits && Field(limits[hash], t).Some?) <==> exists v :: Limited(s, s.links, LimitRow(hash, t, v))
    ensures hash in limits && Field(limits[hash], t).Some? ==>
              Limited(s, s.links, LimitRow(hash, t, Field(limits[hash], t).value))
    ensures hash in limits ==> !limits[hash].IsEmpty()
  {
    var rows :| IsLimitResult(s, rows) && LimitsAre(limits, rows);
    assert LimitsOf(limits, rows, hash);
    LastValueFound(rows, hash, t);
    if hash in limits && Field(limits[hash], t).Some? {
      ResultRow(s, rows, LimitRow(hash, t, Field(limits[hash], t).value));
    }
    if v :| Limited(s, s.links, LimitRow(hash, t, v)) {
      ResultRow(s, rows, LimitRow(hash, t, v));
    }
    if hash in limits {
      var r: LimitRow :| r in rows && r.keyHash == hash;
      LastValueFound(rows, hash, r.limitType);
      assert Field(limits[hash], r.limitType).Some?;
    }
  }

  /** Each of the four limits of a key's configuration has the value of an attached rule of
      just that type, and is set exactly when there is one. */
  lemma EachLimitHasItsRule(s: Store, limits: map<string, RateLimitConfig>, hash: string)
    requires IsLimitView(s, limits)
    ensures hash in limits ==>
              && LimitFrom(s, hash, RequestsPerMinute, limits[hash].requestsPerMinute)
              && LimitFrom(s, hash, RequestsPerDay, limits[hash].requestsPerDay)
              && LimitFrom(s, hash, TokensPerMinute, limits[hash].tokensPerMinute)
              && LimitFrom(s, hash, TokensPerDay, limits[hash].tokensPerDay)
    ensures hash !in limits ==> forall t :: LimitFrom(s, hash, t, None)
  {
    OneLimit(s, limits, hash, RequestsPerMinute);
    OneLimit(s, limits, hash, RequestsPerDay);
    OneLimit(s, limits, hash, TokensPerMinute);
    OneLimit(s, limits, hash, TokensPerDay);
    forall t ensures hash !in limits ==> LimitFrom(s, hash, t, None) {
      OneLimit(s, limits, hash, t);
    }
  }

  lemma OneLimit(s: Store, limits: map<string, RateLimitConfig>, hash: string, t: LimitType)
    requires IsLimitView(s, limits)
    ensures LimitFrom(s, hash, t, if hash in limits then Field(limits[hash], t) else None)
  {
    LimitExactlyWhenRule(s, limits, hash, t);
  }

  ghost predicate LimitFrom(s: Store, hash: string, t: LimitType, limit: Option<i32>) {
    match limit
    case None => forall v :: !Limited(s, s.links, LimitRow(hash, t, v))
    case Some(v) => Limited(s, s.links, LimitRow(hash, t, v))
  }

  ghost predicate OrderIndependent(s: Store, hash: string, t: LimitType) {
    forall xs, ys :: IsLimitResult(s, xs) && IsLimitResult(s, ys) ==> LastValue(xs, hash, t) == LastValue(ys, hash, t)
  }

  ghost predicate ValuesAgree(s: Store, hash: string, t: LimitType) {
    forall v, w :: Limited(s, s.links, LimitRow(hash, t, v)) && Limited(s, s.links, LimitRow(hash, t, w)) ==> v == w
  }

  lemma MovedLast(s: Store, row: LimitRow) returns (rows: seq<LimitRow>)
    requires Limited(s, s.links, row)
    ensures IsLimitResult(s, rows) && LastValue(rows, row.keyHash, row.limitType) == Some(row.value)
  {
    var view := LimitView(s);
    LimitsJoinedMembers(s, s.links, row);
    var i :| 0 <= i < |view| && view[i] == row;
    rows := MovedToEnd(view, i);
  }

  lemma MovedToEnd(view: seq<LimitRow>, i: nat) returns (rows: seq<LimitRow>)
    requires i < |view|
    ensures multiset(rows) == multiset(view)
    ensures rows != [] && rows[|rows| - 1] == view[i]
  {
    rows := view[..i] + view[i + 1..] + [view[i]];
    assert view == view[..i] + [view[i]] + view[i + 1..];
  }

  /** The limit a key ends up with does not depend on the row order exactly when all
      attached rules of the type have the same value. */
  lemma OrderIndependentIff(s: Store, hash: string, t: LimitType)
    ensures OrderIndependent(s, hash, t) <==> ValuesAgree(s, hash, t)
  {
    if ValuesAgree(s, hash, t) {
      forall xs, ys | IsLimitResult(s, xs) && IsLimitResult(s, ys)
        ensures LastValue(xs, hash, t) == LastValue(ys, hash, t)
      {
        SameLast(s, xs, ys, hash, t);
        SameLast(s, ys, xs, hash, t);
      }
    } else {
      var v, w :| Limited(s, s.links, LimitRow(hash, t, v)) && Limited(s, s.links, LimitRow(hash, t, w)) && v != w;
      var xs := MovedLast(s, LimitRow(hash, t, v));
      var ys := MovedLast(s, LimitRow(hash, t, w));
    }
  }

  lemma SameLast(s: Store, xs: seq<LimitRow>, ys: seq<LimitRow>, hash: string, t: LimitType)
    requires ValuesAgree(s, hash, t) && IsLimitResult(s, xs) && IsLimitResult(s, ys)
    ensures LastValue(xs, hash, t).Some? ==> LastValue(xs, hash, t) == LastValue(ys, hash, t)
  {
    LastValueFound(xs, hash, t);
    LastValueFound(ys, hash, t);
    if LastValue(xs, hash, t).Some? {
      var row := LimitRow(hash, t, LastValue(xs, hash, t).value);
      ResultRow(s, xs, row);
      ResultRow(s, ys, row);
      ResultRow(s, ys, LimitRow(hash, t, LastValue(ys, hash, t).value));
    }
  }

  // ---- One whole cache ----

  ghost predicate IsFullView(s: Store, cache: GatewayCache) {
    && IsKeyView(s, cache.keyHashes)
    && IsRouteView(s, cache.modelRoutes)
    && IsLimitView(s, cache.rateLimits)
  }

  /** Limits and keys read from the same state: only valid keys have limits. */
  lemma LimitedKeysAreValid(s: Store, cache: GatewayCache)
    requires IsKeyView(s, cache.keyHashes) && IsLimitView(s, cache.rateLimits)
    ensures cache.rateLimits.Keys <= cache.keyHashes.Keys
  {
    var rows :| IsLimitResult(s, rows) && LimitsAre(cache.rateLimits, rows);
    forall hash | hash in cache.rateLimits ensures hash in cache.keyHashes {
      assert LimitsOf(cache.rateLimits, rows, hash);
      var r: LimitRow :| r in rows && r.keyHash == hash;
      ResultRow(s, rows, r);
    }
  }

  /** `load_full_cache` on an unchanging database. */
  method LoadFullCache(s: Store, order: seq<Id>, candidates: seq<CandidateRow>, limits: seq<LimitRow>)
    returns (cache: GatewayCache)
    requires HashesUnique(s.keys) && forall id :: id in order <==> id in s.keys
    requires IsCandidateResult(s, candidates) && IsLimitResult(s, limits)
    ensures IsFullView(s, cache)
    ensures cache.rateLimits.Keys <= cache.keyHashes.Keys
  {
    var keyHashes := LoadKeyHashes(s, order);
    var modelRoutes := LoadModelRoutes(candidates);
    var rateLimits := LoadRateLimits(limits);
    cache := GatewayCache(keyHashes, modelRoutes, rateLimits);
    LimitedKeysAreValid(s, cache);
  }
}
