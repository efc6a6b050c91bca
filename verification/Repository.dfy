/** The policy writes as the admin API performs them: statement by statement on a
    transaction that is committed at the end or thrown away. */
module Repository {
  import opened Wrappers
  import opened Collections
  import opened Schema
  import opened Statements
  import opened Integrity
  import opened PolicyWrites
  import opened Loaders
  import opened KeyListing

  lemma {:induction false} RulesFailEarly(s: Store, id: Id, rules: seq<RuleRequest>, now: nat, i: nat)
    requires i <= |rules|
    ensures UpsertRules(s, id, rules[..i], now).Err? ==>
        UpsertRules(s, id, rules, now) == UpsertRules(s, id, rules[..i], now)
    ensures InsertRules(s, id, rules[..i], now).Err? ==>
        InsertRules(s, id, rules, now) == InsertRules(s, id, rules[..i], now)
    decreases |rules|
  {
    if i == |rules| {
      assert rules[..i] == rules;
    } else {
      RulesFailEarly(s, id, rules[..|rules| - 1], now, i);
      assert rules[..|rules| - 1][..i] == rules[..i];
    }
  }

  lemma {:induction false} RoutesFailEarly(s: Store, id: Id, routes: seq<RouteRequest>, now: nat, i: nat)
    requires i <= |routes|
    ensures UpsertRoutes(s, id, routes[..i], now).Err? ==>
        UpsertRoutes(s, id, routes, now) == UpsertRoutes(s, id, routes[..i], now)
    ensures InsertRoutes(s, id, routes[..i], now).Err? ==>
        InsertRoutes(s, id, routes, now) == InsertRoutes(s, id, routes[..i], now)
    decreases |routes|
  {
    if i == |routes| {
      assert routes[..i] == routes;
    } else {
      RoutesFailEarly(s, id, routes[..|routes| - 1], now, i);
      assert routes[..|routes| - 1][..i] == routes[..i];
    }
  }

  method RunUpsertRules(s: Store, id: Id, rules: seq<RuleRequest>, now: nat) returns (done: Outcome)
    ensures done == UpsertRules(s, id, rules, now)
  {
    var tx := s;
    for i := 0 to |rules|
      invariant UpsertRules(s, id, rules[..i], now) == Ok(tx)
    {
      assert rules[..i + 1][..i] == rules[..i];
      RulesFailEarly(s, id, rules, now, i + 1);
      var one := UpsertRule(tx, RuleRowFor(id, rules[i], now));
      if one.Err? {
        return one;
      }
      tx := one.value;
    }
    assert rules[..|rules|] == rules;
    return Ok(tx);
  }

  method RunUpsertRoutes(s: Store, id: Id, routes: seq<RouteRequest>, now: nat) returns (done: Outcome)
    ensures done == UpsertRoutes(s, id, routes, now)
  {
    var tx := s;
    for i := 0 to |routes|
      invariant UpsertRoutes(s, id, routes[..i], now) == Ok(tx)
    {
      assert routes[..i + 1][..i] == routes[..i];
      RoutesFailEarly(s, id, routes, now, i + 1);
      var one := UpsertRoute(tx, RouteRowFor(id, routes[i], now));
      if one.Err? {
        return one;
      }
      tx := one.value;
    }
    assert routes[..|routes|] == routes;
    return Ok(tx);
  }

  /** DELETE, then one INSERT per entry. */
  method RunReplaceRules(s: Store, id: Id, rules: seq<RuleRequest>, now: nat) returns (done: Outcome)
    ensures done == ReplaceRules(s, id, Some(rules), now)
  {
    var cleared := DeleteRules(s, id);
    var tx := cleared;
    for i := 0 to |rules|
      invariant InsertRules(cleared, id, rules[..i], now) == Ok(tx)
    {
      assert rules[..i + 1][..i] == rules[..i];
      RulesFailEarly(cleared, id, rules, now, i + 1);
      var one := InsertRule(tx, RuleRowFor(id, rules[i], now));
      if one.Err? {
        return one;
      }
      tx := one.value;
    }
    assert rules[..|rules|] == rules;
    return Ok(tx);
  }

  method RunReplaceRoutes(s: Store, id: Id, routes: seq<RouteRequest>, now: nat) returns (done: Outcome)
    ensures done == ReplaceRoutes(s, id, Some(routes), now)
  {
    var cleared := DeleteRoutes(s, id);
    var tx := cleared;
    for i := 0 to |routes|
      invariant InsertRoutes(cleared, id, routes[..i], now) == Ok(tx)
    {
      assert routes[..i + 1][..i] == routes[..i];
      RoutesFailEarly(cleared, id, routes, now, i + 1);
      var one := InsertRoute(tx, RouteRowFor(id, routes[i], now));
      if one.Err? {
        return one;
      }
      tx := one.value;
    }
    assert routes[..|routes|] == routes;
    return Ok(tx);
  }

  lemma UpdatingNothing(s: Store, id: Id)
    ensures UpdatePolicy(s, id, None, None) == s
  {
    if id in s.policies {
      assert s.policies[id := s.policies[id]] == s.policies;
    }
  }

  /** In a valid store the link just attached reads back enabled. */
  lemma AttachReadsBack(s: Store, keyId: Id, policyId: Id, now: nat)
    requires Valid(s)
    ensures var done := UpsertLink(s, LinkRow(keyId, policyId, true, now));
            && (done.Ok? <==> keyId in s.keys && policyId in s.policies)
            && (done.Ok? ==>
                  && Attached(s, done.value, keyId, policyId, now)
                  && var read := GetKeyPolicy(done.value, keyId, policyId);
                     read.Ok? && read.value.policyId == policyId && read.value.enabled)
  {
    AttachGivesOneEnabledLink(s, keyId, policyId, now, now);
    var done := UpsertLink(s, LinkRow(keyId, policyId, true, now));
    if done.Ok? {
      var after := done.value;
      FirstLinkFound(after.links, keyId, policyId);
      FilterMembers(LinkIs(keyId, policyId), after.links);
      assert Filter(LinkIs(keyId, policyId), after.links)[0] in Filter(LinkIs(keyId, policyId), after.links);
      UpsertLinkValid(s, LinkRow(keyId, policyId, true, now));
      assert s.policies[policyId].modelId in s.models;
    }
  }

  lemma {:induction false} FirstLinkFound(links: seq<LinkRow>, keyId: Id, policyId: Id)
    ensures var mine := Filter(LinkIs(keyId, policyId), links);
            FindLink(links, keyId, policyId) == if mine == [] then None else Some(mine[0])
  {
    if links != [] {
      FirstLinkFound(links[1..], keyId, policyId);
    }
  }

  class Repository {
    var db: Store

    constructor (initial: Store)
      ensures db == initial
    {
      db := initial;
    }

    /** `id` and `now` are the generated id and the transaction time. */
    method CreateMappingPolicy(id: Id, request: CreateRequest, now: nat)
      returns (result: Result<MappingPolicy, DbError>)
      modifies this
      ensures match CreatePolicy(old(db), id, request, now)
              case Err(e) => db == old(db) && result == Err(e)
              case Ok(after) => db == after && result == GetMappingPolicy(after, id)
    {
      var inserted := InsertPolicy(db, id, PolicyRow(request.modelId, request.strategy, request.enabled, now));
      if inserted.Err? {
        return Err(inserted.error);
      }
      var ruled := RunUpsertRules(inserted.value, id, request.rules, now);
      if ruled.Err? {
        return Err(ruled.error);
      }
      var routed := RunUpsertRoutes(ruled.value, id, request.routes, now);
      if routed.Err? {
        return Err(routed.error);
      }
      db := routed.value;
      return GetMappingPolicy(db, id);
    }

    /** The read after the commit fails when no policy has this id. */
    method UpdateMappingPolicy(id: Id, request: UpdateRequest, now: nat)
      returns (result: Result<MappingPolicy, DbError>)
      modifies this
      ensures match WritePolicyUpdate(old(db), id, request, now)
              case Err(e) => db == old(db) && result == Err(e)
              case Ok(after) => db == after && result == GetMappingPolicy(after, id)
    {
      var tx := db;
      UpdatingNothing(tx, id);
      if request.strategy.Some? || request.enabled.Some? {
        tx := UpdatePolicy(tx, id, request.strategy, request.enabled);
      }
      if request.rules.Some? {
        var done := RunReplaceRules(tx, id, request.rules.value, now);
        if done.Err? {
          return Err(done.error);
        }
        tx := done.value;
      }
      if request.routes.Some? {
        var done := RunReplaceRoutes(tx, id, request.routes.value, now);
        if done.Err? {
          return Err(done.error);
        }
        tx := done.value;
      }
      db := tx;
      return GetMappingPolicy(db, id);
    }

    /** Attaching, once or again, ends with exactly one link of the pair, enabled, and
        reads it back; it fails exactly when key or policy is missing. */
    method AttachApiKeyMappingPolicy(keyId: Id, policyId: Id, now: nat)
      returns (result: Result<KeyPolicy, DbError>)
      modifies this
      ensures Valid(old(db)) ==> (result.Ok? <==> keyId in old(db).keys && policyId in old(db).policies)
      ensures Valid(old(db)) && result.Ok? ==>
        && Attached(old(db), db, keyId, policyId, now)
        && result.value.policyId == policyId && result.value.enabled
      ensures Valid(old(db)) && result.Err? ==> db == old(db)
      ensures match UpsertLink(old(db), LinkRow(keyId, policyId, true, now))
              case Err(e) => db == old(db) && result == Err(e)
              case Ok(after) => db == after && result == GetKeyPolicy(after, keyId, policyId)
    {
      if Valid(db) {
        AttachReadsBack(db, keyId, policyId, now);
      }
      var done := UpsertLink(db, LinkRow(keyId, policyId, true, now));
      if done.Err? {
        return Err(done.error);
      }
      db := done.value;
      return GetKeyPolicy(db, keyId, policyId);
    }
  }
}
