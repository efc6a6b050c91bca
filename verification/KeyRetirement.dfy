/** A key that is rotated, disabled or deleted, and the caches loaded afterwards. */
module KeyRetirement {
  import opened RateLimiter
  import opened Schema
  import opened Statements
  import opened PolicyWrites
  import opened AdminOps
  import opened CacheLoader
  import opened CacheRefresh

  /** No enabled key has this hash. */
  ghost predicate Dead(s: Store, hash: string) {
    forall id :: id in s.keys && s.keys[id].hash == hash ==> !s.keys[id].enabled
  }

  /** The operation gives an enabled key this hash. */
  predicate Revives(s: Store, op: Op, hash: string) {
    match op
    case CreateApiKey(_, _, h) => h == hash
    case RotateApiKey(_, h) => h == hash
    case UpdateApiKey(id, _, enabled) => enabled && id in s.keys && s.keys[id].hash == hash
    case _ => false
  }

  /** Rotation to a different hash, disabling, and deletion all end the old hash. */
  lemma RetiringEndsHash(s: Store, op: Op, id: Id)
    requires Valid(s) && id in s.keys && Perform(s, op).Ok?
    requires || (op.RotateApiKey? && op.id == id && op.hash != s.keys[id].hash)
             || (op.UpdateApiKey? && op.id == id && !op.enabled)
             || (op.DeleteApiKey? && op.id == id)
    ensures Dead(Step(s, op), s.keys[id].hash)
  {
  }

  lemma DeleteKeepsKeys(s: Store, op: Op, id: Id)
    requires IsDelete(op) && id in Step(s, op).keys
    ensures id in s.keys && Step(s, op).keys[id] == s.keys[id]
  {
    assert Perform(s, op) == Delete(s, DoomedBy(op));
  }

  lemma KeysKept(s: Store, op: Op, id: Id)
    requires id in Step(s, op).keys
    requires !op.CreateApiKey? && !op.RotateApiKey? && !op.UpdateApiKey?
    ensures id in s.keys && Step(s, op).keys[id] == s.keys[id]
  {
    if IsDelete(op) {
      DeleteKeepsKeys(s, op, id);
    } else if op.CreateMappingPolicy? {
      CreateKeepsKeys(s, op.id, op.create, op.now);
    } else if op.UpdateMappingPolicy? {
      UpdateReplacesExactly(s, op.id, op.update, op.now);
    }
  }

  lemma {:induction false} RulesKeepKeys(s: Store, id: Id, rules: seq<RuleRequest>, now: nat)
    ensures UpsertRules(s, id, rules, now).Ok? ==> UpsertRules(s, id, rules, now).value.keys == s.keys
  {
    if rules != [] {
      RulesKeepKeys(s, id, rules[..|rules| - 1], now);
    }
  }

  lemma {:induction false} RoutesKeepKeys(s: Store, id: Id, routes: seq<RouteRequest>, now: nat)
    ensures UpsertRoutes(s, id, routes, now).Ok? ==> UpsertRoutes(s, id, routes, now).value.keys == s.keys
  {
    if routes != [] {
      RoutesKeepKeys(s, id, routes[..|routes| - 1], now);
    }
  }

  lemma CreateKeepsKeys(s: Store, id: Id, create: CreateRequest, now: nat)
    ensures CreatePolicy(s, id, create, now).Ok? ==> CreatePolicy(s, id, create, now).value.keys == s.keys
  {
    var first := InsertPolicy(s, id, PolicyRow(create.modelId, create.strategy, create.enabled, now));
    if first.Ok? {
      RulesKeepKeys(first.value, id, create.rules, now);
      var ruled := UpsertRules(first.value, id, create.rules, now);
      if ruled.Ok? {
        RoutesKeepKeys(ruled.value, id, create.routes, now);
      }
    }
  }

  lemma StaysDead(s: Store, op: Op, hash: string)
    requires Dead(s, hash) && !Revives(s, op, hash)
    ensures Dead(Step(s, op), hash)
  {
    var s' := Step(s, op);
    forall id | id in s'.keys && s'.keys[id].hash == hash ensures !s'.keys[id].enabled {
      if !op.CreateApiKey? && !op.RotateApiKey? && !op.UpdateApiKey? {
        KeysKept(s, op, id);
      }
    }
  }

  ghost predicate NeverRevived(history: seq<Store>, ops: seq<Op>, hash: string, v: nat)
    requires MadeBy(history, ops)
  {
    forall j :: v <= j < |ops| ==> !Revives(history[j], ops[j], hash)
  }

  lemma DeadOneStep(history: seq<Store>, ops: seq<Op>, hash: string, j: nat)
    requires MadeBy(history, ops) && j < |ops|
    requires Dead(history[j], hash) && !Revives(history[j], ops[j], hash)
    ensures Dead(history[j + 1], hash)
  {
    StaysDead(history[j], ops[j], hash);
  }

  lemma {:induction false} DeadFromThenOn(history: seq<Store>, ops: seq<Op>, hash: string, v: nat, i: nat)
    requires MadeBy(history, ops) && v <= i < |history|
    requires Dead(history[v], hash) && NeverRevived(history, ops, hash, v)
    ensures Dead(history[i], hash)
  {
    if i > v {
      DeadFromThenOn(history, ops, hash, v, i - 1);
      DeadOneStep(history, ops, hash, i - 1);
    }
  }

  /** Every load begun at or after the version in which a key was rotated, disabled or
      deleted publishes a cache without the old hash, neither as a key nor with
      limits, unless some later operation brings that very hash back. */
  lemma RetiredHashLeavesCache(db: Store, es: seq<Event>, ops: seq<Op>, hash: string, v: nat, i: nat)
    requires CanRun(Initial(db), es) && MadeBy(Exec(Initial(db), es).history, ops)
    requires v < |Exec(Initial(db), es).history| && Dead(Exec(Initial(db), es).history[v], hash)
    requires NeverRevived(Exec(Initial(db), es).history, ops, hash, v)
    requires i < |Exec(Initial(db), es).published| && v <= Exec(Initial(db), es).published[i].begin
    ensures var cache := Exec(Initial(db), es).published[i].cache;
            hash !in cache.keyHashes && hash !in cache.rateLimits
  {
    PublicationsAgreeWithDatabase(db, es);
    var s := Exec(Initial(db), es);
    var p := s.published[i];
    assert Faithful(s.history, p);
    DeadFromThenOn(s.history, ops, hash, v, p.k);
    DeadFromThenOn(s.history, ops, hash, v, p.l);
    DeadHasNoLimits(s.history[p.l], p.cache.rateLimits, hash);
  }

  /** And so do all publications after the first such load. */
  lemma RetiredHashStaysAway(db: Store, es: seq<Event>, ops: seq<Op>, hash: string, v: nat, i: nat, j: nat)
    requires CanRun(Initial(db), es) && MadeBy(Exec(Initial(db), es).history, ops)
    requires v < |Exec(Initial(db), es).history| && Dead(Exec(Initial(db), es).history[v], hash)
    requires NeverRevived(Exec(Initial(db), es).history, ops, hash, v)
    requires i <= j < |Exec(Initial(db), es).published| && v <= Exec(Initial(db), es).published[i].begin
    ensures hash !in Exec(Initial(db), es).published[j].cache.keyHashes
  {
    PublicationsAgreeWithDatabase(db, es);
    var s := Exec(Initial(db), es);
    assert Faithful(s.history, s.published[i]);
    RetiredHashLeavesCache(db, es, ops, hash, v, j);
  }

  lemma DeadHasNoLimits(s: Store, limits: map<string, RateLimitConfig>, hash: string)
    requires Dead(s, hash) && IsLimitView(s, limits)
    ensures hash !in limits
  {
    var rows :| IsLimitResult(s, rows) && LimitsAre(limits, rows);
    assert LimitsOf(limits, rows, hash);
    if hash in limits {
      var r: LimitRow :| r in rows && r.keyHash == hash;
      ResultRow(s, rows, r);
    }
  }

  // ---- A live key ----

  /** This key is enabled and has this hash. */
  predicate Live(s: Store, id: Id, hash: string) {
    id in s.keys && s.keys[id].enabled && s.keys[id].hash == hash
  }

  /** The operation may end that: it deletes or disables the key, or gives it another hash. */
  predicate Ends(op: Op, id: Id, hash: string) {
    || (op.DeleteApiKey? && op.id == id)
    || (op.UpdateApiKey? && op.id == id && !op.enabled)
    || (op.RotateApiKey? && op.id == id && op.hash != hash)
  }

  lemma DeleteLeavesKey(s: Store, op: Op, id: Id)
    requires IsDelete(op) && id in s.keys && !(op.DeleteApiKey? && op.id == id)
    ensures id in Step(s, op).keys
  {
    assert Perform(s, op) == Delete(s, DoomedBy(op));
  }

  lemma KeyStays(s: Store, op: Op, id: Id)
    requires id in s.keys && !(op.DeleteApiKey? && op.id == id)
    ensures id in Step(s, op).keys
  {
    if IsDelete(op) {
      DeleteLeavesKey(s, op, id);
    } else if op.CreateMappingPolicy? {
      CreateKeepsKeys(s, op.id, op.create, op.now);
    } else if op.UpdateMappingPolicy? {
      UpdateReplacesExactly(s, op.id, op.update, op.now);
    }
  }

  lemma StaysLive(s: Store, op: Op, id: Id, hash: string)
    requires Live(s, id, hash) && !Ends(op, id, hash)
    ensures Live(Step(s, op), id, hash)
  {
    if !op.CreateApiKey? && !op.RotateApiKey? && !op.UpdateApiKey? {
      KeyStays(s, op, id);
      KeysKept(s, op, id);
    }
  }

  predicate NeverEnded(ops: seq<Op>, id: Id, hash: string, v: nat) {
    forall j :: v <= j < |ops| ==> !Ends(ops[j], id, hash)
  }

  lemma LiveOneStep(history: seq<Store>, ops: seq<Op>, id: Id, hash: string, j: nat)
    requires MadeBy(history, ops) && j < |ops|
    requires Live(history[j], id, hash) && !Ends(ops[j], id, hash)
    ensures Live(history[j + 1], id, hash)
  {
    StaysLive(history[j], ops[j], id, hash);
  }

  lemma {:induction false} LiveFromThenOn(history: seq<Store>, ops: seq<Op>, id: Id, hash: string, v: nat, i: nat)
    requires MadeBy(history, ops) && v <= i < |history|
    requires Live(history[v], id, hash) && NeverEnded(ops, id, hash, v)
    ensures Live(history[i], id, hash)
  {
    if i > v {
      LiveFromThenOn(history, ops, id, hash, v, i - 1);
      LiveOneStep(history, ops, id, hash, i - 1);
    }
  }

  /** Rotating an enabled key makes it live under the new hash. */
  lemma RotatedKeyLives(s: Store, id: Id, hash: string)
    requires id in s.keys && s.keys[id].enabled
    requires forall other :: other in s.keys && s.keys[other].hash == hash ==> other == id
    ensures Live(Step(s, RotateApiKey(id, hash)), id, hash)
  {
  }

  /** Every load begun at or after a version in which a key is live lists its hash for
      that key, unless an operation ends it. */
  lemma LiveKeyIsListed(db: Store, es: seq<Event>, ops: seq<Op>, id: Id, hash: string, v: nat, i: nat)
    requires CanRun(Initial(db), es) && MadeBy(Exec(Initial(db), es).history, ops)
    requires v < |Exec(Initial(db), es).history| && Live(Exec(Initial(db), es).history[v], id, hash)
    requires NeverEnded(ops, id, hash, v)
    requires i < |Exec(Initial(db), es).published| && v <= Exec(Initial(db), es).published[i].begin
    ensures var cache := Exec(Initial(db), es).published[i].cache;
            hash in cache.keyHashes && cache.keyHashes[hash] == id
  {
    PublicationsAgreeWithDatabase(db, es);
    var s := Exec(Initial(db), es);
    var p := s.published[i];
    assert Faithful(s.history, p);
    LiveFromThenOn(s.history, ops, id, hash, v, p.k);
  }

  /** A rotated key: every load begun after the rotation of an enabled key to a free hash
      lists the new hash for it. */
  lemma RotatedKeyIsListed(db: Store, es: seq<Event>, ops: seq<Op>, id: Id, hash: string, v: nat, i: nat)
    requires CanRun(Initial(db), es) && MadeBy(Exec(Initial(db), es).history, ops)
    requires v < |ops| && ops[v] == RotateApiKey(id, hash)
    requires var s := Exec(Initial(db), es).history[v];
             && id in s.keys && s.keys[id].enabled
             && forall other :: other in s.keys && s.keys[other].hash == hash ==> other == id
    requires NeverEnded(ops, id, hash, v + 1)
    requires i < |Exec(Initial(db), es).published| && v + 1 <= Exec(Initial(db), es).published[i].begin
    ensures var cache := Exec(Initial(db), es).published[i].cache;
            hash in cache.keyHashes && cache.keyHashes[hash] == id
  {
    RotatedKeyLives(Exec(Initial(db), es).history[v], id, hash);
    LiveKeyIsListed(db, es, ops, id, hash, v + 1, i);
  }

  /** And so do all publications after the first such load. */
  lemma LiveKeyStaysListed(db: Store, es: seq<Event>, ops: seq<Op>, id: Id, hash: string, v: nat, i: nat, j: nat)
    requires CanRun(Initial(db), es) && MadeBy(Exec(Initial(db), es).history, ops)
    requires v < |Exec(Initial(db), es).history| && Live(Exec(Initial(db), es).history[v], id, hash)
    requires NeverEnded(ops, id, hash, v)
    requires i <= j < |Exec(Initial(db), es).published| && v <= Exec(Initial(db), es).published[i].begin
    ensures var cache := Exec(Initial(db), es).published[j].cache;
            hash in cache.keyHashes && cache.keyHashes[hash] == id
  {
    PublicationsAgreeWithDatabase(db, es);
    var s := Exec(Initial(db), es);
    assert Faithful(s.history, s.published[i]);
    LiveKeyIsListed(db, es, ops, id, hash, v, j);
  }
}
