/** The rate bound of the whole system, from the rules in the database. */
module DeployedLimits {
  import opened Wrappers
  import opened MachineInts
  import opened RateLimiter
  import opened Schema
  import opened AdminOps
  import opened Cache
  import opened Gateway
  import opened CacheLoader
  import opened GatewayLimits
  import opened Deployment
  import GR = GatewayRuns
  import GQ = GatewayRequests
  import CR = CacheRefresh
  import LR = LimiterRuns
  import LB = LimiterBounds

  /** An enabled key has this hash. */
  predicate KeyIn(s: Store, key: string) {
    exists id :: id in s.keys && s.keys[id].enabled && s.keys[id].hash == key
  }

  function MinuteRow(key: string, value: i32): LimitRow {
    LimitRow(key, RequestsPerMinute, value)
  }

  /** Some enabled policy attached to the key has a requests-per-minute rule, and every
      such rule has this value. */
  ghost predicate LimitIs(s: Store, key: string, limit: i32) {
    && Limited(s, s.links, MinuteRow(key, limit))
    && forall value: i32 :: Limited(s, s.links, MinuteRow(key, value)) ==> value == limit
  }

  /** From the first version with the key on, every version limits it so. */
  ghost predicate LimitedOnceThere(history: seq<Store>, key: string, limit: i32) {
    forall x, y :: 0 <= x <= y < |history| && KeyIn(history[x], key) ==> LimitIs(history[y], key, limit)
  }

  lemma ViewCaps(s: Store, cache: GatewayCache, key: string, limit: i32)
    requires IsLimitView(s, cache.rateLimits) && LimitIs(s, key, limit)
    ensures Caps(cache, key, limit)
  {
    LimitExactlyWhenRule(s, cache.rateLimits, key, RequestsPerMinute);
    var config := cache.rateLimits[key];
    assert Limited(s, s.links, MinuteRow(key, Field(config, RequestsPerMinute).value));
  }

  /** A publication that lists the key, and one that read its limits no earlier. */
  lemma PublicationsCap(history: seq<Store>, listing: CR.Publication, limiting: CR.Publication, key: string, limit: i32)
    requires CR.Faithful(history, listing) && CR.Faithful(history, limiting) && listing.k <= limiting.l
    requires LimitedOnceThere(history, key, limit) && key in listing.cache.keyHashes
    ensures Caps(limiting.cache, key, limit)
  {
    assert KeyIn(history[listing.k], key);
    ViewCaps(history[limiting.l], limiting.cache, key, limit);
  }

  lemma KeysReadFirst(history: seq<Store>, published: seq<CR.Publication>, h: nat, i: nat)
    requires h <= i < |published| && CR.AllFaithful(history, published) && CR.InOrder(published)
    ensures CR.Faithful(history, published[h]) && CR.Faithful(history, published[i])
    ensures published[h].k <= published[i].l
  {
  }

  lemma LaterCaps(history: seq<Store>, published: seq<CR.Publication>, key: string, limit: i32, h: nat, i: nat)
    requires CR.AllFaithful(history, published) && CR.InOrder(published) && LimitedOnceThere(history, key, limit)
    requires h <= i < |published| && key in published[h].cache.keyHashes
    ensures Caps(published[i].cache, key, limit)
  {
    KeysReadFirst(history, published, h, i);
    PublicationsCap(history, published[h], published[i], key, limit);
  }

  /** Each publication caps the key if that one or an earlier one lists it. */
  predicate PublicationsCapOnceListed(published: seq<CR.Publication>, key: string, limit: i32) {
    forall h, i :: 0 <= h <= i < |published| && key in published[h].cache.keyHashes ==>
      Caps(published[i].cache, key, limit)
  }

  lemma PublishedCap(history: seq<Store>, published: seq<CR.Publication>, key: string, limit: i32)
    requires CR.AllFaithful(history, published) && CR.InOrder(published) && LimitedOnceThere(history, key, limit)
    ensures PublicationsCapOnceListed(published, key, limit)
  {
    forall h, i | 0 <= h <= i < |published| && key in published[h].cache.keyHashes
      ensures Caps(published[i].cache, key, limit)
    {
      LaterCaps(history, published, key, limit, h, i);
    }
  }

  lemma VersionsCap(published: seq<CR.Publication>, key: string, limit: i32)
    requires PublicationsCapOnceListed(published, key, limit)
    ensures CapOnceListed([NEW_CACHE] + Published(published), key, limit)
  {
    var versions := [NEW_CACHE] + Published(published);
    forall h, i | 0 <= h <= i < |versions| && key in versions[h].keyHashes ensures Caps(versions[i], key, limit) {
      VersionIsPublished(published, h);
      VersionIsPublished(published, i);
    }
  }

  /** The caches of a run cap the key once they list it. */
  lemma RunCaps(w: World, db: Store, es: seq<Event>, key: string, limit: i32)
    requires CanRun(w, Initial(db), es)
    requires LimitedOnceThere(Exec(w, Initial(db), es).refresh.history, key, limit)
    ensures CapOnceListed(Exec(w, Initial(db), es).gateway.versions, key, limit)
  {
    var d := Exec(w, Initial(db), es);
    Ties(w, db, es);
    CachesAreLoaded(w, db, es);
    PublishedCap(d.refresh.history, d.refresh.published, key, limit);
    VersionsCap(d.refresh.published, key, limit);
  }

  /** In every run of the whole system: if from the first database version with the key on
      its attached enabled policies give it requests-per-minute rules, all of value L, and
      at most k of its requests are ever between a passed check and their record, no 61 s
      hold more than L - 1 + k recorded requests. */
  lemma SystemBound(w: World, db: Store, es: seq<Event>, key: string, limit: i32, k: nat)
    requires CanRun(w, Initial(db), es)
    requires LimitedOnceThere(Exec(w, Initial(db), es).refresh.history, key, limit)
    requires GR.CanRun(w.parse, GR.Initial(NEW_CACHE), GatewaySteps(w, Initial(db), es)) ==>
               Crowd(w.parse, GR.Initial(NEW_CACHE), GatewaySteps(w, Initial(db), es), key, k)
    requires LB.Bound(limit, k) < TWO_31
    ensures forall from: Instant ::
              LB.RecordedIn(LR.LogOf(Exec(w, Initial(db), es).gateway.lim, key), from) <= LB.Bound(limit, k)
  {
    RunsGateway(w, Initial(db), es);
    RunCaps(w, db, es, key, limit);
    GatewayBound(w.parse, NEW_CACHE, GatewaySteps(w, Initial(db), es), key, limit, k);
  }

  // ---- Token limits ----

  lemma {:induction false} VersionsAreValid(history: seq<Store>, ops: seq<Op>, i: nat)
    requires MadeBy(history, ops) && i < |history| && Valid(history[0])
    ensures Valid(history[i])
  {
    if i > 0 {
      VersionsAreValid(history, ops, i - 1);
      StepValid(history[i - 1], ops[i - 1]);
    }
  }

  lemma LoadedPositive(s: Store, limits: map<string, RateLimitConfig>, key: string)
    requires Valid(s) && IsLimitView(s, limits)
    ensures key in limits ==> PositiveTokens(limits[key])
  {
    LimitExactlyWhenRule(s, limits, key, TokensPerMinute);
  }

  lemma PublishedPositive(history: seq<Store>, p: CR.Publication, key: string)
    requires CR.Faithful(history, p) && Valid(history[p.l])
    ensures key in p.cache.rateLimits ==> PositiveTokens(p.cache.rateLimits[key])
  {
    LoadedPositive(history[p.l], p.cache.rateLimits, key);
  }

  lemma VersionsPositive(history: seq<Store>, ops: seq<Op>, published: seq<CR.Publication>, key: string)
    requires MadeBy(history, ops) && Valid(history[0]) && CR.AllFaithful(history, published)
    ensures PositiveInAll([NEW_CACHE] + Published(published), key)
  {
    var versions := [NEW_CACHE] + Published(published);
    forall v | 0 <= v < |versions| && key in versions[v].rateLimits
      ensures PositiveTokens(versions[v].rateLimits[key])
    {
      VersionIsPublished(published, v);
      var p := published[v - 1];
      assert CR.Faithful(history, p);
      VersionsAreValid(history, ops, p.l);
      PublishedPositive(history, p, key);
    }
  }

  /** The history starts with the database given. */
  lemma HistoryStarts(w: World, db: Store, es: seq<Event>)
    requires CanRun(w, Initial(db), es)
    ensures var h := Exec(w, Initial(db), es).refresh.history; h != [] && h[0] == db
  {
    RunsRefresh(w, Initial(db), es);
    RefreshGrows(CR.Initial(db), RefreshSteps(w, Initial(db), es));
    assert [db] <= Exec(w, Initial(db), es).refresh.history;
  }

  /** The caches of a run give the key no token limit below 1. */
  lemma RunPositive(w: World, db: Store, es: seq<Event>, key: string)
    requires CanRun(w, Initial(db), es) && Valid(db)
    ensures PositiveInAll(Exec(w, Initial(db), es).gateway.versions, key)
  {
    var d := Exec(w, Initial(db), es);
    Ties(w, db, es);
    HistoryStarts(w, db, es);
    CachesAreLoaded(w, db, es);
    VersionsPositive(d.refresh.history, d.ops, d.refresh.published, key);
  }

  /** Only a request with a hash is rejected by the limiter. */
  lemma RejectedHasHash(parse: UrlParser, cache: GatewayCache, es: seq<GR.Event>, id: nat)
    requires GR.CanRun(parse, GR.Initial(cache), es) && id in GR.Exec(parse, GR.Initial(cache), es).jobs
    ensures var ctx := GR.Exec(parse, GR.Initial(cache), es).jobs[id].ctx;
            ctx.rejectReason.Some? ==> ctx.keyHash.Some?
  {
    var s := GR.Exec(parse, GR.Initial(cache), es);
    GR.RunLimiterInv(parse, GR.Initial(cache), es);
    GQ.InitialAccounts(parse, cache, es);
    assert GR.LimiterAgrees(s, id) && GQ.AuthOk(s.jobs[id]);
  }

  /** From a database that keeps its constraints, whatever token rules it holds and however
      they change, no request is ever rejected for tokens: rules are positive, and the
      gateway records 0 tokens for each request. */
  lemma NoRequestRejectedForTokens(w: World, db: Store, es: seq<Event>, id: nat)
    requires CanRun(w, Initial(db), es) && Valid(db)
    requires id in Exec(w, Initial(db), es).gateway.jobs
    ensures var job := Exec(w, Initial(db), es).gateway.jobs[id];
            job.ctx.rejectReason.Some? ==> job.ctx.rejectReason.value.RequestsExceeded?
  {
    var job := Exec(w, Initial(db), es).gateway.jobs[id];
    var steps := GatewaySteps(w, Initial(db), es);
    RunsGateway(w, Initial(db), es);
    RejectedHasHash(w.parse, NEW_CACHE, steps, id);
    if job.ctx.rejectReason.Some? {
      var key := job.ctx.keyHash.value;
      RunPositive(w, db, es, key);
      TokensNeverReject(w.parse, NEW_CACHE, steps, key);
      assert match job.ctx.rejectReason.value
        case RequestsExceeded(_, _) => true
        case TokensExceeded(total, limit) => job.ctx.rejectReason != Some(TokensExceeded(total, limit));
    }
  }
}
