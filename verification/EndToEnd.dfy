/** From a row of the database to a call upstream: the loader, the cache and the
    request machine together. */
module EndToEnd {
  import opened Wrappers
  import opened RouteSelection
  import opened Schema
  import opened Cache
  import opened CacheLoader
  import opened Gateway
  import opened GatewayRuns
  import opened GatewayRequests

  /** The database versions the key map and the route map of a cache were read from. */
  datatype Origin = Origin(keys: Store, routes: Store)

  ghost predicate LoadedFrom(cache: GatewayCache, o: Origin) {
    IsKeyView(o.keys, cache.keyHashes) && IsRouteView(o.routes, cache.modelRoutes)
  }

  ghost predicate AllLoaded(versions: seq<GatewayCache>, origins: seq<Origin>) {
    |origins| == |versions| && forall v :: 0 <= v < |versions| ==> LoadedFrom(versions[v], origins[v])
  }

  /** No cache the loader builds has a model with an empty list. */
  lemma LoadedCacheHasNoEmptyTargets(s: Store, cache: GatewayCache)
    requires IsRouteView(s, cache.modelRoutes)
    ensures NoEmptyTargets(cache)
  {
    forall model | model in cache.modelRoutes ensures cache.modelRoutes[model].routes != [] {
      var _ := FirstRouteIsBest(s, cache.modelRoutes, model);
    }
  }

  /** Every cached route is an enabled route of an enabled policy for its model, as the
      tables have it. */
  lemma CachedRouteIsEnabledRow(s: Store, targets: map<string, ModelTarget>, model: string, i: nat)
    returns (r: RouteRow)
    requires IsRouteView(s, targets) && model in targets && i < |targets[model].routes|
    ensures ServesModel(s, r, model) && IsCandidateFor(s, r, targets[model].routes[i])
  {
    var routes := TargetHoldsServingRoutes(s, targets, model);
    ServingMembers(s, routes, model);
    r := routes[i];
  }

  /** The request carries the hash of an enabled key, and is attributed to that key. */
  predicate KeyEnabled(s: Store, job: Job) {
    && job.front.Bearer? && job.ctx.apiKeyId.Some? && job.ctx.apiKeyId.value in s.keys
    && s.keys[job.ctx.apiKeyId.value].enabled && s.keys[job.ctx.apiKeyId.value].hash == job.front.hash
  }

  /** The call it sent goes to the provider of this enabled route of an enabled policy. */
  ghost predicate CallsRow(parse: UrlParser, job: Job, s: Store, r: RouteRow) {
    && (exists model :: ServesModel(s, r, model))
    && exists c :: IsCandidateFor(s, r, c) && CallFrom(parse, job, c)
  }

  lemma CachedKeyIsEnabled(s: Store, hashes: map<string, Id>, job: Job)
    requires IsKeyView(s, hashes) && job.front.Bearer?
    requires job.front.hash in hashes && job.ctx.apiKeyId == Some(hashes[job.front.hash])
    ensures KeyEnabled(s, job)
  {
  }

  /** Every forwarded request belongs to a key that was enabled in the database version
      its key lookup goes back to. */
  lemma ForwardedKeyWasEnabled(parse: UrlParser, cache: GatewayCache, es: seq<Event>, id: nat, origins: seq<Origin>)
    returns (k: nat)
    requires CanRun(parse, Initial(cache), es)
    requires AllLoaded(Exec(parse, Initial(cache), es).versions, origins)
    requires id in Exec(parse, Initial(cache), es).jobs && Exec(parse, Initial(cache), es).jobs[id].stage.Forwarding?
    ensures k < |origins| && KeyEnabled(origins[k].keys, Exec(parse, Initial(cache), es).jobs[id])
  {
    var s := Exec(parse, Initial(cache), es);
    ForwardedKeyWasPublished(parse, cache, es, id);
    k := s.jobs[id].keySeen.value;
    CachedKeyIsEnabled(origins[k].keys, s.versions[k].keyHashes, s.jobs[id]);
  }

  lemma PickIsRow(parse: UrlParser, versions: seq<GatewayCache>, job: Job, p: Pick, o: Origin) returns (r: RouteRow)
    requires Serves(parse, versions, job, p) && LoadedFrom(versions[p.version], o)
    ensures CallsRow(parse, job, o.routes, r) && ServesModel(o.routes, r, p.model)
  {
    r := CachedRouteIsEnabledRow(o.routes, versions[p.version].modelRoutes, p.model, p.index);
  }

  /** Every forwarded request is sent to the provider of an enabled route of an enabled
      policy of the database. A body that names a model is looked up under it; if the
      version read then has it, the policy is one for that model in that version's own
      origin. */
  lemma ForwardedRouteWasEnabled(parse: UrlParser, cache: GatewayCache, es: seq<Event>, id: nat, origins: seq<Origin>)
    returns (v: nat, r: RouteRow)
    requires CanRun(parse, Initial(cache), es)
    requires AllLoaded(Exec(parse, Initial(cache), es).versions, origins)
    requires id in Exec(parse, Initial(cache), es).jobs && Exec(parse, Initial(cache), es).jobs[id].stage.Forwarding?
    ensures var s := Exec(parse, Initial(cache), es);
            var job := s.jobs[id];
            && v < |origins| && CallsRow(parse, job, origins[v].routes, r)
            && (Asks(job) ==> LookedForModel(s.versions, job))
            && (ModelFound(s.versions, job) ==>
                  job.routesSeen == Some(v) && ServesModel(origins[v].routes, r, job.body.model))
  {
    var s := Exec(parse, Initial(cache), es);
    OneRoutePerRequest(parse, cache, es, id);
    var p: Pick :| Serves(parse, s.versions, s.jobs[id], p);
    v := p.version;
    r := PickIsRow(parse, s.versions, s.jobs[id], p, origins[v]);
  }

  /** With priority routing, a forwarded request whose body names a model that the version
      read at its lookup has is sent to a best route of that version's database. */
  lemma PriorityReachesBest(parse: UrlParser, cache: GatewayCache, es: seq<Event>, id: nat, origins: seq<Origin>)
    requires CanRun(parse, Initial(cache), es)
    requires AllLoaded(Exec(parse, Initial(cache), es).versions, origins)
    requires id in Exec(parse, Initial(cache), es).jobs
    requires var job := Exec(parse, Initial(cache), es).jobs[id];
             job.stage.Forwarding? && Asks(job)
    ensures var s := Exec(parse, Initial(cache), es);
            var job := s.jobs[id];
            && LookedForModel(s.versions, job)
            && var v := job.routesSeen.value;
               HasRoutes(s.versions[v], job.body.model)
               && s.versions[v].modelRoutes[job.body.model].strategy.Priority? ==>
                 exists best :: IsBest(origins[v].routes, best, job.body.model)
                   && CallsRow(parse, job, origins[v].routes, best)
  {
    var s := Exec(parse, Initial(cache), es);
    var job := s.jobs[id];
    OneRoutePerRequest(parse, cache, es, id);
    var p: Pick :| Serves(parse, s.versions, job, p);
    var v := job.routesSeen.value;
    if HasRoutes(s.versions[v], job.body.model) && s.versions[v].modelRoutes[job.body.model].strategy.Priority? {
      assert p.index == 0 && LoadedFrom(s.versions[v], origins[v]);
      var best := FirstRouteIsBest(origins[v].routes, s.versions[v].modelRoutes, p.model);
      assert CallsRow(parse, job, origins[v].routes, best);
    }
  }
}
