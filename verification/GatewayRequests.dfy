/** What holds for every request of every gateway run: one route per request, exact
    accounting, exactly one audit row, and always a next step. */
module GatewayRequests {
  import opened Wrappers
  import opened MachineInts
  import opened RateLimiter
  import opened RouteSelection
  import opened Schema
  import opened Cache
  import opened Gateway
  import opened GatewayRuns
  import LR = LimiterRuns

  // ---- One route per request ----

  predicate HasRoutes(cache: GatewayCache, model: string) {
    model in cache.modelRoutes && cache.modelRoutes[model].routes != []
  }

  predicate PickOk(versions: seq<GatewayCache>, p: Pick) {
    && p.version < |versions|
    && p.model in versions[p.version].modelRoutes
    && p.index < |versions[p.version].modelRoutes[p.model].routes|
  }

  function RouteAt(versions: seq<GatewayCache>, p: Pick): RouteCandidate
    requires PickOk(versions, p)
  {
    versions[p.version].modelRoutes[p.model].routes[p.index]
  }

  predicate CameFrom(parse: UrlParser, ctx: Context, route: RouteCandidate) {
    var url := parse(route.provider.baseUrl);
    && ctx.upstreamModel == Some(route.providerModelName)
    && ctx.providerId == Some(route.provider.id)
    && ctx.providerBaseUrl == Some(route.provider.baseUrl)
    && ctx.providerName == Some(route.provider.name)
    && ctx.providerKey == Some(route.provider.key)
    && ctx.upstreamHost == (if url.Some? then url.value.host else None)
    && ctx.upstreamPort == (if url.Some? then url.value.port else None)
  }

  /** Address and TLS as the route's base URL says. */
  predicate PeerFor(parse: UrlParser, route: RouteCandidate, peer: Peer) {
    var url := parse(route.provider.baseUrl);
    && (peer.tls <==> "https://" <= route.provider.baseUrl)
    && (url.Some? && url.value.host.Some? ==> peer.host == url.value.host.value)
    && (url.None? || url.value.host.None? ==> peer.host == "api.openai.com")
    && (url.Some? && url.value.port.Some? ==> peer.port == url.value.port.value)
    && (url.None? || url.value.port.None? ==> peer.port == if peer.tls then 443 else 80)
  }

  /** Host, substituted key and path as the route's provider says. */
  ghost predicate HeadersFor(parse: UrlParser, route: RouteCandidate, headers: Headers) {
    var url := parse(route.provider.baseUrl);
    && headers.host == (if url.Some? then url.value.host else None)
    && headers.authorization == Some("Bearer " + route.provider.key)
    && PathFor(parse, route.provider.baseUrl, headers.path)
  }

  ghost predicate CallFrom(parse: UrlParser, job: Job, route: RouteCandidate) {
    && CameFrom(parse, job.ctx, route)
    && (job.peer.Some? ==> PeerFor(parse, route, job.peer.value))
    && (job.headers.Some? ==> HeadersFor(parse, route, job.headers.value))
    && (job.sentModel.Some? ==> job.sentModel.value == route.providerModelName)
  }

  predicate NoCall(job: Job) {
    && job.ctx.upstreamModel.None? && job.ctx.providerId.None? && job.ctx.providerBaseUrl.None?
    && job.ctx.providerName.None? && job.ctx.providerKey.None?
    && job.ctx.upstreamHost.None? && job.ctx.upstreamPort.None?
    && job.peer.None? && job.headers.None? && job.sentModel.None? && job.pick.None?
  }

  predicate NoEmptyTargets(cache: GatewayCache) {
    forall model :: model in cache.modelRoutes ==> cache.modelRoutes[model].routes != []
  }

  /** The body names a model. */
  predicate Asks(job: Job) {
    job.body.Json? && job.body.model != ""
  }

  /** A route of the requested model in the version read at the route lookup: the first
      one if the model is routed by priority, and the one in whose slice of the weights
      the request id falls if it is routed by weight. */
  predicate OwnPick(versions: seq<GatewayCache>, job: Job, p: Pick) {
    && Asks(job) && job.routesSeen == Some(p.version) && p.model == job.body.model
    && p.version < |versions| && p.model in versions[p.version].modelRoutes
    && var target := versions[p.version].modelRoutes[p.model];
       && (target.strategy.Priority? ==> p.index == 0)
       && (target.strategy.Weighted? ==> HoldsDice(target.routes, p.index, job.ctx.requestId))
  }

  predicate HoldsDice(routes: seq<RouteCandidate>, index: nat, dice: nat) {
    && index < |routes| && Total(routes) > 0
    && Total(routes[..index]) <= dice % Total(routes) < Total(routes[..index + 1])
  }

  lemma WeightedChoiceHoldsDice(counters: map<string, u64>, model: string, target: ModelTarget, requestId: u128)
    requires target.routes != [] && target.strategy.Weighted?
    ensures HoldsDice(target.routes, ChoiceIndex(counters, model, target, requestId), requestId)
  {
    TotalPositive(target.routes);
    LandingOwnsPick(target.routes, 0, requestId % Total(target.routes));
  }

  /** The first route of some model in the version read at the fallback. */
  predicate FirstPick(job: Job, p: Pick) {
    job.fallbackSeen == Some(p.version) && p.index == 0
  }

  /** The route lookup took place, in an existing version, for the body's model. */
  predicate LookedForModel(versions: seq<GatewayCache>, job: Job)
    requires Asks(job)
  {
    job.routesSeen.Some? && job.routesSeen.value < |versions| && job.ctx.model == Some(job.body.model)
  }

  /** It found routes for it. */
  predicate ModelFound(versions: seq<GatewayCache>, job: Job) {
    Asks(job) && LookedForModel(versions, job) && HasRoutes(versions[job.routesSeen.value], job.body.model)
  }

  /** The request is past its route lookup, if it had one. */
  predicate PastLookup(stage: Stage) {
    stage.Falling? || stage.Forwarding? || stage == Answered(503)
  }

  /** A body with a model is looked up under that model; without one there is no lookup. */
  predicate LookupHonoured(versions: seq<GatewayCache>, job: Job) {
    && (job.stage.Choosing? ==>
          job.body == Json(job.stage.model) && Asks(job) && job.ctx.model == Some(job.stage.model))
    && (if PastLookup(job.stage) && Asks(job) then LookedForModel(versions, job) else job.routesSeen.None?)
    && (ModelFound(versions, job) ==> job.stage.Forwarding? && job.fallbackSeen.None?)
    && (job.ctx.model.Some? ==>
          job.body == Json(job.ctx.model.value) && Asks(job) && (job.stage.Choosing? || PastLookup(job.stage)))
  }

  /** 503 and the fallback route are decided by the version the fallback read. */
  predicate FallbackHonoured(versions: seq<GatewayCache>, job: Job) {
    && (job.stage == Answered(503) ==> job.fallbackSeen.Some?)
    && (job.stage.Forwarding? && !ModelFound(versions, job) ==> job.fallbackSeen.Some?)
    && (job.fallbackSeen.Some? ==>
          && job.fallbackSeen.value < |versions|
          && (job.stage.Forwarding? || job.stage == Answered(503))
          && var cache := versions[job.fallbackSeen.value];
             && (cache.modelRoutes == map[] ==> job.stage == Answered(503))
             && (NoEmptyTargets(cache) && job.stage == Answered(503) ==> cache.modelRoutes == map[]))
  }

  /** The picked route made the whole call. It is one of the requested model's if the
      version read at the route lookup had any, and else the first of some model in the
      version read at the fallback. */
  ghost predicate Serves(parse: UrlParser, versions: seq<GatewayCache>, job: Job, p: Pick) {
    && PickOk(versions, p) && CallFrom(parse, job, RouteAt(versions, p))
    && (Asks(job) ==> LookedForModel(versions, job))
    && (if ModelFound(versions, job) then OwnPick(versions, job, p) else FirstPick(job, p))
  }

  predicate KeyHonoured(versions: seq<GatewayCache>, job: Job) {
    job.keySeen.Some? ==>
      && job.keySeen.value < |versions| && job.ctx.keyHash.Some?
      && var hashes := versions[job.keySeen.value].keyHashes;
         && (job.stage == Answered(403) <==> job.ctx.keyHash.value !in hashes)
         && (job.ctx.apiKeyId.Some? <==> job.ctx.keyHash.value in hashes)
         && (job.ctx.apiKeyId.Some? ==> job.ctx.apiKeyId.value == hashes[job.ctx.keyHash.value])
  }

  ghost predicate RouteOk(parse: UrlParser, versions: seq<GatewayCache>, job: Job) {
    && (job.stage.Forwarding? <==> job.pick.Some?)
    && (if job.pick.Some? then Serves(parse, versions, job, job.pick.value) else NoCall(job))
    && LookupHonoured(versions, job)
    && FallbackHonoured(versions, job)
  }

  predicate KeyOk(versions: seq<GatewayCache>, job: Job) {
    && KeyHonoured(versions, job)
    && (job.front.Bearer? ==> job.ctx.keyHash == Some(job.front.hash))
    && (job.keySeen.None? <==> job.stage.Keyed? || !job.front.Bearer?)
    && (job.stage.Keyed? ==> job.front.Bearer? && job.ctx.apiKeyId.None?)
    && (!job.front.Bearer? ==>
          (job.stage.Answered? && job.ctx.apiKeyId.None? && job.ctx.keyHash.None? && job.stage.status != 403))
  }

  ghost predicate RoutesInv(parse: UrlParser, s: State) {
    forall id :: id in s.jobs ==> RouteOk(parse, s.versions, s.jobs[id])
  }

  ghost predicate KeysInv(s: State) {
    forall id :: id in s.jobs ==> KeyOk(s.versions, s.jobs[id])
  }

  lemma NewVersionKeepsRoute(parse: UrlParser, versions: seq<GatewayCache>, cache: GatewayCache, job: Job)
    requires RouteOk(parse, versions, job)
    ensures RouteOk(parse, versions + [cache], job)
  {
  }

  lemma ChoiceStepOk(parse: UrlParser, s: State, id: nat, a: Action)
    requires Enabled(s, Act(id, a)) && RouteOk(parse, s.versions, s.jobs[id])
    requires a.Select? || a.Fallback?
    ensures RouteOk(parse, s.versions, Moved(parse, s, id, a))
  {
    var job := s.jobs[id];
    if a.Select? {
      var target :=
        if HasRoutes(Current(s), job.stage.model) then Some(Current(s).modelRoutes[job.stage.model]) else None;
      if target.Some? {
        ChoiceInRange(s.cursors, job.stage.model, target.value, job.ctx.requestId);
        if target.value.strategy.Weighted? {
          WeightedChoiceHoldsDice(s.cursors, job.stage.model, target.value, job.ctx.requestId);
        }
      }
    }
  }

  /** The phases that call upstream. */
  predicate Calls(a: Action) {
    a.Connect? || a.SendHeaders? || a.SendBody?
  }

  lemma CallStepOk(parse: UrlParser, s: State, id: nat, a: Action)
    requires Enabled(s, Act(id, a)) && RouteOk(parse, s.versions, s.jobs[id]) && Calls(a)
    ensures RouteOk(parse, s.versions, Moved(parse, s, id, a))
  {
    UpstreamPathIs(parse, s.jobs[id].ctx.providerBaseUrl.GetOr(""));
  }

  lemma OtherStepOk(parse: UrlParser, s: State, id: nat, a: Action)
    requires Enabled(s, Act(id, a)) && RouteOk(parse, s.versions, s.jobs[id])
    requires !a.Select? && !a.Fallback? && !Calls(a)
    ensures RouteOk(parse, s.versions, Moved(parse, s, id, a))
  {
  }

  lemma ActorStepOk(parse: UrlParser, s: State, id: nat, a: Action)
    requires Enabled(s, Act(id, a)) && RouteOk(parse, s.versions, s.jobs[id])
    ensures RouteOk(parse, s.versions, Moved(parse, s, id, a))
  {
    if a.Select? || a.Fallback? {
      ChoiceStepOk(parse, s, id, a);
    } else if Calls(a) {
      CallStepOk(parse, s, id, a);
    } else {
      OtherStepOk(parse, s, id, a);
    }
  }

  lemma SwapKeepsRoutes(parse: UrlParser, s: State, cache: GatewayCache)
    requires RoutesInv(parse, s) && Enabled(s, Swap(cache))
    ensures RoutesInv(parse, Next(parse, s, Swap(cache)))
  {
    forall id | id in s.jobs ensures RouteOk(parse, s.versions + [cache], s.jobs[id]) {
      NewVersionKeepsRoute(parse, s.versions, cache, s.jobs[id]);
    }
  }

  lemma NewJobRouteOk(parse: UrlParser, versions: seq<GatewayCache>, requestId: u128, front: Front, body: Body)
    ensures RouteOk(parse, versions, NewJob(requestId, front, body))
  {
  }

  lemma PutKeepsRoutes(parse: UrlParser, versions: seq<GatewayCache>, jobs: map<nat, Job>, id: nat, job: Job)
    requires forall i :: i in jobs ==> RouteOk(parse, versions, jobs[i])
    requires RouteOk(parse, versions, job)
    ensures var after := jobs[id := job];
            forall i :: i in after ==> RouteOk(parse, versions, after[i])
  {
  }

  lemma StepKeepsRoutes(parse: UrlParser, s: State, e: Event)
    requires RoutesInv(parse, s) && Enabled(s, e)
    ensures RoutesInv(parse, Next(parse, s, e))
  {
    match e {
      case Tick(_) =>
      case Swap(cache) => SwapKeepsRoutes(parse, s, cache);
      case Begin(id, requestId, front, body) =>
        NewJobRouteOk(parse, s.versions, requestId, front, body);
        PutKeepsRoutes(parse, s.versions, s.jobs, id, NewJob(requestId, front, body));
      case Act(id, a) =>
        ActorStepOk(parse, s, id, a);
        PutKeepsRoutes(parse, s.versions, s.jobs, id, Moved(parse, s, id, a));
    }
  }

  lemma {:induction false} RunKeepsRoutes(parse: UrlParser, s: State, es: seq<Event>)
    requires RoutesInv(parse, s) && CanRun(parse, s, es)
    ensures RoutesInv(parse, Exec(parse, s, es))
    decreases |es|
  {
    if es != [] {
      StepKeepsRoutes(parse, s, es[0]);
      RunKeepsRoutes(parse, Next(parse, s, es[0]), es[1..]);
    }
  }

  /** Whatever swaps happen between its phases, everything sent upstream for a request
      (address, TLS, substituted key, path, rewritten model) and everything its audit
      row says of the upstream comes from one route of one cache version. A body that
      names a model is looked up under it, and if the version read then has routes for
      it, the route is one of them; otherwise it is a first route at the fallback. */
  lemma OneRoutePerRequest(parse: UrlParser, cache: GatewayCache, es: seq<Event>, id: nat)
    requires CanRun(parse, Initial(cache), es)
    requires id in Exec(parse, Initial(cache), es).jobs
    ensures var s := Exec(parse, Initial(cache), es);
            var job := s.jobs[id];
            && (job.stage.Forwarding? ==> exists p: Pick :: Serves(parse, s.versions, job, p))
            && (!job.stage.Forwarding? ==> NoCall(job))
  {
    RunKeepsRoutes(parse, Initial(cache), es);
    var s := Exec(parse, Initial(cache), es);
    assert RouteOk(parse, s.versions, s.jobs[id]);
  }

  /** In every run over loaded caches a request is answered 503 exactly when it came to
      the fallback and the version read there had no route for any model. */
  lemma NoUpstreamExactly(parse: UrlParser, cache: GatewayCache, es: seq<Event>, id: nat)
    requires CanRun(parse, Initial(cache), es)
    requires forall v :: v in Exec(parse, Initial(cache), es).versions ==> NoEmptyTargets(v)
    requires id in Exec(parse, Initial(cache), es).jobs
    ensures var s := Exec(parse, Initial(cache), es);
            var job := s.jobs[id];
            && (job.fallbackSeen.Some? ==> job.fallbackSeen.value < |s.versions|)
            && (job.stage == Answered(503) <==>
                  job.fallbackSeen.Some? && s.versions[job.fallbackSeen.value].modelRoutes == map[])
  {
    RunKeepsRoutes(parse, Initial(cache), es);
    var s := Exec(parse, Initial(cache), es);
    assert RouteOk(parse, s.versions, s.jobs[id]);
  }

  // ---- Keys ----

  lemma StepKeepsKeys(parse: UrlParser, s: State, e: Event)
    requires KeysInv(s) && Enabled(s, e)
    ensures KeysInv(Next(parse, s, e))
  {
    var t := Next(parse, s, e);
    forall id | id in t.jobs ensures KeyOk(t.versions, t.jobs[id]) {
      if e.Act? && e.id == id {
        ActorKey(parse, s, id, e.action);
      }
    }
  }

  lemma ActorKey(parse: UrlParser, s: State, id: nat, a: Action)
    requires Enabled(s, Act(id, a)) && KeyOk(s.versions, s.jobs[id])
    ensures KeyOk(s.versions, Moved(parse, s, id, a))
  {
  }

  lemma {:induction false} RunKeepsKeys(parse: UrlParser, s: State, es: seq<Event>)
    requires KeysInv(s) && CanRun(parse, s, es)
    ensures KeysInv(Exec(parse, s, es))
    decreases |es|
  {
    if es != [] {
      StepKeepsKeys(parse, s, es[0]);
      RunKeepsKeys(parse, Next(parse, s, es[0]), es[1..]);
    }
  }

  /** A request goes past 403 exactly when the cache version it read at its key lookup
      held its hash, and it is attributed to the key that version named. */
  lemma ForwardedKeyWasPublished(parse: UrlParser, cache: GatewayCache, es: seq<Event>, id: nat)
    requires CanRun(parse, Initial(cache), es)
    requires id in Exec(parse, Initial(cache), es).jobs
    ensures KeyHonoured(Exec(parse, Initial(cache), es).versions, Exec(parse, Initial(cache), es).jobs[id])
    ensures var s := Exec(parse, Initial(cache), es);
            var job := s.jobs[id];
            job.stage.Forwarding? ==>
              job.front.Bearer? && job.keySeen.Some? && job.keySeen.value < |s.versions|
              && job.front.hash in s.versions[job.keySeen.value].keyHashes
              && job.ctx.apiKeyId == Some(s.versions[job.keySeen.value].keyHashes[job.front.hash])
  {
    RunKeepsKeys(parse, Initial(cache), es);
    assert KeyOk(Exec(parse, Initial(cache), es).versions, Exec(parse, Initial(cache), es).jobs[id]);
  }

  // ---- Accounting ----

  predicate AuthOk(job: Job) {
    && (job.ctx.auth.Accepted? <==> job.stage.Forwarding?)
    && (job.ctx.auth.InvalidKey? <==> job.stage == Answered(403))
    && (job.ctx.countedActive <==> job.stage.Forwarding?)
    && (job.ctx.auditEnabled <==> !job.front.Healthz?)
    && (job.logged ==> job.stage.Forwarding? || job.stage.Answered?)
    && (job.front.NoToken? <==> job.stage == Answered(401))
    && (job.front.Healthz? <==> job.stage == Answered(200))
    && (job.front.UnknownPath? <==> job.stage == Answered(404))
    && (job.front.WrongMethod? <==> job.stage == Answered(405))
    && (job.ctx.rejectReason.Some? <==> job.stage == Answered(429))
    && (job.stage == Answered(413) ==> job.body.TooLarge?)
    && (PastBody(job.stage) ==> !job.body.TooLarge?)
  }

  predicate PastBody(stage: Stage) {
    stage.Choosing? || PastLookup(stage)
  }

  function Matching(jobs: map<nat, Job>, p: Job -> bool): set<nat> {
    set id | id in jobs && p(jobs[id])
  }

  function IsOpen(): Job -> bool { (job: Job) => job.stage.Forwarding? && !job.logged }
  function IsRefused(): Job -> bool { (job: Job) => job.stage == Answered(401) || job.stage == Answered(403) }
  function IsLogged(): Job -> bool { (job: Job) => job.logged }
  function IsAudited(): Job -> bool { (job: Job) => job.logged && !job.front.Healthz? }

  lemma PutCounts(jobs: map<nat, Job>, id: nat, job: Job, p: Job -> bool)
    ensures |Matching(jobs[id := job], p)| ==
            |Matching(jobs, p)| + (if p(job) then 1 else 0) - (if id in jobs && p(jobs[id]) then 1 else 0)
  {
    var before, after := Matching(jobs, p), Matching(jobs[id := job], p);
    if p(job) {
      assert after == before + {id};
    } else {
      assert after == before - {id};
    }
  }

  /** The row tells the request's final context and, of an answered one, its status (or
      0 if nothing was written). */
  predicate RowOf(job: Job, row: Entry) {
    Tells(job.ctx, row.statusCode, row) && Written(job.stage, row.statusCode)
  }

  ghost predicate RowsOk(s: State) {
    && |s.rows| == |Matching(s.jobs, IsAudited())|
    && forall i :: 0 <= i < |s.rows| ==>
         (s.rows[i].0 in Matching(s.jobs, IsAudited())
          && RowOf(s.jobs[s.rows[i].0], s.rows[i].1))
  }

  ghost predicate RowsDistinct(s: State) {
    forall i, j :: 0 <= i < j < |s.rows| ==> s.rows[i].0 != s.rows[j].0
  }

  ghost predicate AuthInv(s: State) {
    forall id :: id in s.jobs ==> AuthOk(s.jobs[id])
  }

  ghost predicate Counted(s: State) {
    && s.active == |Matching(s.jobs, IsOpen())|
    && s.authFailures == |Matching(s.jobs, IsRefused())|
    && s.total == |Matching(s.jobs, IsLogged())|
  }

  /** A step of a request keeps its account, and says which counts it moves. */
  lemma ActorAuth(parse: UrlParser, s: State, id: nat, a: Action)
    requires Enabled(s, Act(id, a)) && AuthOk(s.jobs[id])
    ensures AuthOk(Moved(parse, s, id, a))
  {
  }

  lemma ActorCounts(parse: UrlParser, s: State, id: nat, a: Action)
    requires Enabled(s, Act(id, a)) && AuthOk(s.jobs[id])
    ensures var job, moved := s.jobs[id], Moved(parse, s, id, a);
            && ActiveAfter(parse, s, Act(id, a)) ==
                 s.active + (if IsOpen()(moved) then 1 else 0) - (if IsOpen()(job) then 1 else 0)
            && FailuresAfter(s, Act(id, a)) ==
                 s.authFailures + (if IsRefused()(moved) then 1 else 0) - (if IsRefused()(job) then 1 else 0)
  {
  }

  lemma ActorLogs(parse: UrlParser, s: State, id: nat, a: Action)
    requires Enabled(s, Act(id, a)) && AuthOk(s.jobs[id])
    ensures var job, moved := s.jobs[id], Moved(parse, s, id, a);
            && !job.logged
            && moved.front == job.front
            && moved.logged == a.Log?
            && (a.Log? ==> moved == job.(logged := true))
  {
  }

  lemma ActStepCounts(parse: UrlParser, s: State, id: nat, a: Action)
    requires AuthInv(s) && Counted(s) && Enabled(s, Act(id, a))
    ensures AuthInv(Next(parse, s, Act(id, a))) && Counted(Next(parse, s, Act(id, a)))
  {
    ActorAuth(parse, s, id, a);
    ActorCounts(parse, s, id, a);
    ActorLogs(parse, s, id, a);
    var job := Moved(parse, s, id, a);
    PutCounts(s.jobs, id, job, IsOpen());
    PutCounts(s.jobs, id, job, IsRefused());
    PutCounts(s.jobs, id, job, IsLogged());
  }

  lemma NewJobCounts(requestId: u128, front: Front, body: Body)
    ensures var job := NewJob(requestId, front, body);
            AuthOk(job) && !IsOpen()(job) && !IsLogged()(job) && (IsRefused()(job) <==> front.NoToken?)
  {
  }

  lemma BeginStepCounts(parse: UrlParser, s: State, id: nat, requestId: u128, front: Front, body: Body)
    requires AuthInv(s) && Counted(s) && Enabled(s, Begin(id, requestId, front, body))
    ensures var t := Next(parse, s, Begin(id, requestId, front, body)); AuthInv(t) && Counted(t)
  {
    var job := NewJob(requestId, front, body);
    NewJobCounts(requestId, front, body);
    PutCounts(s.jobs, id, job, IsOpen());
    PutCounts(s.jobs, id, job, IsRefused());
    PutCounts(s.jobs, id, job, IsLogged());
  }

  lemma StepCounts(parse: UrlParser, s: State, e: Event)
    requires AuthInv(s) && Counted(s) && Enabled(s, e)
    ensures AuthInv(Next(parse, s, e)) && Counted(Next(parse, s, e))
  {
    match e {
      case Begin(id, requestId, front, body) => BeginStepCounts(parse, s, id, requestId, front, body);
      case Act(id, a) => ActStepCounts(parse, s, id, a);
      case _ =>
    }
  }

  lemma RowsStay(s: State, t: State)
    requires RowsOk(s) && t.rows == s.rows
    requires |Matching(t.jobs, IsAudited())| == |Matching(s.jobs, IsAudited())|
    requires forall id :: id in s.jobs && s.jobs[id].logged ==>
               id in t.jobs && t.jobs[id] == s.jobs[id]
    ensures RowsOk(t)
  {
  }

  lemma ActorRows(parse: UrlParser, s: State, id: nat, a: Action)
    requires AuthInv(s) && RowsOk(s) && RowsDistinct(s) && Enabled(s, Act(id, a))
    ensures RowsOk(Next(parse, s, Act(id, a))) && RowsDistinct(Next(parse, s, Act(id, a)))
  {
    var t := Next(parse, s, Act(id, a));
    ActorLogs(parse, s, id, a);
    PutCounts(s.jobs, id, Moved(parse, s, id, a), IsAudited());
    if !a.Log? || s.jobs[id].front.Healthz? {
      RowsStay(s, t);
    } else {
      assert t.rows == s.rows + [(id, EntryOf(s.jobs[id].ctx, a.status))];
      assert id !in Matching(s.jobs, IsAudited());
    }
  }

  lemma StepRows(parse: UrlParser, s: State, e: Event)
    requires AuthInv(s) && RowsOk(s) && RowsDistinct(s) && Enabled(s, e)
    ensures RowsOk(Next(parse, s, e)) && RowsDistinct(Next(parse, s, e))
  {
    match e {
      case Begin(id, requestId, front, body) =>
        PutCounts(s.jobs, id, NewJob(requestId, front, body), IsAudited());
        RowsStay(s, Next(parse, s, e));
      case Act(id, a) => ActorRows(parse, s, id, a);
      case _ => RowsStay(s, Next(parse, s, e));
    }
  }

  lemma {:induction false} RunAccounts(parse: UrlParser, s: State, es: seq<Event>)
    requires AuthInv(s) && Counted(s) && RowsOk(s) && RowsDistinct(s) && CanRun(parse, s, es)
    ensures var t := Exec(parse, s, es);
            AuthInv(t) && Counted(t) && RowsOk(t) && RowsDistinct(t)
    decreases |es|
  {
    if es != [] {
      StepCounts(parse, s, es[0]);
      StepRows(parse, s, es[0]);
      RunAccounts(parse, Next(parse, s, es[0]), es[1..]);
    }
  }

  lemma InitialAccounts(parse: UrlParser, cache: GatewayCache, es: seq<Event>)
    requires CanRun(parse, Initial(cache), es)
    ensures var t := Exec(parse, Initial(cache), es);
            AuthInv(t) && Counted(t) && RowsOk(t) && RowsDistinct(t)
  {
    assert forall p: Job -> bool :: Matching(map[], p) == {};
    RunAccounts(parse, Initial(cache), es);
  }

  /** In every run the active gauge is the number of forwarded requests not yet logged,
      so never negative and zero at rest; auth failures are the 401 and 403 answers;
      auth result `ok` marks exactly the forwarded requests. */
  lemma AccountsAreExact(parse: UrlParser, cache: GatewayCache, es: seq<Event>)
    requires CanRun(parse, Initial(cache), es)
    ensures var s := Exec(parse, Initial(cache), es);
            && s.active == |set id | id in s.jobs && s.jobs[id].stage.Forwarding? && !s.jobs[id].logged|
            && s.authFailures == |set id | id in s.jobs && s.jobs[id].stage in {Answered(401), Answered(403)}|
            && s.total == |set id | id in s.jobs && s.jobs[id].logged|
            && ((forall id :: id in s.jobs ==> s.jobs[id].logged) ==> s.active == 0)
            && forall id :: id in s.jobs ==> (s.jobs[id].ctx.auth.Accepted? <==> s.jobs[id].stage.Forwarding?)
  {
    InitialAccounts(parse, cache, es);
    var s := Exec(parse, Initial(cache), es);
    assert Matching(s.jobs, IsOpen()) == set id | id in s.jobs && s.jobs[id].stage.Forwarding? && !s.jobs[id].logged;
    assert Matching(s.jobs, IsRefused()) == set id | id in s.jobs && s.jobs[id].stage in {Answered(401), Answered(403)};
    assert Matching(s.jobs, IsLogged()) == set id | id in s.jobs && s.jobs[id].logged;
    if forall id :: id in s.jobs ==> s.jobs[id].logged {
      assert Matching(s.jobs, IsOpen()) == {};
    }
  }

  function RowIndices(s: State, id: nat): set<nat> {
    set i | 0 <= i < |s.rows| && s.rows[i].0 == id
  }

  lemma RowsOfJob(s: State, id: nat)
    requires RowsOk(s) && RowsDistinct(s)
    ensures |RowIndices(s, id)| == (if id in Matching(s.jobs, IsAudited()) then 1 else 0)
  {
    if id in Matching(s.jobs, IsAudited()) {
      var ids := seq(|s.rows|, i requires 0 <= i < |s.rows| => s.rows[i].0);
      DistinctCoverSet(ids, Matching(s.jobs, IsAudited()));
      var i :| 0 <= i < |ids| && ids[i] == id;
      assert RowIndices(s, id) == {i};
    } else {
      assert RowIndices(s, id) == {};
    }
  }

  /** Each logged request other than a health check has exactly one audit row, with the
      key and the route of its context and its answer's status; a health check has none. */
  lemma OneRowPerLoggedRequest(parse: UrlParser, cache: GatewayCache, es: seq<Event>, id: nat)
    requires CanRun(parse, Initial(cache), es) && id in Exec(parse, Initial(cache), es).jobs
    ensures var s := Exec(parse, Initial(cache), es);
            && |RowIndices(s, id)| == (if s.jobs[id].logged && !s.jobs[id].front.Healthz? then 1 else 0)
            && forall i :: i in RowIndices(s, id) ==> RowOf(s.jobs[id], s.rows[i].1)
  {
    InitialAccounts(parse, cache, es);
    RowsOfJob(Exec(parse, Initial(cache), es), id);
  }

  /** The key that the version read at the lookup names for the request's hash. */
  predicate NamesKey(versions: seq<GatewayCache>, job: Job, key: Option<Id>) {
    if job.front.Bearer? && job.keySeen.Some? && job.keySeen.value < |versions|
       && job.front.hash in versions[job.keySeen.value].keyHashes
    then key == Some(versions[job.keySeen.value].keyHashes[job.front.hash])
    else key == None
  }

  /** Column by column: the key named at the lookup; the model the body asked for, if it
      was read; of a forwarded request the provider, provider model and base URL of the one
      route that served it, and none otherwise; the auth result, reason and status. */
  ghost predicate RowSays(parse: UrlParser, versions: seq<GatewayCache>, job: Job, row: Entry) {
    && row.requestId == job.ctx.requestId
    && NamesKey(versions, job, row.apiKeyId)
    && row.model == (if Asks(job) && PastLookup(job.stage) then Some(job.body.model) else None)
    && (if job.stage.Forwarding? then
          job.pick.Some? && Serves(parse, versions, job, job.pick.value)
          && RowNames(row, RouteAt(versions, job.pick.value))
        else row.providerId.None? && row.providerModelName.None? && row.upstreamHost.None?)
    && row.auth == (if job.stage.Forwarding? then Accepted
                    else if job.stage == Answered(403) then InvalidKey else Missing)
    && row.rejectReason == job.ctx.rejectReason && (row.rejectReason.Some? <==> job.stage == Answered(429))
    && Written(job.stage, row.statusCode)
  }

  predicate RowNames(row: Entry, route: RouteCandidate) {
    && row.providerId == Some(route.provider.id)
    && row.providerModelName == Some(route.providerModelName)
    && row.upstreamHost == Some(route.provider.baseUrl)
  }

  lemma LoggedRowSays(parse: UrlParser, versions: seq<GatewayCache>, job: Job, row: Entry)
    requires RouteOk(parse, versions, job) && KeyOk(versions, job) && AuthOk(job) && job.logged && RowOf(job, row)
    ensures RowSays(parse, versions, job, row)
  {
  }

  /** In every run each audit row says of its request what happened to it. */
  lemma RowsSayWhatHappened(parse: UrlParser, cache: GatewayCache, es: seq<Event>, i: nat)
    requires CanRun(parse, Initial(cache), es) && i < |Exec(parse, Initial(cache), es).rows|
    ensures var s := Exec(parse, Initial(cache), es);
            s.rows[i].0 in s.jobs && RowSays(parse, s.versions, s.jobs[s.rows[i].0], s.rows[i].1)
  {
    InitialAccounts(parse, cache, es);
    RunKeepsRoutes(parse, Initial(cache), es);
    RunKeepsKeys(parse, Initial(cache), es);
    var s := Exec(parse, Initial(cache), es);
    var id := s.rows[i].0;
    assert id in Matching(s.jobs, IsAudited());
    assert RouteOk(parse, s.versions, s.jobs[id]) && KeyOk(s.versions, s.jobs[id]);
    LoggedRowSays(parse, s.versions, s.jobs[id], s.rows[i].1);
  }

  /** Distinct members of a set, as many as the set has, are all of it. */
  lemma DistinctCoverSet(xs: seq<nat>, all: set<nat>)
    requires |xs| == |all|
    requires forall i :: 0 <= i < |xs| ==> xs[i] in all
    requires forall i, j :: 0 <= i < j < |xs| ==> xs[i] != xs[j]
    ensures forall x :: x in all ==> x in xs
  {
    if xs != [] {
      var m := |xs| - 1;
      DistinctCoverSet(xs[..m], all - {xs[m]});
      assert xs == xs[..m] + [xs[m]];
    }
  }

  // ---- What a request is told ----

  /** In every run: health checks are answered 200, unknown paths 404, other methods 405, a
      request without a token 401; 403 is given exactly to a hash the version read at the
      lookup lacks, 429 exactly with a reason, 413 only to a body that is too large, and
      no such body goes further. */
  lemma StatusSaysWhy(parse: UrlParser, cache: GatewayCache, es: seq<Event>, id: nat)
    requires CanRun(parse, Initial(cache), es) && id in Exec(parse, Initial(cache), es).jobs
    ensures var s := Exec(parse, Initial(cache), es);
            var job := s.jobs[id];
            && (job.stage == Answered(200) <==> job.front.Healthz?)
            && (job.stage == Answered(404) <==> job.front.UnknownPath?)
            && (job.stage == Answered(405) <==> job.front.WrongMethod?)
            && (job.stage == Answered(401) <==> job.front.NoToken?)
            && (job.keySeen.Some? ==>
                  job.front.Bearer? && job.keySeen.value < |s.versions|
                  && (job.stage == Answered(403)
                      <==> job.front.hash !in s.versions[job.keySeen.value].keyHashes))
            && (job.keySeen.None? ==> job.stage != Answered(403))
            && (job.stage == Answered(429) <==> job.ctx.rejectReason.Some?)
            && (job.stage == Answered(413) ==> job.body.TooLarge?)
            && (job.stage.Forwarding? || job.stage == Answered(503) ==> !job.body.TooLarge?)
  {
    InitialAccounts(parse, cache, es);
    RunKeepsKeys(parse, Initial(cache), es);
    var s := Exec(parse, Initial(cache), es);
    assert KeyOk(s.versions, s.jobs[id]);
  }

  lemma {:induction false} JobKeepsItsOwn(parse: UrlParser, s: State, es: seq<Event>, id: nat)
    requires CanRun(parse, s, es) && id in s.jobs
    ensures var t := Exec(parse, s, es);
            && id in t.jobs && t.jobs[id].ctx.requestId == s.jobs[id].ctx.requestId
            && t.jobs[id].front == s.jobs[id].front && t.jobs[id].body == s.jobs[id].body
    decreases |es|
  {
    if es != [] {
      StepKeepsOwn(parse, s, es[0], id);
      JobKeepsItsOwn(parse, Next(parse, s, es[0]), es[1..], id);
    }
  }

  lemma StepKeepsOwn(parse: UrlParser, s: State, e: Event, id: nat)
    requires Enabled(s, e) && id in s.jobs
    ensures var t := Next(parse, s, e);
            && id in t.jobs && t.jobs[id].ctx.requestId == s.jobs[id].ctx.requestId
            && t.jobs[id].front == s.jobs[id].front && t.jobs[id].body == s.jobs[id].body
  {
  }

  /** A request keeps the id, the front and the body it began with to the end of the run. */
  lemma {:induction false} RequestKeepsItsOwn(parse: UrlParser, s: State, es: seq<Event>, i: nat)
    requires CanRun(parse, s, es) && i < |es| && es[i].Begin?
    ensures var t := Exec(parse, s, es);
            && es[i].id in t.jobs && t.jobs[es[i].id].ctx.requestId == es[i].requestId
            && t.jobs[es[i].id].front == es[i].front && t.jobs[es[i].id].body == es[i].body
    decreases |es|
  {
    var t := Next(parse, s, es[0]);
    if i == 0 {
      JobKeepsItsOwn(parse, t, es[1..], es[0].id);
    } else {
      RequestKeepsItsOwn(parse, t, es[1..], i - 1);
    }
  }

  // ---- 503 and progress ----

  /** With both lookups on the same version, 503 is the answer exactly when its route
      map is empty, whatever model is asked for and whichever entry comes first. */
  lemma NoUpstreamIff(parse: UrlParser, ctx: Context, body: Body, cursors: map<string, u64>, r: Readings,
                      entries: map<string, seq<RateLimitEntry>>)
    requires r.atRoute == r.atFallback && NoEmptyTargets(r.atRoute) && FirstOf(r.atFallback, r.first)
    requires !body.TooLarge?
    ensures var f := Routed(parse, Filtering(Progress(ctx, Reading), entries, cursors), body, r);
            && (f.progress.stage == Answered(503) <==> r.atRoute.modelRoutes == map[])
            && (f.progress.stage.Forwarding? <==> r.atRoute.modelRoutes != map[])
  {
  }

  /** The step a request can take next. */
  ghost function Upcoming(s: State, job: Job, phase: Option<LR.Phase>): Action
    requires s.versions != []
  {
    match job.stage
    case Keyed => LookupKey
    case Admitted => ReadLimits
    case Limiting =>
      if phase.Some? && phase.value.Ready? then ReadClock
      else if phase.Some? && phase.value.Timed? then Check
      else Record
    case Reading => ReadBody
    case Choosing(_) => Select
    case Falling =>
      if Current(s).modelRoutes == map[] then Fallback(None)
      else
        var model :| model in Current(s).modelRoutes;
        Fallback(Some(model))
    case _ => Log(0)
  }

  /** No request is ever stuck: each one that is not logged has an enabled step, in
      every reachable state. */
  lemma EveryRequestCanMove(parse: UrlParser, cache: GatewayCache, es: seq<Event>, id: nat) returns (a: Action)
    requires CanRun(parse, Initial(cache), es)
    requires id in Exec(parse, Initial(cache), es).jobs && !Exec(parse, Initial(cache), es).jobs[id].logged
    ensures Enabled(Exec(parse, Initial(cache), es), Act(id, a))
  {
    RunLimiterInv(parse, Initial(cache), es);
    var s := Exec(parse, Initial(cache), es);
    assert LimiterAgrees(s, id);
    a := Upcoming(s, s.jobs[id], if id in s.lim.requests then Some(s.lim.requests[id]) else None);
  }
}
