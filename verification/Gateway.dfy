/** The life of one proxied request: what each phase does to its context, as values
    and as the objects the proxy updates. */
module Gateway {
  import opened Wrappers
  import opened MachineInts
  import opened RateLimiter
  import opened RouteSelection
  import opened Cache

  const MAX_REQUEST_BODY: nat := 4 * 1024 * 1024

  type byte = x: int | 0 <= x < 256

  /** What the URL library says about a base URL. */
  datatype Endpoint = Endpoint(host: Option<string>, port: Option<nat>, path: string)
  type UrlParser = string -> Option<Endpoint>

  /** What the JSON library says about a body: its `model`, "" if it has none. */
  type BodyParser = seq<byte> -> Option<string>

  datatype AuthResult = Accepted | Missing | InvalidKey

  datatype Front = Healthz | UnknownPath | WrongMethod | NoToken | Bearer(hash: string)
  datatype Body = TooLarge | NotJson | Json(model: string)

  datatype Context = Context(
    requestId: u128, auditEnabled: bool, countedActive: bool, auth: AuthResult,
    rejectReason: Option<Rejection>, keyHash: Option<string>, apiKeyId: Option<string>,
    model: Option<string>, upstreamModel: Option<string>, providerId: Option<string>,
    providerBaseUrl: Option<string>, providerName: Option<string>, providerKey: Option<string>,
    upstreamHost: Option<string>, upstreamPort: Option<nat>)

  datatype Stage =
    | Keyed                    // has a key hash, before the key lookup
    | Admitted                 // key found, before the limits lookup
    | Limiting                 // inside the limiter
    | Reading                  // recorded, before the body is read
    | Choosing(model: string)  // before the route lookup
    | Falling                  // before the fallback lookup
    | Answered(status: nat)    // answered by the gateway itself
    | Forwarding               // handed to an upstream

  datatype Progress = Progress(ctx: Context, stage: Stage)

  function NewContext(requestId: u128): Context {
    Context(requestId, true, false, Missing, None, None, None, None, None, None, None, None, None, None, None)
  }

  // ---- The phases, as functions ----

  function Begun(requestId: u128, front: Front): Progress {
    var ctx := NewContext(requestId);
    match front
    case Healthz => Progress(ctx.(auditEnabled := false), Answered(200))
    case UnknownPath => Progress(ctx, Answered(404))
    case WrongMethod => Progress(ctx, Answered(405))
    case NoToken => Progress(ctx, Answered(401))
    case Bearer(hash) => Progress(ctx.(keyHash := Some(hash)), Keyed)
  }

  function LookedUp(ctx: Context, cache: GatewayCache): Progress {
    if ctx.keyHash.Some? && ctx.keyHash.value in cache.keyHashes then
      Progress(ctx.(apiKeyId := Some(cache.keyHashes[ctx.keyHash.value])), Admitted)
    else Progress(ctx.(auth := InvalidKey), Answered(403))
  }

  function LimitsFor(cache: GatewayCache, hash: string): Option<RateLimitConfig> {
    if hash in cache.rateLimits then Some(cache.rateLimits[hash]) else None
  }

  function Judged(ctx: Context, verdict: Option<Rejection>): Progress {
    if verdict.Some? then Progress(ctx.(rejectReason := verdict), Answered(429))
    else Progress(ctx, Limiting)
  }

  function BodyRead(ctx: Context, body: Body): Progress {
    match body
    case TooLarge => Progress(ctx, Answered(413))
    case NotJson => Progress(ctx, Falling)
    case Json(model) =>
      if model == "" then Progress(ctx, Falling)
      else Progress(ctx.(model := Some(model)), Choosing(model))
  }

  /** `apply_route`: host and port stay as they are when the base URL does not parse. */
  function Applied(parse: UrlParser, ctx: Context, route: RouteCandidate): Context {
    var url := parse(route.provider.baseUrl);
    ctx.(upstreamModel := Some(route.providerModelName),
         providerId := Some(route.provider.id),
         providerBaseUrl := Some(route.provider.baseUrl),
         providerName := Some(route.provider.name),
         providerKey := Some(route.provider.key),
         upstreamHost := if url.Some? then url.value.host else ctx.upstreamHost,
         upstreamPort := if url.Some? then url.value.port else ctx.upstreamPort)
  }

  function Forwarded(parse: UrlParser, ctx: Context, route: RouteCandidate): Progress {
    Progress(Applied(parse, ctx, route).(auth := Accepted, countedActive := true), Forwarding)
  }

  /** The route chosen for a model: none if the model is not cached or has no routes. */
  function Choice(cache: GatewayCache, cursors: map<string, u64>, model: string, requestId: u128): Option<nat> {
    if model in cache.modelRoutes && cache.modelRoutes[model].routes != []
    then Some(ChoiceIndex(cursors, model, cache.modelRoutes[model], requestId))
    else None
  }

  function Selected(parse: UrlParser, ctx: Context, cache: GatewayCache, cursors: map<string, u64>,
                    model: string): Progress {
    var i := Choice(cache, cursors, model, ctx.requestId);
    if i.Some? then
      ChoiceInRange(cursors, model, cache.modelRoutes[model], ctx.requestId);
      Forwarded(parse, ctx, cache.modelRoutes[model].routes[i.value])
    else Progress(ctx, Falling)
  }

  function CursorsAfter(cache: GatewayCache, cursors: map<string, u64>, model: string): map<string, u64> {
    if model in cache.modelRoutes then Advanced(cursors, model, cache.modelRoutes[model]) else cursors
  }

  /** `first` is the model a map iteration yields first, if any. */
  predicate FirstOf(cache: GatewayCache, first: Option<string>) {
    if first.Some? then first.value in cache.modelRoutes else cache.modelRoutes == map[]
  }

  function FallenBack(parse: UrlParser, ctx: Context, cache: GatewayCache, first: Option<string>): Progress
    requires FirstOf(cache, first)
  {
    if first.Some? && cache.modelRoutes[first.value].routes != []
    then Forwarded(parse, ctx, cache.modelRoutes[first.value].routes[0])
    else Progress(ctx, Answered(503))
  }

  // ---- The upstream call, made from the context alone ----

  datatype Peer = Peer(host: string, port: nat, tls: bool)
  datatype Headers = Headers(host: Option<string>, authorization: Option<string>, path: Option<string>)

  function TrimSlashes(path: string): string {
    if path != "" && path[|path| - 1] == '/' then TrimSlashes(path[..|path| - 1]) else path
  }

  function PeerOf(ctx: Context): Peer {
    var tls := ctx.providerBaseUrl.None? || "https://" <= ctx.providerBaseUrl.value;
    Peer(ctx.upstreamHost.GetOr("api.openai.com"), ctx.upstreamPort.GetOr(if tls then 443 else 80), tls)
  }

  function UpstreamPath(parse: UrlParser, base: string): Option<string> {
    var url := parse(base);
    if url.None? || TrimSlashes(url.value.path) == "" then None
    else Some(TrimSlashes(url.value.path) + "/chat/completions")
  }

  function HeadersOf(parse: UrlParser, ctx: Context): Headers {
    Headers(
      ctx.upstreamHost,
      if ctx.providerKey.Some? then Some("Bearer " + ctx.providerKey.value) else None,
      if ctx.providerBaseUrl.Some? then UpstreamPath(parse, ctx.providerBaseUrl.value) else None)
  }

  /** The path the base URL asks for: its own, cut after the last character that is not a
      slash, and the endpoint after it; none if it has only slashes or does not parse. */
  ghost predicate PathFor(parse: UrlParser, base: string, path: Option<string>) {
    var url := parse(base);
    match path
    case None => url.None? || forall i :: 0 <= i < |url.value.path| ==> url.value.path[i] == '/'
    case Some(sent) =>
      && url.Some?
      && exists k :: 0 < k <= |url.value.path| && EndsAt(url.value.path, k)
           && sent == url.value.path[..k] + "/chat/completions"
  }

  /** Before position k a character other than a slash, and slashes alone from there on. */
  predicate EndsAt(path: string, k: nat)
    requires 0 < k <= |path|
  {
    path[k - 1] != '/' && forall i :: k <= i < |path| ==> path[i] == '/'
  }

  lemma {:induction false} TrimmedIs(path: string)
    ensures TrimSlashes(path) <= path
    ensures var k := |TrimSlashes(path)|;
            if k == 0 then forall i :: 0 <= i < |path| ==> path[i] == '/' else EndsAt(path, k)
  {
    if path != "" && path[|path| - 1] == '/' {
      TrimmedIs(path[..|path| - 1]);
    }
  }

  lemma UpstreamPathIs(parse: UrlParser, base: string)
    ensures PathFor(parse, base, UpstreamPath(parse, base))
  {
    var url := parse(base);
    if url.Some? {
      TrimmedIs(url.value.path);
      if UpstreamPath(parse, base).Some? {
        assert EndsAt(url.value.path, |TrimSlashes(url.value.path)|);
      }
    }
  }

  /** The path in terms of the parsed one: p and n slashes give p's endpoint. */
  lemma PathOfBase(parse: UrlParser, base: string, path: Option<string>, p: string, n: nat)
    requires PathFor(parse, base, path) && (p == "" || p[|p| - 1] != '/')
    requires parse(base).Some? && parse(base).value.path == p + seq(n, _ => '/')
    ensures path == if p == "" then None else Some(p + "/chat/completions")
  {
    assert p != "" ==> parse(base).value.path[|p| - 1] == p[|p| - 1];
    if path.Some? {
      var whole := parse(base).value.path;
      var k :| 0 < k <= |whole| && EndsAt(whole, k) && path.value == whole[..k] + "/chat/completions";
      EndIs(p, n, k);
      assert whole[..k] == p;
    }
  }

  lemma EndIs(p: string, n: nat, k: nat)
    requires p == "" || p[|p| - 1] != '/'
    requires 0 < k <= |p| + n && EndsAt(p + seq(n, _ => '/'), k)
    ensures k == |p|
  {
    var whole := p + seq(n, _ => '/');
    assert forall i :: |p| <= i < |whole| ==> whole[i] == '/';
    assert p != "" ==> whole[|p| - 1] == p[|p| - 1];
  }

  /** The audit row of a request, as far as its route and its key decide it. */
  datatype Entry = Entry(
    requestId: u128, apiKeyId: Option<string>, model: Option<string>, providerId: Option<string>,
    providerModelName: Option<string>, upstreamHost: Option<string>, auth: AuthResult,
    rejectReason: Option<Rejection>, statusCode: nat)

  function EntryOf(ctx: Context, status: nat): Entry {
    Entry(ctx.requestId, ctx.apiKeyId, ctx.model, ctx.providerId, ctx.upstreamModel,
          ctx.providerBaseUrl, ctx.auth, ctx.rejectReason, status)
  }

  /** Each column says its own part of the context. */
  predicate Tells(ctx: Context, status: nat, e: Entry) {
    && e.requestId == ctx.requestId && e.apiKeyId == ctx.apiKeyId && e.model == ctx.model
    && e.providerId == ctx.providerId && e.providerModelName == ctx.upstreamModel
    && e.upstreamHost == ctx.providerBaseUrl
    && e.auth == ctx.auth && e.rejectReason == ctx.rejectReason && e.statusCode == status
  }

  // ---- `request_filter` on its own: all phases of one request in order ----

  function Concat(chunks: seq<seq<byte>>): seq<byte> {
    if chunks == [] then [] else Concat(chunks[..|chunks| - 1]) + chunks[|chunks| - 1]
  }

  /** The chunks one after the other. */
  lemma {:induction false} ChunksJoin(xs: seq<seq<byte>>, ys: seq<seq<byte>>)
    ensures Concat(xs + ys) == Concat(xs) + Concat(ys)
    ensures |xs| == 1 ==> Concat(xs) == xs[0]
    decreases |ys|
  {
    if ys == [] {
      assert xs + ys == xs;
    } else {
      var all, front, last := xs + ys, ys[..|ys| - 1], ys[|ys| - 1];
      ChunksJoin(xs, front);
      assert all[..|all| - 1] == xs + front && all[|all| - 1] == last;
      assert Concat(all) == (Concat(xs) + Concat(front)) + last;
    }
    if |xs| == 1 {
      assert xs[..0] == [] && Concat(xs) == Concat(xs[..0]) + xs[0];
    }
  }

  function BodyOf(decode: BodyParser, chunks: seq<seq<byte>>): Body {
    if |Concat(chunks)| > MAX_REQUEST_BODY then TooLarge
    else match decode(Concat(chunks))
      case None => NotJson
      case Some(model) => Json(model)
  }

  /** The cache as each of the four lookups finds it, and the two clock readings. */
  datatype Readings = Readings(
    atKey: GatewayCache, atLimits: GatewayCache, atRoute: GatewayCache, atFallback: GatewayCache,
    first: Option<string>, checkNow: Instant, recordNow: Instant)

  datatype Filtering = Filtering(
    progress: Progress, entries: map<string, seq<RateLimitEntry>>, cursors: map<string, u64>)

  /** The limiter phase of an admitted request: check if configured, then record. */
  function LimitChecked(f: Filtering, r: Readings): Filtering
    requires f.progress.ctx.keyHash.Some?
  {
    var key := f.progress.ctx.keyHash.value;
    var config := LimitsFor(r.atLimits, key);
    var checked :=
      if config.Some? && !config.value.IsEmpty()
      then f.entries[key := Pruned(r.checkNow, DequeOf(f.entries, key))] else f.entries;
    var verdict := if config.Some? && !config.value.IsEmpty() then Verdict(config.value, checked[key]) else None;
    var p := Judged(f.progress.ctx, verdict);
    if p.stage.Answered? then Filtering(p, checked, f.cursors)
    else Filtering(p.(stage := Reading),
                   checked[key := DequeOf(checked, key) + [RateLimitEntry(r.recordNow, 0)]], f.cursors)
  }

  function Routed(parse: UrlParser, f: Filtering, body: Body, r: Readings): Filtering
    requires FirstOf(r.atFallback, r.first)
  {
    var p := BodyRead(f.progress.ctx, body);
    var q := if p.stage.Choosing? then Selected(parse, p.ctx, r.atRoute, f.cursors, p.stage.model) else p;
    var cursors := if p.stage.Choosing? then CursorsAfter(r.atRoute, f.cursors, p.stage.model) else f.cursors;
    Filtering(if q.stage.Falling? then FallenBack(parse, q.ctx, r.atFallback, r.first) else q, f.entries, cursors)
  }

  function FilteredAdmitted(parse: UrlParser, f: Filtering, body: Body, r: Readings): Filtering
    requires FirstOf(r.atFallback, r.first) && f.progress.ctx.keyHash.Some?
  {
    var h := LimitChecked(f, r);
    if h.progress.stage.Answered? then h else Routed(parse, h, body, r)
  }

  function Filtered(parse: UrlParser, f: Filtering, body: Body, r: Readings): Filtering
    requires FirstOf(r.atFallback, r.first)
    requires f.progress.stage.Keyed? ==> f.progress.ctx.keyHash.Some?
  {
    if !f.progress.stage.Keyed? then f
    else
      var g := f.(progress := LookedUp(f.progress.ctx, r.atKey));
      if g.progress.stage.Admitted? then FilteredAdmitted(parse, g, body, r) else g
  }

  /** A context that has no route yet. */
  predicate Unrouted(ctx: Context) {
    && ctx.auth.Missing? && !ctx.countedActive
    && ctx.upstreamModel.None? && ctx.providerId.None? && ctx.providerBaseUrl.None? && ctx.providerName.None?
    && ctx.providerKey.None? && ctx.upstreamHost.None? && ctx.upstreamPort.None?
  }

  /** Answered by the gateway with a status, or handed upstream: nothing in between. */
  predicate Ended(p: Progress) {
    && (p.stage.Answered? || p.stage.Forwarding?)
    && (p.ctx.auth.Accepted? <==> p.stage.Forwarding?)
    && (p.ctx.countedActive <==> p.stage.Forwarding?)
    && (p.ctx.providerBaseUrl.Some? <==> p.stage.Forwarding?)
    && (p.stage.Answered? ==> p.stage.status in {200, 401, 403, 404, 405, 413, 429, 503})
  }

  lemma LimitCheckedEnds(f: Filtering, r: Readings)
    requires f.progress.ctx.keyHash.Some? && Unrouted(f.progress.ctx)
    ensures var p := LimitChecked(f, r).progress;
            Unrouted(p.ctx) && (p.stage.Reading? || p.stage == Answered(429))
  {
  }

  lemma RoutedEnds(parse: UrlParser, f: Filtering, body: Body, r: Readings)
    requires FirstOf(r.atFallback, r.first) && Unrouted(f.progress.ctx)
    ensures Ended(Routed(parse, f, body, r).progress)
  {
  }

  lemma FilteredEnds(parse: UrlParser, requestId: u128, front: Front, body: Body, r: Readings,
                     entries: map<string, seq<RateLimitEntry>>, cursors: map<string, u64>)
    requires FirstOf(r.atFallback, r.first)
    ensures Ended(Filtered(parse, Filtering(Begun(requestId, front), entries, cursors), body, r).progress)
  {
    var f := Filtering(Begun(requestId, front), entries, cursors);
    if front.Bearer? && front.hash in r.atKey.keyHashes {
      var g := f.(progress := LookedUp(f.progress.ctx, r.atKey));
      LimitCheckedEnds(g, r);
      var h := LimitChecked(g, r);
      if !h.progress.stage.Answered? {
        RoutedEnds(parse, h, body, r);
      }
    }
  }

  class RequestContext {
    const requestId: u128
    var auditEnabled: bool
    var countedActive: bool
    var auth: AuthResult
    var rejectReason: Option<Rejection>
    var keyHash: Option<string>
    var apiKeyId: Option<string>
    var model: Option<string>
    var upstreamModel: Option<string>
    var providerId: Option<string>
    var providerBaseUrl: Option<string>
    var providerName: Option<string>
    var providerKey: Option<string>
    var upstreamHost: Option<string>
    var upstreamPort: Option<nat>

    function View(): Context
      reads this
    {
      Context(requestId, auditEnabled, countedActive, auth, rejectReason, keyHash, apiKeyId, model, upstreamModel,
              providerId, providerBaseUrl, providerName, providerKey, upstreamHost, upstreamPort)
    }

    constructor (id: u128)
      ensures View() == NewContext(id)
    {
      requestId := id;
      auditEnabled := true;
      countedActive := false;
      auth := Missing;
      rejectReason, keyHash, apiKeyId, model, upstreamModel := None, None, None, None, None;
      providerId, providerBaseUrl, providerName, providerKey := None, None, None, None;
      upstreamHost, upstreamPort := None, None;
    }

    method ApplyRoute(parse: UrlParser, route: RouteCandidate)
      modifies this
      ensures View() == Applied(parse, old(View()), route)
    {
      upstreamModel := Some(route.providerModelName);
      providerId := Some(route.provider.id);
      providerBaseUrl := Some(route.provider.baseUrl);
      providerName := Some(route.provider.name);
      providerKey := Some(route.provider.key);
      var url := parse(route.provider.baseUrl);
      if url.Some? {
        upstreamHost := url.value.host;
        upstreamPort := url.value.port;
      }
    }
  }

  lemma {:induction false} ConcatGrows(chunks: seq<seq<byte>>, i: nat)
    requires i <= |chunks|
    ensures |Concat(chunks[..i])| <= |Concat(chunks)|
    decreases |chunks|
  {
    assert chunks[..|chunks|] == chunks;
    if i < |chunks| {
      ConcatGrows(chunks[..|chunks| - 1], i);
      assert chunks[..|chunks| - 1][..i] == chunks[..i];
    }
  }

  /** Stops as soon as more than the maximum has arrived; that is whenever the whole
      body is longer, wherever the chunks are cut. */
  method ReadRequestBody(chunks: seq<seq<byte>>) returns (raw: Option<seq<byte>>)
    ensures raw.None? <==> |Concat(chunks)| > MAX_REQUEST_BODY
    ensures raw.Some? ==> raw.value == Concat(chunks)
  {
    var buffer := [];
    for i := 0 to |chunks|
      invariant buffer == Concat(chunks[..i]) && |buffer| <= MAX_REQUEST_BODY
    {
      assert chunks[..i + 1][..i] == chunks[..i];
      buffer := buffer + chunks[i];
      if |buffer| > MAX_REQUEST_BODY {
        ConcatGrows(chunks, i + 1);
        return None;
      }
    }
    assert chunks[..|chunks|] == chunks;
    return Some(buffer);
  }

  class LlmGateway {
    const rateLimits: RateLimitStore
    const selector: RouteSelector
    const parse: UrlParser
    var requestsTotal: nat
    var authFailures: nat
    var activeRequests: int

    constructor (urlParser: UrlParser)
      ensures fresh(rateLimits) && fresh(selector)
      ensures rateLimits.entries == map[] && selector.rrCounters == map[]
      ensures requestsTotal == authFailures == activeRequests == 0
    {
      rateLimits := new RateLimitStore();
      selector := new RouteSelector();
      parse := urlParser;
      requestsTotal, authFailures, activeRequests := 0, 0, 0;
    }

    /** Checks and records an admitted request; true when it may go on. */
    method ApplyLimits(ctx: RequestContext, keyHash: string, r: Readings) returns (passed: bool)
      requires ctx.keyHash == Some(keyHash)
      modifies ctx, rateLimits
      ensures var f := LimitChecked(Filtering(Progress(old(ctx.View()), Admitted), old(rateLimits.entries), map[]), r);
              && ctx.View() == f.progress.ctx
              && rateLimits.entries == f.entries
              && passed == !f.progress.stage.Answered?
    {
      var config := LimitsFor(r.atLimits, keyHash);
      if config.Some? && !config.value.IsEmpty() {
        var rejection := rateLimits.CheckRateLimit(r.checkNow, keyHash, config.value);
        if rejection.Some? {
          ctx.rejectReason := rejection;
          return false;
        }
      }
      rateLimits.RecordRateLimit(r.recordNow, keyHash, 0);
      return true;
    }

    /** Chooses a route for the body's model, or falls back to the first one. */
    method ChooseRoute(ctx: RequestContext, model: Option<string>, r: Readings)
      requires FirstOf(r.atFallback, r.first) && ctx.providerBaseUrl.None?
      modifies ctx, selector
      ensures var body := if model.Some? then Json(model.value) else NotJson;
              var f := Routed(parse,
                              Filtering(Progress(old(ctx.View()), Reading), map[], old(selector.rrCounters)), body, r);
              && selector.rrCounters == f.cursors
              && ctx.View() == f.progress.ctx.(auth := old(ctx.auth), countedActive := old(ctx.countedActive))
              && (ctx.providerBaseUrl.Some? <==> f.progress.stage.Forwarding?)
              && (f.progress.stage.Forwarding? ==> f.progress.ctx.auth.Accepted? && f.progress.ctx.countedActive)
              && (!f.progress.stage.Forwarding? ==> f.progress.stage == Answered(503) && f.progress.ctx == ctx.View())
    {
      if model.Some? && model.value != "" {
        ctx.model := model;
        if model.value in r.atRoute.modelRoutes {
          var route := selector.SelectRoute(model.value, r.atRoute.modelRoutes[model.value], ctx.requestId);
          if route.Some? {
            ctx.ApplyRoute(parse, route.value);
          }
        }
      }
      if ctx.providerBaseUrl.None? && r.first.Some? && r.atFallback.modelRoutes[r.first.value].routes != [] {
        ctx.ApplyRoute(parse, r.atFallback.modelRoutes[r.first.value].routes[0]);
      }
    }

    /** Path, method, token and key; none when the request may go on. */
    method Authenticate(ctx: RequestContext, front: Front, cache: GatewayCache) returns (answer: Option<nat>)
      requires ctx.View() == NewContext(ctx.requestId)
      modifies this`authFailures, ctx
      ensures var p := Begun(ctx.requestId, front);
              var q := if p.stage.Keyed? then LookedUp(p.ctx, cache) else p;
              && ctx.View() == q.ctx
              && answer == (if q.stage.Answered? then Some(q.stage.status) else None)
      ensures authFailures == old(authFailures) + (if answer == Some(401) || answer == Some(403) then 1 else 0)
    {
      match front {
        case Healthz =>
          ctx.auditEnabled := false;
          return Some(200);
        case UnknownPath =>
          return Some(404);
        case WrongMethod =>
          return Some(405);
        case NoToken =>
          ctx.auth := Missing;
          authFailures := authFailures + 1;
          return Some(401);
        case Bearer(hash) =>
          ctx.keyHash := Some(hash);
          if hash !in cache.keyHashes {
            ctx.auth := InvalidKey;
            authFailures := authFailures + 1;
            return Some(403);
          }
          ctx.apiKeyId := Some(cache.keyHashes[hash]);
          return None;
      }
    }

    /** Reads the body and hands the request upstream, or answers 413 or 503. */
    method RouteBody(ctx: RequestContext, chunks: seq<seq<byte>>, decode: BodyParser, r: Readings)
      returns (answer: Option<nat>)
      requires Unrouted(ctx.View()) && FirstOf(r.atFallback, r.first)
      modifies this`activeRequests, ctx, selector
      ensures var f := Routed(parse, Filtering(Progress(old(ctx.View()), Reading), map[], old(selector.rrCounters)),
                              BodyOf(decode, chunks), r);
              && ctx.View() == f.progress.ctx
              && selector.rrCounters == f.cursors
              && answer == (if f.progress.stage.Answered? then Some(f.progress.stage.status) else None)
              && answer in {None, Some(413), Some(503)}
      ensures answer == Some(413) <==> |Concat(chunks)| > MAX_REQUEST_BODY
      ensures answer != Some(413) ==>
        ctx.model == match decode(Concat(chunks))
                     case None => old(ctx.model)
                     case Some(model) => if model == "" then old(ctx.model) else Some(model)
      ensures activeRequests == old(activeRequests) + (if answer.None? then 1 else 0)
    {
      var raw := ReadRequestBody(chunks);
      if raw.None? {
        return Some(413);
      }
      ChooseRoute(ctx, decode(raw.value), r);
      if ctx.providerBaseUrl.None? {
        return Some(503);
      }
      ctx.auth := Accepted;
      ctx.countedActive := true;
      activeRequests := activeRequests + 1;
      return None;
    }

    /** Everything after the key lookup. */
    method FilterAdmitted(ctx: RequestContext, keyHash: string, chunks: seq<seq<byte>>, decode: BodyParser, r: Readings)
      returns (answer: Option<nat>)
      requires ctx.keyHash == Some(keyHash) && Unrouted(ctx.View())
      requires FirstOf(r.atFallback, r.first)
      modifies this`activeRequests, ctx, rateLimits, selector
      ensures var f := FilteredAdmitted(
                parse,
                Filtering(Progress(old(ctx.View()), Admitted), old(rateLimits.entries), old(selector.rrCounters)),
                BodyOf(decode, chunks), r);
              && ctx.View() == f.progress.ctx
              && rateLimits.entries == f.entries && selector.rrCounters == f.cursors
              && answer == (if f.progress.stage.Answered? then Some(f.progress.stage.status) else None)
              && answer in {None, Some(413), Some(429), Some(503)}
      ensures activeRequests == old(activeRequests) + (if answer.None? then 1 else 0)
    {
      LimitCheckedEnds(Filtering(Progress(ctx.View(), Admitted), rateLimits.entries, selector.rrCounters), r);
      var passed := ApplyLimits(ctx, keyHash, r);
      if !passed {
        return Some(429);
      }
      answer := RouteBody(ctx, chunks, decode, r);
    }

    /** The status answered, or none when the request is handed upstream. */
    method RequestFilter(ctx: RequestContext, front: Front, chunks: seq<seq<byte>>, decode: BodyParser, r: Readings)
      returns (answer: Option<nat>)
      requires ctx.View() == NewContext(ctx.requestId)
      requires FirstOf(r.atFallback, r.first)
      modifies this`authFailures, this`activeRequests, ctx, rateLimits, selector
      ensures var before := Filtering(Begun(ctx.requestId, front), old(rateLimits.entries), old(selector.rrCounters));
              var f := Filtered(parse, before, BodyOf(decode, chunks), r);
              && ctx.View() == f.progress.ctx
              && rateLimits.entries == f.entries && selector.rrCounters == f.cursors
              && answer == (if f.progress.stage.Answered? then Some(f.progress.stage.status) else None)
      ensures activeRequests == old(activeRequests) + (if answer.None? then 1 else 0)
      ensures authFailures == old(authFailures) + (if answer == Some(401) || answer == Some(403) then 1 else 0)
    {
      answer := Authenticate(ctx, front, r.atKey);
      if answer.None? {
        answer := FilterAdmitted(ctx, front.hash, chunks, decode, r);
      }
    }

    /** The audit row to offer to the writer, if the request is audited. */
    method Logging(ctx: RequestContext, status: nat) returns (row: Option<Entry>)
      modifies this
      ensures requestsTotal == old(requestsTotal) + 1 && authFailures == old(authFailures)
      ensures activeRequests == old(activeRequests) - (if ctx.countedActive then 1 else 0)
      ensures row == if ctx.auditEnabled then Some(EntryOf(ctx.View(), status)) else None
      ensures row.Some? ==> Tells(ctx.View(), status, row.value)
    {
      requestsTotal := requestsTotal + 1;
      if ctx.countedActive {
        activeRequests := activeRequests - 1;
      }
      if !ctx.auditEnabled {
        return None;
      }
      return Some(EntryOf(ctx.View(), status));
    }
  }
}
