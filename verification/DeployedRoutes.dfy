/** Which database version a request is served from, and what a retired policy, provider,
    provider model or route can no longer serve. */
module DeployedRoutes {
  import opened Wrappers
  import opened Schema
  import opened Cache
  import opened CacheLoader
  import opened RouteRetirement
  import opened EndToEnd
  import opened Deployment
  import GR = GatewayRuns
  import GQ = GatewayRequests
  import CR = CacheRefresh

  /** The request is sent to the provider of this route, served by this database version. */
  ghost predicate ServedBy(w: World, job: GR.Job, s: Store, r: RouteRow) {
    CallsRow(w.parse, job, s, r) && job.ctx.providerId == Some(s.providerModels[r.providerModelId].providerId)
  }

  /** The route handed to the request comes from the database version that the publication
      of its cache version read its routes from. */
  ghost predicate FromPublication(w: World, s: GR.State, c: CR.State, id: nat, r: RouteRow)
    requires id in s.jobs
  {
    var job := s.jobs[id];
    && job.pick.Some? && 1 <= job.pick.value.version <= |c.published|
    && var p := c.published[job.pick.value.version - 1];
       p.begin <= p.r < |c.history| && ServedBy(w, job, c.history[p.r], r)
  }

  lemma RoutesInvOf(w: World, db: Store, es: seq<Event>)
    requires CanRun(w, Initial(db), es)
    ensures GQ.RoutesInv(w.parse, Exec(w, Initial(db), es).gateway)
  {
    RunsGateway(w, Initial(db), es);
    GQ.RunKeepsRoutes(w.parse, GR.Initial(NEW_CACHE), GatewaySteps(w, Initial(db), es));
  }

  lemma ServedFrom(w: World, db: Store, es: seq<Event>, id: nat) returns (r: RouteRow)
    requires CanRun(w, Initial(db), es) && id in Exec(w, Initial(db), es).gateway.jobs
    requires Exec(w, Initial(db), es).gateway.jobs[id].stage.Forwarding?
    ensures var d := Exec(w, Initial(db), es); FromPublication(w, d.gateway, d.refresh, id, r)
  {
    var d := Exec(w, Initial(db), es);
    Ties(w, db, es);
    CachesAreLoaded(w, db, es);
    RoutesInvOf(w, db, es);
    r := PublishedRoute(w, d.gateway, d.refresh, id);
  }

  lemma PublishedRoute(w: World, s: GR.State, c: CR.State, id: nat) returns (r: RouteRow)
    requires GQ.RoutesInv(w.parse, s) && id in s.jobs && s.jobs[id].stage.Forwarding?
    requires s.versions == [NEW_CACHE] + Published(c.published) && CR.AllFaithful(c.history, c.published)
    ensures FromPublication(w, s, c, id, r)
  {
    PublishedAreLoaded(c);
    r := RouteOfJob(w, s, id, Origins(c));
    FromOrigin(w, s, c, id, r);
  }

  lemma FromOrigin(w: World, s: GR.State, c: CR.State, id: nat, r: RouteRow)
    requires CR.AllFaithful(c.history, c.published)
    requires id in s.jobs && s.jobs[id].pick.Some? && 1 <= s.jobs[id].pick.value.version <= |c.published|
    requires ServedBy(w, s.jobs[id], Origins(c)[s.jobs[id].pick.value.version].routes, r)
    ensures FromPublication(w, s, c, id, r)
  {
    OriginOf(c, s.jobs[id].pick.value.version);
  }

  lemma RouteOfJob(w: World, s: GR.State, id: nat, origins: seq<Origin>) returns (r: RouteRow)
    requires GQ.RoutesInv(w.parse, s) && id in s.jobs && s.jobs[id].stage.Forwarding?
    requires AllLoaded(s.versions, origins) && s.versions != [] && s.versions[0] == NEW_CACHE
    ensures s.jobs[id].pick.Some?
    ensures var n := s.jobs[id].pick.value.version;
            1 <= n < |origins| && ServedBy(w, s.jobs[id], origins[n].routes, r)
  {
    r := ServedRow(w, s.versions, s.jobs[id], origins);
  }

  lemma ServedRow(w: World, versions: seq<GatewayCache>, job: GR.Job, origins: seq<Origin>) returns (r: RouteRow)
    requires GQ.RouteOk(w.parse, versions, job) && job.stage.Forwarding?
    requires AllLoaded(versions, origins) && versions != [] && versions[0] == NEW_CACHE
    ensures job.pick.Some?
    ensures var n := job.pick.value.version; 1 <= n < |origins| && ServedBy(w, job, origins[n].routes, r)
  {
    var p := job.pick.value;
    PickedRouteServes(w, versions, job);
    assert versions[p.version].modelRoutes != map[];
    r := PickIsRow(w.parse, versions, job, p, origins[p.version]);
    CalledProvider(w, job, origins[p.version].routes, r);
  }

  lemma PickedRouteServes(w: World, versions: seq<GatewayCache>, job: GR.Job)
    requires GQ.RouteOk(w.parse, versions, job) && job.stage.Forwarding?
    ensures job.pick.Some? && GQ.Serves(w.parse, versions, job, job.pick.value)
  {
  }

  lemma CalledProvider(w: World, job: GR.Job, s: Store, r: RouteRow)
    requires CallsRow(w.parse, job, s, r)
    ensures ServedBy(w, job, s, r)
  {
  }

  /** If a route has been handed out, then from version n of the cache or a later one. */
  predicate PickedFrom(s: GR.State, id: nat, n: nat) {
    id in s.jobs && s.jobs[id].pick.Some? ==> s.jobs[id].pick.value.version >= n
  }

  lemma StepPickedFrom(w: World, s: GR.State, e: GR.Event, id: nat, n: nat)
    requires GR.Enabled(s, e) && PickedFrom(s, id, n) && n < |s.versions|
    ensures PickedFrom(GR.Next(w.parse, s, e), id, n) && n < |GR.Next(w.parse, s, e).versions|
  {
  }

  lemma {:induction false} RunPickedFrom(w: World, s: GR.State, es: seq<GR.Event>, id: nat, n: nat)
    requires GR.CanRun(w.parse, s, es) && PickedFrom(s, id, n) && n < |s.versions|
    ensures PickedFrom(GR.Exec(w.parse, s, es), id, n)
    decreases |es|
  {
    if es != [] {
      StepPickedFrom(w, s, es[0], id, n);
      RunPickedFrom(w, GR.Next(w.parse, s, es[0]), es[1..], id, n);
    }
  }

  /** No publication after the i-th reads routes from before the i-th load began. */
  lemma LaterReadsLater(published: seq<CR.Publication>, now: nat, i: nat, n: nat)
    requires CR.InTime(published, now) && CR.InOrder(published) && i <= n < |published|
    ensures published[i].begin <= published[n].r < now
  {
  }

  /** What is handed out from d on comes from the versions published by then, or later. */
  lemma PickedLater(w: World, d: State, more: seq<Event>, i: nat, id: nat)
    requires CanRun(w, d, more) && SameCaches(d)
    requires i < |d.refresh.published| && (id in d.gateway.jobs ==> d.gateway.jobs[id].pick.None?)
    ensures var t := Exec(w, d, more);
            && PickedFrom(t.gateway, id, i + 1)
            && d.refresh.published <= t.refresh.published && d.refresh.history <= t.refresh.history
  {
    RunsGateway(w, d, more);
    RunPickedFrom(w, d.gateway, GatewaySteps(w, d, more), id, i + 1);
    RunsRefresh(w, d, more);
    RefreshGrows(d.refresh, RefreshSteps(w, d, more));
  }

  /** A forwarded request whose route was picked after publication i. */
  lemma LaterPickIsFresh(w: World, db: Store, es: seq<Event>, i: nat, id: nat) returns (x: nat, r: RouteRow)
    requires CanRun(w, Initial(db), es) && id in Exec(w, Initial(db), es).gateway.jobs
    requires var t := Exec(w, Initial(db), es);
             && t.gateway.jobs[id].stage.Forwarding? && PickedFrom(t.gateway, id, i + 1)
             && i < |t.refresh.published|
    ensures var t := Exec(w, Initial(db), es);
            && t.refresh.published[i].begin <= x < |t.refresh.history|
            && ServedBy(w, t.gateway.jobs[id], t.refresh.history[x], r)
  {
    var t := Exec(w, Initial(db), es);
    r := ServedFrom(w, db, es, id);
    CachesAreLoaded(w, db, es);
    x := FreshFrom(w, t.gateway, t.refresh, id, r, i);
  }

  lemma FreshFrom(w: World, s: GR.State, c: CR.State, id: nat, r: RouteRow, i: nat) returns (x: nat)
    requires id in s.jobs && FromPublication(w, s, c, id, r) && PickedFrom(s, id, i + 1)
    requires CR.InTime(c.published, |c.history|) && CR.InOrder(c.published) && i < |c.published|
    ensures c.published[i].begin <= x < |c.history| && ServedBy(w, s.jobs[id], c.history[x], r)
  {
    var n := s.jobs[id].pick.value.version;
    LaterReadsLater(c.published, |c.history|, i, n - 1);
    x := c.published[n - 1].r;
  }

  /** A request handed its route after publication i is served from a database version no
      older than the start of that publication's load. */
  lemma RoutesAreFresh(w: World, db: Store, es: seq<Event>, more: seq<Event>, i: nat, id: nat)
    returns (x: nat, r: RouteRow)
    requires CanRun(w, Initial(db), es) && CanRun(w, Exec(w, Initial(db), es), more)
    requires var d := Exec(w, Initial(db), es);
             i < |d.refresh.published| && (id in d.gateway.jobs ==> d.gateway.jobs[id].pick.None?)
    requires var t := Exec(w, Exec(w, Initial(db), es), more);
             id in t.gateway.jobs && t.gateway.jobs[id].stage.Forwarding?
    ensures var d := Exec(w, Initial(db), es);
            var t := Exec(w, d, more);
            && d.refresh.published[i].begin <= x < |t.refresh.history|
            && ServedBy(w, t.gateway.jobs[id], t.refresh.history[x], r)
  {
    var d := Exec(w, Initial(db), es);
    var t := Exec(w, d, more);
    Ties(w, db, es);
    PickedLater(w, d, more, i, id);
    Join(w, Initial(db), es, more);
    x, r := LaterPickIsFresh(w, db, es + more, i, id);
  }

  /** From the moment some load begun after a policy, provider, provider model or route was
      disabled or deleted has been published, every request handed a route later is served
      from a database version in which nothing that needs the part is served, whatever else
      runs, unless an operation restores it. In particular a retired provider gets none. */
  lemma RetiredPartIsNotServed(w: World, db: Store, es: seq<Event>, more: seq<Event>, part: Part, v: nat, i: nat,
                               id: nat)
    requires CanRun(w, Initial(db), es) && CanRun(w, Exec(w, Initial(db), es), more)
    requires var d := Exec(w, Initial(db), es);
             && v < |d.refresh.history| && Off(d.refresh.history[v], part)
             && i < |d.refresh.published| && v <= d.refresh.published[i].begin
             && (id in d.gateway.jobs ==> d.gateway.jobs[id].pick.None?)
    requires var t := Exec(w, Exec(w, Initial(db), es), more);
             && NeverRestored(t.ops, part, v)
             && id in t.gateway.jobs && t.gateway.jobs[id].stage.Forwarding?
    ensures var t := Exec(w, Exec(w, Initial(db), es), more);
            var job := t.gateway.jobs[id];
            && (exists s, r :: s in t.refresh.history && ServedBy(w, job, s, r)
                  && forall other, model :: ServesModel(s, other, model) ==> !Needs(s, other, part))
            && (part.Provider? ==> job.ctx.providerId != Some(part.providerId))
  {
    var d := Exec(w, Initial(db), es);
    var t := Exec(w, d, more);
    var x, r := RoutesAreFresh(w, db, es, more, i, id);
    Ties(w, db, es);
    PickedLater(w, d, more, i, id);
    Join(w, Initial(db), es, more);
    Ties(w, db, es + more);
    OffFromThenOn(t.refresh.history, t.ops, part, v, x);
    var s := t.refresh.history[x];
    forall other, model | ServesModel(s, other, model) ensures !Needs(s, other, part) {
      if Needs(s, other, part) {
        OffIsNotServed(s, other, part);
      }
    }
    assert s in t.refresh.history && ServedBy(w, t.gateway.jobs[id], s, r);
  }
}
