/** A gateway and its database as one system: requests, the refresh loop and the audit
    writer interleave, and the admin API changes the database they all share. */
module Deployment {
  import opened Wrappers
  import opened Collections
  import opened Schema
  import opened Statements
  import opened AdminOps
  import opened Cache
  import opened CacheLoader
  import opened Gateway
  import opened KeyRetirement
  import opened EndToEnd
  import GR = GatewayRuns
  import GQ = GatewayRequests
  import CR = CacheRefresh
  import AP = AuditPipeline

  /** `ops` are the statements that made each database version from the one before. */
  datatype State = State(gateway: GR.State, refresh: CR.State, audit: AP.State, ops: seq<Op>)

  datatype Event =
    | Request(request: GR.Event)
    | Refresh(load: CR.Event)
    | Writer(write: AP.Event)
    | Admin(op: Op)

  /** What the deployment is given: the URL library, and how a row renders the columns
      that are not modelled one by one. */
  datatype World = World(parse: UrlParser, render: Entry -> string)

  const NEW_CACHE := GatewayCache(map[], map[], map[])

  function Initial(db: Store): State {
    State(GR.Initial(NEW_CACHE), CR.Initial(db), AP.Initial(db), [])
  }

  /** The row `logging` offers to the audit writer. */
  function OfferedRow(w: World, entry: Entry): AP.Row {
    (entry.requestId, AuditRow(entry.apiKeyId, None, entry.providerId, None, entry.model, w.render(entry)))
  }

  // ---- The parts' shares of a step ----

  /** Publishing swaps the gateway's cache. */
  function GatewayStep(d: State, e: Event): Option<GR.Event> {
    match e
    case Request(request) => Some(request)
    case Refresh(load) =>
      if load.Publish? && d.refresh.load.Loaded? then Some(GR.Swap(d.refresh.load.publication.cache)) else None
    case _ => None
  }

  /** A flush and an admin operation make a new database version. */
  function Changed(d: State, e: Event): Option<Store> {
    match e
    case Admin(op) => Some(Step(d.audit.db, op))
    case Writer(write) => if write.Flush? then Some(Flushed(d.audit, write.up)) else None
    case _ => None
  }

  function Flushed(a: AP.State, up: bool): Store {
    if up && InsertAudit(a.db, a.batch).Ok? then InsertAudit(a.db, a.batch).value else a.db
  }

  function RefreshStep(d: State, e: Event): Option<CR.Event> {
    if e.Refresh? then Some(e.load)
    else if Changed(d, e).Some? then Some(CR.Mutate(Changed(d, e).value))
    else None
  }

  /** The audit row of a logged request goes to the queue. */
  function WriterStep(w: World, d: State, e: Event): Option<AP.Event> {
    match e
    case Request(request) =>
      if request.Act? && request.action.Log? && request.id in d.gateway.jobs
         && d.gateway.jobs[request.id].ctx.auditEnabled
      then Some(AP.Offer(OfferedRow(w, EntryOf(d.gateway.jobs[request.id].ctx, request.action.status))))
      else None
    case Writer(write) => Some(write)
    case Admin(op) => Some(AP.Mutate(Step(d.audit.db, op)))
    case Refresh(_) => None
  }

  /** The statement behind a new version; a lost batch is an INSERT of nothing. */
  function Statement(d: State, e: Event): Option<Op> {
    match e
    case Admin(op) => Some(op)
    case Writer(write) =>
      if !write.Flush? then None
      else if write.up && InsertAudit(d.audit.db, d.audit.batch).Ok? then Some(AuditBatch(d.audit.batch))
      else Some(AuditBatch([]))
    case _ => None
  }

  /** Swaps come from the refresh loop alone, mutations and offers from their origins. */
  predicate WellFormed(e: Event) {
    match e
    case Request(request) => !request.Swap?
    case Refresh(load) => !load.Mutate?
    case Writer(write) => !write.Offer? && !write.Mutate?
    case Admin(op) => !op.AuditBatch?
  }

  ghost predicate Enabled(w: World, d: State, e: Event) {
    && WellFormed(e)
    && (GatewayStep(d, e).Some? ==> GR.Enabled(d.gateway, GatewayStep(d, e).value))
    && (RefreshStep(d, e).Some? ==> CR.Enabled(d.refresh, RefreshStep(d, e).value))
    && (WriterStep(w, d, e).Some? ==> AP.Enabled(d.audit, WriterStep(w, d, e).value))
  }

  function GatewayAfter(w: World, d: State, e: Event): GR.State
    requires Enabled(w, d, e)
  {
    if GatewayStep(d, e).Some? then GR.Next(w.parse, d.gateway, GatewayStep(d, e).value) else d.gateway
  }

  ghost function RefreshAfter(w: World, d: State, e: Event): CR.State
    requires Enabled(w, d, e)
  {
    if RefreshStep(d, e).Some? then CR.Next(d.refresh, RefreshStep(d, e).value) else d.refresh
  }

  function AuditAfter(w: World, d: State, e: Event): AP.State
    requires Enabled(w, d, e)
  {
    if WriterStep(w, d, e).Some? then AP.Next(d.audit, WriterStep(w, d, e).value) else d.audit
  }

  ghost function Next(w: World, d: State, e: Event): State
    requires Enabled(w, d, e)
  {
    State(GatewayAfter(w, d, e), RefreshAfter(w, d, e), AuditAfter(w, d, e),
          if Statement(d, e).Some? then d.ops + [Statement(d, e).value] else d.ops)
  }

  ghost predicate CanRun(w: World, d: State, es: seq<Event>)
    decreases |es|
  {
    es == [] || (Enabled(w, d, es[0]) && CanRun(w, Next(w, d, es[0]), es[1..]))
  }

  ghost function Exec(w: World, d: State, es: seq<Event>): State
    requires CanRun(w, d, es)
    decreases |es|
  {
    if es == [] then d else Exec(w, Next(w, d, es[0]), es[1..])
  }

  /** An admin operation is never held up by the rest of the system. */
  lemma AdminAlwaysEnabled(w: World, d: State, op: Op)
    requires d.refresh.history != [] && !op.AuditBatch?
    ensures Enabled(w, d, Admin(op))
  {
    StepKeepsAudit(d.audit.db, op);
  }

  // ---- Each part goes through a run of its own machine ----

  ghost function GatewaySteps(w: World, d: State, es: seq<Event>): seq<GR.Event>
    requires CanRun(w, d, es)
    decreases |es|
  {
    if es == [] then []
    else
      var rest := GatewaySteps(w, Next(w, d, es[0]), es[1..]);
      if GatewayStep(d, es[0]).Some? then [GatewayStep(d, es[0]).value] + rest else rest
  }

  lemma {:induction false} RunsGateway(w: World, d: State, es: seq<Event>)
    requires CanRun(w, d, es)
    ensures GR.CanRun(w.parse, d.gateway, GatewaySteps(w, d, es))
    ensures GR.Exec(w.parse, d.gateway, GatewaySteps(w, d, es)) == Exec(w, d, es).gateway
    decreases |es|
  {
    if es != [] {
      RunsGateway(w, Next(w, d, es[0]), es[1..]);
      if GatewayStep(d, es[0]).Some? {
        var steps := GatewaySteps(w, d, es);
        assert steps[1..] == GatewaySteps(w, Next(w, d, es[0]), es[1..]);
      }
    }
  }

  ghost function RefreshSteps(w: World, d: State, es: seq<Event>): seq<CR.Event>
    requires CanRun(w, d, es)
    decreases |es|
  {
    if es == [] then []
    else
      var rest := RefreshSteps(w, Next(w, d, es[0]), es[1..]);
      if RefreshStep(d, es[0]).Some? then [RefreshStep(d, es[0]).value] + rest else rest
  }

  lemma {:induction false} RunsRefresh(w: World, d: State, es: seq<Event>)
    requires CanRun(w, d, es)
    ensures CR.CanRun(d.refresh, RefreshSteps(w, d, es))
    ensures CR.Exec(d.refresh, RefreshSteps(w, d, es)) == Exec(w, d, es).refresh
    decreases |es|
  {
    if es != [] {
      RunsRefresh(w, Next(w, d, es[0]), es[1..]);
      if RefreshStep(d, es[0]).Some? {
        var steps := RefreshSteps(w, d, es);
        assert steps[1..] == RefreshSteps(w, Next(w, d, es[0]), es[1..]);
      }
    }
  }

  ghost function WriterSteps(w: World, d: State, es: seq<Event>): seq<AP.Event>
    requires CanRun(w, d, es)
    decreases |es|
  {
    if es == [] then []
    else
      var rest := WriterSteps(w, Next(w, d, es[0]), es[1..]);
      if WriterStep(w, d, es[0]).Some? then [WriterStep(w, d, es[0]).value] + rest else rest
  }

  lemma {:induction false} RunsWriter(w: World, d: State, es: seq<Event>)
    requires CanRun(w, d, es)
    ensures AP.CanRun(d.audit, WriterSteps(w, d, es))
    ensures AP.Exec(d.audit, WriterSteps(w, d, es)) == Exec(w, d, es).audit
    decreases |es|
  {
    if es != [] {
      RunsWriter(w, Next(w, d, es[0]), es[1..]);
      if WriterStep(w, d, es[0]).Some? {
        var steps := WriterSteps(w, d, es);
        assert steps[1..] == WriterSteps(w, Next(w, d, es[0]), es[1..]);
      }
    }
  }

  // ---- What ties the parts together ----

  function Published(published: seq<CR.Publication>): seq<GatewayCache> {
    seq(|published|, i requires 0 <= i < |published| => published[i].cache)
  }

  /** The gateway has had the new cache and then every published one. */
  ghost predicate SameCaches(d: State) {
    d.gateway.versions == [NEW_CACHE] + Published(d.refresh.published)
  }

  ghost predicate SameDatabase(d: State) {
    && d.refresh.history != [] && CR.Current(d.refresh) == d.audit.db
    && MadeBy(d.refresh.history, d.ops)
  }

  /** The rows offered for the logged requests, in order. */
  function OfferedRows(w: World, rows: seq<(nat, Entry)>): seq<AP.Row> {
    seq(|rows|, i requires 0 <= i < |rows| => OfferedRow(w, rows[i].1))
  }

  /** Every audit row of a logged request has been offered, in order; nothing else has. */
  ghost predicate SameRows(w: World, d: State) {
    && AP.Conserved(d.audit)
    && d.audit.attempted == |d.gateway.rows|
    && Subsequence(d.audit.accepted, OfferedRows(w, d.gateway.rows))
  }

  lemma StepSameCaches(w: World, d: State, e: Event)
    requires SameCaches(d) && Enabled(w, d, e)
    ensures SameCaches(Next(w, d, e))
  {
    if e.Refresh? && e.load.Publish? {
      var p := d.refresh.load.publication;
      assert Published(d.refresh.published + [p]) == Published(d.refresh.published) + [p.cache];
    }
  }

  lemma StatementMakesVersion(d: State, e: Event)
    requires Changed(d, e).Some?
    ensures Statement(d, e).Some? && Changed(d, e).value == Step(d.audit.db, Statement(d, e).value)
  {
  }

  lemma NewVersion(w: World, d: State, e: Event)
    requires Enabled(w, d, e) && SameDatabase(d)
    ensures var t := Next(w, d, e);
            if Changed(d, e).Some? then
              && t.refresh.history == d.refresh.history + [Changed(d, e).value] && t.audit.db == Changed(d, e).value
              && Statement(d, e).Some? && t.ops == d.ops + [Statement(d, e).value]
            else t.refresh.history == d.refresh.history && t.audit.db == d.audit.db && t.ops == d.ops
  {
  }

  lemma StepSameDatabase(w: World, d: State, e: Event)
    requires SameDatabase(d) && Enabled(w, d, e)
    ensures SameDatabase(Next(w, d, e))
  {
    NewVersion(w, d, e);
    if Changed(d, e).Some? {
      StatementMakesVersion(d, e);
      OneMoreVersion(d.refresh.history, d.ops, Statement(d, e).value);
    }
  }

  lemma OneMoreVersion(history: seq<Store>, ops: seq<Op>, op: Op)
    requires MadeBy(history, ops)
    ensures MadeBy(history + [Step(history[|history| - 1], op)], ops + [op])
  {
  }

  /** A step that makes a row offers it, and no other step makes or offers one. */
  lemma RowIsOffered(w: World, d: State, e: Event)
    requires Enabled(w, d, e)
    ensures var step, rows := WriterStep(w, d, e), GatewayAfter(w, d, e).rows;
            if step.Some? && step.value.Offer?
            then |rows| == |d.gateway.rows| + 1 && rows[..|d.gateway.rows|] == d.gateway.rows
                 && step.value.row == OfferedRow(w, rows[|d.gateway.rows|].1)
            else rows == d.gateway.rows
  {
  }

  lemma WriterCounts(a: AP.State, e: AP.Event)
    requires AP.Enabled(a, e)
    ensures var b := AP.Next(a, e);
            if e.Offer?
            then b.attempted == a.attempted + 1 && (b.accepted == a.accepted || b.accepted == a.accepted + [e.row])
            else b.attempted == a.attempted && b.accepted == a.accepted
  {
  }

  lemma OneMoreOffered(w: World, rows: seq<(nat, Entry)>, later: seq<(nat, Entry)>, accepted: seq<AP.Row>)
    requires |later| == |rows| + 1 && later[..|rows|] == rows && Subsequence(accepted, OfferedRows(w, rows))
    ensures Subsequence(accepted, OfferedRows(w, later))
    ensures Subsequence(accepted + [OfferedRow(w, later[|rows|].1)], OfferedRows(w, later))
  {
    var row := OfferedRow(w, later[|rows|].1);
    assert OfferedRows(w, later) == OfferedRows(w, rows) + [row];
    SubsequenceGrows(accepted, OfferedRows(w, rows), row);
  }

  lemma StepSameRows(w: World, d: State, e: Event)
    requires SameRows(w, d) && Enabled(w, d, e)
    ensures SameRows(w, Next(w, d, e))
  {
    RowIsOffered(w, d, e);
    if WriterStep(w, d, e).Some? {
      var step := WriterStep(w, d, e).value;
      AP.StepConserves(d.audit, step);
      WriterCounts(d.audit, step);
      if step.Offer? {
        OneMoreOffered(w, d.gateway.rows, GatewayAfter(w, d, e).rows, d.audit.accepted);
      }
    }
  }

  lemma {:induction false} RunKeepsTies(w: World, d: State, es: seq<Event>)
    requires SameCaches(d) && SameDatabase(d) && SameRows(w, d) && CanRun(w, d, es)
    ensures var t := Exec(w, d, es); SameCaches(t) && SameDatabase(t) && SameRows(w, t)
    decreases |es|
  {
    if es != [] {
      StepSameCaches(w, d, es[0]);
      StepSameDatabase(w, d, es[0]);
      StepSameRows(w, d, es[0]);
      RunKeepsTies(w, Next(w, d, es[0]), es[1..]);
    }
  }

  lemma Ties(w: World, db: Store, es: seq<Event>)
    requires CanRun(w, Initial(db), es)
    ensures var t := Exec(w, Initial(db), es); SameCaches(t) && SameDatabase(t) && SameRows(w, t)
  {
    assert Published([]) == [];
    RunKeepsTies(w, Initial(db), es);
  }

  // ---- Requests and the database ----

  const NO_ROWS := Origin(EMPTY, EMPTY)

  /** Where each cache version comes from: the first from nothing, every other from the
      database versions its publication read. */
  ghost function Origins(r: CR.State): seq<Origin>
    requires CR.AllFaithful(r.history, r.published)
  {
    [NO_ROWS] + seq(|r.published|, i requires 0 <= i < |r.published| && CR.Faithful(r.history, r.published[i]) =>
                      Origin(r.history[r.published[i].k], r.history[r.published[i].r]))
  }

  lemma NewCacheIsLoaded()
    ensures LoadedFrom(NEW_CACHE, NO_ROWS)
  {
    assert CandidateView(EMPTY) == [];
    assert IsCandidateResult(EMPTY, []);
    forall model ensures TargetIs(map[], [], model) {
    }
    assert TargetsAre(map[], []);
  }

  /** Every cache the gateway ever has is loaded from versions of its own database. */
  lemma CachesAreLoaded(w: World, db: Store, es: seq<Event>)
    requires CanRun(w, Initial(db), es)
    ensures var d := Exec(w, Initial(db), es);
            && CR.AllFaithful(d.refresh.history, d.refresh.published)
            && CR.InTime(d.refresh.published, |d.refresh.history|) && CR.InOrder(d.refresh.published)
            && AllLoaded(d.gateway.versions, Origins(d.refresh))
  {
    var d := Exec(w, Initial(db), es);
    Ties(w, db, es);
    RunsRefresh(w, Initial(db), es);
    CR.PublicationsAgreeWithDatabase(db, RefreshSteps(w, Initial(db), es));
    PublishedAreLoaded(d.refresh);
  }

  /** The first version is the new cache; every later one is a published one. */
  lemma VersionIsPublished(published: seq<CR.Publication>, n: nat)
    requires n <= |published|
    ensures var versions := [NEW_CACHE] + Published(published);
            if n == 0 then versions[n] == NEW_CACHE else versions[n] == published[n - 1].cache
  {
  }

  lemma OriginOf(r: CR.State, n: nat)
    requires CR.AllFaithful(r.history, r.published) && n <= |r.published|
    ensures n == 0 ==> Origins(r)[n] == NO_ROWS
    ensures n > 0 ==>
              var p := r.published[n - 1];
              && p.begin <= p.k <= p.r < |r.history|
              && Origins(r)[n] == Origin(r.history[p.k], r.history[p.r]) && LoadedFrom(p.cache, Origins(r)[n])
  {
    assert n > 0 ==> CR.Faithful(r.history, r.published[n - 1]);
  }

  lemma PublishedAreLoaded(r: CR.State)
    requires CR.AllFaithful(r.history, r.published)
    ensures AllLoaded([NEW_CACHE] + Published(r.published), Origins(r))
  {
    var versions := [NEW_CACHE] + Published(r.published);
    forall v | 0 <= v < |versions| ensures LoadedFrom(versions[v], Origins(r)[v]) {
      NewCacheIsLoaded();
      VersionIsPublished(r.published, v);
      OriginOf(r, v);
    }
  }

  /** In every run of the whole system a forwarded request belongs to a key that was
      enabled in some version of the database, and was sent to the provider of an enabled
      route of an enabled policy of some version; of the model it asked for, if its lookup
      found that. */
  lemma RequestsFollowDatabase(w: World, db: Store, es: seq<Event>, id: nat)
    requires CanRun(w, Initial(db), es) && id in Exec(w, Initial(db), es).gateway.jobs
    requires Exec(w, Initial(db), es).gateway.jobs[id].stage.Forwarding?
    ensures var d := Exec(w, Initial(db), es);
            var job := d.gateway.jobs[id];
            && (exists s :: s in d.refresh.history && KeyEnabled(s, job))
            && (exists s, r :: s in d.refresh.history && CallsRow(w.parse, job, s, r)
                  && (GQ.ModelFound(d.gateway.versions, job) ==> ServesModel(s, r, job.body.model)))
  {
    var d := Exec(w, Initial(db), es);
    var job := d.gateway.jobs[id];
    var steps := GatewaySteps(w, Initial(db), es);
    CachesAreLoaded(w, db, es);
    RunsGateway(w, Initial(db), es);
    var k := ForwardedKeyWasEnabled(w.parse, NEW_CACHE, steps, id, Origins(d.refresh));
    var v, r := ForwardedRouteWasEnabled(w.parse, NEW_CACHE, steps, id, Origins(d.refresh));
    OriginInHistory(d.refresh, k);
    OriginInHistory(d.refresh, v);
    assert KeyEnabled(Origins(d.refresh)[k].keys, job);
    assert CallsRow(w.parse, job, Origins(d.refresh)[v].routes, r);
  }

  lemma OriginInHistory(r: CR.State, v: nat)
    requires CR.AllFaithful(r.history, r.published) && v <= |r.published|
    ensures v == 0 || (Origins(r)[v].keys in r.history && Origins(r)[v].routes in r.history)
  {
    OriginOf(r, v);
  }

  // ---- A retired key ----

  lemma {:induction false} Join(w: World, d: State, xs: seq<Event>, ys: seq<Event>)
    requires CanRun(w, d, xs) && CanRun(w, Exec(w, d, xs), ys)
    ensures CanRun(w, d, xs + ys) && Exec(w, d, xs + ys) == Exec(w, Exec(w, d, xs), ys)
    decreases |xs|
  {
    if xs == [] {
      assert xs + ys == ys;
    } else {
      assert (xs + ys)[0] == xs[0] && (xs + ys)[1..] == xs[1..] + ys;
      Join(w, Next(w, d, xs[0]), xs[1..], ys);
    }
  }

  /** If the request has been looked up, then in version n or a later one. */
  predicate LookedUpFrom(s: GR.State, id: nat, n: nat) {
    id in s.jobs && s.jobs[id].keySeen.Some? ==> s.jobs[id].keySeen.value >= n
  }

  lemma StepLookedUpFrom(parse: UrlParser, s: GR.State, e: GR.Event, id: nat, n: nat)
    requires GR.Enabled(s, e) && LookedUpFrom(s, id, n) && n < |s.versions|
    ensures LookedUpFrom(GR.Next(parse, s, e), id, n) && n < |GR.Next(parse, s, e).versions|
  {
  }

  lemma {:induction false} RunLookedUpFrom(parse: UrlParser, s: GR.State, es: seq<GR.Event>, id: nat, n: nat)
    requires GR.CanRun(parse, s, es) && LookedUpFrom(s, id, n) && n < |s.versions|
    ensures LookedUpFrom(GR.Exec(parse, s, es), id, n)
    decreases |es|
  {
    if es != [] {
      StepLookedUpFrom(parse, s, es[0], id, n);
      RunLookedUpFrom(parse, GR.Next(parse, s, es[0]), es[1..], id, n);
    }
  }

  lemma {:induction false} RefreshGrows(r: CR.State, es: seq<CR.Event>)
    requires CR.CanRun(r, es)
    ensures r.published <= CR.Exec(r, es).published && r.history <= CR.Exec(r, es).history
    decreases |es|
  {
    if es != [] {
      RefreshGrows(CR.Next(r, es[0]), es[1..]);
    }
  }

  /** From the moment some load begun after a rotation, disable or delete of a key has been
      published, every request whose key lookup comes later with the old hash is answered
      403, whatever else runs, unless an operation brings the hash back. */
  lemma RetiredKeyIsForbidden(w: World, db: Store, es: seq<Event>, more: seq<Event>, hash: string, v: nat, i: nat,
                              id: nat)
    requires CanRun(w, Initial(db), es) && CanRun(w, Exec(w, Initial(db), es), more)
    requires var d := Exec(w, Initial(db), es);
             && v < |d.refresh.history| && Dead(d.refresh.history[v], hash)
             && i < |d.refresh.published| && v <= d.refresh.published[i].begin
             && (id in d.gateway.jobs ==> d.gateway.jobs[id].keySeen.None?)
    requires var t := Exec(w, Exec(w, Initial(db), es), more);
             && (MadeBy(t.refresh.history, t.ops) ==> NeverRevived(t.refresh.history, t.ops, hash, v))
             && id in t.gateway.jobs && t.gateway.jobs[id].front == Bearer(hash)
    ensures var job := Exec(w, Exec(w, Initial(db), es), more).gateway.jobs[id];
            job.stage.Keyed? || job.stage == Answered(403)
  {
    var d := Exec(w, Initial(db), es);
    var t := Exec(w, d, more);
    LookedUpAfter(w, db, es, more, i, id);
    Join(w, Initial(db), es, more);
    KeyLookedUp(w, db, es + more, id);
    var job := t.gateway.jobs[id];
    if !job.stage.Keyed? {
      DeadInLaterCaches(w, db, es + more, hash, v, i, job.keySeen.value);
    }
  }

  /** From the moment some load begun while a key was live has been published, every request
      whose key lookup comes later with its hash gets past 403 and is attributed to that key,
      whatever else runs, unless an operation ends the key. So a rotated key works on with
      its new hash. */
  lemma LiveKeyIsAdmitted(w: World, db: Store, es: seq<Event>, more: seq<Event>, key: Id, hash: string, v: nat,
                          i: nat, id: nat)
    requires CanRun(w, Initial(db), es) && CanRun(w, Exec(w, Initial(db), es), more)
    requires var d := Exec(w, Initial(db), es);
             && v < |d.refresh.history| && Live(d.refresh.history[v], key, hash)
             && i < |d.refresh.published| && v <= d.refresh.published[i].begin
             && (id in d.gateway.jobs ==> d.gateway.jobs[id].keySeen.None?)
    requires var t := Exec(w, Exec(w, Initial(db), es), more);
             && NeverEnded(t.ops, key, hash, v)
             && id in t.gateway.jobs && t.gateway.jobs[id].front == Bearer(hash)
    ensures var job := Exec(w, Exec(w, Initial(db), es), more).gateway.jobs[id];
            job.stage.Keyed? || (job.stage != Answered(403) && job.ctx.apiKeyId == Some(key))
  {
    var d := Exec(w, Initial(db), es);
    var t := Exec(w, d, more);
    LookedUpAfter(w, db, es, more, i, id);
    Join(w, Initial(db), es, more);
    KeyLookedUp(w, db, es + more, id);
    var job := t.gateway.jobs[id];
    if !job.stage.Keyed? {
      LiveInLaterCaches(w, db, es + more, key, hash, v, i, job.keySeen.value);
    }
  }

  /** A lookup that comes after publication i reads that version of the cache or a later. */
  lemma LookedUpAfter(w: World, db: Store, es: seq<Event>, more: seq<Event>, i: nat, id: nat)
    requires CanRun(w, Initial(db), es) && CanRun(w, Exec(w, Initial(db), es), more)
    requires var d := Exec(w, Initial(db), es);
             i < |d.refresh.published| && (id in d.gateway.jobs ==> d.gateway.jobs[id].keySeen.None?)
    ensures var d := Exec(w, Initial(db), es);
            var t := Exec(w, d, more);
            && LookedUpFrom(t.gateway, id, i + 1)
            && d.refresh.published <= t.refresh.published && d.refresh.history <= t.refresh.history
  {
    var d := Exec(w, Initial(db), es);
    Ties(w, db, es);
    RunsGateway(w, d, more);
    RunLookedUpFrom(w.parse, d.gateway, GatewaySteps(w, d, more), id, i + 1);
    RunsRefresh(w, d, more);
    RefreshGrows(d.refresh, RefreshSteps(w, d, more));
  }

  /** Version n of the cache, published after publication i, lists a key that was live when
      that publication's load began. */
  lemma LiveInLaterCaches(w: World, db: Store, es: seq<Event>, key: Id, hash: string, v: nat, i: nat, n: nat)
    requires CanRun(w, Initial(db), es)
    requires var t := Exec(w, Initial(db), es);
             && v < |t.refresh.history| && Live(t.refresh.history[v], key, hash)
             && i < |t.refresh.published| && v <= t.refresh.published[i].begin
             && NeverEnded(t.ops, key, hash, v) && i + 1 <= n < |t.gateway.versions|
    ensures var hashes := Exec(w, Initial(db), es).gateway.versions[n].keyHashes;
            hash in hashes && hashes[hash] == key
  {
    var t := Exec(w, Initial(db), es);
    var steps := RefreshSteps(w, Initial(db), es);
    Ties(w, db, es);
    RunsRefresh(w, Initial(db), es);
    LiveKeyStaysListed(db, steps, t.ops, key, hash, v, i, n - 1);
  }

  /** A request past its key lookup is answered 403 exactly if the version it read lacks
      its hash. */
  lemma KeyLookedUp(w: World, db: Store, es: seq<Event>, id: nat)
    requires CanRun(w, Initial(db), es) && id in Exec(w, Initial(db), es).gateway.jobs
    requires Exec(w, Initial(db), es).gateway.jobs[id].front.Bearer?
    ensures var s := Exec(w, Initial(db), es).gateway;
            var job := s.jobs[id];
            && (job.stage.Keyed? || job.keySeen.Some?)
            && (job.keySeen.Some? ==>
                  && job.keySeen.value < |s.versions|
                  && (job.stage == Answered(403) <==> job.front.hash !in s.versions[job.keySeen.value].keyHashes)
                  && (job.front.hash in s.versions[job.keySeen.value].keyHashes ==>
                        job.ctx.apiKeyId == Some(s.versions[job.keySeen.value].keyHashes[job.front.hash])))
  {
    var steps := GatewaySteps(w, Initial(db), es);
    RunsGateway(w, Initial(db), es);
    GQ.RunKeepsKeys(w.parse, GR.Initial(NEW_CACHE), steps);
    assert GQ.KeyOk(Exec(w, Initial(db), es).gateway.versions, Exec(w, Initial(db), es).gateway.jobs[id]);
  }

  /** Version n of the cache, published after publication i, does not list a hash that was
      dead when that publication's load began. */
  lemma DeadInLaterCaches(w: World, db: Store, es: seq<Event>, hash: string, v: nat, i: nat, n: nat)
    requires CanRun(w, Initial(db), es)
    requires var t := Exec(w, Initial(db), es);
             && v < |t.refresh.history| && Dead(t.refresh.history[v], hash)
             && i < |t.refresh.published| && v <= t.refresh.published[i].begin
             && (MadeBy(t.refresh.history, t.ops) ==> NeverRevived(t.refresh.history, t.ops, hash, v))
             && i + 1 <= n < |t.gateway.versions|
    ensures hash !in Exec(w, Initial(db), es).gateway.versions[n].keyHashes
  {
    var t := Exec(w, Initial(db), es);
    var steps := RefreshSteps(w, Initial(db), es);
    Ties(w, db, es);
    RunsRefresh(w, Initial(db), es);
    RetiredHashStaysAway(db, steps, t.ops, hash, v, i, n - 1);
  }
}
