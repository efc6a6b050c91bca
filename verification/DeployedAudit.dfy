/** The audit trail of the whole system: from a logged request to a row of the table. */
module DeployedAudit {
  import opened Wrappers
  import opened Collections
  import opened Schema
  import opened Cache
  import opened Gateway
  import opened Deployment
  import GR = GatewayRuns
  import GQ = GatewayRequests
  import AP = AuditPipeline

  /** In every run of the whole system each logged request but a health check has been
      offered to the audit writer once: so many requests, so many rows accepted or
      dropped. The accepted ones are those of the logged requests in their order, some
      left out, and are flushed, collected or waiting, in that order. */
  lemma LoggedRequestsAreOffered(w: World, db: Store, es: seq<Event>)
    requires CanRun(w, Initial(db), es)
    ensures var d := Exec(w, Initial(db), es);
            && |set id | id in d.gateway.jobs && d.gateway.jobs[id].logged && !d.gateway.jobs[id].front.Healthz?|
               == |d.audit.accepted| + d.audit.dropped == |d.gateway.rows|
            && d.audit.accepted == AP.FlushedRows(d.audit.flushed) + d.audit.batch + d.audit.queue
            && Subsequence(d.audit.accepted, OfferedRows(w, d.gateway.rows))
  {
    var d := Exec(w, Initial(db), es);
    Ties(w, db, es);
    RunsGateway(w, Initial(db), es);
    GQ.InitialAccounts(w.parse, NEW_CACHE, GatewaySteps(w, Initial(db), es));
    assert GQ.Matching(d.gateway.jobs, GQ.IsAudited())
        == set id | id in d.gateway.jobs && d.gateway.jobs[id].logged && !d.gateway.jobs[id].front.Healthz?;
  }

  /** What the offered row holds of a request, column by column: its id; the key named at
      its lookup; the model its body asked for; the provider of the route that served it,
      if one did; no model or provider model reference; and a rendering of a row that
      says the rest. */
  ghost predicate OfferSays(w: World, versions: seq<GatewayCache>, job: GR.Job, row: AP.Row) {
    && row.0 == job.ctx.requestId
    && GQ.NamesKey(versions, job, row.1.keyId)
    && row.1.model == (if GQ.Asks(job) && GQ.PastLookup(job.stage) then Some(job.body.model) else None)
    && (if job.stage.Forwarding? then
          job.pick.Some? && GQ.Serves(w.parse, versions, job, job.pick.value)
          && row.1.providerId == Some(GQ.RouteAt(versions, job.pick.value).provider.id)
        else row.1.providerId.None?)
    && row.1.modelId.None? && row.1.providerModelId.None?
    && exists entry :: GQ.RowSays(w.parse, versions, job, entry) && row.1.detail == w.render(entry)
  }

  /** In every run of the whole system each offered row says of its request what happened. */
  lemma OfferedRowsSayWhatHappened(w: World, db: Store, es: seq<Event>, i: nat)
    requires CanRun(w, Initial(db), es) && i < |Exec(w, Initial(db), es).gateway.rows|
    ensures var s := Exec(w, Initial(db), es).gateway;
            s.rows[i].0 in s.jobs && OfferSays(w, s.versions, s.jobs[s.rows[i].0], OfferedRows(w, s.rows)[i])
  {
    var s := Exec(w, Initial(db), es).gateway;
    RunsGateway(w, Initial(db), es);
    GQ.RowsSayWhatHappened(w.parse, NEW_CACHE, GatewaySteps(w, Initial(db), es), i);
    SayingIsOffered(w, s.versions, s.jobs[s.rows[i].0], s.rows[i].1);
  }

  lemma SayingIsOffered(w: World, versions: seq<GatewayCache>, job: GR.Job, entry: Entry)
    requires GQ.RowSays(w.parse, versions, job, entry)
    ensures OfferSays(w, versions, job, OfferedRow(w, entry))
  {
  }

  /** Whatever the admin API does meanwhile, the table holds what it held before and, for
      every id that is new, the first stored row with it; each stored row is one accepted
      from a logged request. */
  lemma TableHoldsLoggedRequests(w: World, db: Store, es: seq<Event>)
    requires CanRun(w, Initial(db), es)
    ensures var d := Exec(w, Initial(db), es);
            var stored := AP.StoredRows(d.audit.flushed);
            && AP.HoldsStored(db, d.audit.db, stored)
            && d.refresh.history != [] && d.refresh.history[|d.refresh.history| - 1] == d.audit.db
            && Subsequence(stored, AP.FlushedRows(d.audit.flushed))
            && forall r :: r in stored ==> r in OfferedRows(w, d.gateway.rows)
  {
    var d := Exec(w, Initial(db), es);
    Ties(w, db, es);
    RunsWriter(w, Initial(db), es);
    var steps := WriterSteps(w, Initial(db), es);
    forall id ensures AP.HoldsId(db, db, [], id) {
    }
    AP.TableHoldsStoredRows(db, AP.Initial(db), steps);
    StoredAreFlushed(d.audit.flushed);
    SubsequenceMembers(AP.StoredRows(d.audit.flushed), AP.FlushedRows(d.audit.flushed));
    SubsequenceMembers(d.audit.accepted, OfferedRows(w, d.gateway.rows));
  }

  lemma {:induction false} StoredAreFlushed(flushed: seq<AP.Batch>)
    ensures Subsequence(AP.StoredRows(flushed), AP.FlushedRows(flushed))
  {
    if flushed != [] {
      var m := |flushed| - 1;
      StoredAreFlushed(flushed[..m]);
      if flushed[m].stored {
        SubsequenceJoin(AP.StoredRows(flushed[..m]), AP.FlushedRows(flushed[..m]), flushed[m].rows);
      } else {
        SubsequenceSkips(AP.StoredRows(flushed[..m]), AP.FlushedRows(flushed[..m]), flushed[m].rows);
        assert AP.StoredRows(flushed[..m]) + [] == AP.StoredRows(flushed[..m]);
      }
    }
  }

  // ---- Text the database cannot hold ----

  /** The columns that are not modelled one by one come from the database or the program,
      never with a NUL. */
  ghost predicate RendersText(w: World) {
    forall entry :: !HasNul(w.render(entry))
  }

  /** The model a body names reaches the audit row as it is. */
  lemma RequestedModelReachesRow(w: World, f: Filtering, model: string, r: Readings, status: nat)
    requires model != "" && FirstOf(r.atFallback, r.first)
    ensures var ctx := Routed(w.parse, f, Json(model), r).progress.ctx;
            && OfferedRow(w, EntryOf(ctx, status)).1.model == Some(model)
            && (HasNul(model) ==> !OfferedRow(w, EntryOf(ctx, status)).1.IsText())
  {
  }

  /** The request of this logged row asked for a model with a NUL. */
  predicate AskedWithNul(d: State, i: nat)
    requires i < |d.gateway.rows|
  {
    var id := d.gateway.rows[i].0;
    id in d.gateway.jobs && d.gateway.jobs[id].body.Json? && HasNul(d.gateway.jobs[id].body.model)
  }

  /** Only a request whose body asks for a model with a NUL makes a row the database
      cannot hold. */
  lemma OnlyRequestedModelsAreNoText(w: World, db: Store, es: seq<Event>, row: AP.Row)
    requires CanRun(w, Initial(db), es) && RendersText(w)
    requires row in Exec(w, Initial(db), es).audit.accepted && !row.1.IsText()
    ensures var d := Exec(w, Initial(db), es);
            exists i :: 0 <= i < |d.gateway.rows| && row == OfferedRow(w, d.gateway.rows[i].1) && AskedWithNul(d, i)
  {
    var d := Exec(w, Initial(db), es);
    Ties(w, db, es);
    SubsequenceMembers(d.audit.accepted, OfferedRows(w, d.gateway.rows));
    var i :| 0 <= i < |d.gateway.rows| && OfferedRows(w, d.gateway.rows)[i] == row;
    RunRowOfBody(w, db, es, i);
  }

  lemma RunRowOfBody(w: World, db: Store, es: seq<Event>, i: nat)
    requires CanRun(w, Initial(db), es) && i < |Exec(w, Initial(db), es).gateway.rows|
    ensures var s := Exec(w, Initial(db), es).gateway;
            && s.rows[i].0 in s.jobs
            && (s.rows[i].1.model.Some? ==> s.jobs[s.rows[i].0].body == Json(s.rows[i].1.model.value))
  {
    var steps := GatewaySteps(w, Initial(db), es);
    RunsGateway(w, Initial(db), es);
    GQ.InitialAccounts(w.parse, NEW_CACHE, steps);
    GQ.RunKeepsRoutes(w.parse, GR.Initial(NEW_CACHE), steps);
    RowOfBody(w, Exec(w, Initial(db), es).gateway, i);
  }

  lemma RowOfBody(w: World, s: GR.State, i: nat)
    requires GQ.RowsOk(s) && GQ.RoutesInv(w.parse, s) && i < |s.rows|
    ensures s.rows[i].0 in s.jobs
    ensures s.rows[i].1.model.Some? ==> s.jobs[s.rows[i].0].body == Json(s.rows[i].1.model.value)
  {
    assert GQ.RouteOk(w.parse, s.versions, s.jobs[s.rows[i].0]);
  }

  /** A flush of rows none of whose requests asked for such a model is stored exactly when
      the database answers and no reference fails. */
  lemma CleanBatchStoredIff(w: World, db: Store, es: seq<Event>, up: bool)
    requires CanRun(w, Initial(db), es) && RendersText(w)
    requires var d := Exec(w, Initial(db), es);
             && AP.Enabled(d.audit, AP.Flush(up))
             && forall i :: 0 <= i < |d.gateway.rows| && OfferedRow(w, d.gateway.rows[i].1) in d.audit.batch ==>
                  !AskedWithNul(d, i)
    ensures var a := Exec(w, Initial(db), es).audit;
            AP.Next(a, AP.Flush(up)).flushed == a.flushed + [AP.Batch(a.batch, up && AP.AllLinked(a.db, a.batch))]
  {
    var d := Exec(w, Initial(db), es);
    Ties(w, db, es);
    forall row | row in d.audit.batch ensures row.1.IsText() {
      assert row in d.audit.accepted;
      if !row.1.IsText() {
        OnlyRequestedModelsAreNoText(w, db, es, row);
      }
    }
    AP.FlushStoresIff(d.audit, up);
  }
}
