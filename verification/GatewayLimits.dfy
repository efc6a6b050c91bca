/** A gateway run seen by the limiter and by the round-robin cursors: what is proved
    about their own runs holds for every run of the whole gateway. */
module GatewayLimits {
  import opened Wrappers
  import opened MachineInts
  import opened Collections
  import opened RateLimiter
  import opened RouteSelection
  import opened RouteFairness
  import opened Cache
  import opened Gateway
  import opened GatewayRuns
  import GQ = GatewayRequests
  import LR = LimiterRuns
  import LB = LimiterBounds

  // ---- The limiter's steps of a run ----

  function LimiterSteps(parse: UrlParser, s: State, es: seq<Event>): seq<LR.Event>
    requires CanRun(parse, s, es)
    decreases |es|
  {
    if es == [] then []
    else
      var rest := LimiterSteps(parse, Next(parse, s, es[0]), es[1..]);
      if LimiterEvent(s, es[0]).Some? then [LimiterEvent(s, es[0]).value] + rest else rest
  }

  /** The limiter inside the gateway goes through a run of the limiter alone. */
  lemma {:induction false} GatewayRunsLimiter(parse: UrlParser, s: State, es: seq<Event>)
    requires CanRun(parse, s, es)
    ensures LR.CanRun(s.lim, LimiterSteps(parse, s, es))
    ensures LR.Exec(s.lim, LimiterSteps(parse, s, es)) == Exec(parse, s, es).lim
    decreases |es|
  {
    if es != [] {
      GatewayRunsLimiter(parse, Next(parse, s, es[0]), es[1..]);
      var steps := LimiterSteps(parse, s, es);
      if LimiterEvent(s, es[0]).Some? {
        assert steps[0] == LimiterEvent(s, es[0]).value;
        assert steps[1..] == LimiterSteps(parse, Next(parse, s, es[0]), es[1..]);
      }
    }
  }

  predicate Caps(cache: GatewayCache, key: string, limit: i32) {
    key in cache.rateLimits && cache.rateLimits[key].requestsPerMinute == Some(limit)
  }

  /** From the first version that lists the key on, each gives it this limit. Versions
      before that, such as the empty one the gateway starts with, may say anything.
      It is so when each version that lists the key caps it and a listed key stays listed. */
  predicate CapOnceListed(versions: seq<GatewayCache>, key: string, limit: i32) {
    forall h, i :: 0 <= h <= i < |versions| && key in versions[h].keyHashes ==> Caps(versions[i], key, limit)
  }

  predicate Listed(versions: seq<GatewayCache>, key: string) {
    exists h :: 0 <= h < |versions| && key in versions[h].keyHashes
  }

  /** An admitted request was found in some version. */
  ghost predicate AdmittedListed(s: State, key: string) {
    forall id :: id in s.jobs && s.jobs[id].stage.Admitted? && s.jobs[id].ctx.keyHash == Some(key) ==>
      Listed(s.versions, key)
  }

  lemma StepAdmittedListed(parse: UrlParser, s: State, e: Event, key: string)
    requires AdmittedListed(s, key) && Enabled(s, e)
    ensures AdmittedListed(Next(parse, s, e), key)
  {
    var t := Next(parse, s, e);
    forall id | id in t.jobs && t.jobs[id].stage.Admitted? && t.jobs[id].ctx.keyHash == Some(key)
      ensures Listed(t.versions, key)
    {
      if e.Act? && e.id == id {
        assert e.action.LookupKey? ==> key in t.versions[|s.versions| - 1].keyHashes;
      } else {
        var h :| 0 <= h < |s.versions| && key in s.versions[h].keyHashes;
        assert key in t.versions[h].keyHashes;
      }
    }
  }

  lemma {:induction false} CappedRun(parse: UrlParser, s: State, es: seq<Event>, key: string, limit: i32)
    requires CanRun(parse, s, es) && AdmittedListed(s, key)
    requires CapOnceListed(Exec(parse, s, es).versions, key, limit)
    ensures LB.AlwaysLimited(LimiterSteps(parse, s, es), key, limit)
    decreases |es|
  {
    if es != [] {
      StepAdmittedListed(parse, s, es[0], key);
      CappedRun(parse, Next(parse, s, es[0]), es[1..], key, limit);
      VersionsGrow(parse, s, es);
      var last := Exec(parse, s, es).versions;
      if Listed(s.versions, key) {
        var h :| 0 <= h < |s.versions| && key in s.versions[h].keyHashes;
        assert key in last[h].keyHashes && last[|s.versions| - 1] == Current(s);
      }
    }
  }

  /** Never more than k requests of the key between a passed check and their record. */
  predicate Crowd(parse: UrlParser, s: State, es: seq<Event>, key: string, k: nat)
    requires CanRun(parse, s, es)
    decreases |es|
  {
    && |LB.InFlight(s.lim, key)| <= k
    && (es != [] ==> Crowd(parse, Next(parse, s, es[0]), es[1..], key, k))
  }

  lemma {:induction false} CrowdOfLimiter(parse: UrlParser, s: State, es: seq<Event>, key: string, k: nat)
    requires CanRun(parse, s, es) && Crowd(parse, s, es, key, k)
    ensures LR.CanRun(s.lim, LimiterSteps(parse, s, es))
    ensures LB.CrowdAtMost(s.lim, LimiterSteps(parse, s, es), key, k)
    decreases |es|
  {
    GatewayRunsLimiter(parse, s, es);
    if es != [] {
      CrowdOfLimiter(parse, Next(parse, s, es[0]), es[1..], key, k);
      var steps := LimiterSteps(parse, s, es);
      if LimiterEvent(s, es[0]).Some? {
        assert steps[1..] == LimiterSteps(parse, Next(parse, s, es[0]), es[1..]);
      }
    }
  }

  /** However requests, cache swaps and body uploads interleave, from any first cache: if
      from its first listing on every published cache gives the key this limit, and at
      most k of its requests are ever between a passed check and their record, no 61 s
      hold more than limit - 1 + k recorded requests. */
  lemma GatewayBound(parse: UrlParser, cache: GatewayCache, es: seq<Event>, key: string, limit: i32, k: nat)
    requires CanRun(parse, Initial(cache), es)
    requires CapOnceListed(Exec(parse, Initial(cache), es).versions, key, limit)
    requires Crowd(parse, Initial(cache), es, key, k)
    requires LB.Bound(limit, k) < TWO_31
    ensures forall from: Instant ::
              LB.RecordedIn(LR.LogOf(Exec(parse, Initial(cache), es).lim, key), from) <= LB.Bound(limit, k)
  {
    GatewayRunsLimiter(parse, Initial(cache), es);
    CappedRun(parse, Initial(cache), es, key, limit);
    CrowdOfLimiter(parse, Initial(cache), es, key, k);
    LB.ConcurrentBound(LimiterSteps(parse, Initial(cache), es), key, limit, k);
  }

  // ---- What is recorded ----

  function RecordedIds(lim: LR.State, key: string): set<nat> {
    set id | id in lim.requests && lim.requests[id] == LR.Recorded(key)
  }

  lemma {:induction false} RecordsCounted(lim: LR.State, es: seq<LR.Event>, key: string)
    requires LR.CanRun(lim, es) && |RecordedIds(lim, key)| == |LR.LogOf(lim, key)|
    ensures |RecordedIds(LR.Exec(lim, es), key)| == |LR.LogOf(LR.Exec(lim, es), key)|
    decreases |es|
  {
    if es != [] {
      RecordStep(lim, es[0], key);
      RecordsCounted(LR.Next(lim, es[0]), es[1..], key);
    }
  }

  lemma RecordStep(lim: LR.State, e: LR.Event, key: string)
    requires LR.Enabled(lim, e)
    ensures |RecordedIds(LR.Next(lim, e), key)| - |LR.LogOf(LR.Next(lim, e), key)|
         == |RecordedIds(lim, key)| - |LR.LogOf(lim, key)|
  {
    var next := LR.Next(lim, e);
    if e.Record? && lim.requests[e.id].key == key {
      assert RecordedIds(next, key) == RecordedIds(lim, key) + {e.id};
    } else {
      assert RecordedIds(next, key) == RecordedIds(lim, key);
    }
  }

  /** The requests of a key that went past the limiter, however they ended. */
  function LetThrough(s: State, key: string): set<nat> {
    set id | id in s.jobs && PastRecord(s.jobs[id].stage) && s.jobs[id].ctx.keyHash == Some(key)
  }

  /** Each request that passed the limiter is recorded once, also when it is later
      answered 413 or 503; a request answered 429 or earlier never is. */
  lemma RecordedExactly(parse: UrlParser, cache: GatewayCache, es: seq<Event>, key: string)
    requires CanRun(parse, Initial(cache), es)
    ensures var s := Exec(parse, Initial(cache), es);
            |LetThrough(s, key)| == |LR.LogOf(s.lim, key)|
  {
    var s := Exec(parse, Initial(cache), es);
    GatewayRunsLimiter(parse, Initial(cache), es);
    assert RecordedIds(LR.Initial(), key) == {};
    RecordsCounted(LR.Initial(), LimiterSteps(parse, Initial(cache), es), key);
    RunLimiterInv(parse, Initial(cache), es);
    forall id ensures id in LetThrough(s, key) <==> id in RecordedIds(s.lim, key) {
      assert id in s.jobs ==> LimiterAgrees(s, id);
    }
    assert LetThrough(s, key) == RecordedIds(s.lim, key);
  }

  // ---- Tokens ----

  predicate NoTokensIn(q: seq<RateLimitEntry>) {
    forall i :: 0 <= i < |q| ==> q[i].tokens == 0
  }

  predicate NoTokensLogged(log: seq<LR.Logged>) {
    forall i :: 0 <= i < |log| ==> log[i].entry.tokens == 0
  }

  /** Nothing the limiter keeps or has logged holds a token. */
  ghost predicate NoTokens(lim: LR.State) {
    && (forall key :: key in lim.entries ==> NoTokensIn(lim.entries[key]))
    && (forall key :: key in lim.log ==> NoTokensLogged(lim.log[key]))
  }

  predicate PositiveTokens(config: RateLimitConfig) {
    config.tokensPerMinute.Some? ==> config.tokensPerMinute.value > 0
  }

  /** Each version that limits the key gives it no token limit or a positive one. */
  predicate PositiveInAll(versions: seq<GatewayCache>, key: string) {
    forall v :: 0 <= v < |versions| && key in versions[v].rateLimits ==> PositiveTokens(versions[v].rateLimits[key])
  }

  /** The configurations the key's requests are waiting with. */
  ghost predicate PositiveWaiting(lim: LR.State, key: string) {
    forall id :: id in lim.requests && lim.requests[id].key == key ==>
      match lim.requests[id]
      case Ready(_, config) => PositiveTokens(config)
      case Timed(_, config, _) => PositiveTokens(config)
      case _ => true
  }

  predicate RejectedForTokens(job: Job) {
    job.ctx.rejectReason.Some? && job.ctx.rejectReason.value.TokensExceeded?
  }

  ghost predicate NoTokenRejection(s: State, key: string) {
    forall id :: id in s.jobs && s.jobs[id].ctx.keyHash == Some(key) ==> !RejectedForTokens(s.jobs[id])
  }

  lemma {:induction false} ZeroSum(q: seq<RateLimitEntry>)
    requires NoTokensIn(q)
    ensures SumTokens(q) == 0
  {
    if q != [] {
      ZeroSum(q[..|q| - 1]);
    }
  }

  lemma {:induction false} PrunedHasNoTokens(now: Instant, q: seq<RateLimitEntry>)
    requires NoTokensIn(q)
    ensures NoTokensIn(Pruned(now, q))
  {
    if q != [] && Expired(now, q[0]) {
      PrunedHasNoTokens(now, q[1..]);
    }
  }

  lemma ZeroIsNotTooMuch(config: RateLimitConfig, q: seq<RateLimitEntry>)
    requires PositiveTokens(config) && NoTokensIn(q)
    ensures var verdict := Verdict(config, q); verdict.Some? ==> !verdict.value.TokensExceeded?
  {
    ZeroSum(q);
  }

  /** The gateway records 0 tokens for every request. */
  lemma RecordsNoTokens(lim: LR.State, e: LR.Event)
    requires NoTokens(lim) && LR.Enabled(lim, e) && (e.Record? ==> e.tokens == 0)
    ensures NoTokens(LR.Next(lim, e))
  {
    if e.Check? {
      var r := lim.requests[e.id];
      PrunedHasNoTokens(r.now, DequeOf(lim.entries, r.key));
    }
  }

  lemma StepNoTokens(parse: UrlParser, s: State, e: Event)
    requires NoTokens(s.lim) && Enabled(s, e)
    ensures NoTokens(Next(parse, s, e).lim)
  {
    if LimiterEvent(s, e).Some? {
      RecordsNoTokens(s.lim, LimiterEvent(s, e).value);
    }
  }

  lemma StepPositiveWaiting(parse: UrlParser, s: State, e: Event, key: string)
    requires PositiveWaiting(s.lim, key) && PositiveInAll(s.versions, key) && Enabled(s, e)
    ensures PositiveWaiting(Next(parse, s, e).lim, key)
  {
  }

  lemma StepNoTokenRejection(parse: UrlParser, s: State, e: Event, key: string)
    requires LimiterInv(s) && NoTokens(s.lim) && PositiveWaiting(s.lim, key) && NoTokenRejection(s, key)
    requires Enabled(s, e)
    ensures NoTokenRejection(Next(parse, s, e), key)
  {
    var t := Next(parse, s, e);
    forall id | id in t.jobs && t.jobs[id].ctx.keyHash == Some(key) ensures !RejectedForTokens(t.jobs[id]) {
      if e.Act? && e.id == id {
        ActorNoTokenRejection(parse, s, id, e.action, key);
      }
    }
  }

  lemma ActorNoTokenRejection(parse: UrlParser, s: State, id: nat, a: Action, key: string)
    requires LimiterInv(s) && NoTokens(s.lim) && PositiveWaiting(s.lim, key) && NoTokenRejection(s, key)
    requires Enabled(s, Act(id, a))
    ensures var job := Moved(parse, s, id, a); job.ctx.keyHash == Some(key) ==> !RejectedForTokens(job)
  {
    assert LimiterAgrees(s, id);
    if a.Check? {
      assert LimiterEvent(s, Act(id, a)) == Some(LR.Check(id));
      var r := s.lim.requests[id];
      if r.key == key {
        PrunedHasNoTokens(r.now, DequeOf(s.lim.entries, key));
        ZeroIsNotTooMuch(r.config, Pruned(r.now, DequeOf(s.lim.entries, key)));
      }
    }
  }

  lemma {:induction false} RunNoTokens(parse: UrlParser, s: State, es: seq<Event>)
    requires NoTokens(s.lim) && CanRun(parse, s, es)
    ensures NoTokens(Exec(parse, s, es).lim)
    decreases |es|
  {
    if es != [] {
      StepNoTokens(parse, s, es[0]);
      RunNoTokens(parse, Next(parse, s, es[0]), es[1..]);
    }
  }

  lemma {:induction false} RunNoTokenRejection(parse: UrlParser, s: State, es: seq<Event>, key: string)
    requires LimiterInv(s) && NoTokens(s.lim) && PositiveWaiting(s.lim, key) && NoTokenRejection(s, key)
    requires CanRun(parse, s, es) && PositiveInAll(Exec(parse, s, es).versions, key)
    ensures NoTokenRejection(Exec(parse, s, es), key)
    decreases |es|
  {
    if es != [] {
      var t := Next(parse, s, es[0]);
      VersionsGrow(parse, s, es);
      PositiveBefore(s.versions, Exec(parse, s, es).versions, key);
      StepLimiterInv(parse, s, es[0]);
      StepNoTokens(parse, s, es[0]);
      StepPositiveWaiting(parse, s, es[0], key);
      StepNoTokenRejection(parse, s, es[0], key);
      RunNoTokenRejection(parse, t, es[1..], key);
    }
  }

  lemma PositiveBefore(versions: seq<GatewayCache>, later: seq<GatewayCache>, key: string)
    requires versions <= later && PositiveInAll(later, key)
    ensures PositiveInAll(versions, key)
  {
    forall v | 0 <= v < |versions| ensures versions[v] == later[v] {
    }
  }

  /** Over whole runs every entry the limiter keeps or has logged has 0 tokens; so while
      the versions give a key no token limit below 1, none of its requests is ever
      rejected for tokens. */
  lemma TokensNeverReject(parse: UrlParser, cache: GatewayCache, es: seq<Event>, key: string)
    requires CanRun(parse, Initial(cache), es)
    ensures var s := Exec(parse, Initial(cache), es);
            && (forall i :: 0 <= i < |LR.LogOf(s.lim, key)| ==> LR.LogOf(s.lim, key)[i].entry.tokens == 0)
            && (forall e :: e in DequeOf(s.lim.entries, key) ==> e.tokens == 0)
            && (PositiveInAll(s.versions, key) ==>
                  forall id, total: u64, limit: i32 ::
                    id in s.jobs && s.jobs[id].ctx.keyHash == Some(key) ==>
                      s.jobs[id].ctx.rejectReason != Some(TokensExceeded(total, limit)))
  {
    var s := Exec(parse, Initial(cache), es);
    RunNoTokens(parse, Initial(cache), es);
    if PositiveInAll(s.versions, key) {
      RunNoTokenRejection(parse, Initial(cache), es, key);
      assert forall id :: id in s.jobs && s.jobs[id].ctx.keyHash == Some(key) ==> !RejectedForTokens(s.jobs[id]);
    }
  }

  // ---- What a rejection says ----

  /** A check in any run, while nothing was lost and fewer than 2^31 requests of the key are
      recent: the request passes if they are fewer than its limit (and its token limit, if
      any, is positive); otherwise it is answered 429, and a rejection for requests names
      their number and the limit. */
  lemma RejectionSaysCount(parse: UrlParser, cache: GatewayCache, es: seq<Event>, id: nat)
    requires CanRun(parse, Initial(cache), es) && Enabled(Exec(parse, Initial(cache), es), Act(id, Check))
    ensures var s := Exec(parse, Initial(cache), es);
            && id in s.lim.requests && s.lim.requests[id].Timed?
            && s.jobs[id].ctx.keyHash == Some(s.lim.requests[id].key)
            && (LR.NothingLost(s.lim, s.lim.requests[id].key, s.lim.requests[id].now)
                && |RecentOf(s.lim, s.lim.requests[id])| < TWO_31 ==>
                  SaysCount(Moved(parse, s, id, Check), s.lim.requests[id].config,
                            |RecentOf(s.lim, s.lim.requests[id])|))
  {
    var s := Exec(parse, Initial(cache), es);
    CheckWaits(parse, cache, es, id);
    if LR.NothingLost(s.lim, s.lim.requests[id].key, s.lim.requests[id].now) {
      NothingLostPrunes(parse, cache, es, id);
      if |RecentOf(s.lim, s.lim.requests[id])| < TWO_31 {
        JudgedSays(parse, s, id);
      }
    }
  }

  lemma CheckWaits(parse: UrlParser, cache: GatewayCache, es: seq<Event>, id: nat)
    requires CanRun(parse, Initial(cache), es) && Enabled(Exec(parse, Initial(cache), es), Act(id, Check))
    ensures var s := Exec(parse, Initial(cache), es);
            && LR.Enabled(s.lim, LR.Check(id)) && s.jobs[id].ctx.keyHash == Some(s.lim.requests[id].key)
            && s.jobs[id].ctx.rejectReason.None? && s.jobs[id].stage.Limiting? && NoTokens(s.lim)
  {
    var s := Exec(parse, Initial(cache), es);
    RunLimiterInv(parse, Initial(cache), es);
    RunNoTokens(parse, Initial(cache), es);
    GQ.InitialAccounts(parse, cache, es);
    assert LimiterAgrees(s, id) && GQ.AuthOk(s.jobs[id]);
    assert LimiterEvent(s, Act(id, Check)) == Some(LR.Check(id));
  }

  lemma NothingLostPrunes(parse: UrlParser, cache: GatewayCache, es: seq<Event>, id: nat)
    requires CanRun(parse, Initial(cache), es)
    requires LR.Enabled(Exec(parse, Initial(cache), es).lim, LR.Check(id))
    requires var lim := Exec(parse, Initial(cache), es).lim;
             LR.NothingLost(lim, lim.requests[id].key, lim.requests[id].now)
    ensures var lim := Exec(parse, Initial(cache), es).lim;
            var r := lim.requests[id];
            Pruned(r.now, DequeOf(lim.entries, r.key)) == RecentOf(lim, r)
  {
    GatewayRunsLimiter(parse, Initial(cache), es);
    LR.CheckDecidesOnWindow(LimiterSteps(parse, Initial(cache), es), id);
  }

  function RecentOf(lim: LR.State, r: LR.Phase): seq<RateLimitEntry>
    requires r.Timed?
  {
    LR.Window(r.now, LR.Entries(LR.LogOf(lim, r.key)))
  }

  predicate SaysCount(job: Job, config: RateLimitConfig, count: nat) {
    && (job.stage.Limiting? <==>
          && (config.requestsPerMinute.Some? ==> count < config.requestsPerMinute.value)
          && PositiveTokens(config))
    && (!job.stage.Limiting? ==> job.stage == Answered(429))
    && match job.ctx.rejectReason
       case None => job.stage.Limiting?
       case Some(RequestsExceeded(n, limit)) => n == count && config.requestsPerMinute == Some(limit) && n >= limit
       case Some(TokensExceeded(total, limit)) => total == 0 && config.tokensPerMinute == Some(limit)
  }

  lemma JudgedSays(parse: UrlParser, s: State, id: nat)
    requires Enabled(s, Act(id, Check)) && id in s.lim.requests && s.lim.requests[id].Timed?
    requires s.jobs[id].ctx.rejectReason.None? && s.jobs[id].stage.Limiting? && NoTokens(s.lim)
    requires var r := s.lim.requests[id];
             Pruned(r.now, DequeOf(s.lim.entries, r.key)) == RecentOf(s.lim, r) && |RecentOf(s.lim, r)| < TWO_31
    ensures SaysCount(Moved(parse, s, id, Check), s.lim.requests[id].config, |RecentOf(s.lim, s.lim.requests[id])|)
  {
    var r := s.lim.requests[id];
    PrunedHasNoTokens(r.now, DequeOf(s.lim.entries, r.key));
    ZeroSum(RecentOf(s.lim, r));
    VerdictIsExact(r.config, RecentOf(s.lim, r));
  }

  // ---- The choices of a run ----

  function SelectionOf(s: State, e: Event): seq<Selection>
    requires Enabled(s, e)
  {
    if e.Act? && e.action.Select? then
      var model := s.jobs[e.id].stage.model;
      if model in Current(s).modelRoutes && Current(s).modelRoutes[model].routes != []
      then [Selection(model, Current(s).modelRoutes[model], s.jobs[e.id].ctx.requestId)] else []
    else []
  }

  function Selections(parse: UrlParser, s: State, es: seq<Event>): seq<Selection>
    requires CanRun(parse, s, es)
    decreases |es|
  {
    if es == [] then []
    else SelectionOf(s, es[0]) + Selections(parse, Next(parse, s, es[0]), es[1..])
  }

  /** The route index a step gives out for a model by round robin, if it does. */
  function PickOf(parse: UrlParser, s: State, e: Event, model: string): seq<nat>
    requires Enabled(s, e)
  {
    var chosen := SelectionOf(s, e);
    if chosen != [] && TakesTurn(chosen[0], model) && JobsAfter(parse, s, e)[e.id].pick.Some?
    then [JobsAfter(parse, s, e)[e.id].pick.value.index] else []
  }

  function Picked(parse: UrlParser, s: State, es: seq<Event>, model: string): seq<nat>
    requires CanRun(parse, s, es)
    decreases |es|
  {
    if es == [] then []
    else PickOf(parse, s, es[0], model) + Picked(parse, Next(parse, s, es[0]), es[1..], model)
  }

  function TurnIndex(): Turn -> nat { (t: Turn) => t.index }

  lemma SelectionStep(parse: UrlParser, s: State, e: Event, model: string)
    requires Enabled(s, e)
    ensures var chosen := SelectionOf(s, e);
            && Next(parse, s, e).cursors == AdvancedAll(s.cursors, chosen)
            && PickOf(parse, s, e, model) == MapSeq(TurnIndex(), Turns(s.cursors, chosen, model))
  {
    var chosen := SelectionOf(s, e);
    if chosen != [] {
      assert chosen[1..] == [];
    }
  }

  lemma {:induction false} TurnsJoin(counters: map<string, u64>, xs: seq<Selection>, ys: seq<Selection>, model: string)
    ensures Turns(counters, xs + ys, model) == Turns(counters, xs, model) + Turns(AdvancedAll(counters, xs), ys, model)
    decreases |xs|
  {
    if xs == [] {
      assert xs + ys == ys;
    } else {
      assert (xs + ys)[0] == xs[0] && (xs + ys)[1..] == xs[1..] + ys;
      TurnsJoin(Advanced(counters, xs[0].model, xs[0].target), xs[1..], ys, model);
    }
  }

  lemma MapJoin(xs: seq<Turn>, ys: seq<Turn>)
    ensures MapSeq(TurnIndex(), xs + ys) == MapSeq(TurnIndex(), xs) + MapSeq(TurnIndex(), ys)
  {
  }

  /** The picks of a run are the turns of its selections. */
  lemma {:induction false} PicksAreTurns(parse: UrlParser, s: State, es: seq<Event>, model: string)
    requires CanRun(parse, s, es)
    ensures Picked(parse, s, es, model) == MapSeq(TurnIndex(), Turns(s.cursors, Selections(parse, s, es), model))
    decreases |es|
  {
    if es != [] {
      var t := Next(parse, s, es[0]);
      var chosen, rest := SelectionOf(s, es[0]), Selections(parse, t, es[1..]);
      PicksAreTurns(parse, t, es[1..], model);
      SelectionStep(parse, s, es[0], model);
      TurnsJoin(s.cursors, chosen, rest, model);
      MapJoin(Turns(s.cursors, chosen, model), Turns(t.cursors, rest, model));
    }
  }

  function IndexIs(i: nat): nat -> bool { (x: nat) => x == i }

  lemma {:induction false} TurnsOfSize(counters: map<string, u64>, es: seq<Selection>, model: string, n: nat)
    requires forall e :: e in es && TakesTurn(e, model) ==> |e.target.routes| == n
    ensures forall t :: t in Turns(counters, es, model) ==> t.among == n
    decreases |es|
  {
    if es != [] {
      assert forall e :: e in es[1..] ==> e in es;
      TurnsOfSize(Advanced(counters, es[0].model, es[0].target), es[1..], model, n);
    }
  }

  /** In a whole run, with any interleaving of requests, models and cache swaps: while
      a round-robin model keeps n routes, its requests are spread evenly over them. */
  lemma GatewayRoundRobinIsFair(parse: UrlParser, cache: GatewayCache, es: seq<Event>, model: string, n: nat, i: nat)
    requires 0 <= i < n && CanRun(parse, Initial(cache), es)
    requires forall e :: e in Selections(parse, Initial(cache), es) && TakesTurn(e, model) ==> |e.target.routes| == n
    requires |Picked(parse, Initial(cache), es, model)| <= TWO_64
    ensures var picks := Picked(parse, Initial(cache), es, model);
            EvenlySpread(|Filter(IndexIs(i), picks)|, |picks|, n)
  {
    var chosen := Selections(parse, Initial(cache), es);
    var turns := Turns(map[], chosen, model);
    PicksAreTurns(parse, Initial(cache), es, model);
    TurnsOfSize(map[], chosen, model, n);
    RoundRobinIsFair(map[], chosen, model, n, i);
    FilterMap(TurnIndex(), IndexIs(i), TurnAt(i), turns);
  }
}
