/** All requests of a gateway, interleaved at every lock, while the cache is swapped
    underneath them. The machine keeps every published cache version and, per
    request, which cached route it was given; the program keeps neither. */
module GatewayRuns {
  import opened Wrappers
  import opened MachineInts
  import opened RateLimiter
  import opened Cache
  import opened Gateway
  import LR = LimiterRuns

  /** Route `index` of `model` in cache version `version`. */
  datatype Pick = Pick(version: nat, model: string, index: nat)

  datatype Job = Job(
    front: Front, body: Body, ctx: Context, stage: Stage, logged: bool,
    peer: Option<Peer>, headers: Option<Headers>, sentModel: Option<string>,
    keySeen: Option<nat>, routesSeen: Option<nat>, fallbackSeen: Option<nat>, pick: Option<Pick>)

  datatype State = State(
    versions: seq<GatewayCache>, lim: LR.State, cursors: map<string, u64>, jobs: map<nat, Job>,
    active: int, authFailures: nat, total: nat, rows: seq<(nat, Entry)>)

  datatype Event =
    | Tick(elapsed: nat)
    | Swap(cache: GatewayCache)
    | Begin(id: nat, requestId: u128, front: Front, body: Body)
    | Act(id: nat, action: Action)

  datatype Action =
    | LookupKey
    | ReadLimits
    | ReadClock
    | Check
    | Record
    | ReadBody
    | Select
    | Fallback(first: Option<string>)
    | Connect
    | SendHeaders
    | SendBody
    | Log(status: nat)

  function Initial(cache: GatewayCache): State {
    State([cache], LR.Initial(), map[], map[], 0, 0, 0, [])
  }

  function Current(s: State): GatewayCache
    requires s.versions != []
  {
    s.versions[|s.versions| - 1]
  }

  /** The limiter's share of a request's step, if it has one. */
  function LimiterAct(s: State, id: nat, a: Action): Option<LR.Event>
    requires s.versions != [] && id in s.jobs
  {
    match a
    case ReadLimits =>
      if s.jobs[id].ctx.keyHash.Some? then
        var hash := s.jobs[id].ctx.keyHash.value;
        Some(LR.Arrive(id, hash, LimitsFor(Current(s), hash)))
      else None
    case ReadClock => Some(LR.ReadClock(id))
    case Check => Some(LR.Check(id))
    case Record => Some(LR.Record(id, 0))
    case _ => None
  }

  function LimiterEvent(s: State, e: Event): Option<LR.Event>
    requires s.versions != [] && (e.Act? ==> e.id in s.jobs)
  {
    match e
    case Tick(elapsed) => Some(LR.Tick(elapsed))
    case Act(id, a) => LimiterAct(s, id, a)
    case _ => None
  }

  /** The status logging can find: an answer's own, anything from upstream, and 0 when
      nothing was written. */
  predicate Written(stage: Stage, status: nat) {
    stage.Forwarding? || (stage.Answered? && (status == stage.status || status == 0))
  }

  predicate InStage(s: State, job: Job, a: Action)
    requires s.versions != []
  {
    match a
    case LookupKey => job.stage.Keyed?
    case ReadLimits => job.stage.Admitted?
    case ReadClock => job.stage.Limiting?
    case Check => job.stage.Limiting?
    case Record => job.stage.Limiting?
    case ReadBody => job.stage.Reading?
    case Select => job.stage.Choosing?
    case Fallback(first) => job.stage.Falling? && FirstOf(Current(s), first)
    case Connect => job.stage.Forwarding? && !job.logged
    case SendHeaders => job.stage.Forwarding? && !job.logged
    case SendBody => job.stage.Forwarding? && !job.logged
    case Log(status) => Written(job.stage, status) && !job.logged
  }

  predicate Enabled(s: State, e: Event) {
    && s.versions != []
    && (e.Begin? ==> e.id !in s.jobs)
    && (e.Act? ==> e.id in s.jobs && InStage(s, s.jobs[e.id], e.action))
    && (LimiterEvent(s, e).Some? ==> LR.Enabled(s.lim, LimiterEvent(s, e).value))
  }

  function With(job: Job, p: Progress): Job {
    job.(ctx := p.ctx, stage := p.stage)
  }

  function VerdictOf(lim: LR.State, id: nat): Option<Rejection>
    requires LR.Enabled(lim, LR.Check(id))
  {
    var r := lim.requests[id];
    Verdict(r.config, Pruned(r.now, DequeOf(lim.entries, r.key)))
  }

  function ChosenPick(s: State, job: Job): Option<Pick>
    requires s.versions != [] && job.stage.Choosing?
  {
    var i := Choice(Current(s), s.cursors, job.stage.model, job.ctx.requestId);
    if i.Some? then Some(Pick(|s.versions| - 1, job.stage.model, i.value)) else None
  }

  /** The request's own part of a step. */
  function Moved(parse: UrlParser, s: State, id: nat, a: Action): Job
    requires Enabled(s, Act(id, a))
  {
    var job := s.jobs[id];
    var seen := Some(|s.versions| - 1);
    match a
    case LookupKey => With(job, LookedUp(job.ctx, Current(s))).(keySeen := seen)
    case ReadLimits => job.(stage := Limiting)
    case ReadClock => job
    case Check =>
      assert LimiterEvent(s, Act(id, a)) == Some(LR.Check(id));
      With(job, Judged(job.ctx, VerdictOf(s.lim, id)))
    case Record => job.(stage := Reading)
    case ReadBody => With(job, BodyRead(job.ctx, job.body))
    case Select =>
      With(job, Selected(parse, job.ctx, Current(s), s.cursors, job.stage.model))
        .(routesSeen := seen, pick := ChosenPick(s, job))
    case Fallback(first) =>
      var p := FallenBack(parse, job.ctx, Current(s), first);
      With(job, p).(fallbackSeen := seen,
                   pick := if p.stage.Forwarding? then Some(Pick(|s.versions| - 1, first.value, 0)) else None)
    case Connect => job.(peer := Some(PeerOf(job.ctx)))
    case SendHeaders => job.(headers := Some(HeadersOf(parse, job.ctx)))
    case SendBody => if job.body.Json? then job.(sentModel := job.ctx.upstreamModel) else job
    case Log(_) => job.(logged := true)
  }

  function NewJob(requestId: u128, front: Front, body: Body): Job {
    var p := Begun(requestId, front);
    Job(front, body, p.ctx, p.stage, false, None, None, None, None, None, None, None)
  }

  function JobsAfter(parse: UrlParser, s: State, e: Event): map<nat, Job>
    requires Enabled(s, e)
  {
    match e
    case Begin(id, requestId, front, body) => s.jobs[id := NewJob(requestId, front, body)]
    case Act(id, a) => s.jobs[id := Moved(parse, s, id, a)]
    case _ => s.jobs
  }

  function LimiterAfter(s: State, e: Event): LR.State
    requires Enabled(s, e)
  {
    if LimiterEvent(s, e).Some? then LR.Next(s.lim, LimiterEvent(s, e).value) else s.lim
  }

  function CursorsNext(s: State, e: Event): map<string, u64>
    requires Enabled(s, e)
  {
    if e.Act? && e.action.Select? then CursorsAfter(Current(s), s.cursors, s.jobs[e.id].stage.model) else s.cursors
  }

  /** `active_requests`: up at the end of the filter, down when a counted request is logged. */
  function ActiveAfter(parse: UrlParser, s: State, e: Event): int
    requires Enabled(s, e)
  {
    if !e.Act? then s.active
    else match e.action
      case Select => if Moved(parse, s, e.id, e.action).stage.Forwarding? then s.active + 1 else s.active
      case Fallback(_) => if Moved(parse, s, e.id, e.action).stage.Forwarding? then s.active + 1 else s.active
      case Log(_) => if s.jobs[e.id].ctx.countedActive then s.active - 1 else s.active
      case _ => s.active
  }

  /** `auth_failures_total`: up without a token and with an unknown key. */
  function FailuresAfter(s: State, e: Event): nat
    requires Enabled(s, e)
  {
    if e.Begin? && e.front.NoToken? then s.authFailures + 1
    else if e.Act? && e.action.LookupKey? && LookedUp(s.jobs[e.id].ctx, Current(s)).ctx.auth.InvalidKey?
    then s.authFailures + 1
    else s.authFailures
  }

  function RowsAfter(s: State, e: Event): seq<(nat, Entry)>
    requires Enabled(s, e)
  {
    if e.Act? && e.action.Log? && s.jobs[e.id].ctx.auditEnabled
    then s.rows + [(e.id, EntryOf(s.jobs[e.id].ctx, e.action.status))] else s.rows
  }

  function Next(parse: UrlParser, s: State, e: Event): State
    requires Enabled(s, e)
  {
    State(
      if e.Swap? then s.versions + [e.cache] else s.versions,
      LimiterAfter(s, e), CursorsNext(s, e), JobsAfter(parse, s, e),
      ActiveAfter(parse, s, e), FailuresAfter(s, e),
      if e.Act? && e.action.Log? then s.total + 1 else s.total,
      RowsAfter(s, e))
  }

  predicate CanRun(parse: UrlParser, s: State, es: seq<Event>)
    decreases |es|
  {
    es == [] || (Enabled(s, es[0]) && CanRun(parse, Next(parse, s, es[0]), es[1..]))
  }

  function Exec(parse: UrlParser, s: State, es: seq<Event>): State
    requires CanRun(parse, s, es)
    decreases |es|
  {
    if es == [] then s else Exec(parse, Next(parse, s, es[0]), es[1..])
  }

  /** Published versions are only ever added to. */
  lemma {:induction false} VersionsGrow(parse: UrlParser, s: State, es: seq<Event>)
    requires CanRun(parse, s, es)
    ensures s.versions <= Exec(parse, s, es).versions
    decreases |es|
  {
    if es != [] {
      VersionsGrow(parse, Next(parse, s, es[0]), es[1..]);
    }
  }

  // ---- Where a request stands with the limiter ----

  predicate Waits(phase: LR.Phase) {
    phase.Ready? || phase.Timed? || phase.Passed?
  }

  /** Recorded exactly when the limiter let the request pass, whatever came after. */
  predicate PastRecord(stage: Stage) {
    || stage.Reading? || stage.Choosing? || stage.Falling? || stage.Forwarding?
    || stage == Answered(413) || stage == Answered(503)
  }

  predicate LimiterAgrees(s: State, id: nat)
    requires id in s.jobs
  {
    var job := s.jobs[id];
    if job.stage.Limiting? then
      job.ctx.keyHash.Some? && id in s.lim.requests && Waits(s.lim.requests[id])
      && s.lim.requests[id].key == job.ctx.keyHash.value
    else if job.stage == Answered(429) then
      job.ctx.keyHash.Some? && id in s.lim.requests && s.lim.requests[id] == LR.Rejected(job.ctx.keyHash.value)
    else if PastRecord(job.stage) then
      job.ctx.keyHash.Some? && id in s.lim.requests && s.lim.requests[id] == LR.Recorded(job.ctx.keyHash.value)
    else
      id !in s.lim.requests && (job.stage.Keyed? || job.stage.Admitted? ==> job.ctx.keyHash.Some?)
  }

  ghost predicate LimiterInv(s: State) {
    && s.versions != []
    && (forall id :: id in s.jobs ==> LimiterAgrees(s, id))
    && (forall id :: id in s.lim.requests ==> id in s.jobs)
  }

  function Subject(e: Event): Option<nat> {
    match e
    case Begin(id, _, _, _) => Some(id)
    case Act(id, _) => Some(id)
    case _ => None
  }

  /** The limiter moves only the request that steps. */
  lemma LimiterLeavesOthers(s: State, e: Event, id: nat)
    requires Enabled(s, e) && Subject(e) != Some(id)
    ensures var lim := LimiterAfter(s, e);
            && (id in lim.requests <==> id in s.lim.requests)
            && (id in s.lim.requests ==> lim.requests[id] == s.lim.requests[id])
  {
  }

  lemma BegunAgrees(parse: UrlParser, s: State, e: Event)
    requires LimiterInv(s) && Enabled(s, e) && e.Begin?
    ensures LimiterAgrees(Next(parse, s, e), e.id)
  {
  }

  /** The steps inside the limiter, and all others. */
  predicate Limits(a: Action) {
    a.ReadLimits? || a.ReadClock? || a.Check? || a.Record?
  }

  lemma LimiterActorAgrees(parse: UrlParser, s: State, id: nat, a: Action)
    requires LimiterInv(s) && Enabled(s, Act(id, a)) && Limits(a)
    ensures LimiterAgrees(Next(parse, s, Act(id, a)), id)
  {
    assert LimiterAgrees(s, id);
  }

  lemma PlainActorAgrees(parse: UrlParser, s: State, id: nat, a: Action)
    requires LimiterInv(s) && Enabled(s, Act(id, a)) && !Limits(a)
    ensures LimiterAgrees(Next(parse, s, Act(id, a)), id)
  {
    assert LimiterAgrees(s, id);
  }

  lemma ActorAgrees(parse: UrlParser, s: State, id: nat, a: Action)
    requires LimiterInv(s) && Enabled(s, Act(id, a))
    ensures LimiterAgrees(Next(parse, s, Act(id, a)), id)
  {
    if Limits(a) {
      LimiterActorAgrees(parse, s, id, a);
    } else {
      PlainActorAgrees(parse, s, id, a);
    }
  }

  lemma StepLimiterInv(parse: UrlParser, s: State, e: Event)
    requires LimiterInv(s) && Enabled(s, e)
    ensures LimiterInv(Next(parse, s, e))
  {
    var t := Next(parse, s, e);
    forall id | id in t.jobs ensures LimiterAgrees(t, id) {
      match e {
        case Begin(i, _, _, _) => if i == id { BegunAgrees(parse, s, e); }
        case Act(i, a) => if i == id { ActorAgrees(parse, s, i, a); }
        case _ =>
      }
      if Subject(e) != Some(id) {
        LimiterLeavesOthers(s, e, id);
        assert LimiterAgrees(s, id);
      }
    }
    forall id | id in t.lim.requests ensures id in t.jobs {
      if Subject(e) != Some(id) {
        LimiterLeavesOthers(s, e, id);
      }
    }
  }

  lemma {:induction false} RunLimiterInv(parse: UrlParser, s: State, es: seq<Event>)
    requires LimiterInv(s) && CanRun(parse, s, es)
    ensures LimiterInv(Exec(parse, s, es))
    decreases |es|
  {
    if es != [] {
      StepLimiterInv(parse, s, es[0]);
      RunLimiterInv(parse, Next(parse, s, es[0]), es[1..]);
    }
  }

}
