/** The refresh loop against a database that keeps changing. A load is three
    queries; any change of the database may come before, between and after them; a failed load
    publishes nothing; a finished one replaces the cache in one swap. */
module CacheRefresh {
  import opened RateLimiter
  import opened RouteSelection
  import opened Schema
  import opened Cache
  import opened CacheLoader

  /** The numbers are database versions: when the load began, and when each query ran. */
  datatype Load =
    | Idle
    | Begun(begin: nat)
    | HasKeys(begin: nat, k: nat, keyHashes: map<string, Id>)
    | HasRoutes(begin: nat, k: nat, keyHashes: map<string, Id>, r: nat, modelRoutes: map<string, ModelTarget>)
    | Loaded(publication: Publication)

  datatype Publication = Publication(begin: nat, k: nat, r: nat, l: nat, cache: GatewayCache)

  /** `history` holds every version of the database, `published` every cache ever
      swapped in. */
  datatype State = State(history: seq<Store>, load: Load, published: seq<Publication>)

  datatype Event =
    | Mutate(next: Store)
    | Begin
    | QueryKeys(keyHashes: map<string, Id>)
    | QueryRoutes(modelRoutes: map<string, ModelTarget>)
    | QueryLimits(rateLimits: map<string, RateLimitConfig>)
    | Publish
    | Fail

  function Current(s: State): Store
    requires s.history != []
  {
    s.history[|s.history| - 1]
  }

  /** A query may return any view of the database as it is at that moment. */
  ghost predicate Enabled(s: State, e: Event) {
    && s.history != []
    && match e
       case Mutate(_) => true
       case Begin => s.load.Idle?
       case QueryKeys(keyHashes) => s.load.Begun? && IsKeyView(Current(s), keyHashes)
       case QueryRoutes(modelRoutes) => s.load.HasKeys? && IsRouteView(Current(s), modelRoutes)
       case QueryLimits(rateLimits) => s.load.HasRoutes? && IsLimitView(Current(s), rateLimits)
       case Publish => s.load.Loaded?
       case Fail => !s.load.Idle?
  }

  ghost function Next(s: State, e: Event): State
    requires Enabled(s, e)
  {
    var now := |s.history| - 1;
    match e
    case Mutate(next) => s.(history := s.history + [next])
    case Begin => s.(load := Begun(now))
    case QueryKeys(keyHashes) => s.(load := HasKeys(s.load.begin, now, keyHashes))
    case QueryRoutes(modelRoutes) => s.(load := HasRoutes(s.load.begin, s.load.k, s.load.keyHashes, now, modelRoutes))
    case QueryLimits(rateLimits) =>
      s.(load := Loaded(Publication(s.load.begin, s.load.k, s.load.r, now,
                                    GatewayCache(s.load.keyHashes, s.load.modelRoutes, rateLimits))))
    case Publish => s.(load := Idle, published := s.published + [s.load.publication])
    case Fail => s.(load := Idle)
  }

  ghost predicate CanRun(s: State, es: seq<Event>)
    decreases |es|
  {
    es == [] || (Enabled(s, es[0]) && CanRun(Next(s, es[0]), es[1..]))
  }

  ghost function Exec(s: State, es: seq<Event>): State
    requires CanRun(s, es)
    decreases |es|
  {
    if es == [] then s else Exec(Next(s, es[0]), es[1..])
  }

  function Initial(db: Store): State {
    State([db], Idle, [])
  }

  // ---- Invariant ----

  /** Each part of a publication is its view of the version it was read at; the
      versions are in time order. */
  ghost predicate Faithful(history: seq<Store>, p: Publication) {
    && p.begin <= p.k <= p.r <= p.l < |history|
    && IsKeyView(history[p.k], p.cache.keyHashes)
    && IsRouteView(history[p.r], p.cache.modelRoutes)
    && IsLimitView(history[p.l], p.cache.rateLimits)
  }

  ghost predicate LoadFaithful(history: seq<Store>, load: Load) {
    match load
    case Idle => true
    case Begun(begin) => begin < |history|
    case HasKeys(begin, k, keyHashes) => begin <= k < |history| && IsKeyView(history[k], keyHashes)
    case HasRoutes(begin, k, keyHashes, r, modelRoutes) =>
      && begin <= k <= r < |history|
      && IsKeyView(history[k], keyHashes) && IsRouteView(history[r], modelRoutes)
    case Loaded(p) => Faithful(history, p)
  }

  function LoadBegin(s: State): nat
    requires s.history != []
  {
    match s.load
    case Idle => |s.history| - 1
    case Loaded(p) => p.begin
    case _ => s.load.begin
  }

  ghost predicate AllFaithful(history: seq<Store>, published: seq<Publication>) {
    forall i :: 0 <= i < |published| ==> Faithful(history, published[i])
  }

  predicate InOrder(published: seq<Publication>) {
    forall i, j :: 0 <= i < j < |published| ==> published[i].l <= published[j].begin
  }

  /** Read in order, from versions that exist. */
  predicate InTime(published: seq<Publication>, now: nat) {
    forall i :: 0 <= i < |published| ==>
      published[i].begin <= published[i].k <= published[i].r <= published[i].l < now
  }

  predicate EndBy(published: seq<Publication>, when: nat) {
    forall i :: 0 <= i < |published| ==> published[i].l <= when
  }

  ghost predicate Inv(s: State) {
    && s.history != []
    && LoadFaithful(s.history, s.load)
    && AllFaithful(s.history, s.published)
    && InOrder(s.published)
    && EndBy(s.published, LoadBegin(s))
  }

  lemma FaithfulGrows(history: seq<Store>, next: Store, p: Publication)
    requires Faithful(history, p)
    ensures Faithful(history + [next], p)
  {
  }

  lemma MutateKeepsInv(s: State, next: Store)
    requires Inv(s)
    ensures Inv(Next(s, Mutate(next)))
  {
    var s' := Next(s, Mutate(next));
    forall i | 0 <= i < |s'.published| ensures Faithful(s'.history, s'.published[i]) {
      FaithfulGrows(s.history, next, s.published[i]);
    }
    if s.load.Loaded? {
      FaithfulGrows(s.history, next, s.load.publication);
    }
  }

  lemma StepInv(s: State, e: Event)
    requires Inv(s) && Enabled(s, e)
    ensures Inv(Next(s, e))
  {
    match e {
      case Mutate(next) => MutateKeepsInv(s, next);
      case Publish => PublishKeepsInv(s);
      case _ => LoadStepKeepsInv(s, e);
    }
  }

  lemma OneMorePublished(history: seq<Store>, published: seq<Publication>, p: Publication, now: nat)
    requires AllFaithful(history, published) && InOrder(published) && EndBy(published, p.begin)
    requires Faithful(history, p) && p.l <= now
    ensures AllFaithful(history, published + [p]) && InOrder(published + [p]) && EndBy(published + [p], now)
  {
  }

  lemma PublishKeepsInv(s: State)
    requires Inv(s) && Enabled(s, Publish)
    ensures Inv(Next(s, Publish))
  {
    OneMorePublished(s.history, s.published, s.load.publication, |s.history| - 1);
  }

  lemma LoadStepKeepsInv(s: State, e: Event)
    requires Inv(s) && Enabled(s, e) && !e.Mutate? && !e.Publish?
    ensures Inv(Next(s, e))
  {
    var s' := Next(s, e);
    assert s'.history == s.history && s'.published == s.published;
    assert LoadBegin(s) <= LoadBegin(s');
  }

  lemma {:induction false} RunInv(s: State, es: seq<Event>)
    requires Inv(s) && CanRun(s, es)
    ensures Inv(Exec(s, es))
    decreases |es|
  {
    if es != [] {
      StepInv(s, es[0]);
      RunInv(Next(s, es[0]), es[1..]);
    }
  }

  // ---- Theorems ----

  /** In every interleaving each published part is its view of some database version,
      the three versions are in time order, and no publication reaches back before
      the end of an earlier one. */
  lemma PublicationsAgreeWithDatabase(db: Store, es: seq<Event>)
    requires CanRun(Initial(db), es)
    ensures var s := Exec(Initial(db), es);
            && (forall i :: 0 <= i < |s.published| ==> Faithful(s.history, s.published[i]))
            && (forall i, j :: 0 <= i < j < |s.published| ==> s.published[i].l <= s.published[j].begin)
  {
    RunInv(Initial(db), es);
  }

  /** A load with no mutation in between is one view of one version, and only valid
      keys have limits in it. */
  lemma QuietLoadIsFullView(db: Store, es: seq<Event>, i: nat)
    requires CanRun(Initial(db), es)
    requires i < |Exec(Initial(db), es).published|
    requires Exec(Initial(db), es).published[i].begin == Exec(Initial(db), es).published[i].l
    ensures var s := Exec(Initial(db), es);
            var p := s.published[i];
            && p.l < |s.history|
            && IsFullView(s.history[p.l], p.cache)
            && p.cache.rateLimits.Keys <= p.cache.keyHashes.Keys
  {
    PublicationsAgreeWithDatabase(db, es);
    var s := Exec(Initial(db), es);
    QuietIsFull(s.history, s.published[i]);
  }

  lemma QuietIsFull(history: seq<Store>, p: Publication)
    requires Faithful(history, p) && p.begin == p.l
    ensures IsFullView(history[p.l], p.cache) && p.cache.rateLimits.Keys <= p.cache.keyHashes.Keys
  {
    LimitedKeysAreValid(history[p.l], p.cache);
  }
}
