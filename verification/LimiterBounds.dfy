/** How many requests of a key the limiter lets through, in every run. */
module LimiterBounds {
  import opened Wrappers
  import opened MachineInts
  import opened Collections
  import opened RateLimiter
  import opened LimiterRuns

  // ---- Runs of a key that always has the same requests-per-minute limit ----

  /** The requests of a key between a passed check and their record. */
  function InFlight(s: State, key: string): set<nat> {
    set id | id in s.requests && s.requests[id].Passed? && s.requests[id].key == key
  }

  predicate HasLimit(config: Option<RateLimitConfig>, limit: i32) {
    config.Some? && config.value.requestsPerMinute == Some(limit)
  }

  predicate AlwaysLimited(es: seq<Event>, key: string, limit: i32) {
    forall i :: 0 <= i < |es| && es[i].Arrive? && es[i].key == key ==> HasLimit(es[i].config, limit)
  }

  /** In every state of the run at most k requests of the key are in flight. */
  predicate CrowdAtMost(s: State, es: seq<Event>, key: string, k: nat)
    requires CanRun(s, es)
    decreases |es|
  {
    && |InFlight(s, key)| <= k
    && (es != [] ==> CrowdAtMost(Next(s, es[0]), es[1..], key, k))
  }

  predicate Admissible(es: seq<Event>, key: string, limit: i32, k: nat) {
    && CanRun(Initial(), es)
    && AlwaysLimited(es, key, limit)
    && CrowdAtMost(Initial(), es, key, k)
  }

  function WithinSpan(from: Instant): RateLimitEntry -> bool {
    (e: RateLimitEntry) => from <= e.timestamp < from + SPAN
  }

  /** Recorded requests in the window of 61 s, its end excluded, that starts at `from`. */
  function RecordedIn(log: seq<Logged>, from: Instant): nat {
    |Filter(WithinSpan(from), Entries(log))|
  }

  function Bound(limit: i32, k: nat): nat {
    if limit <= 0 then 0 else limit - 1 + k
  }

  predicate PhasesLimited(s: State, key: string, limit: i32) {
    forall id :: id in s.requests && s.requests[id].key == key ==>
      match s.requests[id]
      case Ready(_, config) => config.requestsPerMinute == Some(limit)
      case Timed(_, config, _) => config.requestsPerMinute == Some(limit)
      case _ => true
  }

  ghost predicate WindowsBounded(s: State, key: string, bound: nat) {
    forall from: Instant :: RecordedIn(LogOf(s, key), from) <= bound
  }

  ghost predicate BoundInv(s: State, key: string, limit: i32, k: nat) {
    && Inv(s)
    && PhasesLimited(s, key, limit)
    && |DequeOf(s.entries, key)| + |InFlight(s, key)| <= Bound(limit, k)
    && WindowsBounded(s, key, Bound(limit, k))
  }

  /** A window that holds the newest record lies inside the deque. */
  lemma NewestWindowInDeque(s: State, key: string, from: Instant)
    requires Inv(s)
    requires LogOf(s, key) != []
    requires LogOf(s, key)[|LogOf(s, key)| - 1].entry.timestamp == s.clock
    requires from <= s.clock < from + SPAN
    ensures RecordedIn(LogOf(s, key), from) <= |DequeOf(s.entries, key)|
  {
    assert KeyInv(s, key);
    var es := Entries(LogOf(s, key));
    forall e | e in es && WithinSpan(from)(e) ensures Fresh(MarkOf(s, key))(e) {
      ExpiresAtSpan(MarkOf(s, key), e);
    }
    FilterSmaller(WithinSpan(from), Fresh(MarkOf(s, key)), es);
  }

  lemma InFlightAfterRecord(s: State, id: nat, tokens: u64)
    requires Enabled(s, Record(id, tokens))
    ensures forall key :: InFlight(Next(s, Record(id, tokens)), key)
                          == if key == s.requests[id].key then InFlight(s, key) - {id} else InFlight(s, key)
  {
  }

  lemma RecordKeepsBound(s: State, id: nat, tokens: u64, key: string, limit: i32, k: nat)
    requires BoundInv(s, key, limit, k) && Enabled(s, Record(id, tokens))
    ensures BoundInv(Next(s, Record(id, tokens)), key, limit, k)
  {
    var s' := Next(s, Record(id, tokens));
    StepInv(s, Record(id, tokens));
    InFlightAfterRecord(s, id, tokens);
    if s.requests[id].key == key {
      assert id in InFlight(s, key);
      var log, log' := LogOf(s, key), LogOf(s', key);
      forall from: Instant ensures RecordedIn(log', from) <= Bound(limit, k) {
        if from <= s.clock < from + SPAN {
          NewestWindowInDeque(s', key, from);
        } else {
          var last := [log'[|log|].entry];
          assert Entries(log') == Entries(log) + last;
          FilterAppend(WithinSpan(from), Entries(log), last);
          assert Filter(WithinSpan(from), last) == [];
          assert RecordedIn(log, from) <= Bound(limit, k);
        }
      }
    } else {
      assert LogOf(s', key) == LogOf(s, key);
      WindowsSame(s, s', key, Bound(limit, k));
    }
  }

  lemma WindowsSame(s: State, s': State, key: string, bound: nat)
    requires WindowsBounded(s, key, bound) && LogOf(s', key) == LogOf(s, key)
    ensures WindowsBounded(s', key, bound)
  {
    forall from: Instant ensures RecordedIn(LogOf(s', key), from) <= bound {
      assert RecordedIn(LogOf(s, key), from) <= bound;
    }
  }

  lemma {:induction false} PrunedIsShorter(now: Instant, q: seq<RateLimitEntry>)
    ensures |Pruned(now, q)| <= |q|
  {
    if q != [] && Expired(now, q[0]) {
      PrunedIsShorter(now, q[1..]);
    }
  }

  lemma CheckKeepsBound(s: State, id: nat, key: string, limit: i32, k: nat)
    requires BoundInv(s, key, limit, k) && Enabled(s, Check(id))
    requires Bound(limit, k) < TWO_31
    requires |InFlight(Next(s, Check(id)), key)| <= k
    ensures BoundInv(Next(s, Check(id)), key, limit, k)
  {
    var s' := Next(s, Check(id));
    StepInv(s, Check(id));
    WindowsSame(s, s', key, Bound(limit, k));
    if s.requests[id].key == key && s'.requests[id].Passed? {
      PrunedIsShorter(s.requests[id].now, DequeOf(s.entries, key));
      assert |DequeOf(s'.entries, key)| < limit;
    } else {
      if s.requests[id].key == key {
        PrunedIsShorter(s.requests[id].now, DequeOf(s.entries, key));
      }
      assert InFlight(s', key) == InFlight(s, key);
    }
  }

  lemma QuietStepKeepsBound(s: State, e: Event, key: string, limit: i32, k: nat)
    requires BoundInv(s, key, limit, k) && Enabled(s, e)
    requires e.Tick? || e.Arrive? || e.ReadClock?
    requires e.Arrive? && e.key == key ==> HasLimit(e.config, limit)
    ensures BoundInv(Next(s, e), key, limit, k)
  {
    var s' := Next(s, e);
    StepInv(s, e);
    WindowsSame(s, s', key, Bound(limit, k));
    assert InFlight(s', key) == InFlight(s, key);
  }

  lemma {:induction false} BoundAlong(s: State, es: seq<Event>, key: string, limit: i32, k: nat)
    requires BoundInv(s, key, limit, k) && CanRun(s, es)
    requires Bound(limit, k) < TWO_31
    requires AlwaysLimited(es, key, limit) && CrowdAtMost(s, es, key, k)
    ensures BoundInv(Exec(s, es), key, limit, k)
    decreases |es|
  {
    if es != [] {
      var e := es[0];
      match e {
        case Check(id) => CheckKeepsBound(s, id, key, limit, k);
        case Record(id, tokens) => RecordKeepsBound(s, id, tokens, key, limit, k);
        case _ => QuietStepKeepsBound(s, e, key, limit, k);
      }
      BoundAlong(Next(s, e), es[1..], key, limit, k);
    }
  }

  /** However the requests interleave: if at most k requests of a key are ever
      between a passed check and their record, no window shorter than 61 s holds
      more than limit - 1 + k recorded requests, as long as that is below 2^31. */
  lemma ConcurrentBound(es: seq<Event>, key: string, limit: i32, k: nat)
    requires Bound(limit, k) < TWO_31
    requires Admissible(es, key, limit, k)
    ensures forall from: Instant :: RecordedIn(LogOf(Exec(Initial(), es), key), from) <= Bound(limit, k)
  {
    InitialInv();
    assert InFlight(Initial(), key) == {};
    assert Entries([]) == [];
    assert BoundInv(Initial(), key, limit, k);
    BoundAlong(Initial(), es, key, limit, k);
  }

  /** One request at a time: never more than the limit itself. */
  lemma SequentialBound(es: seq<Event>, key: string, limit: i32)
    requires limit >= 1
    requires Admissible(es, key, limit, 1)
    ensures forall from: Instant :: RecordedIn(LogOf(Exec(Initial(), es), key), from) <= limit
  {
    ConcurrentBound(es, key, limit, 1);
  }

  // ---- The bound is reached, and breaks exactly where the cast does ----

  /** A state at clock zero with n recorded requests and f in flight; ids from
      `free` on are unused. */
  predicate Stacked(s: State, key: string, n: nat, f: nat, free: nat) {
    && s.clock == 0
    && |LogOf(s, key)| == n
    && (forall i :: 0 <= i < n ==> LogOf(s, key)[i].entry.timestamp == 0)
    && DequeOf(s.entries, key) == Entries(LogOf(s, key))
    && |InFlight(s, key)| == f
    && (forall id :: id in s.requests ==> id < free)
  }

  /** A piece of a run that keeps the limit and the crowd bound. */
  predicate Piece(s: State, es: seq<Event>, key: string, limit: i32, k: nat) {
    CanRun(s, es) && AlwaysLimited(es, key, limit) && CrowdAtMost(s, es, key, k)
  }

  lemma {:induction false} Join(s: State, xs: seq<Event>, ys: seq<Event>, key: string, limit: i32, k: nat)
    requires Piece(s, xs, key, limit, k) && Piece(Exec(s, xs), ys, key, limit, k)
    ensures Piece(s, xs + ys, key, limit, k)
    ensures Exec(s, xs + ys) == Exec(Exec(s, xs), ys)
    decreases |xs|
  {
    if xs == [] {
      assert xs + ys == ys;
    } else {
      assert (xs + ys)[0] == xs[0] && (xs + ys)[1..] == xs[1..] + ys;
      Join(Next(s, xs[0]), xs[1..], ys, key, limit, k);
    }
  }

  lemma OneStep(s: State, e: Event, key: string, limit: i32, k: nat)
    requires Enabled(s, e)
    requires e.Arrive? && e.key == key ==> HasLimit(e.config, limit)
    requires |InFlight(s, key)| <= k && |InFlight(Next(s, e), key)| <= k
    ensures Piece(s, [e], key, limit, k) && Exec(s, [e]) == Next(s, e)
  {
    assert [e][1..] == [];
    assert CanRun(Next(s, e), []);
  }

  /** At clock zero nothing is pruned, and a low count as an i32 passes. */
  lemma PassCheck(s: State, id: nat, key: string, limit: i32, n: nat)
    requires id in s.requests && s.requests[id] == Timed(key, LimitOnly(limit), 0)
    requires |DequeOf(s.entries, key)| == n && AsI32(n) < limit
    ensures Next(s, Check(id)).requests[id].Passed?
    ensures DequeOf(Next(s, Check(id)).entries, key) == DequeOf(s.entries, key)
    ensures Next(s, Check(id)).requests == s.requests[id := Next(s, Check(id)).requests[id]]
    ensures Next(s, Check(id)).requests[id].key == key
    ensures Next(s, Check(id)).clock == s.clock && Next(s, Check(id)).log == s.log
  {
    var q := DequeOf(s.entries, key);
    assert Pruned(0, q) == q;
  }

  /** A request arrives and reads the clock. */
  lemma Approach(s: State, key: string, limit: i32, k: nat, free: nat) returns (es: seq<Event>)
    requires s.clock == 0 && free !in s.requests && |InFlight(s, key)| <= k
    ensures Piece(s, es, key, limit, k)
    ensures Exec(s, es) == s.(requests := s.requests[free := Timed(key, LimitOnly(limit), 0)])
    ensures InFlight(Exec(s, es), key) == InFlight(s, key)
  {
    var a, b := Arrive(free, key, Some(LimitOnly(limit))), ReadClock(free);
    var s1 := Next(s, a);
    assert InFlight(s1, key) == InFlight(s, key);
    OneStep(s, a, key, limit, k);
    assert InFlight(Next(s1, b), key) == InFlight(s, key);
    OneStep(s1, b, key, limit, k);
    Join(s, [a], [b], key, limit, k);
    es := [a] + [b];
  }

  /** One more request passes its check. */
  lemma PassOne(s: State, key: string, limit: i32, k: nat, n: nat, f: nat, free: nat) returns (es: seq<Event>)
    requires Stacked(s, key, n, f, free) && f < k && AsI32(n) < limit
    ensures Piece(s, es, key, limit, k)
    ensures Stacked(Exec(s, es), key, n, f + 1, free + 1)
  {
    var front := Approach(s, key, limit, k, free);
    var s2, c := Exec(s, front), Check(free);
    PassCheck(s2, free, key, limit, n);
    assert InFlight(Next(s2, c), key) == InFlight(s, key) + {free};
    OneStep(s2, c, key, limit, k);
    Join(s, front, [c], key, limit, k);
    es := front + [c];
  }

  lemma RecordOne(s: State, key: string, limit: i32, k: nat, n: nat, f: nat, free: nat) returns (es: seq<Event>)
    requires Stacked(s, key, n, f, free) && 0 < f <= k
    ensures Piece(s, es, key, limit, k)
    ensures Stacked(Exec(s, es), key, n + 1, f - 1, free)
  {
    var id :| id in InFlight(s, key);
    var e := Record(id, 0);
    InFlightAfterRecord(s, id, 0);
    OneStep(s, e, key, limit, k);
    var s' := Next(s, e);
    assert Entries(LogOf(s', key)) == Entries(LogOf(s, key)) + [RateLimitEntry(0, 0)];
    es := [e];
  }

  lemma {:induction false} PassMany(s: State, key: string, limit: i32, k: nat, n: nat, f: nat, free: nat, more: nat)
    returns (es: seq<Event>, free': nat)
    requires Stacked(s, key, n, f, free) && f + more <= k && AsI32(n) < limit
    ensures Piece(s, es, key, limit, k)
    ensures Stacked(Exec(s, es), key, n, f + more, free')
  {
    if more == 0 {
      return [], free;
    }
    var es0, free0 := PassMany(s, key, limit, k, n, f, free, more - 1);
    var es1 := PassOne(Exec(s, es0), key, limit, k, n, f + more - 1, free0);
    Join(s, es0, es1, key, limit, k);
    return es0 + es1, free0 + 1;
  }

  lemma {:induction false} RecordMany(s: State, key: string, limit: i32, k: nat, n: nat, f: nat, free: nat, more: nat)
    returns (es: seq<Event>)
    requires Stacked(s, key, n, f, free) && more <= f <= k
    ensures Piece(s, es, key, limit, k)
    ensures Stacked(Exec(s, es), key, n + more, f - more, free)
  {
    if more == 0 {
      return [];
    }
    var es0 := RecordMany(s, key, limit, k, n, f, free, more - 1);
    var es1 := RecordOne(Exec(s, es0), key, limit, k, n + more - 1, f - more + 1, free);
    Join(s, es0, es1, key, limit, k);
    return es0 + es1;
  }

  /** A burst: `more` requests pass together and are then recorded. */
  lemma Burst(s: State, key: string, limit: i32, k: nat, n: nat, free: nat, more: nat)
    returns (es: seq<Event>, free': nat)
    requires Stacked(s, key, n, 0, free) && more <= k && AsI32(n) < limit
    ensures Piece(s, es, key, limit, k)
    ensures Stacked(Exec(s, es), key, n + more, 0, free')
  {
    var es0, free0 := PassMany(s, key, limit, k, n, 0, free, more);
    var es1 := RecordMany(Exec(s, es0), key, limit, k, n, more, free0, more);
    Join(s, es0, es1, key, limit, k);
    return es0 + es1, free0;
  }

  /** One at a time up to n recorded requests. */
  lemma {:induction false} Climb(key: string, limit: i32, k: nat, n: nat) returns (es: seq<Event>, free: nat)
    requires k >= 1 && (n == 0 || n <= limit)
    ensures Piece(Initial(), es, key, limit, k)
    ensures Stacked(Exec(Initial(), es), key, n, 0, free)
  {
    if n == 0 {
      assert InFlight(Initial(), key) == {};
      assert Entries([]) == [];
      return [], 0;
    }
    var es0, free0 := Climb(key, limit, k, n - 1);
    var es1, free1 := Burst(Exec(Initial(), es0), key, limit, k, n - 1, free0, 1);
    Join(Initial(), es0, es1, key, limit, k);
    return es0 + es1, free1;
  }

  lemma StackedFillsWindow(s: State, key: string, n: nat, free: nat)
    requires Stacked(s, key, n, 0, free)
    ensures RecordedIn(LogOf(s, key), 0) == n
  {
    FilterAll(WithinSpan(0), Entries(LogOf(s, key)));
  }

  /** limit - 1 + k requests in one window: some run gets there. */
  lemma BoundIsReached(key: string, limit: i32, k: nat) returns (es: seq<Event>)
    requires limit >= 1 && k >= 1
    ensures Admissible(es, key, limit, k)
    ensures RecordedIn(LogOf(Exec(Initial(), es), key), 0) == Bound(limit, k)
  {
    var es0, free0 := Climb(key, limit, k, limit - 1);
    var es1, free1 := Burst(Exec(Initial(), es0), key, limit, k, limit - 1, free0, k);
    Join(Initial(), es0, es1, key, limit, k);
    es := es0 + es1;
    StackedFillsWindow(Exec(Initial(), es), key, limit - 1 + k, free1);
  }

  /** Once 2^31 requests fit into one crowd, the count turns negative as an i32
      and a further crowd passes. */
  lemma BoundBreaks(key: string, limit: i32, k: nat) returns (es: seq<Event>)
    requires limit >= 1 && Bound(limit, k) >= TWO_31
    ensures Admissible(es, key, limit, k)
    ensures RecordedIn(LogOf(Exec(Initial(), es), key), 0) > Bound(limit, k)
  {
    var es0, free0 := Climb(key, limit, k, limit - 1);
    var es1, free1 := Burst(Exec(Initial(), es0), key, limit, k, limit - 1, free0, TWO_31 - (limit - 1));
    Join(Initial(), es0, es1, key, limit, k);
    var es2, free2 := Burst(Exec(Initial(), es0 + es1), key, limit, k, TWO_31, free1, k);
    Join(Initial(), es0 + es1, es2, key, limit, k);
    es := es0 + es1 + es2;
    StackedFillsWindow(Exec(Initial(), es), key, TWO_31 + k, free2);
  }

  ghost predicate BoundHolds(key: string, limit: i32, k: nat) {
    forall es, from: Instant :: Admissible(es, key, limit, k) ==>
      RecordedIn(LogOf(Exec(Initial(), es), key), from) <= Bound(limit, k)
  }

  /** The bound holds in every run exactly when it stays below 2^31. */
  lemma BoundHoldsIff(key: string, limit: i32, k: nat)
    ensures BoundHolds(key, limit, k) <==> Bound(limit, k) < TWO_31
  {
    if Bound(limit, k) < TWO_31 {
      forall es, from: Instant | Admissible(es, key, limit, k)
        ensures RecordedIn(LogOf(Exec(Initial(), es), key), from) <= Bound(limit, k)
      {
        ConcurrentBound(es, key, limit, k);
      }
    } else {
      var es := BoundBreaks(key, limit, k);
      assert !(RecordedIn(LogOf(Exec(Initial(), es), key), 0) <= Bound(limit, k));
    }
  }
}
