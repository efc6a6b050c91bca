/** Interleaved requests against the rate limiter. A check reads the clock, then
    takes the lock; a record reads the clock under the lock. Between these steps
    any other request may run. The machine also keeps what the program does not:
    the full log of recorded requests, and per key the highest reading a check
    ever pruned with. */
module LimiterRuns {
  import opened Wrappers
  import opened MachineInts
  import opened Collections
  import opened RateLimiter

  /** What a passed check saw: its limit, the length of the full log, and the
      length of the deque after pruning. */
  datatype Ticket = Ticket(limit: Option<i32>, position: nat, depth: nat)

  datatype Phase =
    | Ready(key: string, config: RateLimitConfig)
    | Timed(key: string, config: RateLimitConfig, now: Instant)
    | Passed(key: string, ticket: Option<Ticket>)
    | Rejected(key: string)
    | Recorded(key: string)

  datatype Logged = Logged(entry: RateLimitEntry, ticket: Option<Ticket>)

  datatype State = State(
    clock: Instant,
    entries: map<string, seq<RateLimitEntry>>,
    log: map<string, seq<Logged>>,
    marks: map<string, Instant>,
    requests: map<nat, Phase>)

  datatype Event =
    | Tick(elapsed: nat)
    | Arrive(id: nat, key: string, config: Option<RateLimitConfig>)
    | ReadClock(id: nat)
    | Check(id: nat)
    | Record(id: nat, tokens: u64)

  function Initial(): State {
    State(0, map[], map[], map[], map[])
  }

  function LogOf(s: State, key: string): seq<Logged> {
    if key in s.log then s.log[key] else []
  }

  function MarkOf(s: State, key: string): Instant {
    if key in s.marks then s.marks[key] else 0
  }

  /** Only a key with a non-empty configuration is checked. */
  function FirstPhase(key: string, config: Option<RateLimitConfig>): Phase {
    if config.Some? && !config.value.IsEmpty() then Ready(key, config.value) else Passed(key, None)
  }

  /** A request goes unchecked exactly when its key has no limit of any type. */
  lemma UncheckedIff(key: string, config: Option<RateLimitConfig>)
    ensures FirstPhase(key, config).Passed? <==>
              config.None? || config.value == RateLimitConfig(None, None, None, None)
    ensures config.Some? && !FirstPhase(key, config).Passed? ==> FirstPhase(key, config) == Ready(key, config.value)
  {
  }

  predicate Enabled(s: State, e: Event) {
    match e
    case Tick(_) => true
    case Arrive(id, _, _) => id !in s.requests
    case ReadClock(id) => id in s.requests && s.requests[id].Ready?
    case Check(id) => id in s.requests && s.requests[id].Timed?
    case Record(id, _) => id in s.requests && s.requests[id].Passed?
  }

  function Max(a: nat, b: nat): nat {
    if a < b then b else a
  }

  function Checked(s: State, id: nat): State
    requires Enabled(s, Check(id))
  {
    var Timed(key, config, now) := s.requests[id];
    var q := Pruned(now, DequeOf(s.entries, key));
    var phase :=
      if Verdict(config, q).Some? then Rejected(key)
      else Passed(key, Some(Ticket(config.requestsPerMinute, |LogOf(s, key)|, |q|)));
    s.(entries := s.entries[key := q],
       marks := s.marks[key := Max(MarkOf(s, key), now)],
       requests := s.requests[id := phase])
  }

  function Next(s: State, e: Event): State
    requires Enabled(s, e)
  {
    match e
    case Tick(elapsed) => s.(clock := s.clock + elapsed)
    case Arrive(id, key, config) => s.(requests := s.requests[id := FirstPhase(key, config)])
    case ReadClock(id) =>
      var Ready(key, config) := s.requests[id];
      s.(requests := s.requests[id := Timed(key, config, s.clock)])
    case Check(id) => Checked(s, id)
    case Record(id, tokens) =>
      var Passed(key, ticket) := s.requests[id];
      var entry := RateLimitEntry(s.clock, tokens);
      s.(entries := s.entries[key := DequeOf(s.entries, key) + [entry]],
         log := s.log[key := LogOf(s, key) + [Logged(entry, ticket)]],
         requests := s.requests[id := Recorded(key)])
  }

  predicate CanRun(s: State, es: seq<Event>)
    decreases |es|
  {
    es == [] || (Enabled(s, es[0]) && CanRun(Next(s, es[0]), es[1..]))
  }

  function Exec(s: State, es: seq<Event>): State
    requires CanRun(s, es)
    decreases |es|
  {
    if es == [] then s else Exec(Next(s, es[0]), es[1..])
  }

  lemma {:induction false} RunJoin(s: State, xs: seq<Event>, ys: seq<Event>)
    requires CanRun(s, xs) && CanRun(Exec(s, xs), ys)
    ensures CanRun(s, xs + ys)
    ensures Exec(s, xs + ys) == Exec(Exec(s, xs), ys)
    decreases |xs|
  {
    if xs == [] {
      assert xs + ys == ys;
    } else {
      assert (xs + ys)[0] == xs[0] && (xs + ys)[1..] == xs[1..] + ys;
      RunJoin(Next(s, xs[0]), xs[1..], ys);
    }
  }

  lemma RunSnoc(s: State, es: seq<Event>, e: Event)
    requires CanRun(s, es) && Enabled(Exec(s, es), e)
    ensures CanRun(s, es + [e])
    ensures Exec(s, es + [e]) == Next(Exec(s, es), e)
  {
    assert [e][1..] == [];
    assert CanRun(Next(Exec(s, es), e), []);
    RunJoin(s, es, [e]);
  }

  // ---- The deque is a window of the full log ----

  function Fresh(now: Instant): RateLimitEntry -> bool {
    (e: RateLimitEntry) => !Expired(now, e)
  }

  /** The entries of whole-second age at most 60. */
  function Window(now: Instant, q: seq<RateLimitEntry>): seq<RateLimitEntry> {
    Filter(Fresh(now), q)
  }

  function Entries(log: seq<Logged>): (es: seq<RateLimitEntry>)
    ensures |es| == |log|
    ensures forall i :: 0 <= i < |log| ==> es[i] == log[i].entry
  {
    seq(|log|, i requires 0 <= i < |log| => log[i].entry)
  }

  predicate SortedByTime(q: seq<RateLimitEntry>) {
    forall i, j :: 0 <= i < j < |q| ==> q[i].timestamp <= q[j].timestamp
  }

  predicate NotAfter(q: seq<RateLimitEntry>, t: Instant) {
    forall i :: 0 <= i < |q| ==> q[i].timestamp <= t
  }

  lemma {:induction false} PrunedIsWindow(now: Instant, q: seq<RateLimitEntry>)
    requires SortedByTime(q)
    ensures Pruned(now, q) == Window(now, q)
  {
    if q != [] {
      if Expired(now, q[0]) {
        PrunedIsWindow(now, q[1..]);
      } else {
        forall e | e in q ensures Fresh(now)(e) {
          ExpiresAtSpan(now, e);
          ExpiresAtSpan(now, q[0]);
        }
        FilterAll(Fresh(now), q);
      }
    }
  }

  lemma {:induction false} FilterKeepsTimeOrder(p: RateLimitEntry -> bool, q: seq<RateLimitEntry>)
    requires SortedByTime(q)
    ensures SortedByTime(Filter(p, q))
  {
    if q != [] {
      FilterKeepsTimeOrder(p, q[1..]);
      FilterMembers(p, q[1..]);
      forall e | e in Filter(p, q[1..]) ensures q[0].timestamp <= e.timestamp {
        var i :| 0 <= i < |q[1..]| && q[1..][i] == e;
        assert q[i + 1] == e;
      }
    }
  }

  /** Pruning twice is pruning with the higher reading. */
  lemma WindowOfWindow(a: Instant, b: Instant, q: seq<RateLimitEntry>)
    ensures Window(a, Window(b, q)) == Window(Max(a, b), q)
  {
    forall e ensures Fresh(Max(a, b))(e) <==> Fresh(a)(e) && Fresh(b)(e) {
      ExpiresAtSpan(a, e);
      ExpiresAtSpan(b, e);
      ExpiresAtSpan(Max(a, b), e);
    }
    FilterNested(Fresh(a), Fresh(b), Fresh(Max(a, b)), q);
  }

  ghost predicate KeyInv(s: State, key: string) {
    var es := Entries(LogOf(s, key));
    && SortedByTime(es) && NotAfter(es, s.clock)
    && MarkOf(s, key) <= s.clock
    && DequeOf(s.entries, key) == Window(MarkOf(s, key), es)
  }

  ghost predicate ClocksInv(s: State) {
    forall id :: id in s.requests && s.requests[id].Timed? ==> s.requests[id].now <= s.clock
  }

  ghost predicate Inv(s: State) {
    && ClocksInv(s)
    && forall key :: KeyInv(s, key)
  }

  lemma InitialInv()
    ensures Inv(Initial())
  {
    forall key ensures KeyInv(Initial(), key) {
      assert Entries([]) == [];
    }
  }

  lemma CheckKeepsKeyInv(s: State, id: nat, key: string)
    requires Inv(s) && Enabled(s, Check(id))
    ensures KeyInv(Next(s, Check(id)), key)
  {
    assert KeyInv(s, key);
    if s.requests[id].key == key {
      var es := Entries(LogOf(s, key));
      var now := s.requests[id].now;
      FilterKeepsTimeOrder(Fresh(MarkOf(s, key)), es);
      PrunedIsWindow(now, DequeOf(s.entries, key));
      WindowOfWindow(now, MarkOf(s, key), es);
    }
  }

  lemma RecordKeepsKeyInv(s: State, id: nat, tokens: u64, key: string)
    requires Inv(s) && Enabled(s, Record(id, tokens))
    ensures KeyInv(Next(s, Record(id, tokens)), key)
  {
    var s' := Next(s, Record(id, tokens));
    assert KeyInv(s, key);
    if s.requests[id].key == key {
      var log, e := LogOf(s, key), RateLimitEntry(s.clock, tokens);
      var es := Entries(log);
      assert LogOf(s', key) == log + [Logged(e, s.requests[id].ticket)];
      assert Entries(LogOf(s', key)) == es + [e];
      WindowTakesNewest(MarkOf(s, key), es, e);
      NewestIsLast(es, e);
    } else {
      assert LogOf(s', key) == LogOf(s, key);
    }
  }

  lemma NewestIsLast(q: seq<RateLimitEntry>, e: RateLimitEntry)
    requires SortedByTime(q) && NotAfter(q, e.timestamp)
    ensures SortedByTime(q + [e]) && NotAfter(q + [e], e.timestamp)
  {
  }

  lemma WindowTakesNewest(mark: Instant, q: seq<RateLimitEntry>, e: RateLimitEntry)
    requires mark <= e.timestamp
    ensures Window(mark, q + [e]) == Window(mark, q) + [e]
  {
    ExpiresAtSpan(mark, e);
    FilterAppend(Fresh(mark), q, [e]);
    FilterCons(Fresh(mark), e, []);
    assert [e] + [] == [e];
  }

  lemma StepInv(s: State, e: Event)
    requires Inv(s) && Enabled(s, e)
    ensures Inv(Next(s, e))
  {
    var s' := Next(s, e);
    forall key ensures KeyInv(s', key) {
      assert KeyInv(s, key);
      match e {
        case Check(id) => CheckKeepsKeyInv(s, id, key);
        case Record(id, tokens) => RecordKeepsKeyInv(s, id, tokens, key);
        case _ => assert LogOf(s', key) == LogOf(s, key);
      }
    }
  }

  lemma {:induction false} RunInv(s: State, es: seq<Event>)
    requires Inv(s) && CanRun(s, es)
    ensures Inv(Exec(s, es))
    decreases |es|
  {
    if es != [] {
      StepInv(s, es[0]);
      RunInv(Next(s, es[0]), es[1..]);
    }
  }

  /** In every reachable state the lazily pruned deque of a key is its full log
      filtered by age at the highest reading any check of the key has used. */
  lemma DequeIsWindowOfLog(es: seq<Event>, key: string)
    requires CanRun(Initial(), es)
    ensures var s := Exec(Initial(), es);
            DequeOf(s.entries, key) == Window(MarkOf(s, key), Entries(LogOf(s, key)))
  {
    InitialInv();
    RunInv(Initial(), es);
    assert KeyInv(Exec(Initial(), es), key);
  }

  /** The deque a check decides on, in every run: the full log filtered at the
      higher of its own reading and the key's mark. It is the log filtered at its
      own reading exactly when no recorded entry that is fresh at that reading
      had already expired at the mark. */
  lemma CheckDecidesOnWindow(es: seq<Event>, id: nat)
    requires CanRun(Initial(), es)
    requires Enabled(Exec(Initial(), es), Check(id))
    ensures var s := Exec(Initial(), es);
            var Timed(key, config, now) := s.requests[id];
            var full := Entries(LogOf(s, key));
            && Pruned(now, DequeOf(s.entries, key)) == Window(Max(now, MarkOf(s, key)), full)
            && (Pruned(now, DequeOf(s.entries, key)) == Window(now, full) <==>
                forall e :: e in full && Expired(MarkOf(s, key), e) ==> Expired(now, e))
  {
    InitialInv();
    RunInv(Initial(), es);
    var s := Exec(Initial(), es);
    var Timed(key, config, now) := s.requests[id];
    var full := Entries(LogOf(s, key));
    var mark := MarkOf(s, key);
    assert KeyInv(s, key);
    FilterKeepsTimeOrder(Fresh(mark), full);
    PrunedIsWindow(now, DequeOf(s.entries, key));
    WindowOfWindow(now, mark, full);
    FilterMembers(Fresh(now), full);
    FilterMembers(Fresh(Max(now, mark)), full);
    if forall e :: e in full && Expired(mark, e) ==> Expired(now, e) {
      SameWindow(Max(now, mark), now, mark, full);
    } else {
      var e :| e in full && Expired(mark, e) && !Expired(now, e);
      assert e in Window(now, full);
      ExpiresAtSpan(mark, e);
      ExpiresAtSpan(Max(now, mark), e);
      assert e !in Window(Max(now, mark), full);
    }
  }

  lemma {:induction false} SameWindow(top: Instant, now: Instant, mark: Instant, q: seq<RateLimitEntry>)
    requires top == Max(now, mark)
    requires forall e :: e in q && Expired(mark, e) ==> Expired(now, e)
    ensures Window(top, q) == Window(now, q)
  {
    if q != [] {
      SameWindow(top, now, mark, q[1..]);
      assert q[0] in q;
      ExpiresAtSpan(now, q[0]);
      ExpiresAtSpan(mark, q[0]);
      ExpiresAtSpan(top, q[0]);
    }
  }

  // ---- Decisions ----

  /** Nothing that had expired for an earlier prune is fresh at this reading. */
  ghost predicate NothingLost(s: State, key: string, now: Instant) {
    forall e :: e in Entries(LogOf(s, key)) && Expired(MarkOf(s, key), e) ==> Expired(now, e)
  }

  /** A check at `now` would decide as filtering the full log at `now` does. */
  predicate DecidesAsLog(s: State, key: string, config: RateLimitConfig, now: Instant) {
    Verdict(config, Pruned(now, DequeOf(s.entries, key))).None? <==>
    WithinLimits(config, Window(now, Entries(LogOf(s, key))))
  }

  function LimitOnly(limit: i32): RateLimitConfig {
    RateLimitConfig(Some(limit), None, None, None)
  }

  /** With nothing lost and the counts below 2^31, a check decides as if it filtered
      the full log of every recorded request. */
  lemma CheckRefinesFullLog(es: seq<Event>, id: nat)
    requires CanRun(Initial(), es)
    requires Enabled(Exec(Initial(), es), Check(id))
    ensures var s := Exec(Initial(), es);
            var Timed(key, config, now) := s.requests[id];
            var recent := Window(now, Entries(LogOf(s, key)));
            && (MarkOf(s, key) <= now ==> NothingLost(s, key, now))
            && (NothingLost(s, key, now) && |recent| < TWO_31 && SumTokens(recent) < TWO_31 ==>
                  && DecidesAsLog(s, key, config, now)
                  && (Next(s, Check(id)).requests[id].Passed? <==> WithinLimits(config, recent)))
  {
    CheckDecidesOnWindow(es, id);
    var s := Exec(Initial(), es);
    var Timed(key, config, now) := s.requests[id];
    var recent := Window(now, Entries(LogOf(s, key)));
    forall e | Expired(MarkOf(s, key), e) && MarkOf(s, key) <= now ensures Expired(now, e) {
      ExpiresAtSpan(MarkOf(s, key), e);
      ExpiresAtSpan(now, e);
    }
    if NothingLost(s, key, now) && |recent| < TWO_31 && SumTokens(recent) < TWO_31 {
      VerdictIsExact(config, recent);
    }
  }

  lemma {:induction false} FilterDrops(p: RateLimitEntry -> bool, q: seq<RateLimitEntry>, e: RateLimitEntry)
    requires e in q && !p(e)
    ensures |Filter(p, q)| < |q|
  {
    if q[0] != e {
      FilterDrops(p, q[1..], e);
    } else {
      FilterSmaller(p, p, q[1..]);
    }
  }

  lemma LostEntryCounts(mark: Instant, now: Instant, full: seq<RateLimitEntry>)
    requires exists e :: e in full && Expired(mark, e) && !Expired(now, e)
    ensures |Window(Max(now, mark), full)| < |Window(now, full)|
  {
    var e :| e in full && Expired(mark, e) && !Expired(now, e);
    var top := Max(now, mark);
    WindowOfWindow(top, now, full);
    FilterMembers(Fresh(now), full);
    ExpiresAtSpan(mark, e);
    ExpiresAtSpan(top, e);
    FilterDrops(Fresh(top), Window(now, full), e);
  }

  /** While fewer than 2^31 requests are recent, a check agrees with the full log for
      every requests-per-minute limit exactly when nothing was lost. */
  lemma ChecksAgreeIff(es: seq<Event>, id: nat)
    requires CanRun(Initial(), es)
    requires Enabled(Exec(Initial(), es), Check(id))
    requires var s := Exec(Initial(), es);
             |Window(s.requests[id].now, Entries(LogOf(s, s.requests[id].key)))| < TWO_31
    ensures var s := Exec(Initial(), es);
            var Timed(key, _, now) := s.requests[id];
            (forall limit: i32 :: DecidesAsLog(s, key, LimitOnly(limit), now)) <==> NothingLost(s, key, now)
  {
    CheckDecidesOnWindow(es, id);
    var s := Exec(Initial(), es);
    var Timed(key, _, now) := s.requests[id];
    var full, mark := Entries(LogOf(s, key)), MarkOf(s, key);
    var recent := Window(now, full);
    if NothingLost(s, key, now) {
      forall limit: i32 ensures DecidesAsLog(s, key, LimitOnly(limit), now) {
        assert Pruned(now, DequeOf(s.entries, key)) == recent;
      }
    } else {
      LostEntryCounts(mark, now, full);
      assert !DecidesAsLog(s, key, LimitOnly(|recent|), now);
    }
  }
}
