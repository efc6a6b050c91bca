/** How far apart in time the limiter keeps the requests it lets through, whatever
    limits the key had when earlier requests came. */
module LimiterSpacing {
  import opened Wrappers
  import opened MachineInts
  import opened Collections
  import opened RateLimiter
  import opened LimiterRuns
  import opened LimiterBounds

  /** A request that passed with limit L while the log held p entries comes at
      least 61 s after entry p - L. Nothing passes the least i32. */
  predicate Spaced(log: seq<Logged>, ticket: Ticket, time: Instant) {
    && ticket.position <= |log|
    && ticket.limit != Some(-TWO_31)
    && (ticket.limit.Some? && ticket.depth < TWO_31 ==>
        && 1 <= ticket.limit.value
        && (ticket.position >= ticket.limit.value ==>
            log[ticket.position - ticket.limit.value].entry.timestamp + SPAN <= time))
  }

  ghost predicate TicketsInv(s: State) {
    && (forall id :: id in s.requests && s.requests[id].Passed? && s.requests[id].ticket.Some? ==>
          Spaced(LogOf(s, s.requests[id].key), s.requests[id].ticket.value, s.clock))
    && (forall key :: LoggedSpaced(LogOf(s, key)))
  }

  predicate LoggedSpaced(log: seq<Logged>) {
    forall j :: 0 <= j < |log| && log[j].ticket.Some? ==>
      log[j].ticket.value.position <= j && Spaced(log, log[j].ticket.value, log[j].entry.timestamp)
  }

  /** In a sorted log a fresh entry has only fresh entries behind it. */
  lemma {:induction false} FreshTail(now: Instant, q: seq<RateLimitEntry>, i: nat)
    requires SortedByTime(q) && i < |q| && !Expired(now, q[i])
    ensures |Window(now, q)| >= |q| - i
  {
    if i == 0 {
      forall e | e in q ensures Fresh(now)(e) {
        ExpiresAtSpan(now, e);
        ExpiresAtSpan(now, q[0]);
      }
      FilterAll(Fresh(now), q);
    } else {
      FreshTail(now, q[1..], i - 1);
    }
  }

  lemma CheckSpaces(s: State, id: nat)
    requires Inv(s) && TicketsInv(s) && Enabled(s, Check(id))
    ensures TicketsInv(Next(s, Check(id)))
  {
    var s' := Next(s, Check(id));
    var Timed(key, config, now) := s.requests[id];
    StepInv(s, Check(id));
    assert KeyInv(s', key);
    assert forall k :: LogOf(s', k) == LogOf(s, k);
    if s'.requests[id].Passed? {
      NewTicketSpaced(LogOf(s, key), MarkOf(s', key), s.clock, config, DequeOf(s'.entries, key));
    }
  }

  /** A passed check saw fewer fresh entries than its limit, so the entry that many
      places back has expired. */
  lemma NewTicketSpaced(log: seq<Logged>, mark: Instant, clock: Instant, config: RateLimitConfig,
                        q: seq<RateLimitEntry>)
    requires SortedByTime(Entries(log)) && mark <= clock
    requires q == Window(mark, Entries(log)) && Verdict(config, q).None?
    ensures Spaced(log, Ticket(config.requestsPerMinute, |log|, |q|), clock)
  {
    if config.requestsPerMinute.Some? && |q| < TWO_31 && |log| >= config.requestsPerMinute.value {
      var i := |log| - config.requestsPerMinute.value;
      if !Expired(mark, Entries(log)[i]) {
        FreshTail(mark, Entries(log), i);
      }
      ExpiresAtSpan(mark, Entries(log)[i]);
    }
  }

  lemma SpacedGrows(log: seq<Logged>, more: seq<Logged>, ticket: Ticket, time: Instant, later: Instant)
    requires Spaced(log, ticket, time) && time <= later
    ensures Spaced(log + more, ticket, later)
  {
  }

  lemma RecordSpaces(s: State, id: nat, tokens: u64)
    requires TicketsInv(s) && Enabled(s, Record(id, tokens))
    ensures TicketsInv(Next(s, Record(id, tokens)))
  {
    var s' := Next(s, Record(id, tokens));
    var key := s.requests[id].key;
    var log := LogOf(s, key);
    var newest: seq<Logged> := [Logged(RateLimitEntry(s.clock, tokens), s.requests[id].ticket)];
    var log' := LogOf(s', key);
    assert log' == log + newest;
    assert LoggedSpaced(log);
    forall j | 0 <= j < |log'| && log'[j].ticket.Some?
      ensures log'[j].ticket.value.position <= j
      ensures Spaced(log', log'[j].ticket.value, log'[j].entry.timestamp)
    {
      var l := log'[j];
      SpacedGrows(log, newest, l.ticket.value, l.entry.timestamp, l.entry.timestamp);
    }
    forall other | other in s'.requests && s'.requests[other].Passed? && s'.requests[other].ticket.Some?
      ensures Spaced(LogOf(s', s'.requests[other].key), s'.requests[other].ticket.value, s'.clock)
    {
      if s'.requests[other].key == key {
        SpacedGrows(log, newest, s.requests[other].ticket.value, s.clock, s.clock);
      }
    }
    forall k ensures LoggedSpaced(LogOf(s', k)) {
      assert LoggedSpaced(LogOf(s, k));
    }
  }

  lemma StepSpaces(s: State, e: Event)
    requires Inv(s) && TicketsInv(s) && Enabled(s, e)
    ensures TicketsInv(Next(s, e))
  {
    match e {
      case Check(id) => CheckSpaces(s, id);
      case Record(id, tokens) => RecordSpaces(s, id, tokens);
      case _ =>
        assert forall k :: LogOf(Next(s, e), k) == LogOf(s, k);
    }
  }

  lemma {:induction false} SpacesAlong(s: State, es: seq<Event>)
    requires Inv(s) && TicketsInv(s) && CanRun(s, es)
    ensures TicketsInv(Exec(s, es))
    decreases |es|
  {
    if es != [] {
      StepInv(s, es[0]);
      StepSpaces(s, es[0]);
      SpacesAlong(Next(s, es[0]), es[1..]);
    }
  }

  /** Every run: the j-th recorded request of a key that passed a check with limit
      L when p requests were recorded comes at least 61 s after request p - L,
      provided its check saw fewer than 2^31 entries. */
  lemma CheckedRequestsAreSpaced(es: seq<Event>, key: string, j: nat)
    requires CanRun(Initial(), es)
    requires j < |LogOf(Exec(Initial(), es), key)|
    requires LogOf(Exec(Initial(), es), key)[j].ticket.Some?
    requires LogOf(Exec(Initial(), es), key)[j].ticket.value.limit.Some?
    requires LogOf(Exec(Initial(), es), key)[j].ticket.value.depth < TWO_31
    ensures var log := LogOf(Exec(Initial(), es), key);
            var Ticket(limit, p, _) := log[j].ticket.value;
            && 1 <= limit.value && p <= j
            && (p >= limit.value ==>
                log[j].entry.timestamp - log[p - limit.value].entry.timestamp >= SPAN)
  {
    InitialInv();
    SpacesAlong(Initial(), es);
    assert LoggedSpaced(LogOf(Exec(Initial(), es), key));
  }

  // ---- Sequential runs ----

  ghost predicate SerialInv(s: State, key: string) {
    && (forall id :: id in InFlight(s, key) && s.requests[id].ticket.Some? ==>
          s.requests[id].ticket.value.position == |LogOf(s, key)|)
    && (forall j :: 0 <= j < |LogOf(s, key)| && LogOf(s, key)[j].ticket.Some? ==>
          LogOf(s, key)[j].ticket.value.position == j)
  }

  lemma SerialStep(s: State, e: Event, key: string)
    requires SerialInv(s, key) && Enabled(s, e)
    requires |InFlight(s, key)| <= 1
    ensures SerialInv(Next(s, e), key)
  {
    var s' := Next(s, e);
    if e.Record? && s.requests[e.id].key == key {
      InFlightAfterRecord(s, e.id, e.tokens);
      assert e.id in InFlight(s, key);
      var others := InFlight(s, key) - {e.id};
      assert |others| == 0;
      assert InFlight(s', key) == others;
      assert LogOf(s', key)[..|LogOf(s, key)|] == LogOf(s, key);
    } else {
      assert LogOf(s', key) == LogOf(s, key);
    }
  }

  lemma {:induction false} SerialAlong(s: State, es: seq<Event>, key: string)
    requires SerialInv(s, key) && CanRun(s, es) && CrowdAtMost(s, es, key, 1)
    ensures SerialInv(Exec(s, es), key)
    decreases |es|
  {
    if es != [] {
      SerialStep(s, es[0], key);
      SerialAlong(Next(s, es[0]), es[1..], key);
    }
  }

  /** One request of the key at a time: the j-th recorded request that passed with
      limit L comes at least 61 s after the (j - L)-th, even when the limit was
      different or absent before. */
  lemma SequentialRequestsAreSpaced(es: seq<Event>, key: string, j: nat)
    requires CanRun(Initial(), es) && CrowdAtMost(Initial(), es, key, 1)
    requires j < |LogOf(Exec(Initial(), es), key)|
    requires LogOf(Exec(Initial(), es), key)[j].ticket.Some?
    requires LogOf(Exec(Initial(), es), key)[j].ticket.value.limit.Some?
    requires LogOf(Exec(Initial(), es), key)[j].ticket.value.depth < TWO_31
    ensures var log := LogOf(Exec(Initial(), es), key);
            var limit := log[j].ticket.value.limit.value;
            && 1 <= limit
            && (j >= limit ==> log[j].entry.timestamp - log[j - limit].entry.timestamp >= SPAN)
  {
    assert SerialInv(Initial(), key);
    SerialAlong(Initial(), es, key);
    CheckedRequestsAreSpaced(es, key, j);
  }

  // ---- Where the spacing ends ----

  /** A run of one request of the key at a time. */
  predicate Sequential(es: seq<Event>, key: string) {
    CanRun(Initial(), es) && CrowdAtMost(Initial(), es, key, 1)
  }

  lemma {:induction false} CrowdSnoc(s: State, es: seq<Event>, e: Event, key: string, k: nat)
    requires CanRun(s, es) && CrowdAtMost(s, es, key, k)
    requires Enabled(Exec(s, es), e) && |InFlight(Next(Exec(s, es), e), key)| <= k
    ensures CanRun(s, es + [e]) && CrowdAtMost(s, es + [e], key, k)
    ensures Exec(s, es + [e]) == Next(Exec(s, es), e)
    decreases |es|
  {
    if es == [] {
      assert [e][1..] == [] && es + [e] == [e];
      assert CanRun(Next(s, e), []);
    } else {
      assert (es + [e])[0] == es[0] && (es + [e])[1..] == es[1..] + [e];
      CrowdSnoc(Next(s, es[0]), es[1..], e, key, k);
    }
  }

  lemma RecordUnlimited(s: State, key: string, n: nat)
    requires Stacked(s, key, n, 0, n)
    ensures var s1 := Next(s, Arrive(n, key, None));
            var s2 := Next(s1, Record(n, 0));
            InFlight(s1, key) == {n} && InFlight(s2, key) == {} && Stacked(s2, key, n + 1, 0, n + 1)
  {
    var s1 := Next(s, Arrive(n, key, None));
    assert InFlight(s, key) == {};
    assert InFlight(s1, key) == {n};
    InFlightAfterRecord(s1, n, 0);
    assert Entries(LogOf(Next(s1, Record(n, 0)), key)) == Entries(LogOf(s, key)) + [RateLimitEntry(0, 0)];
  }

  /** Requests of an unconfigured key are recorded and never pruned. */
  lemma {:induction false} PileUp(key: string, n: nat) returns (es: seq<Event>)
    ensures Sequential(es, key)
    ensures Stacked(Exec(Initial(), es), key, n, 0, n)
  {
    if n == 0 {
      assert InFlight(Initial(), key) == {};
      assert Entries([]) == [];
      return [];
    }
    es := PileUp(key, n - 1);
    RecordUnlimited(Exec(Initial(), es), key, n - 1);
    CrowdSnoc(Initial(), es, Arrive(n - 1, key, None), key, 1);
    es := es + [Arrive(n - 1, key, None)];
    CrowdSnoc(Initial(), es, Record(n - 1, 0), key, 1);
    es := es + [Record(n - 1, 0)];
  }

  /** With 2^31 unpruned entries the count is the least i32, below every limit but
      that very value: one more request, on its own, passes at the instant of all
      requests before it, even a limit of zero or less. */
  lemma SpacingBreaksAtCast(key: string, limit: i32) returns (es: seq<Event>)
    requires limit > -TWO_31
    ensures Sequential(es, key)
    ensures var log := LogOf(Exec(Initial(), es), key);
            && |log| == TWO_31 + 1
            && log[TWO_31].ticket == Some(Ticket(Some(limit), TWO_31, TWO_31))
            && forall j :: 0 <= j <= TWO_31 ==> log[j].entry.timestamp == 0
  {
    es := PileUp(key, TWO_31);
    var s0 := Exec(Initial(), es);
    assert InFlight(s0, key) == {};
    var front := Approach(s0, key, limit, 1, TWO_31);
    CrowdJoin(Initial(), es, front, key, 1);
    es := es + front;
    var s2 := Exec(Initial(), es);
    assert AsI32(TWO_31) == -TWO_31;
    PassCheck(s2, TWO_31, key, limit, TWO_31);
    assert Pruned(0, DequeOf(s2.entries, key)) == DequeOf(s2.entries, key);
    var s3 := Next(s2, Check(TWO_31));
    assert InFlight(s3, key) == {TWO_31};
    CrowdSnoc(Initial(), es, Check(TWO_31), key, 1);
    es := es + [Check(TWO_31)];
    InFlightAfterRecord(s3, TWO_31, 0);
    CrowdSnoc(Initial(), es, Record(TWO_31, 0), key, 1);
    es := es + [Record(TWO_31, 0)];
  }

  lemma {:induction false} CrowdJoin(s: State, xs: seq<Event>, ys: seq<Event>, key: string, k: nat)
    requires CanRun(s, xs) && CrowdAtMost(s, xs, key, k)
    requires CanRun(Exec(s, xs), ys) && CrowdAtMost(Exec(s, xs), ys, key, k)
    ensures CanRun(s, xs + ys) && CrowdAtMost(s, xs + ys, key, k)
    ensures Exec(s, xs + ys) == Exec(Exec(s, xs), ys)
    decreases |xs|
  {
    if xs == [] {
      assert xs + ys == ys;
    } else {
      assert (xs + ys)[0] == xs[0] && (xs + ys)[1..] == xs[1..] + ys;
      CrowdJoin(Next(s, xs[0]), xs[1..], ys, key, k);
    }
  }

  /** The recorded request j keeps its distance to the one `limit` places before. */
  predicate KeepsDistance(log: seq<Logged>, j: nat, limit: i32)
    requires j < |log|
  {
    && 1 <= limit
    && (j >= limit ==> log[j].entry.timestamp - log[j - limit].entry.timestamp >= SPAN)
  }

  /** In every sequential run each recorded request that passed with this limit, while
      its check saw at most n entries, keeps its distance. */
  ghost predicate SpacingHolds(key: string, limit: i32, n: nat) {
    forall es, j: nat ::
      Sequential(es, key) && j < |LogOf(Exec(Initial(), es), key)| &&
      PassedWith(LogOf(Exec(Initial(), es), key)[j], limit, n) ==>
        KeepsDistance(LogOf(Exec(Initial(), es), key), j, limit)
  }

  predicate PassedWith(l: Logged, limit: i32, n: nat) {
    l.ticket.Some? && l.ticket.value.limit == Some(limit) && l.ticket.value.depth <= n
  }

  /** No count is below the least i32. */
  lemma LeastLimitRefuses(es: seq<Event>, key: string)
    requires CanRun(Initial(), es)
    ensures forall l :: l in LogOf(Exec(Initial(), es), key) && l.ticket.Some? ==> l.ticket.value.limit != Some(-TWO_31)
  {
    InitialInv();
    SpacesAlong(Initial(), es);
    assert LoggedSpaced(LogOf(Exec(Initial(), es), key));
  }

  /** Spacing holds for all sequential runs exactly while fewer than 2^31 entries are
      counted, or for the one limit that refuses everything. */
  lemma SpacingHoldsIff(key: string, limit: i32, n: nat)
    ensures SpacingHolds(key, limit, n) <==> n < TWO_31 || limit == -TWO_31
  {
    if n < TWO_31 || limit == -TWO_31 {
      forall es, j: nat | Sequential(es, key) && j < |LogOf(Exec(Initial(), es), key)|
        && PassedWith(LogOf(Exec(Initial(), es), key)[j], limit, n)
        ensures KeepsDistance(LogOf(Exec(Initial(), es), key), j, limit)
      {
        LeastLimitRefuses(es, key);
        if n < TWO_31 {
          SequentialRequestsAreSpaced(es, key, j);
        }
      }
    } else {
      var es := SpacingBreaksAtCast(key, limit);
      var log := LogOf(Exec(Initial(), es), key);
      assert PassedWith(log[TWO_31], limit, n);
      assert !KeepsDistance(log, TWO_31, limit);
    }
  }

  // ---- Readings out of lock order ----

  /** A check whose reading is older than another check's prune can let a request
      pass that the full log, filtered at its own reading, would refuse. */
  lemma OutOfOrderReadingUndercounts() returns (es: seq<Event>, id: nat)
    ensures CanRun(Initial(), es) && Enabled(Exec(Initial(), es), Check(id))
    ensures var s := Exec(Initial(), es);
            var Timed(key, config, now) := s.requests[id];
            && now < MarkOf(s, key)
            && Next(s, Check(id)).requests[id].Passed?
            && !WithinLimits(config, Window(now, Entries(LogOf(s, key))))
  {
    var c := LimitOnly(1);
    es := PileUp("k", 1);
    id := 1;
    var full := Entries(LogOf(Exec(Initial(), es), "k"));
    var e: Event;
    e := Tick(SPAN - 1);        RunSnoc(Initial(), es, e); es := es + [e];
    e := Arrive(1, "k", Some(c)); RunSnoc(Initial(), es, e); es := es + [e];
    e := ReadClock(1);          RunSnoc(Initial(), es, e); es := es + [e];
    assert Exec(Initial(), es).requests[1] == Timed("k", c, SPAN - 1);
    e := Tick(1);               RunSnoc(Initial(), es, e); es := es + [e];
    e := Arrive(2, "k", Some(c)); RunSnoc(Initial(), es, e); es := es + [e];
    e := ReadClock(2);          RunSnoc(Initial(), es, e); es := es + [e];
    var s := Exec(Initial(), es);
    assert s.requests[2] == Timed("k", c, SPAN);
    ExpiresAtSpan(SPAN, full[0]);
    assert Pruned(SPAN, full[1..]) == [];
    assert Pruned(SPAN, DequeOf(s.entries, "k")) == [];
    e := Check(2);              RunSnoc(Initial(), es, e); es := es + [e];
    s := Exec(Initial(), es);
    assert Entries(LogOf(s, "k")) == full;
    ExpiresAtSpan(SPAN - 1, full[0]);
    FilterAll(Fresh(SPAN - 1), full);
    assert Window(SPAN - 1, full) == full;
  }
}
