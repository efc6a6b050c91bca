/** `request_filter` as one call is a run of the machine: whatever is proved about
    every run covers the proxy's own method. */
module GatewayFilter {
  import opened Wrappers
  import opened MachineInts
  import opened RateLimiter
  import opened Gateway
  import opened GatewayRuns
  import LR = LimiterRuns

  predicate Reached(parse: UrlParser, start: State, es: seq<Event>, s: State) {
    CanRun(parse, start, es) && Exec(parse, start, es) == s
  }

  lemma {:induction false} Go(parse: UrlParser, start: State, es: seq<Event>, s: State, e: Event)
    requires Reached(parse, start, es, s) && Enabled(s, e)
    ensures Reached(parse, start, es + [e], Next(parse, s, e))
    decreases |es|
  {
    if es == [] {
      assert [e][1..] == [] && es + [e] == [e];
      assert CanRun(parse, Next(parse, s, e), []);
    } else {
      assert (es + [e])[0] == es[0] && (es + [e])[1..] == es[1..] + [e];
      Go(parse, Next(parse, start, es[0]), es[1..], s, e);
    }
  }

  /** The machine stands where the filter stands. */
  predicate Matches(s: State, id: nat, f: Filtering, body: Body) {
    && s.versions != []
    && id in s.jobs && s.jobs[id].ctx == f.progress.ctx && s.jobs[id].stage == f.progress.stage
    && s.jobs[id].body == body && !s.jobs[id].logged
    && s.lim.entries == f.entries && s.cursors == f.cursors
  }

  lemma FrontRun(parse: UrlParser, start: State, id: nat, requestId: u128, front: Front, body: Body, r: Readings)
    returns (es: seq<Event>, s: State)
    requires start.versions != [] && id !in start.jobs && id !in start.lim.requests
    ensures Reached(parse, start, es, s)
    ensures var f := Filtering(Begun(requestId, front), start.lim.entries, start.cursors);
            Matches(s, id,
                    if f.progress.stage.Keyed? then f.(progress := LookedUp(f.progress.ctx, r.atKey)) else f, body)
    ensures s.lim == start.lim
  {
    var e := Begin(id, requestId, front, body);
    Go(parse, start, [], start, e);
    es, s := [] + [e], Next(parse, start, e);
    if s.jobs[id].stage.Keyed? {
      Go(parse, start, es, s, Swap(r.atKey));
      es, s := es + [Swap(r.atKey)], Next(parse, s, Swap(r.atKey));
      Go(parse, start, es, s, Act(id, LookupKey));
      es, s := es + [Act(id, LookupKey)], Next(parse, s, Act(id, LookupKey));
    }
  }

  /** Arriving at the limiter with the limits of the moment. */
  lemma ArriveRun(parse: UrlParser, start: State, es0: seq<Event>, s0: State, id: nat, key: string, r: Readings)
    returns (es: seq<Event>, s: State)
    requires Reached(parse, start, es0, s0) && s0.versions != []
    requires id in s0.jobs && s0.jobs[id].stage.Admitted? && id !in s0.lim.requests
    requires s0.jobs[id].ctx.keyHash == Some(key)
    ensures Reached(parse, start, es, s) && s.versions != []
    ensures id in s.jobs && s.jobs[id] == s0.jobs[id].(stage := Limiting) && s.cursors == s0.cursors
    ensures s.lim == s0.lim.(requests := s0.lim.requests[id := LR.FirstPhase(key, LimitsFor(r.atLimits, key))])
  {
    Go(parse, start, es0, s0, Swap(r.atLimits));
    es, s := es0 + [Swap(r.atLimits)], Next(parse, s0, Swap(r.atLimits));
    Go(parse, start, es, s, Act(id, ReadLimits));
    es, s := es + [Act(id, ReadLimits)], Next(parse, s, Act(id, ReadLimits));
  }

  lemma WaitUntil(parse: UrlParser, start: State, es0: seq<Event>, s0: State, when: Instant)
    returns (es: seq<Event>, s: State)
    requires Reached(parse, start, es0, s0) && s0.versions != [] && s0.lim.clock <= when
    ensures Reached(parse, start, es, s)
    ensures s == s0.(lim := s0.lim.(clock := when))
  {
    var e := Tick(when - s0.lim.clock);
    Go(parse, start, es0, s0, e);
    es, s := es0 + [e], Next(parse, s0, e);
  }

  /** Reading the clock and checking, for a request with limits. */
  lemma CheckRun(parse: UrlParser, start: State, es0: seq<Event>, s0: State, id: nat, config: RateLimitConfig,
                 r: Readings)
    returns (es: seq<Event>, s: State)
    requires Reached(parse, start, es0, s0) && s0.versions != []
    requires id in s0.jobs && s0.jobs[id].stage.Limiting? && s0.jobs[id].ctx.keyHash.Some?
    requires id in s0.lim.requests && s0.lim.requests[id] == LR.Ready(s0.jobs[id].ctx.keyHash.value, config)
    requires s0.lim.clock <= r.checkNow
    ensures Reached(parse, start, es, s) && s.versions != [] && id in s.jobs && s.cursors == s0.cursors
    ensures var key := s0.jobs[id].ctx.keyHash.value;
            var q := Pruned(r.checkNow, DequeOf(s0.lim.entries, key));
            && s.lim.entries == s0.lim.entries[key := q] && s.lim.clock == r.checkNow
            && s.jobs[id] == With(s0.jobs[id], Judged(s0.jobs[id].ctx, Verdict(config, q)))
            && (s.jobs[id].stage.Limiting? ==>
                  id in s.lim.requests && s.lim.requests[id].Passed? && s.lim.requests[id].key == key)
  {
    es, s := WaitUntil(parse, start, es0, s0, r.checkNow);
    Go(parse, start, es, s, Act(id, ReadClock));
    es, s := es + [Act(id, ReadClock)], Next(parse, s, Act(id, ReadClock));
    Go(parse, start, es, s, Act(id, Check));
    es, s := es + [Act(id, Check)], Next(parse, s, Act(id, Check));
  }

  lemma RecordRun(parse: UrlParser, start: State, es0: seq<Event>, s0: State, id: nat, r: Readings)
    returns (es: seq<Event>, s: State)
    requires Reached(parse, start, es0, s0) && s0.versions != [] && s0.lim.clock <= r.recordNow
    requires id in s0.jobs && s0.jobs[id].stage.Limiting?
    requires id in s0.lim.requests && s0.lim.requests[id].Passed?
    ensures Reached(parse, start, es, s) && s.versions != [] && id in s.jobs && s.cursors == s0.cursors
    ensures s.jobs[id] == s0.jobs[id].(stage := Reading)
    ensures var key := s0.lim.requests[id].key;
            s.lim.entries == s0.lim.entries[key := DequeOf(s0.lim.entries, key) + [RateLimitEntry(r.recordNow, 0)]]
  {
    es, s := WaitUntil(parse, start, es0, s0, r.recordNow);
    Go(parse, start, es, s, Act(id, Record));
    es, s := es + [Act(id, Record)], Next(parse, s, Act(id, Record));
  }

  lemma LimitRun(parse: UrlParser, start: State, es0: seq<Event>, s0: State, id: nat, f: Filtering, body: Body,
                 r: Readings)
    returns (es: seq<Event>, s: State)
    requires Reached(parse, start, es0, s0) && Matches(s0, id, f, body)
    requires f.progress.stage.Admitted? && f.progress.ctx.keyHash.Some? && id !in s0.lim.requests
    requires s0.lim.clock <= r.checkNow <= r.recordNow
    ensures Reached(parse, start, es, s) && Matches(s, id, LimitChecked(f, r), body)
  {
    var key := f.progress.ctx.keyHash.value;
    var config := LimitsFor(r.atLimits, key);
    es, s := ArriveRun(parse, start, es0, s0, id, key, r);
    if config.Some? && !config.value.IsEmpty() {
      es, s := CheckRun(parse, start, es, s, id, config.value, r);
    }
    if s.jobs[id].stage.Limiting? {
      es, s := RecordRun(parse, start, es, s, id, r);
    }
  }

  lemma RouteRun(parse: UrlParser, start: State, es0: seq<Event>, s0: State, id: nat, f: Filtering, body: Body,
                 r: Readings)
    returns (es: seq<Event>, s: State)
    requires Reached(parse, start, es0, s0) && Matches(s0, id, f, body)
    requires f.progress.stage.Reading? && FirstOf(r.atFallback, r.first)
    ensures Reached(parse, start, es, s) && Matches(s, id, Routed(parse, f, body, r), body)
  {
    Go(parse, start, es0, s0, Act(id, ReadBody));
    es, s := es0 + [Act(id, ReadBody)], Next(parse, s0, Act(id, ReadBody));
    if s.jobs[id].stage.Choosing? {
      es, s := SelectRun(parse, start, es, s, id, r);
    }
    if s.jobs[id].stage.Falling? {
      es, s := FallbackRun(parse, start, es, s, id, r);
    }
  }

  lemma SelectRun(parse: UrlParser, start: State, es0: seq<Event>, s0: State, id: nat, r: Readings)
    returns (es: seq<Event>, s: State)
    requires Reached(parse, start, es0, s0) && s0.versions != [] && id in s0.jobs && s0.jobs[id].stage.Choosing?
    ensures Reached(parse, start, es, s) && s.versions != [] && id in s.jobs && s.lim == s0.lim
    ensures var model := s0.jobs[id].stage.model;
            var p := Selected(parse, s0.jobs[id].ctx, r.atRoute, s0.cursors, model);
            && s.jobs[id].ctx == p.ctx && s.jobs[id].stage == p.stage
            && s.jobs[id].body == s0.jobs[id].body && s.jobs[id].logged == s0.jobs[id].logged
            && s.cursors == CursorsAfter(r.atRoute, s0.cursors, model)
  {
    Go(parse, start, es0, s0, Swap(r.atRoute));
    es, s := es0 + [Swap(r.atRoute)], Next(parse, s0, Swap(r.atRoute));
    Go(parse, start, es, s, Act(id, Select));
    es, s := es + [Act(id, Select)], Next(parse, s, Act(id, Select));
  }

  lemma FallbackRun(parse: UrlParser, start: State, es0: seq<Event>, s0: State, id: nat, r: Readings)
    returns (es: seq<Event>, s: State)
    requires Reached(parse, start, es0, s0) && s0.versions != [] && id in s0.jobs && s0.jobs[id].stage.Falling?
    requires FirstOf(r.atFallback, r.first)
    ensures Reached(parse, start, es, s) && s.versions != [] && id in s.jobs
        && s.lim == s0.lim && s.cursors == s0.cursors
    ensures var p := FallenBack(parse, s0.jobs[id].ctx, r.atFallback, r.first);
            && s.jobs[id].ctx == p.ctx && s.jobs[id].stage == p.stage
            && s.jobs[id].body == s0.jobs[id].body && s.jobs[id].logged == s0.jobs[id].logged
  {
    Go(parse, start, es0, s0, Swap(r.atFallback));
    es, s := es0 + [Swap(r.atFallback)], Next(parse, s0, Swap(r.atFallback));
    Go(parse, start, es, s, Act(id, Fallback(r.first)));
    es, s := es + [Act(id, Fallback(r.first))], Next(parse, s, Act(id, Fallback(r.first)));
  }

  /** For any cache versions and clock readings one call may meet, the machine has a run
      that ends with the same context, answer, deques and cursors. */
  lemma FilterIsARun(parse: UrlParser, start: State, id: nat, requestId: u128, front: Front, body: Body, r: Readings)
    returns (es: seq<Event>)
    requires start.versions != [] && id !in start.jobs && id !in start.lim.requests
    requires start.lim.clock <= r.checkNow <= r.recordNow && FirstOf(r.atFallback, r.first)
    ensures CanRun(parse, start, es)
    ensures var f := Filtering(Begun(requestId, front), start.lim.entries, start.cursors);
            Matches(Exec(parse, start, es), id, Filtered(parse, f, body, r), body)
  {
    var f := Filtering(Begun(requestId, front), start.lim.entries, start.cursors);
    var s;
    es, s := FrontRun(parse, start, id, requestId, front, body, r);
    if f.progress.stage.Keyed? {
      var g := f.(progress := LookedUp(f.progress.ctx, r.atKey));
      if g.progress.stage.Admitted? {
        es, s := LimitRun(parse, start, es, s, id, g, body, r);
        var h := LimitChecked(g, r);
        if !h.progress.stage.Answered? {
          es, s := RouteRun(parse, start, es, s, id, h, body, r);
        }
      }
    }
  }
}
