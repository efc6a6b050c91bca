/** How evenly the round-robin cursor and the weighted dice spread requests. */
module RouteFairness {
  import opened MachineInts
  import opened Collections
  import opened PeriodicCount
  import opened RouteSelection

  // ---- Weighted dice ----

  /** The roll of a request id lands on route i. */
  function LandsOn(routes: seq<RouteCandidate>, i: nat): int -> bool
    requires routes != []
  {
    TotalPositive(routes);
    (x: int) => Landing(routes, 0, x % Total(routes)) == i
  }

  lemma LandsOnIff(routes: seq<RouteCandidate>, i: nat, x: nat)
    requires i < |routes| && x < Total(routes)
    ensures LandsOn(routes, i)(x) <==> Total(routes[..i]) <= x < Total(routes[..i + 1])
  {
    TotalPositive(routes);
    DivModUnique(x, Total(routes), 0, x);
    LandingOwnsPick(routes, 0, x);
    var j := Landing(routes, 0, x);
    if j < i {
      TotalGrows(routes, j + 1, i);
    } else if i < j {
      TotalGrows(routes, i + 1, j);
    }
  }

  /** Over one full cycle of dice values route i is chosen exactly max(weight, 1) times. */
  lemma WeightedCycleIsExact(routes: seq<RouteCandidate>, i: nat)
    requires i < |routes|
    ensures Count(LandsOn(routes, i), 0, Total(routes)) == if routes[i].weight == 0 then 1 else routes[i].weight
  {
    assert routes[..|routes|] == routes;
    TotalGrows(routes, 0, i);
    TotalStep(routes, i);
    TotalGrows(routes, i + 1, |routes|);
    forall x | 0 <= x < Total(routes)
      ensures LandsOn(routes, i)(x) <==> Total(routes[..i]) <= x < Total(routes[..i + 1])
    {
      LandsOnIff(routes, i, x);
    }
    CountInterval(LandsOn(routes, i), Total(routes), Total(routes[..i]), Total(routes[..i + 1]));
  }

  /** Among any n consecutive request ids route i gets its share of every full
      cycle and at most one share more. */
  lemma WeightedShareOfConsecutiveIds(routes: seq<RouteCandidate>, i: nat, first: nat, n: nat)
    requires i < |routes|
    ensures Total(routes) > 0
    ensures var w, cycles := if routes[i].weight == 0 then 1 else routes[i].weight, n / Total(routes);
            cycles * w <= Count(LandsOn(routes, i), first, n) <= (cycles + 1) * w
  {
    TotalPositive(routes);
    WeightedCycleIsExact(routes, i);
    forall x | x >= 0 ensures LandsOn(routes, i)(x + Total(routes)) == LandsOn(routes, i)(x) {
      ModShift(x, Total(routes));
    }
    PeriodicShare(LandsOn(routes, i), Total(routes), Share(routes[i]), first, n);
  }

  // ---- Round robin under interleaving ----

  /** One call of `select_route`; the target is whatever the cache held then. */
  datatype Selection = Selection(model: string, target: ModelTarget, requestId: u128)

  /** A round-robin choice made for the model: the index chosen, the cursor it was
      chosen by, and the number of routes it was chosen among. */
  datatype Turn = Turn(index: nat, cursor: u64, among: nat)

  predicate TakesTurn(e: Selection, model: string) {
    e.model == model && e.target.routes != [] && e.target.strategy.RoundRobin?
  }

  function AdvancedAll(counters: map<string, u64>, es: seq<Selection>): map<string, u64>
    decreases |es|
  {
    if es == [] then counters
    else AdvancedAll(Advanced(counters, es[0].model, es[0].target), es[1..])
  }

  /** The round-robin choices for one model, in order, in a run that mixes models,
      strategies and cache versions freely. */
  function Turns(counters: map<string, u64>, es: seq<Selection>, model: string): seq<Turn>
    decreases |es|
  {
    if es == [] then []
    else
      var e := es[0];
      (if TakesTurn(e, model)
       then [Turn(ChoiceIndex(counters, model, e.target, e.requestId), Cursor(counters, model), |e.target.routes|)]
       else [])
      + Turns(Advanced(counters, e.model, e.target), es[1..], model)
  }

  /** A cursor advanced j times. */
  function Stepped(cursor: u64, j: nat): u64
    decreases j
  {
    if j == 0 then cursor else Stepped((cursor + 1) % TWO_64, j - 1)
  }

  lemma {:induction false} SteppedWraps(cursor: u64, j: nat)
    ensures Stepped(cursor, j) == (cursor + j) % TWO_64
    decreases j
  {
    if j == 0 {
      DivModUnique(cursor, TWO_64, 0, cursor);
    } else {
      SteppedWraps((cursor + 1) % TWO_64, j - 1);
      WrapAdd(cursor + 1, j - 1, TWO_64);
    }
  }

  /** The cursor of turn j is the one the model started with, advanced j times: no
      other model, strategy or cache refresh in between changes it. */
  lemma {:induction false} TurnsFollowCursor(counters: map<string, u64>, es: seq<Selection>, model: string)
    ensures var c, turns := Cursor(counters, model), Turns(counters, es, model);
            && Cursor(AdvancedAll(counters, es), model) == Stepped(c, |turns|)
            && forall j :: 0 <= j < |turns| ==> turns[j].cursor == Stepped(c, j)
    decreases |es|
  {
    if es != [] {
      var next := Advanced(counters, es[0].model, es[0].target);
      TurnsFollowCursor(next, es[1..], model);
      assert Cursor(next, model) ==
        if TakesTurn(es[0], model) then (Cursor(counters, model) + 1) % TWO_64 else Cursor(counters, model);
    }
  }

  /** Each turn picks the cursor modulo the route count of its moment: always in
      range, also after the count has changed. */
  lemma {:induction false} TurnsAreInRange(counters: map<string, u64>, es: seq<Selection>, model: string)
    ensures forall t :: t in Turns(counters, es, model) ==>
              t.among > 0 && t.index == t.cursor % t.among && t.index < t.among
    decreases |es|
  {
    if es != [] {
      TurnsAreInRange(Advanced(counters, es[0].model, es[0].target), es[1..], model);
    }
  }

  /** The wrapped cursor value x picks index i out of n. */
  function PicksIndex(n: nat, i: nat): int -> bool
    requires n > 0
  {
    (x: int) => (x % TWO_64) % n == i
  }

  function TurnAt(i: nat): Turn -> bool {
    (t: Turn) => t.index == i
  }

  lemma {:induction false} TurnsCounted(turns: seq<Turn>, cursor: nat, n: nat, i: nat)
    requires n > 0
    requires forall j :: 0 <= j < |turns| ==> turns[j].index == turns[j].cursor % n
    requires forall j :: 0 <= j < |turns| ==> turns[j].cursor == (cursor + j) % TWO_64
    ensures |Filter(TurnAt(i), turns)| == Count(PicksIndex(n, i), cursor, |turns|)
  {
    if turns != [] {
      var m := |turns| - 1;
      TurnsCounted(turns[..m], cursor, n, i);
      FilterAppend(TurnAt(i), turns[..m], [turns[m]]);
      assert turns == turns[..m] + [turns[m]];
      assert Filter(TurnAt(i), [turns[m]]) == if turns[m].index == i then [turns[m]] else [];
    }
  }

  /** Every index floor(m / n) or ceil(m / n) times. */
  predicate EvenlySpread(hits: nat, m: nat, n: nat)
    requires n > 0
  {
    m / n <= hits <= m / n + (if m % n == 0 then 0 else 1)
  }

  function Residue(n: nat, i: nat): int -> bool
    requires n > 0
  {
    (x: int) => x % n == i
  }

  lemma ResidueShare(n: nat, i: nat, c: nat, m: nat)
    requires 0 <= i < n
    ensures EvenlySpread(Count(Residue(n, i), c, m), m, n)
  {
    forall x | 0 <= x < n ensures Residue(n, i)(x) <==> i <= x < i + 1 {
      DivModUnique(x, n, 0, x);
    }
    CountInterval(Residue(n, i), n, i, i + 1);
    forall x | x >= 0 ensures Residue(n, i)(x + n) == Residue(n, i)(x) {
      ModShift(x, n);
    }
    PeriodicShare(Residue(n, i), n, 1, c, m);
  }

  /** The cursor stays below 2^64 for these m choices, or n divides 2^64. */
  lemma CursorShare(n: nat, i: nat, c: u64, m: nat)
    requires 0 <= i < n
    requires c + m <= TWO_64 || TWO_64 % n == 0
    ensures EvenlySpread(Count(PicksIndex(n, i), c, m), m, n)
  {
    forall x | c <= x < c + m ensures PicksIndex(n, i)(x) == Residue(n, i)(x) {
      if TWO_64 % n == 0 {
        ModMod(x, TWO_64, n);
      } else {
        DivModUnique(x, TWO_64, 0, x);
      }
    }
    CountSame(PicksIndex(n, i), Residue(n, i), c, m);
    ResidueShare(n, i, c, m);
  }

  /** The hits of an index are counted by the cursor values of the turns. */
  lemma TurnsHit(counters: map<string, u64>, es: seq<Selection>, model: string, n: nat, i: nat)
    requires n > 0 && forall t :: t in Turns(counters, es, model) ==> t.among == n
    ensures var turns := Turns(counters, es, model);
            |Filter(TurnAt(i), turns)| == Count(PicksIndex(n, i), Cursor(counters, model), |turns|)
  {
    var turns := Turns(counters, es, model);
    TurnsAreInRange(counters, es, model);
    var c := Cursor(counters, model);
    forall j | 0 <= j < |turns|
      ensures turns[j].cursor == (c + j) % TWO_64 && turns[j].index == turns[j].cursor % n
    {
      TurnsFollowCursor(counters, es, model);
      SteppedWraps(c, j);
      assert turns[j] in turns;
    }
    TurnsCounted(turns, c, n, i);
  }

  /** Round robin is fair under any interleaving of models and cache refreshes:
      over the m turns of a model while its route count stays n, every index comes
      up floor(m / n) or ceil(m / n) times, as long as the 64-bit cursor does not
      wrap in between or n divides 2^64. */
  lemma RoundRobinIsFair(counters: map<string, u64>, es: seq<Selection>, model: string, n: nat, i: nat)
    requires 0 <= i < n
    requires forall t :: t in Turns(counters, es, model) ==> t.among == n
    requires Cursor(counters, model) + |Turns(counters, es, model)| <= TWO_64 || TWO_64 % n == 0
    ensures var turns := Turns(counters, es, model);
            EvenlySpread(|Filter(TurnAt(i), turns)|, |turns|, n)
  {
    TurnsHit(counters, es, model, n, i);
    CursorShare(n, i, Cursor(counters, model), |Turns(counters, es, model)|);
  }

  /** After any choices since the start, any further turns among n routes are even. */
  ghost predicate AlwaysFair(n: nat)
    requires n > 0
  {
    forall before, es, model, i: nat :: i < n && AllAmong(before, es, model, n) ==>
      EvenlySpread(|Filter(TurnAt(i), Later(before, es, model))|, |Later(before, es, model)|, n)
  }

  /** The model's turns in `es`, when the selector has made the choices `before`. */
  function Later(before: seq<Selection>, es: seq<Selection>, model: string): seq<Turn> {
    Turns(AdvancedAll(map[], before), es, model)
  }

  predicate AllAmong(before: seq<Selection>, es: seq<Selection>, model: string, n: nat) {
    forall t :: t in Later(before, es, model) ==> t.among == n
  }

  /** Over runs of any length, across wraps of the cursor, round robin is fair exactly for
      the route counts that divide 2^64. */
  lemma FairAcrossWrapIff(n: nat)
    requires n > 0
    ensures AlwaysFair(n) <==> TWO_64 % n == 0
  {
    if TWO_64 % n == 0 {
      forall before, es, model, i: nat | i < n && AllAmong(before, es, model, n)
        ensures EvenlySpread(|Filter(TurnAt(i), Later(before, es, model))|, |Later(before, es, model)|, n)
      {
        RoundRobinIsFair(AdvancedAll(map[], before), es, model, n, i);
      }
    } else {
      var before, es := UnfairAtWrap(n, "m");
    }
  }

  function Repeated(e: Selection, m: nat): seq<Selection> {
    if m == 0 then [] else [e] + Repeated(e, m - 1)
  }

  lemma {:induction false} RepeatedTurns(counters: map<string, u64>, e: Selection, m: nat)
    requires TakesTurn(e, e.model)
    ensures var turns := Turns(counters, Repeated(e, m), e.model);
            |turns| == m && forall t :: t in turns ==> t.among == |e.target.routes|
    decreases m
  {
    if m > 0 {
      assert Repeated(e, m)[1..] == Repeated(e, m - 1);
      RepeatedTurns(Advanced(counters, e.model, e.target), e, m - 1);
    }
  }

  /** A run of 2^64 + 1 choices among n routes, n no divisor of 2^64: its last
      2^64 mod n + 1 turns, no more than n, hit index 0 twice. */
  lemma UnfairAtWrap(n: nat, model: string) returns (before: seq<Selection>, es: seq<Selection>)
    requires n > 0 && TWO_64 % n != 0
    ensures AllAmong(before, es, model, n)
    ensures |Later(before, es, model)| <= n && |Filter(TurnAt(0), Later(before, es, model))| >= 2
    ensures !EvenlySpread(|Filter(TurnAt(0), Later(before, es, model))|, |Later(before, es, model)|, n)
  {
    var route := RouteCandidate("", 1, 0, ProviderInfo("", "", "", ""));
    var e := Selection(model, ModelTarget(RoundRobin, seq(n, _ => route)), 0);
    var r := TWO_64 % n;
    var c: u64 := TWO_64 - r;
    before, es := Repeated(e, c), Repeated(e, r + 1);
    var counters := AdvancedAll(map[], before);
    RepeatedTurns(map[], e, c);
    TurnsFollowCursor(map[], before, model);
    SteppedWraps(0, c);
    DivModUnique(c, TWO_64, 0, c);
    assert Cursor(counters, model) == c;
    RepeatedTurns(counters, e, r + 1);
    TurnsHit(counters, es, model, n, 0);
    StartsAndWrapsAtZero(n);
    TwoHits(PicksIndex(n, 0), c, r);
    SmallQuotient(r + 1, n);
  }

  lemma StartsAndWrapsAtZero(n: nat)
    requires n > 0 && TWO_64 % n != 0
    ensures PicksIndex(n, 0)(TWO_64 - TWO_64 % n) && PicksIndex(n, 0)(TWO_64)
  {
    WrapsToMultiple(TWO_64, n);
  }

  lemma SmallQuotient(m: nat, n: nat)
    requires 0 < m <= n
    ensures m / n + (if m % n == 0 then 0 else 1) == 1
  {
    if m < n {
      DivModUnique(m, n, 0, m);
    } else {
      DivModUnique(n, n, 1, 0);
    }
  }

  lemma TwoHits(p: int -> bool, c: nat, r: nat)
    requires r > 0 && p(c) && p(c + r)
    ensures Count(p, c, r + 1) >= 2
  {
    CountSplit(p, c, 1, r);
    CountSplit(p, c + 1, r - 1, 1);
  }
}
