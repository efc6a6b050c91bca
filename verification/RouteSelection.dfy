/** Choosing one upstream route for a model: by priority, by a round-robin cursor
    per model, or by weight with the request id as the dice roll. */
module RouteSelection {
  import opened Wrappers
  import opened MachineInts

  datatype Strategy = Weighted | Priority | RoundRobin

  datatype ProviderInfo = ProviderInfo(id: string, name: string, baseUrl: string, key: string)

  datatype RouteCandidate = RouteCandidate(
    providerModelName: string, weight: u32, priority: u32, provider: ProviderInfo)

  datatype ModelTarget = ModelTarget(strategy: Strategy, routes: seq<RouteCandidate>)

  /** `weight.max(1)` */
  function Share(route: RouteCandidate): (w: u32)
    ensures w >= 1
  {
    if route.weight < 1 then 1 else route.weight
  }

  /** Sum of the shares. */
  function Total(routes: seq<RouteCandidate>): nat {
    if routes == [] then 0 else Total(routes[..|routes| - 1]) + Share(routes[|routes| - 1])
  }

  /** Where the dice loop stops: the first route whose share is not used up. */
  function Landing(routes: seq<RouteCandidate>, from: nat, pick: nat): nat
    requires from <= |routes|
    decreases |routes| - from
  {
    if from == |routes| then 0
    else if pick < Share(routes[from]) then from
    else Landing(routes, from + 1, pick - Share(routes[from]))
  }

  function Cursor(counters: map<string, u64>, model: string): u64 {
    if model in counters then counters[model] else 0
  }

  function ChoiceIndex(counters: map<string, u64>, model: string, target: ModelTarget, requestId: u128): nat
    requires target.routes != []
  {
    match target.strategy
    case Priority => 0
    case RoundRobin => Cursor(counters, model) % |target.routes|
    case Weighted =>
      TotalPositive(target.routes);
      Landing(target.routes, 0, requestId % Total(target.routes))
  }

  /** The cursors after a choice; the u64 cursor wraps. */
  function Advanced(counters: map<string, u64>, model: string, target: ModelTarget): map<string, u64> {
    if target.routes != [] && target.strategy.RoundRobin? then
      counters[model := (Cursor(counters, model) + 1) % TWO_64]
    else counters
  }

  lemma {:induction false} TotalGrows(routes: seq<RouteCandidate>, i: nat, j: nat)
    requires i <= j <= |routes|
    ensures Total(routes[..i]) + (j - i) <= Total(routes[..j])
    decreases j
  {
    if i < j {
      TotalGrows(routes, i, j - 1);
      assert routes[..j][..j - 1] == routes[..j - 1];
    }
  }

  lemma TotalPositive(routes: seq<RouteCandidate>)
    requires routes != []
    ensures Total(routes) > 0
  {
    TotalGrows(routes, 0, |routes|);
    assert routes[..|routes|] == routes;
  }

  lemma TotalStep(routes: seq<RouteCandidate>, i: nat)
    requires i < |routes|
    ensures Total(routes[..i + 1]) == Total(routes[..i]) + Share(routes[i])
  {
    assert routes[..i + 1][..i] == routes[..i];
  }

  /** The total of a join is the sum of the totals, and of one route max(weight, 1). */
  lemma {:induction false} SharesAddUp(a: seq<RouteCandidate>, b: seq<RouteCandidate>)
    ensures Total(a + b) == Total(a) + Total(b)
    ensures forall r :: Total([r]) == if r.weight == 0 then 1 else r.weight
  {
    if b == [] {
      assert a + b == a;
    } else {
      SharesAddUp(a, b[..|b| - 1]);
      assert (a + b)[..|a + b| - 1] == a + b[..|b| - 1];
    }
  }

  /** With fewer than 2^32 routes the u64 sum of the shares cannot overflow. */
  lemma {:induction false} TotalFitsU64(routes: seq<RouteCandidate>)
    ensures Total(routes) <= |routes| * (TWO_32 - 1)
    ensures |routes| <= TWO_32 ==> Total(routes) < TWO_64
  {
    if routes != [] {
      TotalFitsU64(routes[..|routes| - 1]);
    }
  }

  /** The dice loop stops at the one route whose slice of [0, total) holds the pick,
      so it always breaks and `pick - w` never goes below zero. */
  lemma {:induction false} LandingOwnsPick(routes: seq<RouteCandidate>, from: nat, pick: nat)
    requires from <= |routes| && Total(routes[..from]) + pick < Total(routes)
    ensures var i := Landing(routes, from, pick);
            && from <= i < |routes|
            && Total(routes[..i]) <= Total(routes[..from]) + pick < Total(routes[..i + 1])
    decreases |routes| - from
  {
    assert routes[..|routes|] == routes;
    if from < |routes| {
      TotalStep(routes, from);
      if pick >= Share(routes[from]) {
        LandingOwnsPick(routes, from + 1, pick - Share(routes[from]));
      }
    }
  }

  /** Every choice is one of the target's routes. */
  lemma ChoiceInRange(counters: map<string, u64>, model: string, target: ModelTarget, requestId: u128)
    requires target.routes != []
    ensures ChoiceIndex(counters, model, target, requestId) < |target.routes|
  {
    if target.strategy.Weighted? {
      TotalPositive(target.routes);
      LandingOwnsPick(target.routes, 0, requestId % Total(target.routes));
    }
  }

  class RouteSelector {
    var rrCounters: map<string, u64>

    constructor ()
      ensures rrCounters == map[]
    {
      rrCounters := map[];
    }

    method SelectRoute(model: string, target: ModelTarget, requestId: u128)
      returns (chosen: Option<RouteCandidate>)
      modifies this
      ensures rrCounters == Advanced(old(rrCounters), model, target)
      ensures chosen.None? <==> target.routes == []
      ensures target.routes != [] && target.strategy.Priority? ==> chosen == Some(target.routes[0])
      ensures target.routes != [] && target.strategy.RoundRobin? ==>
        var cursor := if model in old(rrCounters) then old(rrCounters)[model] else 0;
        && chosen == Some(target.routes[cursor % |target.routes|])
        && rrCounters == old(rrCounters)[model := (cursor + 1) % TWO_64]
      ensures target.routes == [] || !target.strategy.RoundRobin? ==> rrCounters == old(rrCounters)
      ensures target.routes != [] ==>
        && ChoiceIndex(old(rrCounters), model, target, requestId) < |target.routes|
        && chosen == Some(target.routes[ChoiceIndex(old(rrCounters), model, target, requestId)])
      ensures target.routes != [] && target.strategy.Weighted? ==>
        exists i :: 0 <= i < |target.routes| && chosen == Some(target.routes[i])
          && Total(target.routes[..i]) <= requestId % Total(target.routes) < Total(target.routes[..i + 1])
    {
      if target.routes == [] {
        return None;
      }
      match target.strategy {
        case Priority =>
          return Some(target.routes[0]);
        case RoundRobin =>
          var cursor := Cursor(rrCounters, model);
          var idx := cursor % |target.routes|;
          rrCounters := rrCounters[model := (cursor + 1) % TWO_64];
          return Some(target.routes[idx]);
        case Weighted =>
          var routes := target.routes;
          var total := 0;
          for i := 0 to |routes|
            invariant total == Total(routes[..i])
            invariant rrCounters == old(rrCounters)
          {
            TotalStep(routes, i);
            total := total + Share(routes[i]);
          }
          assert routes[..|routes|] == routes;
          TotalPositive(routes);
          var pick: nat := requestId % total;
          var selected := routes[0];
          ghost var landed := 0;
          LandingOwnsPick(routes, 0, pick);
          for i := 0 to |routes|
            invariant Landing(routes, i, pick) == Landing(routes, 0, requestId % total)
            invariant selected == routes[0] && landed == 0
            invariant rrCounters == old(rrCounters)
          {
            var w := Share(routes[i]);
            if pick < w {
              selected := routes[i];
              landed := i;
              break;
            }
            pick := pick - w;
          }
          assert landed == Landing(routes, 0, requestId % total);
          return Some(selected);
      }
    }
  }
}
