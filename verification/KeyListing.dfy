/** Listing API keys with the policies linked to each. */
module KeyListing {
  import opened Wrappers
  import opened Collections
  import opened RouteSelection
  import opened Schema
  import opened Statements
  import opened Loaders

  datatype JoinedLink = JoinedLink(
    keyId: Id, policyId: Id, enabled: bool, createdAt: nat, modelId: Id, modelName: string, strategy: Strategy)

  datatype KeyPolicy = KeyPolicy(
    policyId: Id, modelId: Id, modelName: string, strategy: Strategy, rules: seq<LimitRule>,
    enabled: bool, routes: seq<PolicyRoute>)

  datatype KeySummary = KeySummary(id: Id, name: string, enabled: bool, policies: seq<KeyPolicy>)

  predicate LinkJoins(s: Store, l: LinkRow) {
    l.policyId in s.policies && s.policies[l.policyId].modelId in s.models
  }

  function JoinLink(s: Store, l: LinkRow): JoinedLink
    requires LinkJoins(s, l)
  {
    var p := s.policies[l.policyId];
    JoinedLink(l.keyId, l.policyId, l.enabled, l.createdAt, p.modelId, s.models[p.modelId].name, p.strategy)
  }

  function JoinLinks(s: Store, links: seq<LinkRow>): seq<JoinedLink> {
    if links == [] then []
    else (if LinkJoins(s, links[0]) then [JoinLink(s, links[0])] else []) + JoinLinks(s, links[1..])
  }

  /** ORDER BY created_at DESC */
  function NewestFirst(): (JoinedLink, JoinedLink) -> bool {
    (a: JoinedLink, b: JoinedLink) => a.createdAt >= b.createdAt
  }

  function QueryLinks(s: Store): seq<JoinedLink> {
    Sort(NewestFirst(), JoinLinks(s, s.links))
  }

  function LinkKey(): JoinedLink -> Id { (l: JoinedLink) => l.keyId }
  function LinkPolicy(): JoinedLink -> Id { (l: JoinedLink) => l.policyId }

  function LinkedPolicy(s: Store): JoinedLink -> KeyPolicy {
    (l: JoinedLink) =>
      KeyPolicy(l.policyId, l.modelId, l.modelName, l.strategy,
                LoadRules(s, l.policyId), l.enabled, LoadRoutes(s, l.policyId))
  }

  function PoliciesOf(s: Store, keyId: Id): seq<KeyPolicy> {
    MapSeq(LinkedPolicy(s), Filter(HasKey(LinkKey(), keyId), QueryLinks(s)))
  }

  function FindLink(links: seq<LinkRow>, keyId: Id, policyId: Id): Option<LinkRow> {
    if links == [] then None
    else if links[0].keyId == keyId && links[0].policyId == policyId then Some(links[0])
    else FindLink(links[1..], keyId, policyId)
  }

  /** The link of one key and policy, read back on its own. */
  function GetKeyPolicy(s: Store, keyId: Id, policyId: Id): Result<KeyPolicy, DbError> {
    var found := FindLink(s.links, keyId, policyId);
    if found.Some? && LinkJoins(s, found.value) then Ok(LinkedPolicy(s)(JoinLink(s, found.value)))
    else Err(RowNotFound)
  }

  method LoadKeyPolicies(s: Store) returns (byKey: map<Id, seq<KeyPolicy>>)
    ensures forall id :: GroupOf(byKey, id) == PoliciesOf(s, id)
  {
    var rows := QueryLinks(s);
    var policyIds := MapSeq(LinkPolicy(), rows);
    var routesByPolicy := LoadRoutesBulk(s, policyIds);
    var rulesByPolicy := LoadRulesBulk(s, policyIds);
    byKey := map[];
    for i := 0 to |rows|
      invariant Grouped(byKey, LinkedPolicy(s), LinkKey(), rows[..i])
    {
      var row := rows[i];
      assert policyIds[i] in policyIds;
      var entry := KeyPolicy(row.policyId, row.modelId, row.modelName, row.strategy,
                             GroupOf(rulesByPolicy, row.policyId), row.enabled, GroupOf(routesByPolicy, row.policyId));
      assert entry == LinkedPolicy(s)(row);
      PushGrouped(byKey, LinkedPolicy(s), LinkKey(), rows, i);
      byKey := Pushed(byKey, row.keyId, entry);
    }
    assert rows[..|rows|] == rows;
    forall id ensures GroupOf(byKey, id) == PoliciesOf(s, id) {
      assert GroupIs(byKey, LinkedPolicy(s), LinkKey(), rows, id);
    }
  }

  /** Each key is listed with exactly its own linked policies; the map entry is
      removed as it is handed out. */
  method ListApiKeys(s: Store, order: seq<Id>) returns (list: seq<KeySummary>)
    requires Enumerates(order, s.keys)
    ensures |list| == |order|
    ensures forall i :: 0 <= i < |order| ==>
              list[i] == KeySummary(order[i], s.keys[order[i]].name, s.keys[order[i]].enabled, PoliciesOf(s, order[i]))
  {
    var policiesByKey := LoadKeyPolicies(s);
    list := [];
    for i := 0 to |order|
      invariant |list| == i
      invariant forall j :: 0 <= j < i ==>
        list[j] == KeySummary(order[j], s.keys[order[j]].name, s.keys[order[j]].enabled, PoliciesOf(s, order[j]))
      invariant forall j :: i <= j < |order| ==> GroupOf(policiesByKey, order[j]) == PoliciesOf(s, order[j])
    {
      var id := order[i];
      assert id in order;
      list := list + [KeySummary(id, s.keys[id].name, s.keys[id].enabled, GroupOf(policiesByKey, id))];
      policiesByKey := policiesByKey - {id};
    }
  }

  lemma {:induction false} JoinLinksLosesNothing(s: Store, links: seq<LinkRow>)
    requires Valid(s) && forall l :: l in links ==> l in s.links
    ensures |JoinLinks(s, links)| == |links|
    ensures forall j :: j in JoinLinks(s, links) <==> exists l :: l in links && LinkJoins(s, l) && j == JoinLink(s, l)
  {
    if links != [] {
      assert links[0] in links;
      JoinLinksLosesNothing(s, links[1..]);
      assert forall l :: l in links <==> l == links[0] || l in links[1..];
    }
  }

  /** In a valid store no link is lost to the joins: over all keys, the listed links
      are as many as the link table has rows. */
  lemma ListedLinksAddUp(s: Store, order: seq<Id>)
    requires Valid(s) && Enumerates(order, s.keys)
    ensures GroupSizes(LinkKey(), order, QueryLinks(s)) == |s.links|
  {
    JoinLinksLosesNothing(s, s.links);
    SortKeepsRows(NewestFirst(), JoinLinks(s, s.links));
    SameSize(QueryLinks(s), JoinLinks(s, s.links));
    forall l | l in QueryLinks(s) ensures LinkKey()(l) in order {
      assert l in multiset(JoinLinks(s, s.links));
      assert l in JoinLinks(s, s.links);
    }
    GroupSizesAddUp(LinkKey(), order, QueryLinks(s));
  }

  lemma {:induction false} FindLinkFinds(links: seq<LinkRow>, l: LinkRow)
    requires LinksUnique(links) && l in links
    ensures FindLink(links, l.keyId, l.policyId) == Some(l)
  {
    if links[0] == l {
    } else {
      var i :| 0 <= i < |links| && links[i] == l;
      assert !SameLink(links[0], links[i]);
      assert links[1..][i - 1] == l;
      FindLinkFinds(links[1..], l);
    }
  }

  /** The joined rows of one key are exactly its link rows, joined. */
  lemma LinksOfKey(s: Store, keyId: Id, j: JoinedLink)
    requires Valid(s)
    ensures j in Filter(HasKey(LinkKey(), keyId), QueryLinks(s))
            <==> j.keyId == keyId && exists l :: l in s.links && LinkJoins(s, l) && j == JoinLink(s, l)
  {
    JoinLinksLosesNothing(s, s.links);
    SortKeepsRows(NewestFirst(), JoinLinks(s, s.links));
    FilterMembers(HasKey(LinkKey(), keyId), QueryLinks(s));
    assert j in QueryLinks(s) <==> j in multiset(QueryLinks(s));
    assert j in JoinLinks(s, s.links) <==> j in multiset(JoinLinks(s, s.links));
  }

  /** Every listed entry is a link of the table, and is what reading that one link
      back returns. */
  lemma ListedEntryIsLink(s: Store, keyId: Id, i: nat)
    requires Valid(s) && i < |PoliciesOf(s, keyId)|
    ensures var e := PoliciesOf(s, keyId)[i];
            && GetKeyPolicy(s, keyId, e.policyId) == Ok(e)
            && exists l :: l in s.links && l.keyId == keyId && l.policyId == e.policyId && l.enabled == e.enabled
  {
    var mine := Filter(HasKey(LinkKey(), keyId), QueryLinks(s));
    assert mine[i] in mine;
    LinksOfKey(s, keyId, mine[i]);
    var l :| l in s.links && LinkJoins(s, l) && mine[i] == JoinLink(s, l);
    FindLinkFinds(s.links, l);
  }

  /** Every link of the table is listed under its key. */
  lemma LinkIsListed(s: Store, l: LinkRow)
    requires Valid(s) && l in s.links
    ensures exists e :: e in PoliciesOf(s, l.keyId) && e.policyId == l.policyId && e.enabled == l.enabled
  {
    var mine := Filter(HasKey(LinkKey(), l.keyId), QueryLinks(s));
    LinksOfKey(s, l.keyId, JoinLink(s, l));
    var i :| 0 <= i < |mine| && mine[i] == JoinLink(s, l);
    assert PoliciesOf(s, l.keyId)[i] in PoliciesOf(s, l.keyId);
  }

  // ---- A key's list, said of the tables alone ----

  function LinkOf(keyId: Id): LinkRow -> bool { (l: LinkRow) => l.keyId == keyId }

  predicate LinkJoinsTo(s: Store, l: LinkRow, j: JoinedLink) {
    LinkJoins(s, l) && j == JoinLink(s, l)
  }

  lemma {:induction false} LinksJoined(s: Store, links: seq<LinkRow>)
    requires Valid(s) && forall l :: l in links ==> l in s.links
    ensures |JoinLinks(s, links)| == |links|
    ensures forall i :: 0 <= i < |links| ==> LinkJoinsTo(s, links[i], JoinLinks(s, links)[i])
  {
    if links != [] {
      assert links[0] in links;
      LinksJoined(s, links[1..]);
    }
  }

  lemma {:induction false} JoinedOfKey(s: Store, links: seq<LinkRow>, keyId: Id)
    ensures Filter(HasKey(LinkKey(), keyId), JoinLinks(s, links)) == JoinLinks(s, Filter(LinkOf(keyId), links))
  {
    if links != [] {
      JoinedOfKey(s, links[1..], keyId);
      var l, rest := links[0], Filter(LinkOf(keyId), links[1..]);
      FilterHead(LinkOf(keyId), links);
      assert ([l] + rest)[1..] == rest;
      if LinkJoins(s, l) {
        FilterCons(HasKey(LinkKey(), keyId), JoinLink(s, l), JoinLinks(s, links[1..]));
      } else {
        assert JoinLinks(s, links) == JoinLinks(s, links[1..]);
      }
    }
  }

  lemma NewestFirstIsTotal()
    ensures TotalPreorder(NewestFirst())
  {
  }

  lemma LinksQueried(s: Store, keyId: Id) returns (links: seq<LinkRow>)
    requires Valid(s)
    ensures var mine := Filter(HasKey(LinkKey(), keyId), QueryLinks(s));
            && multiset(links) == multiset(Filter(LinkOf(keyId), s.links)) && |links| == |mine|
            && (forall i :: 0 <= i < |links| ==> LinkJoinsTo(s, links[i], mine[i]))
            && Sorted(NewestFirst(), mine)
  {
    var rows := Filter(LinkOf(keyId), s.links);
    FilterMembers(LinkOf(keyId), s.links);
    NewestFirstIsTotal();
    FilterSort(NewestFirst(), HasKey(LinkKey(), keyId), JoinLinks(s, s.links));
    JoinedOfKey(s, s.links, keyId);
    LinksJoined(s, rows);
    var joined := JoinLinks(s, rows);
    var mine := Sort(NewestFirst(), joined);
    SortKeepsRows(NewestFirst(), joined);
    SortIsSorted(NewestFirst(), joined);
    links := Reordered(mine, joined, rows);
    forall i | 0 <= i < |links| ensures LinkJoinsTo(s, links[i], mine[i]) {
      LinkPairJoins(s, rows, joined, links[i], mine[i]);
    }
  }

  lemma LinkPairJoins(s: Store, rows: seq<LinkRow>, joined: seq<JoinedLink>, l: LinkRow, j: JoinedLink)
    requires |joined| == |rows| && Paired(j, l, joined, rows)
    requires forall k :: 0 <= k < |rows| ==> LinkJoinsTo(s, rows[k], joined[k])
    ensures LinkJoinsTo(s, l, j)
  {
  }

  /** The link's own flag, and its policy as reading that policy returns it. */
  predicate EntryReads(s: Store, l: LinkRow, e: KeyPolicy) {
    && e.policyId == l.policyId && e.enabled == l.enabled
    && var policy := GetMappingPolicy(s, l.policyId);
       && policy.Ok?
       && e.modelId == policy.value.modelId && e.modelName == policy.value.modelName
       && e.strategy == policy.value.strategy
       && e.rules == policy.value.rules && e.routes == policy.value.routes
  }

  /** In a valid store a key's list is its links, each once, newest first, every entry as
      its link and its policy say. */
  lemma KeyListsItsLinks(s: Store, keyId: Id) returns (links: seq<LinkRow>)
    requires Valid(s)
    ensures forall l :: multiset(links)[l] == if l.keyId == keyId then multiset(s.links)[l] else 0
    ensures |links| == |PoliciesOf(s, keyId)|
    ensures forall i :: 0 <= i < |links| ==> EntryReads(s, links[i], PoliciesOf(s, keyId)[i])
    ensures forall i, j :: 0 <= i < j < |links| ==> links[i].createdAt >= links[j].createdAt
  {
    links := LinksQueried(s, keyId);
    var mine := Filter(HasKey(LinkKey(), keyId), QueryLinks(s));
    forall i, j | 0 <= i < j < |links| ensures links[i].createdAt >= links[j].createdAt {
      assert NewestFirst()(mine[i], mine[j]);
      assert LinkJoinsTo(s, links[i], mine[i]) && LinkJoinsTo(s, links[j], mine[j]);
    }
    forall l: LinkRow ensures multiset(links)[l] == if l.keyId == keyId then multiset(s.links)[l] else 0 {
      FilterCounts(LinkOf(keyId), s.links, l);
    }
    forall i | 0 <= i < |links| ensures EntryReads(s, links[i], PoliciesOf(s, keyId)[i]) {
      assert LinkJoinsTo(s, links[i], mine[i]);
    }
  }
}
