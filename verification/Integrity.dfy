/** Every statement keeps every constraint of the store. */
module Integrity {
  import opened Wrappers
  import opened MachineInts
  import opened Collections
  import opened RouteSelection
  import opened Schema
  import opened Statements

  // ---- Entities ----

  lemma InsertModelValid(s: Store, id: Id, row: ModelRow)
    requires Valid(s) && InsertModel(s, id, row).Ok?
    ensures Valid(InsertModel(s, id, row).value)
  {
  }

  lemma UpdateModelValid(s: Store, id: Id, row: ModelRow)
    requires Valid(s) && UpdateModel(s, id, row).Ok?
    ensures Valid(UpdateModel(s, id, row).value)
  {
  }

  lemma InsertProviderValid(s: Store, id: Id, row: ProviderRow)
    requires Valid(s) && InsertProvider(s, id, row).Ok?
    ensures Valid(InsertProvider(s, id, row).value)
  {
  }

  lemma UpdateProviderValid(s: Store, id: Id, name: string, baseUrl: string, key: Option<string>)
    requires Valid(s) && UpdateProvider(s, id, name, baseUrl, key).Ok?
    ensures Valid(UpdateProvider(s, id, name, baseUrl, key).value)
  {
  }

  lemma UpsertProviderModelValid(s: Store, id: Id, row: ProviderModelRow)
    requires Valid(s) && UpsertProviderModel(s, id, row).Ok?
    ensures Valid(UpsertProviderModel(s, id, row).value)
  {
  }

  lemma InsertKeyValid(s: Store, id: Id, row: KeyRow)
    requires Valid(s) && InsertKey(s, id, row).Ok?
    ensures Valid(InsertKey(s, id, row).value)
  {
  }

  lemma UpdateKeyValid(s: Store, id: Id, name: string, enabled: bool)
    requires Valid(s) && UpdateKey(s, id, name, enabled).Ok?
    ensures Valid(UpdateKey(s, id, name, enabled).value)
  {
  }

  lemma RotateKeyValid(s: Store, id: Id, hash: string)
    requires Valid(s) && RotateKey(s, id, hash).Ok?
    ensures Valid(RotateKey(s, id, hash).value)
  {
  }

  lemma InsertPolicyValid(s: Store, id: Id, row: PolicyRow)
    requires Valid(s) && InsertPolicy(s, id, row).Ok?
    ensures Valid(InsertPolicy(s, id, row).value)
  {
  }

  lemma UpdatePolicyValid(s: Store, id: Id, strategy: Option<Strategy>, enabled: Option<bool>)
    requires Valid(s)
    ensures Valid(UpdatePolicy(s, id, strategy, enabled))
  {
  }

  // ---- Sequences of rows ----

  lemma {:induction false} PutRouteMembers(routes: seq<RouteRow>, row: RouteRow)
    ensures forall r :: r in PutRoute(routes, row) ==>
              r in routes || r == row ||
                (exists o :: o in routes && SameRoute(o, row) && r == row.(createdAt := o.createdAt))
    ensures forall r :: r in PutRoute(routes, row) ==> SameRoute(r, row) || r in routes
    ensures HasRoute(PutRoute(routes, row), row)
  {
    if routes == [] {
      assert row in [row] && SameRoute(row, row);
    } else if SameRoute(routes[0], row) {
      assert PutRoute(routes, row)[0] in PutRoute(routes, row);
    } else {
      PutRouteMembers(routes[1..], row);
      var rest := PutRoute(routes[1..], row);
      var r :| r in rest && SameRoute(r, row);
      assert r in PutRoute(routes, row);
    }
  }

  lemma {:induction false} PutRouteUnique(routes: seq<RouteRow>, row: RouteRow)
    requires RoutesUnique(routes)
    ensures RoutesUnique(PutRoute(routes, row))
  {
    if routes != [] && !SameRoute(routes[0], row) {
      PutRouteUnique(routes[1..], row);
      PutRouteMembers(routes[1..], row);
      var rest := PutRoute(routes[1..], row);
      forall r | r in rest ensures !SameRoute(routes[0], r) {
        if r in routes[1..] {
          var i :| 0 <= i < |routes| - 1 && routes[1..][i] == r;
          assert routes[i + 1] == r;
        }
      }
      assert forall j :: 0 <= j < |rest| ==> rest[j] in rest;
    }
  }

  lemma UpsertRouteValid(s: Store, row: RouteRow)
    requires Valid(s) && UpsertRoute(s, row).Ok?
    ensures Valid(UpsertRoute(s, row).value)
  {
    PutRouteUnique(s.routes, row);
    PutRouteMembers(s.routes, row);
    NewRouteAppended(s.routes, row);
    assert HasRoute(s.routes, row) ==> RouteLinked(row, s.policies, s.providerModels);
  }

  lemma {:induction false} NewRouteAppended(routes: seq<RouteRow>, row: RouteRow)
    ensures !HasRoute(routes, row) ==> PutRoute(routes, row) == routes + [row]
  {
    if routes != [] && !HasRoute(routes, row) {
      assert routes[0] in routes;
      assert forall r :: r in routes[1..] ==> r in routes;
      NewRouteAppended(routes[1..], row);
    }
  }

  lemma InsertRouteValid(s: Store, row: RouteRow)
    requires Valid(s) && InsertRoute(s, row).Ok?
    ensures Valid(InsertRoute(s, row).value)
  {
    assert forall r :: r in s.routes ==> !SameRoute(r, row);
    assert forall i :: 0 <= i < |s.routes| ==> s.routes[i] in s.routes;
  }

  lemma {:induction false} PutRuleMembers(rules: seq<RuleRow>, row: RuleRow)
    ensures forall r :: r in PutRule(rules, row) ==> r in rules || (SameRule(r, row) && r.value == row.value)
    ensures HasRule(PutRule(rules, row), row)
  {
    if rules == [] {
      assert row in [row] && SameRule(row, row);
    } else if SameRule(rules[0], row) {
      assert PutRule(rules, row)[0] in PutRule(rules, row);
    } else {
      PutRuleMembers(rules[1..], row);
      var rest := PutRule(rules[1..], row);
      var r :| r in rest && SameRule(r, row);
      assert r in PutRule(rules, row);
    }
  }

  lemma {:induction false} PutRuleUnique(rules: seq<RuleRow>, row: RuleRow)
    requires RulesUnique(rules)
    ensures RulesUnique(PutRule(rules, row))
  {
    if rules != [] && !SameRule(rules[0], row) {
      PutRuleUnique(rules[1..], row);
      PutRuleMembers(rules[1..], row);
      var rest := PutRule(rules[1..], row);
      forall r | r in rest ensures !SameRule(rules[0], r) {
        if r in rules[1..] {
          var i :| 0 <= i < |rules| - 1 && rules[1..][i] == r;
          assert rules[i + 1] == r;
        }
      }
      assert forall j :: 0 <= j < |rest| ==> rest[j] in rest;
    }
  }

  lemma {:induction false} NewRuleAppended(rules: seq<RuleRow>, row: RuleRow)
    ensures !HasRule(rules, row) ==> PutRule(rules, row) == rules + [row]
  {
    if rules != [] && !HasRule(rules, row) {
      assert rules[0] in rules;
      assert forall r :: r in rules[1..] ==> r in rules;
      NewRuleAppended(rules[1..], row);
    }
  }

  lemma UpsertRuleValid(s: Store, row: RuleRow)
    requires Valid(s) && UpsertRule(s, row).Ok?
    ensures Valid(UpsertRule(s, row).value)
  {
    PutRuleUnique(s.rules, row);
    PutRuleMembers(s.rules, row);
    assert HasRule(s.rules, row) ==> row.policyId in s.policies;
  }

  lemma InsertRuleValid(s: Store, row: RuleRow)
    requires Valid(s) && InsertRule(s, row).Ok?
    ensures Valid(InsertRule(s, row).value)
  {
    assert forall r :: r in s.rules ==> !SameRule(r, row);
    assert forall i :: 0 <= i < |s.rules| ==> s.rules[i] in s.rules;
  }

  lemma {:induction false} PutLinkMembers(links: seq<LinkRow>, row: LinkRow)
    ensures forall l :: l in PutLink(links, row) ==> l in links || SameLink(l, row)
    ensures HasLink(PutLink(links, row), row)
  {
    if links == [] {
      assert row in [row] && SameLink(row, row);
    } else if SameLink(links[0], row) {
      assert PutLink(links, row)[0] in PutLink(links, row);
    } else {
      PutLinkMembers(links[1..], row);
      var rest := PutLink(links[1..], row);
      var l :| l in rest && SameLink(l, row);
      assert l in PutLink(links, row);
    }
  }

  lemma {:induction false} PutLinkUnique(links: seq<LinkRow>, row: LinkRow)
    requires LinksUnique(links)
    ensures LinksUnique(PutLink(links, row))
  {
    if links != [] && !SameLink(links[0], row) {
      PutLinkUnique(links[1..], row);
      PutLinkMembers(links[1..], row);
      var rest := PutLink(links[1..], row);
      forall l | l in rest ensures !SameLink(links[0], l) {
        if l in links[1..] {
          var i :| 0 <= i < |links| - 1 && links[1..][i] == l;
          assert links[i + 1] == l;
        }
      }
      assert forall j :: 0 <= j < |rest| ==> rest[j] in rest;
    }
  }

  lemma UpsertLinkValid(s: Store, row: LinkRow)
    requires Valid(s) && UpsertLink(s, row).Ok?
    ensures Valid(UpsertLink(s, row).value)
  {
    PutLinkUnique(s.links, row);
    PutLinkMembers(s.links, row);
    assert HasLink(s.links, row) ==> row.keyId in s.keys && row.policyId in s.policies;
  }

  // ---- Deletes ----

  /** The pair has exactly one link, an enabled one, as old as the link it had or else new;
      every other link and every other table is as it was. */
  ghost predicate Attached(s: Store, after: Store, keyId: Id, policyId: Id, now: nat) {
    && after == s.(links := after.links)
    && Filter(LinkNot(keyId, policyId), after.links) == Filter(LinkNot(keyId, policyId), s.links)
    && exists l: LinkRow :: Filter(LinkIs(keyId, policyId), after.links) == [l]
         && l.keyId == keyId && l.policyId == policyId && l.enabled && KeepsTime(s.links, l, now)
  }

  /** As old as the pair's link before, if it had one. */
  ghost predicate KeepsTime(before: seq<LinkRow>, l: LinkRow, now: nat) {
    if exists o :: o in before && o.keyId == l.keyId && o.policyId == l.policyId
    then exists o :: o in before && o.keyId == l.keyId && o.policyId == l.policyId && l.createdAt == o.createdAt
    else l.createdAt == now
  }

  lemma {:induction false} OtherLinksOnly(links: seq<LinkRow>, keyId: Id, policyId: Id)
    requires forall l :: l in links ==> !LinkIs(keyId, policyId)(l)
    ensures Filter(LinkIs(keyId, policyId), links) == []
    ensures Filter(LinkNot(keyId, policyId), links) == links
  {
    FilterNone(LinkIs(keyId, policyId), links);
    FilterAll(LinkNot(keyId, policyId), links);
  }

  lemma {:induction false} PutLinkLeavesOne(links: seq<LinkRow>, row: LinkRow)
    requires LinksUnique(links)
    ensures var after := PutLink(links, row);
            && Filter(LinkNot(row.keyId, row.policyId), after) == Filter(LinkNot(row.keyId, row.policyId), links)
            && exists l: LinkRow :: Filter(LinkIs(row.keyId, row.policyId), after) == [l] && l.enabled == row.enabled
  {
    var isRow, notRow := LinkIs(row.keyId, row.policyId), LinkNot(row.keyId, row.policyId);
    if links == [] {
      assert PutLink(links, row) == [row] && [row][1..] == [];
      assert Filter(isRow, [row]) == [row] && row.enabled == row.enabled;
    } else if SameLink(links[0], row) {
      var kept := row.(createdAt := links[0].createdAt);
      forall l | l in links[1..] ensures !isRow(l) {
        var i :| 0 <= i < |links[1..]| && links[1..][i] == l;
        assert links[i + 1] == l;
      }
      OtherLinksOnly(links[1..], row.keyId, row.policyId);
      FilterCons(isRow, kept, links[1..]);
      FilterCons(notRow, kept, links[1..]);
      assert Filter(isRow, PutLink(links, row)) == [kept] && kept.enabled == row.enabled;
    } else {
      var rest := PutLink(links[1..], row);
      PutLinkLeavesOne(links[1..], row);
      FilterCons(isRow, links[0], rest);
      FilterCons(notRow, links[0], rest);
    }
  }

  lemma TimeInMore(links: seq<LinkRow>, l: LinkRow, now: nat)
    requires links != [] && !SameLink(links[0], l) && KeepsTime(links[1..], l, now)
    ensures KeepsTime(links, l, now)
  {
    assert forall o :: o in links <==> o == links[0] || o in links[1..];
  }

  /** An upsert keeps the time of a link that is there. */
  lemma {:induction false} PutLinkTime(links: seq<LinkRow>, row: LinkRow)
    ensures forall l :: l in PutLink(links, row) && SameLink(l, row) ==> KeepsTime(links, l, row.createdAt)
  {
    forall l | l in PutLink(links, row) && SameLink(l, row) ensures KeepsTime(links, l, row.createdAt) {
      if links != [] && SameLink(links[0], row) {
        assert links[0] in links && (l in links || l.createdAt == links[0].createdAt);
      } else if links != [] {
        PutLinkTime(links[1..], row);
        TimeInMore(links, l, row.createdAt);
      }
    }
  }

  lemma OneAttached(s: Store, row: LinkRow)
    requires LinksUnique(s.links) && row.enabled
    ensures Attached(s, s.(links := PutLink(s.links, row)), row.keyId, row.policyId, row.createdAt)
  {
    var after := PutLink(s.links, row);
    PutLinkLeavesOne(s.links, row);
    PutLinkTime(s.links, row);
    FilterMembers(LinkIs(row.keyId, row.policyId), after);
    var l: LinkRow :| Filter(LinkIs(row.keyId, row.policyId), after) == [l] && l.enabled == row.enabled;
    assert l in [l];
  }

  lemma {:induction false} PutLinkAgain(links: seq<LinkRow>, row: LinkRow, later: LinkRow)
    requires SameLink(row, later) && row.enabled == later.enabled
    ensures PutLink(PutLink(links, row), later) == PutLink(links, row)
  {
    if links != [] && !SameLink(links[0], row) {
      PutLinkAgain(links[1..], row, later);
      assert PutLink(links, row)[1..] == PutLink(links[1..], row);
    } else if links != [] {
      assert PutLink(links, row)[1..] == links[1..];
    }
  }

  /** Attaching commits exactly when key and policy exist, and ends with exactly one
      link between them, enabled, whether there was one before, a disabled one, or none
      after a detach; attaching again, at any later time, changes nothing. */
  lemma AttachGivesOneEnabledLink(s: Store, keyId: Id, policyId: Id, now: nat, later: nat)
    requires Valid(s)
    ensures var done := UpsertLink(s, LinkRow(keyId, policyId, true, now));
            && (done.Ok? <==> keyId in s.keys && policyId in s.policies)
            && (done.Ok? ==>
                  && Attached(s, done.value, keyId, policyId, now)
                  && UpsertLink(done.value, LinkRow(keyId, policyId, true, later)) == Ok(done.value))
  {
    var row, again := LinkRow(keyId, policyId, true, now), LinkRow(keyId, policyId, true, later);
    OneAttached(s, row);
    PutLinkAgain(s.links, row, again);
    PutLinkMembers(s.links, row);
  }

  /** Detaching leaves no link between them, and undoes an attach that made one. */
  lemma DetachUndoesAttach(s: Store, keyId: Id, policyId: Id, now: nat)
    requires Valid(s)
    ensures Filter(LinkIs(keyId, policyId), DeleteLink(s, keyId, policyId).links) == []
    ensures var row := LinkRow(keyId, policyId, true, now);
            var done := UpsertLink(s, row);
            done.Ok? && !HasLink(s.links, row) ==> DeleteLink(done.value, keyId, policyId) == s
  {
    var row := LinkRow(keyId, policyId, true, now);
    FilterMembers(LinkNot(keyId, policyId), s.links);
    OtherLinksOnly(Filter(LinkNot(keyId, policyId), s.links), keyId, policyId);
    PutLinkLeavesOne(s.links, row);
    if !HasLink(s.links, row) {
      OtherLinksOnly(s.links, keyId, policyId);
    }
  }

  lemma {:induction false} FilteredRoutesUnique(p: RouteRow -> bool, routes: seq<RouteRow>)
    requires RoutesUnique(routes)
    ensures RoutesUnique(Filter(p, routes))
  {
    if routes != [] {
      FilteredRoutesUnique(p, routes[1..]);
      FilterMembers(p, routes[1..]);
      var rest := Filter(p, routes[1..]);
      forall r | r in rest ensures !SameRoute(routes[0], r) {
        var i :| 0 <= i < |routes| - 1 && routes[1..][i] == r;
        assert routes[i + 1] == r;
      }
      assert forall j :: 0 <= j < |rest| ==> rest[j] in rest;
    }
  }

  lemma {:induction false} FilteredLinksUnique(p: LinkRow -> bool, links: seq<LinkRow>)
    requires LinksUnique(links)
    ensures LinksUnique(Filter(p, links))
  {
    if links != [] {
      FilteredLinksUnique(p, links[1..]);
      FilterMembers(p, links[1..]);
      var rest := Filter(p, links[1..]);
      forall l | l in rest ensures !SameLink(links[0], l) {
        var i :| 0 <= i < |links| - 1 && links[1..][i] == l;
        assert links[i + 1] == l;
      }
      assert forall j :: 0 <= j < |rest| ==> rest[j] in rest;
    }
  }

  lemma {:induction false} FilteredRulesUnique(p: RuleRow -> bool, rules: seq<RuleRow>)
    requires RulesUnique(rules)
    ensures RulesUnique(Filter(p, rules))
  {
    if rules != [] {
      FilteredRulesUnique(p, rules[1..]);
      FilterMembers(p, rules[1..]);
      var rest := Filter(p, rules[1..]);
      forall r | r in rest ensures !SameRule(rules[0], r) {
        var i :| 0 <= i < |rules| - 1 && rules[1..][i] == r;
        assert rules[i + 1] == r;
      }
      assert forall j :: 0 <= j < |rest| ==> rest[j] in rest;
    }
  }

  lemma DeleteRoutesValid(s: Store, policyId: Id)
    requires Valid(s)
    ensures Valid(DeleteRoutes(s, policyId))
  {
    FilteredRoutesUnique(RouteNotOf(policyId), s.routes);
    FilterMembers(RouteNotOf(policyId), s.routes);
  }

  lemma DeleteRulesValid(s: Store, policyId: Id)
    requires Valid(s)
    ensures Valid(DeleteRules(s, policyId))
  {
    FilteredRulesUnique(RuleNotOf(policyId), s.rules);
    FilterMembers(RuleNotOf(policyId), s.rules);
  }

  lemma DeleteLinkValid(s: Store, keyId: Id, policyId: Id)
    requires Valid(s)
    ensures Valid(DeleteLink(s, keyId, policyId))
  {
    FilteredLinksUnique(LinkNot(keyId, policyId), s.links);
    FilterMembers(LinkNot(keyId, policyId), s.links);
  }

  lemma DeleteKeepsRows(s: Store, d: Doomed)
    requires Valid(s)
    ensures RoutesOk(Erased(s, Cascaded(s, d)))
    ensures LinksOk(Erased(s, Cascaded(s, d)))
    ensures RulesOk(Erased(s, Cascaded(s, d)))
  {
    var all := Cascaded(s, d);
    FilteredRoutesUnique(RouteSurvives(all), s.routes);
    FilterMembers(RouteSurvives(all), s.routes);
    FilteredLinksUnique(LinkSurvives(all), s.links);
    FilterMembers(LinkSurvives(all), s.links);
    FilteredRulesUnique(RuleSurvives(all), s.rules);
    FilterMembers(RuleSurvives(all), s.rules);
  }

  lemma DeleteValid(s: Store, d: Doomed)
    requires Valid(s) && Delete(s, d).Ok?
    ensures Valid(Delete(s, d).value)
  {
    DeleteKeepsRows(s, d);
    DeleteKeepsEntities(s, d);
    DeleteKeepsAudit(s, d);
  }

  lemma DeleteKeepsEntities(s: Store, d: Doomed)
    requires ModelNamesUnique(s.models) && HashesUnique(s.keys) && ProviderModelsOk(s) && PoliciesOk(s)
    ensures var s' := Erased(s, Cascaded(s, d));
            ModelNamesUnique(s'.models) && HashesUnique(s'.keys) && ProviderModelsOk(s') && PoliciesOk(s')
  {
  }

  /** References to erased rows are nulled, so no audit row dangles. */
  lemma DeleteKeepsAudit(s: Store, d: Doomed)
    requires AuditOk(s)
    ensures AuditOk(Erased(s, Cascaded(s, d)))
  {
    var s' := Erased(s, Cascaded(s, d));
    forall id | id in s'.audit ensures AuditRowLinked(s'.audit[id], s') {
      assert AuditRowLinked(s.audit[id], s);
    }
  }

  predicate OnlyDoomedNulled(before: Option<Id>, after: Option<Id>, doomed: set<Id>) {
    if before.Some? && before.value in doomed then after.None? else after == before
  }

  /** What a delete leaves behind: exactly the rows that do not depend, directly or
      through a cascade, on a deleted row; and every audit row, with only the
      references to deleted rows nulled. */
  lemma DeleteRemovesExactly(s: Store, d: Doomed)
    requires Delete(s, d).Ok?
    ensures var s' := Delete(s, d).value;
            && (forall id :: id in s'.policies <==>
                  id in s.policies && id !in d.policies && s.policies[id].modelId !in d.models)
            && (forall id :: id in s'.providerModels <==>
                  id in s.providerModels && id !in d.providerModels && s.providerModels[id].providerId !in d.providers)
            && s'.models == s.models - d.models && s'.providers == s.providers - d.providers
            && s'.keys == s.keys - d.keys
            && (forall id :: id in s'.policies ==> s'.policies[id] == s.policies[id])
            && (forall id :: id in s'.providerModels ==> s'.providerModels[id] == s.providerModels[id])
    ensures var s' := Delete(s, d).value;
            && s'.audit.Keys == s.audit.Keys
            && forall id :: id in s.audit ==>
                 (s'.audit[id].detail == s.audit[id].detail && s'.audit[id].model == s.audit[id].model
                  && OnlyDoomedNulled(s.audit[id].keyId, s'.audit[id].keyId, d.keys)
                  && OnlyDoomedNulled(s.audit[id].modelId, s'.audit[id].modelId, d.models)
                  && OnlyDoomedNulled(s.audit[id].providerId, s'.audit[id].providerId, d.providers)
                  && OnlyDoomedNulled(s.audit[id].providerModelId, s'.audit[id].providerModelId,
                                      d.providerModels + (s.providerModels.Keys - s'.providerModels.Keys)))
    ensures Valid(s) ==>
              var s' := Delete(s, d).value;
              && (forall r :: r in s'.routes <==>
                    r in s.routes && r.policyId in s'.policies && r.providerModelId in s'.providerModels)
              && (forall l :: l in s'.links <==>
                    l in s.links && l.keyId !in d.keys && l.policyId in s'.policies)
              && (forall r :: r in s'.rules <==> r in s.rules && r.policyId in s'.policies)
  {
    var all := Cascaded(s, d);
    FilterMembers(RouteSurvives(all), s.routes);
    FilterMembers(LinkSurvives(all), s.links);
    FilterMembers(RuleSurvives(all), s.rules);
  }

  /** Under NO ACTION a delete fails exactly when an audit row still refers to a row
      the delete or its cascades would remove; once all four foreign keys say SET
      NULL no delete is ever refused. */
  lemma DeleteRefusedIff(s: Store, d: Doomed)
    ensures Delete(s, d).Err? <==>
              exists id :: id in s.audit && Refuses(s.auditKeys, s.audit[id], Cascaded(s, d))
    ensures s.auditKeys == ALL_SET_NULL ==> Delete(s, d).Ok?
  {
  }

  // ---- Audit rows ----

  lemma {:induction false} InsertIgnoreGrows(audit: map<u128, AuditRow>, rows: seq<(u128, AuditRow)>)
    ensures forall id :: id in audit ==>
              id in InsertIgnore(audit, rows) && InsertIgnore(audit, rows)[id] == audit[id]
  {
    if rows != [] {
      InsertIgnoreGrows(audit, rows[..|rows| - 1]);
    }
  }

  lemma InsertAuditValid(s: Store, rows: seq<(u128, AuditRow)>)
    requires Valid(s) && InsertAudit(s, rows).Ok?
    ensures Valid(InsertAudit(s, rows).value)
  {
    InsertIgnoreGrows(s.audit, rows);
    var s' := InsertAudit(s, rows).value;
    forall id | id in s'.audit ensures AuditRowLinked(s'.audit[id], s') {
      assert AuditRowLinked(s'.audit[id], s);
    }
  }
}
