/** What each admin operation does to the tables: when it commits, which columns of which
    row it sets, and what it leaves alone. */
module AdminEffects {
  import opened Wrappers
  import opened Collections
  import opened Schema
  import opened Statements
  import opened Integrity
  import opened PolicyWrites
  import opened AdminOps

  /** The row of this id is new or changed; every other row is as it was. */
  ghost predicate OnlyRow<V>(before: map<Id, V>, after: map<Id, V>, id: Id) {
    && after.Keys == before.Keys + {id}
    && forall other :: other in before && other != id ==> after[other] == before[other]
  }

  // ---- Keys ----

  /** No key but this one has the hash. */
  ghost predicate HashFree(s: Store, id: Id, hash: string) {
    forall other :: other in s.keys && s.keys[other].hash == hash ==> other == id
  }

  /** Rotating commits exactly for an existing key and a free hash; the key then has the new
      hash and its old name and flag, and nothing else has changed. */
  lemma RotateSetsHash(s: Store, id: Id, hash: string)
    ensures var op := RotateApiKey(id, hash);
            && (Perform(s, op).Ok? <==> id in s.keys && HashFree(s, id, hash))
            && (Perform(s, op).Ok? ==>
                  var after := Step(s, op);
                  && after == s.(keys := after.keys) && OnlyRow(s.keys, after.keys, id)
                  && after.keys[id].hash == hash
                  && after.keys[id].name == s.keys[id].name && after.keys[id].enabled == s.keys[id].enabled)
  {
  }

  /** A new key is enabled, with the name and hash given. */
  lemma CreateAddsKey(s: Store, id: Id, name: string, hash: string)
    ensures var op := CreateApiKey(id, name, hash);
            && (Perform(s, op).Ok? <==>
                  '\0' !in name && id !in s.keys && forall other :: other in s.keys ==> s.keys[other].hash != hash)
            && (Perform(s, op).Ok? ==>
                  var after := Step(s, op);
                  && after == s.(keys := after.keys) && OnlyRow(s.keys, after.keys, id)
                  && after.keys[id].name == name && after.keys[id].hash == hash && after.keys[id].enabled)
  {
  }

  /** An update sets name and flag of an existing key and keeps its hash. */
  lemma UpdateSetsNameAndFlag(s: Store, id: Id, name: string, enabled: bool)
    ensures var op := UpdateApiKey(id, name, enabled);
            && (Perform(s, op).Ok? <==> '\0' !in name)
            && (Perform(s, op).Ok? && id !in s.keys ==> Step(s, op) == s)
            && (Perform(s, op).Ok? && id in s.keys ==>
                  var after := Step(s, op);
                  && after == s.(keys := after.keys) && OnlyRow(s.keys, after.keys, id)
                  && after.keys[id].name == name && after.keys[id].enabled == enabled
                  && after.keys[id].hash == s.keys[id].hash)
  {
  }

  // ---- Models and providers ----

  ghost predicate NameFree(s: Store, id: Id, name: string) {
    forall other :: other in s.models && s.models[other].name == name ==> other == id
  }

  /** A new model needs a new id and a new name; a changed one a name no other has, and an
      unknown id changes nothing. */
  lemma ModelWrites(s: Store, id: Id, model: ModelRow)
    ensures var op := CreateModel(id, model);
            && (Perform(s, op).Ok? <==> '\0' !in model.name && id !in s.models && NameFree(s, id, model.name))
            && (Perform(s, op).Ok? ==>
                  var after := Step(s, op);
                  after == s.(models := after.models) && OnlyRow(s.models, after.models, id)
                  && after.models[id] == model)
    ensures var op := ChangeModel(id, model);
            && (Perform(s, op).Ok? <==>
                  '\0' !in model.name && (id in s.models ==> NameFree(s, id, model.name)))
            && (Perform(s, op).Ok? && id !in s.models ==> Step(s, op) == s)
            && (Perform(s, op).Ok? && id in s.models ==>
                  var after := Step(s, op);
                  after == s.(models := after.models) && OnlyRow(s.models, after.models, id)
                  && after.models[id] == model)
  {
  }

  /** A new provider gets all its columns. A changed one gets name and base URL, and a new
      key only if one is given. */
  lemma ProviderWrites(s: Store, id: Id, name: string, baseUrl: string, key: string, newKey: Option<string>)
    ensures var op := CreateProvider(id, ProviderRow(name, baseUrl, key));
            && (Perform(s, op).Ok? <==> '\0' !in name && '\0' !in baseUrl && id !in s.providers)
            && (Perform(s, op).Ok? ==>
                  var after := Step(s, op);
                  && after == s.(providers := after.providers) && OnlyRow(s.providers, after.providers, id)
                  && after.providers[id].name == name && after.providers[id].baseUrl == baseUrl
                  && after.providers[id].key == key)
    ensures var op := ChangeProvider(id, name, baseUrl, newKey);
            && (Perform(s, op).Ok? <==> '\0' !in name && '\0' !in baseUrl)
            && (Perform(s, op).Ok? && id !in s.providers ==> Step(s, op) == s)
            && (Perform(s, op).Ok? && id in s.providers ==>
                  var after := Step(s, op);
                  && after == s.(providers := after.providers) && OnlyRow(s.providers, after.providers, id)
                  && after.providers[id].name == name && after.providers[id].baseUrl == baseUrl
                  && after.providers[id].key
                     == (if newKey.Some? then newKey.value else s.providers[id].key))
  {
  }

  /** A provider model that is there under any id is left as it is; a new one needs a new id
      and an existing provider. */
  lemma ProviderModelWrites(s: Store, id: Id, row: ProviderModelRow)
    ensures var op := CreateProviderModel(id, row);
            var known := exists other :: other in s.providerModels && s.providerModels[other] == row;
            && (Perform(s, op).Ok? <==>
                  '\0' !in row.name && (known || (id !in s.providerModels && row.providerId in s.providers)))
            && (Perform(s, op).Ok? && known ==> Step(s, op) == s)
            && (Perform(s, op).Ok? && !known ==>
                  var after := Step(s, op);
                  && after == s.(providerModels := after.providerModels)
                  && OnlyRow(s.providerModels, after.providerModels, id) && after.providerModels[id] == row)
  {
  }

  // ---- Policies and links ----

  /** The operations on policies are the transactions: a create stores its policy and the
      last entries listed, an update sets the given fields and replaces the given lists. */
  lemma PolicyOps(s: Store, id: Id, create: CreateRequest, update: UpdateRequest, now: nat)
    requires Valid(s)
    ensures var op := CreateMappingPolicy(id, create, now);
            && (Perform(s, op).Ok? <==> CreateAcceptable(s, id, create))
            && (Perform(s, op).Ok? ==>
                  CreatesOnly(s, Step(s, op), id, create, now) && StoresLast(Step(s, op), id, create))
    ensures var op := UpdateMappingPolicy(id, update, now);
            && (Perform(s, op).Ok? <==> UpdateAcceptable(s, id, update))
            && (Perform(s, op).Ok? ==>
                  var after := Step(s, op);
                  && after == s.(policies := after.policies, rules := after.rules, routes := after.routes)
                  && PolicyUpdated(s.policies, after.policies, id, update)
                  && (update.rules.None? ==> after.rules == s.rules)
                  && (update.routes.None? ==> after.routes == s.routes))
  {
    CreateKeepsLast(s, id, create, now);
    UpdateReplacesExactly(s, id, update, now);
    if Perform(s, UpdateMappingPolicy(id, update, now)).Ok? {
      UpdateSetsGivenFields(s, id, update, now);
    }
  }

  /** Attaching commits exactly if key and policy exist and leaves one enabled link. */
  lemma AttachOp(s: Store, keyId: Id, policyId: Id, now: nat)
    requires Valid(s)
    ensures var op := Attach(keyId, policyId, now);
            && (Perform(s, op).Ok? <==> keyId in s.keys && policyId in s.policies)
            && (Perform(s, op).Ok? ==> Attached(s, Step(s, op), keyId, policyId, now))
  {
    AttachGivesOneEnabledLink(s, keyId, policyId, now, now);
  }

  /** The pair's links are gone and every other link is left. */
  ghost predicate LinksWithout(before: seq<LinkRow>, after: seq<LinkRow>, keyId: Id, policyId: Id) {
    forall l :: multiset(after)[l] ==
      if l.keyId == keyId && l.policyId == policyId then 0 else multiset(before)[l]
  }

  lemma FilteredLinks(links: seq<LinkRow>, keyId: Id, policyId: Id)
    ensures LinksWithout(links, Filter(LinkNot(keyId, policyId), links), keyId, policyId)
  {
    forall l: LinkRow
      ensures multiset(Filter(LinkNot(keyId, policyId), links))[l] ==
              if l.keyId == keyId && l.policyId == policyId then 0 else multiset(links)[l]
    {
      FilterCounts(LinkNot(keyId, policyId), links, l);
    }
  }

  /** Detaching always commits and takes away the pair's links alone. */
  lemma DetachOp(s: Store, keyId: Id, policyId: Id)
    ensures var after := Step(s, Detach(keyId, policyId));
            after == s.(links := after.links) && LinksWithout(s.links, after.links, keyId, policyId)
  {
    FilteredLinks(s.links, keyId, policyId);
  }

  // ---- Deletes ----

  /** The named entity is gone, and through the cascades the policies of its model or the
      models of its provider; every other entity is as it was. */
  ghost predicate EntitiesLeft(s: Store, after: Store, op: Op)
    requires IsDelete(op)
  {
    && after.keys == (if op.DeleteApiKey? then s.keys - {op.id} else s.keys)
    && after.models == (if op.DeleteModel? then s.models - {op.id} else s.models)
    && after.providers == (if op.DeleteProvider? then s.providers - {op.id} else s.providers)
    && (forall id :: id in after.policies <==>
          id in s.policies && !(op.DeleteMappingPolicy? && id == op.id)
          && !(op.DeleteModel? && s.policies[id].modelId == op.id))
    && (forall id :: id in after.providerModels <==>
          id in s.providerModels && !(op.DeleteProviderModel? && id == op.id)
          && !(op.DeleteProvider? && s.providerModels[id].providerId == op.id))
    && (forall id :: id in after.policies ==> after.policies[id] == s.policies[id])
    && (forall id :: id in after.providerModels ==> after.providerModels[id] == s.providerModels[id])
  }

  /** Exactly the routes, links and rules are left whose entities are. */
  ghost predicate RowsLeft(s: Store, after: Store) {
    && (forall r :: r in after.routes <==>
          r in s.routes && r.policyId in after.policies && r.providerModelId in after.providerModels)
    && (forall l :: l in after.links <==> l in s.links && l.keyId in after.keys && l.policyId in after.policies)
    && (forall r :: r in after.rules <==> r in s.rules && r.policyId in after.policies)
  }

  lemma DoomedEntities(s: Store, op: Op)
    requires IsDelete(op) && Delete(s, DoomedBy(op)).Ok?
    ensures EntitiesLeft(s, Delete(s, DoomedBy(op)).value, op)
  {
  }

  lemma DoomedRows(s: Store, d: Doomed)
    requires Valid(s) && Delete(s, d).Ok?
    ensures RowsLeft(s, Delete(s, d).value)
  {
    DeleteRemovesExactly(s, d);
    assert forall l :: l in s.links ==> l.keyId in s.keys;
  }

  /** Deleting one named entity takes away that one and what hangs on it, and nothing else. */
  lemma DeletesNamed(s: Store, op: Op)
    requires Valid(s) && IsDelete(op) && Perform(s, op).Ok?
    ensures EntitiesLeft(s, Step(s, op), op) && RowsLeft(s, Step(s, op))
  {
    assert Perform(s, op) == Delete(s, DoomedBy(op));
    DoomedEntities(s, op);
    DoomedRows(s, DoomedBy(op));
  }
}
