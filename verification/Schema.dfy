/** The live tables and their constraints. Entity tables are maps from primary key
    to row; tables whose row order is visible are sequences of rows. */
module Schema {
  import opened Wrappers
  import opened MachineInts
  import opened RouteSelection

  type Id = string

  datatype ModelType = ChatModel | EmbeddingModel
  datatype LimitType = RequestsPerMinute | RequestsPerDay | TokensPerMinute | TokensPerDay

  datatype ModelRow = ModelRow(name: string, kind: ModelType)
  datatype ProviderRow = ProviderRow(name: string, baseUrl: string, key: string)
  datatype ProviderModelRow = ProviderModelRow(providerId: Id, name: string)
  datatype PolicyRow = PolicyRow(modelId: Id, strategy: Strategy, enabled: bool, createdAt: nat)
  datatype KeyRow = KeyRow(name: string, hash: string, enabled: bool)
  datatype RouteRow = RouteRow(
    policyId: Id, providerModelId: Id, weight: i32, priority: i32, enabled: bool, createdAt: nat)
  datatype LinkRow = LinkRow(keyId: Id, policyId: Id, enabled: bool, createdAt: nat)
  datatype RuleRow = RuleRow(policyId: Id, limitType: LimitType, value: i32, createdAt: nat)

  /** The foreign-key columns of an audit row, the model the client asked for, and
      everything else as one value. */
  datatype AuditRow = AuditRow(
    keyId: Option<Id>, modelId: Option<Id>, providerId: Option<Id>, providerModelId: Option<Id>,
    model: Option<string>, detail: string)
  {
    /** A TEXT column takes any string but one with a NUL character. The id columns hold
        ids of stored rows, or fail as references. */
    predicate IsText() {
      (model.Some? ==> !HasNul(model.value)) && !HasNul(detail)
    }
  }

  predicate HasNul(text: string) {
    '\0' in text
  }

  /** What deleting a referenced row does to the audit rows that reference it. */
  datatype OnDelete = NoAction | SetNull
  datatype AuditForeignKeys = AuditForeignKeys(
    key: OnDelete, model: OnDelete, provider: OnDelete, providerModel: OnDelete)

  const ALL_SET_NULL := AuditForeignKeys(SetNull, SetNull, SetNull, SetNull)

  datatype Store = Store(
    models: map<Id, ModelRow>,
    providers: map<Id, ProviderRow>,
    providerModels: map<Id, ProviderModelRow>,
    keys: map<Id, KeyRow>,
    policies: map<Id, PolicyRow>,
    routes: seq<RouteRow>,
    links: seq<LinkRow>,
    rules: seq<RuleRow>,
    audit: map<u128, AuditRow>,
    auditKeys: AuditForeignKeys)

  // ---- Constraints ----

  ghost predicate ModelNamesUnique(models: map<Id, ModelRow>) {
    forall a, b :: a in models && b in models && models[a].name == models[b].name ==> a == b
  }

  ghost predicate ProviderModelsUnique(pms: map<Id, ProviderModelRow>) {
    forall a, b :: a in pms && b in pms && pms[a] == pms[b] ==> a == b
  }

  ghost predicate HashesUnique(keys: map<Id, KeyRow>) {
    forall a, b :: a in keys && b in keys && keys[a].hash == keys[b].hash ==> a == b
  }

  ghost predicate RoutesUnique(routes: seq<RouteRow>) {
    forall i, j :: 0 <= i < j < |routes| ==>
      !(routes[i].policyId == routes[j].policyId && routes[i].providerModelId == routes[j].providerModelId)
  }

  ghost predicate LinksUnique(links: seq<LinkRow>) {
    forall i, j :: 0 <= i < j < |links| ==>
      !(links[i].keyId == links[j].keyId && links[i].policyId == links[j].policyId)
  }

  ghost predicate RulesUnique(rules: seq<RuleRow>) {
    forall i, j :: 0 <= i < j < |rules| ==>
      !(rules[i].policyId == rules[j].policyId && rules[i].limitType == rules[j].limitType)
  }

  predicate RouteChecked(r: RouteRow) {
    r.weight >= 0 && r.priority >= 0
  }

  predicate RouteLinked(r: RouteRow, policies: map<Id, PolicyRow>, pms: map<Id, ProviderModelRow>) {
    r.policyId in policies && r.providerModelId in pms
  }

  ghost predicate RoutesOk(s: Store) {
    && RoutesUnique(s.routes)
    && forall r :: r in s.routes ==> RouteChecked(r) && RouteLinked(r, s.policies, s.providerModels)
  }

  ghost predicate LinksOk(s: Store) {
    && LinksUnique(s.links)
    && forall l :: l in s.links ==> l.keyId in s.keys && l.policyId in s.policies
  }

  ghost predicate RulesOk(s: Store) {
    && RulesUnique(s.rules)
    && forall r :: r in s.rules ==> r.value > 0 && r.policyId in s.policies
  }

  ghost predicate ProviderModelsOk(s: Store) {
    && ProviderModelsUnique(s.providerModels)
    && forall id :: id in s.providerModels ==> s.providerModels[id].providerId in s.providers
  }

  ghost predicate PoliciesOk(s: Store) {
    forall id :: id in s.policies ==> s.policies[id].modelId in s.models
  }

  predicate References<V>(ref: Option<Id>, table: map<Id, V>) {
    ref.None? || ref.value in table
  }

  predicate AuditRowLinked(row: AuditRow, s: Store) {
    && References(row.keyId, s.keys) && References(row.modelId, s.models)
    && References(row.providerId, s.providers) && References(row.providerModelId, s.providerModels)
  }

  ghost predicate AuditOk(s: Store) {
    forall id :: id in s.audit ==> AuditRowLinked(s.audit[id], s)
  }

  /** Every primary, unique, foreign key and check constraint holds. */
  ghost predicate Valid(s: Store) {
    && ModelNamesUnique(s.models)
    && HashesUnique(s.keys)
    && ProviderModelsOk(s)
    && PoliciesOk(s)
    && RoutesOk(s)
    && LinksOk(s)
    && RulesOk(s)
    && AuditOk(s)
  }

  /** The same reference, or nulled. */
  predicate KeptOrNulled(before: Option<Id>, after: Option<Id>) {
    after == before || after.None?
  }

  predicate SameAuditRow(before: AuditRow, after: AuditRow) {
    && after.model == before.model && after.detail == before.detail
    && KeptOrNulled(before.keyId, after.keyId) && KeptOrNulled(before.modelId, after.modelId)
    && KeptOrNulled(before.providerId, after.providerId)
    && KeptOrNulled(before.providerModelId, after.providerModelId)
  }

  /** The same audit rows with the same contents, but for nulled references. */
  ghost predicate SameAuditRows(s: Store, s': Store) {
    && s'.auditKeys == s.auditKeys
    && s'.audit.Keys == s.audit.Keys
    && forall id :: id in s.audit ==> SameAuditRow(s.audit[id], s'.audit[id])
  }
}
