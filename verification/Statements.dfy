/** Single SQL statements of the admin API as functions on the store. A violated
    constraint, or a text with a NUL character, makes the statement fail. */
module Statements {
  import opened Wrappers
  import opened MachineInts
  import opened Collections
  import opened RouteSelection
  import opened Schema

  datatype DbError = UniqueViolation | ForeignKeyViolation | CheckViolation | InvalidText | RowNotFound
  type Outcome = Result<Store, DbError>

  // ---- Entities ----

  predicate ModelNameTaken(s: Store, id: Id, name: string) {
    exists other :: other in s.models && other != id && s.models[other].name == name
  }

  predicate HashTaken(s: Store, id: Id, hash: string) {
    exists other :: other in s.keys && other != id && s.keys[other].hash == hash
  }

  function InsertModel(s: Store, id: Id, row: ModelRow): Outcome {
    if HasNul(row.name) then Err(InvalidText)
    else if id in s.models || ModelNameTaken(s, id, row.name) then Err(UniqueViolation)
    else Ok(s.(models := s.models[id := row]))
  }

  function UpdateModel(s: Store, id: Id, row: ModelRow): Outcome {
    if HasNul(row.name) then Err(InvalidText)
    else if id !in s.models then Ok(s)
    else if ModelNameTaken(s, id, row.name) then Err(UniqueViolation)
    else Ok(s.(models := s.models[id := row]))
  }

  function InsertProvider(s: Store, id: Id, row: ProviderRow): Outcome {
    if HasNul(row.name) || HasNul(row.baseUrl) then Err(InvalidText)
    else if id in s.providers then Err(UniqueViolation)
    else Ok(s.(providers := s.providers[id := row]))
  }

  /** The key is replaced only when a new one is given. */
  function UpdateProvider(s: Store, id: Id, name: string, baseUrl: string, key: Option<string>): Outcome {
    if HasNul(name) || HasNul(baseUrl) then Err(InvalidText)
    else if id !in s.providers then Ok(s)
    else Ok(s.(providers := s.providers[id := ProviderRow(name, baseUrl, key.GetOr(s.providers[id].key))]))
  }

  /** An existing (provider, name) pair only gets a new `updated_at`. */
  function UpsertProviderModel(s: Store, id: Id, row: ProviderModelRow): Outcome {
    if HasNul(row.name) then Err(InvalidText)
    else if exists other :: other in s.providerModels && s.providerModels[other] == row then Ok(s)
    else if id in s.providerModels then Err(UniqueViolation)
    else if row.providerId !in s.providers then Err(ForeignKeyViolation)
    else Ok(s.(providerModels := s.providerModels[id := row]))
  }

  function InsertKey(s: Store, id: Id, row: KeyRow): Outcome {
    if HasNul(row.name) then Err(InvalidText)
    else if id in s.keys || HashTaken(s, id, row.hash) then Err(UniqueViolation)
    else Ok(s.(keys := s.keys[id := row]))
  }

  function UpdateKey(s: Store, id: Id, name: string, enabled: bool): Outcome {
    if HasNul(name) then Err(InvalidText)
    else if id !in s.keys then Ok(s)
    else Ok(s.(keys := s.keys[id := s.keys[id].(name := name, enabled := enabled)]))
  }

  function RotateKey(s: Store, id: Id, hash: string): Outcome {
    if id !in s.keys then Err(RowNotFound)
    else if HashTaken(s, id, hash) then Err(UniqueViolation)
    else Ok(s.(keys := s.keys[id := s.keys[id].(hash := hash)]))
  }

  function InsertPolicy(s: Store, id: Id, row: PolicyRow): Outcome {
    if id in s.policies then Err(UniqueViolation)
    else if row.modelId !in s.models then Err(ForeignKeyViolation)
    else Ok(s.(policies := s.policies[id := row]))
  }

  function UpdatePolicy(s: Store, id: Id, strategy: Option<Strategy>, enabled: Option<bool>): Store {
    if id !in s.policies then s
    else
      var row := s.policies[id];
      s.(policies := s.policies[id := row.(strategy := strategy.GetOr(row.strategy),
                                           enabled := enabled.GetOr(row.enabled))])
  }

  // ---- Routes, rules and links ----

  predicate SameRoute(a: RouteRow, b: RouteRow) {
    a.policyId == b.policyId && a.providerModelId == b.providerModelId
  }

  predicate HasRoute(routes: seq<RouteRow>, row: RouteRow) {
    exists r :: r in routes && SameRoute(r, row)
  }

  /** Replace the row with the same key in place, keeping its creation time, or append. */
  function PutRoute(routes: seq<RouteRow>, row: RouteRow): seq<RouteRow> {
    if routes == [] then [row]
    else if SameRoute(routes[0], row) then [row.(createdAt := routes[0].createdAt)] + routes[1..]
    else [routes[0]] + PutRoute(routes[1..], row)
  }

  function InsertRoute(s: Store, row: RouteRow): Outcome {
    if !RouteChecked(row) then Err(CheckViolation)
    else if HasRoute(s.routes, row) then Err(UniqueViolation)
    else if !RouteLinked(row, s.policies, s.providerModels) then Err(ForeignKeyViolation)
    else Ok(s.(routes := s.routes + [row]))
  }

  function UpsertRoute(s: Store, row: RouteRow): Outcome {
    if !RouteChecked(row) then Err(CheckViolation)
    else if !HasRoute(s.routes, row) && !RouteLinked(row, s.policies, s.providerModels) then Err(ForeignKeyViolation)
    else Ok(s.(routes := PutRoute(s.routes, row)))
  }

  predicate SameRule(a: RuleRow, b: RuleRow) {
    a.policyId == b.policyId && a.limitType == b.limitType
  }

  predicate HasRule(rules: seq<RuleRow>, row: RuleRow) {
    exists r :: r in rules && SameRule(r, row)
  }

  function PutRule(rules: seq<RuleRow>, row: RuleRow): seq<RuleRow> {
    if rules == [] then [row]
    else if SameRule(rules[0], row) then [row.(createdAt := rules[0].createdAt)] + rules[1..]
    else [rules[0]] + PutRule(rules[1..], row)
  }

  function InsertRule(s: Store, row: RuleRow): Outcome {
    if row.value <= 0 then Err(CheckViolation)
    else if HasRule(s.rules, row) then Err(UniqueViolation)
    else if row.policyId !in s.policies then Err(ForeignKeyViolation)
    else Ok(s.(rules := s.rules + [row]))
  }

  function UpsertRule(s: Store, row: RuleRow): Outcome {
    if row.value <= 0 then Err(CheckViolation)
    else if !HasRule(s.rules, row) && row.policyId !in s.policies then Err(ForeignKeyViolation)
    else Ok(s.(rules := PutRule(s.rules, row)))
  }

  predicate SameLink(a: LinkRow, b: LinkRow) {
    a.keyId == b.keyId && a.policyId == b.policyId
  }

  predicate HasLink(links: seq<LinkRow>, row: LinkRow) {
    exists l :: l in links && SameLink(l, row)
  }

  function PutLink(links: seq<LinkRow>, row: LinkRow): seq<LinkRow> {
    if links == [] then [row]
    else if SameLink(links[0], row) then [row.(createdAt := links[0].createdAt)] + links[1..]
    else [links[0]] + PutLink(links[1..], row)
  }

  function UpsertLink(s: Store, row: LinkRow): Outcome {
    if !HasLink(s.links, row) && (row.keyId !in s.keys || row.policyId !in s.policies) then Err(ForeignKeyViolation)
    else Ok(s.(links := PutLink(s.links, row)))
  }

  // ---- Row filters ----

  function RouteOf(policyId: Id): RouteRow -> bool { (r: RouteRow) => r.policyId == policyId }
  function RouteNotOf(policyId: Id): RouteRow -> bool { (r: RouteRow) => r.policyId != policyId }
  function RuleNotOf(policyId: Id): RuleRow -> bool { (r: RuleRow) => r.policyId != policyId }
  function LinkIs(keyId: Id, policyId: Id): LinkRow -> bool {
    (l: LinkRow) => l.keyId == keyId && l.policyId == policyId
  }
  function LinkNot(keyId: Id, policyId: Id): LinkRow -> bool {
    (l: LinkRow) => !(l.keyId == keyId && l.policyId == policyId)
  }

  function DeleteRoutes(s: Store, policyId: Id): Store {
    s.(routes := Filter(RouteNotOf(policyId), s.routes))
  }

  function DeleteRules(s: Store, policyId: Id): Store {
    s.(rules := Filter(RuleNotOf(policyId), s.rules))
  }

  function DeleteLink(s: Store, keyId: Id, policyId: Id): Store {
    s.(links := Filter(LinkNot(keyId, policyId), s.links))
  }

  // ---- Deletes with cascades ----

  /** Ids a DELETE removes from each entity table. */
  datatype Doomed = Doomed(
    keys: set<Id>, models: set<Id>, providers: set<Id>, providerModels: set<Id>, policies: set<Id>)

  const NOTHING := Doomed({}, {}, {}, {}, {})

  /** ON DELETE CASCADE from providers to their models and from models to their policies. */
  function Cascaded(s: Store, d: Doomed): Doomed {
    d.(providerModels := d.providerModels
         + (set id | id in s.providerModels && s.providerModels[id].providerId in d.providers),
       policies := d.policies + (set id | id in s.policies && s.policies[id].modelId in d.models))
  }

  function RouteSurvives(d: Doomed): RouteRow -> bool {
    (r: RouteRow) => r.policyId !in d.policies && r.providerModelId !in d.providerModels
  }

  function LinkSurvives(d: Doomed): LinkRow -> bool {
    (l: LinkRow) => l.keyId !in d.keys && l.policyId !in d.policies
  }

  function RuleSurvives(d: Doomed): RuleRow -> bool {
    (r: RuleRow) => r.policyId !in d.policies
  }

  predicate Hits(ref: Option<Id>, ids: set<Id>) {
    ref.Some? && ref.value in ids
  }

  function Nulled(ref: Option<Id>, ids: set<Id>): Option<Id> {
    if Hits(ref, ids) then None else ref
  }

  function AuditAfter(row: AuditRow, d: Doomed): AuditRow {
    AuditRow(Nulled(row.keyId, d.keys), Nulled(row.modelId, d.models),
             Nulled(row.providerId, d.providers), Nulled(row.providerModelId, d.providerModels),
             row.model, row.detail)
  }

  /** A NO ACTION foreign key of this audit row refuses the delete. */
  predicate Refuses(fks: AuditForeignKeys, row: AuditRow, d: Doomed) {
    || (fks.key.NoAction? && Hits(row.keyId, d.keys))
    || (fks.model.NoAction? && Hits(row.modelId, d.models))
    || (fks.provider.NoAction? && Hits(row.providerId, d.providers))
    || (fks.providerModel.NoAction? && Hits(row.providerModelId, d.providerModels))
  }

  predicate Blocked(s: Store, d: Doomed) {
    exists id :: id in s.audit && Refuses(s.auditKeys, s.audit[id], d)
  }

  function Erased(s: Store, d: Doomed): Store {
    Store(
      s.models - d.models,
      s.providers - d.providers,
      s.providerModels - d.providerModels,
      s.keys - d.keys,
      s.policies - d.policies,
      Filter(RouteSurvives(d), s.routes),
      Filter(LinkSurvives(d), s.links),
      Filter(RuleSurvives(d), s.rules),
      map id | id in s.audit :: AuditAfter(s.audit[id], d),
      s.auditKeys)
  }

  function Delete(s: Store, d: Doomed): Outcome {
    var all := Cascaded(s, d);
    if Blocked(s, all) then Err(ForeignKeyViolation) else Ok(Erased(s, all))
  }

  // ---- Audit rows ----

  /** INSERT ... ON CONFLICT DO NOTHING: the first row with an id wins. */
  function InsertIgnore(audit: map<u128, AuditRow>, rows: seq<(u128, AuditRow)>): map<u128, AuditRow> {
    if rows == [] then audit
    else
      var before := InsertIgnore(audit, rows[..|rows| - 1]);
      var (id, row) := rows[|rows| - 1];
      if id in before then before else before[id := row]
  }

  /** One statement for all rows: a text the database cannot hold, in any of them, also in
      one whose id is taken, refuses the whole statement. */
  function InsertAudit(s: Store, rows: seq<(u128, AuditRow)>): Outcome {
    var audit := InsertIgnore(s.audit, rows);
    if exists r :: r in rows && !r.1.IsText() then Err(InvalidText)
    else if exists id :: id in audit && id !in s.audit && !AuditRowLinked(audit[id], s) then Err(ForeignKeyViolation)
    else Ok(s.(audit := audit))
  }
}
