/** The admin operations as steps on the store, and what holds of every store they
    can reach. */
module AdminOps {
  import opened Wrappers
  import opened MachineInts
  import opened Schema
  import opened Statements
  import opened Integrity
  import opened PolicyWrites

  datatype Op =
    | CreateModel(id: Id, model: ModelRow)
    | ChangeModel(id: Id, model: ModelRow)
    | DeleteModel(id: Id)
    | CreateProvider(id: Id, provider: ProviderRow)
    | ChangeProvider(id: Id, name: string, baseUrl: string, newKey: Option<string>)
    | DeleteProvider(id: Id)
    | CreateProviderModel(id: Id, providerModel: ProviderModelRow)
    | DeleteProviderModel(id: Id)
    | CreateMappingPolicy(id: Id, create: CreateRequest, now: nat)
    | UpdateMappingPolicy(id: Id, update: UpdateRequest, now: nat)
    | DeleteMappingPolicy(id: Id)
    | CreateApiKey(id: Id, name: string, hash: string)
    | UpdateApiKey(id: Id, name: string, enabled: bool)
    | RotateApiKey(id: Id, hash: string)
    | DeleteApiKey(id: Id)
    | Attach(keyId: Id, policyId: Id, now: nat)
    | Detach(keyId: Id, policyId: Id)
    /** The gateway's audit writer shares the database. */
    | AuditBatch(rows: seq<(u128, AuditRow)>)

  function Perform(s: Store, op: Op): Outcome {
    match op
    case CreateModel(id, model) => InsertModel(s, id, model)
    case ChangeModel(id, model) => UpdateModel(s, id, model)
    case DeleteModel(id) => Delete(s, NOTHING.(models := {id}))
    case CreateProvider(id, provider) => InsertProvider(s, id, provider)
    case ChangeProvider(id, name, baseUrl, newKey) => UpdateProvider(s, id, name, baseUrl, newKey)
    case DeleteProvider(id) => Delete(s, NOTHING.(providers := {id}))
    case CreateProviderModel(id, providerModel) => UpsertProviderModel(s, id, providerModel)
    case DeleteProviderModel(id) => Delete(s, NOTHING.(providerModels := {id}))
    case CreateMappingPolicy(id, create, now) => CreatePolicy(s, id, create, now)
    case UpdateMappingPolicy(id, update, now) => WritePolicyUpdate(s, id, update, now)
    case DeleteMappingPolicy(id) => Delete(s, NOTHING.(policies := {id}))
    case CreateApiKey(id, name, hash) => InsertKey(s, id, KeyRow(name, hash, true))
    case UpdateApiKey(id, name, enabled) => UpdateKey(s, id, name, enabled)
    case RotateApiKey(id, hash) => RotateKey(s, id, hash)
    case DeleteApiKey(id) => Delete(s, NOTHING.(keys := {id}))
    case Attach(keyId, policyId, now) => UpsertLink(s, LinkRow(keyId, policyId, true, now))
    case Detach(keyId, policyId) => Ok(DeleteLink(s, keyId, policyId))
    case AuditBatch(rows) => InsertAudit(s, rows)
  }

  /** A failing operation leaves the store as it was. */
  function Step(s: Store, op: Op): Store {
    match Perform(s, op)
    case Ok(after) => after
    case Err(_) => s
  }

  function Run(s: Store, ops: seq<Op>): Store {
    if ops == [] then s else Step(Run(s, ops[..|ops| - 1]), ops[|ops| - 1])
  }

  /** The admin operations that took the database from each version to the next. */
  ghost predicate MadeBy(history: seq<Store>, ops: seq<Op>) {
    && |history| == |ops| + 1
    && forall i :: 0 <= i < |ops| ==> history[i + 1] == Step(history[i], ops[i])
  }

  const EMPTY := Store(map[], map[], map[], map[], map[], [], [], [], map[], ALL_SET_NULL)

  predicate IsDelete(op: Op) {
    op.DeleteModel? || op.DeleteProvider? || op.DeleteProviderModel? || op.DeleteMappingPolicy? || op.DeleteApiKey?
  }

  function DoomedBy(op: Op): Doomed
    requires IsDelete(op)
  {
    match op
    case DeleteModel(id) => NOTHING.(models := {id})
    case DeleteProvider(id) => NOTHING.(providers := {id})
    case DeleteProviderModel(id) => NOTHING.(providerModels := {id})
    case DeleteMappingPolicy(id) => NOTHING.(policies := {id})
    case DeleteApiKey(id) => NOTHING.(keys := {id})
  }

  lemma DeleteOpValid(s: Store, op: Op)
    requires Valid(s) && IsDelete(op)
    ensures Valid(Step(s, op))
  {
    assert Perform(s, op) == Delete(s, DoomedBy(op));
    if Perform(s, op).Ok? {
      DeleteValid(s, DoomedBy(op));
    }
  }

  lemma StepValid(s: Store, op: Op)
    requires Valid(s)
    ensures Valid(Step(s, op))
  {
    if IsDelete(op) {
      DeleteOpValid(s, op);
    } else if Perform(s, op).Ok? {
      match op {
        case CreateModel(id, model) => InsertModelValid(s, id, model);
        case ChangeModel(id, model) => UpdateModelValid(s, id, model);
        case CreateProvider(id, provider) => InsertProviderValid(s, id, provider);
        case ChangeProvider(id, name, baseUrl, newKey) => UpdateProviderValid(s, id, name, baseUrl, newKey);
        case CreateProviderModel(id, providerModel) => UpsertProviderModelValid(s, id, providerModel);
        case CreateMappingPolicy(id, create, now) => CreatePolicyValid(s, id, create, now);
        case UpdateMappingPolicy(id, update, now) => WritePolicyUpdateValid(s, id, update, now);
        case CreateApiKey(id, name, hash) => InsertKeyValid(s, id, KeyRow(name, hash, true));
        case UpdateApiKey(id, name, enabled) => UpdateKeyValid(s, id, name, enabled);
        case RotateApiKey(id, hash) => RotateKeyValid(s, id, hash);
        case Attach(keyId, policyId, now) => UpsertLinkValid(s, LinkRow(keyId, policyId, true, now));
        case Detach(keyId, policyId) => DeleteLinkValid(s, keyId, policyId);
        case AuditBatch(rows) => InsertAuditValid(s, rows);
        case _ =>
      }
    }
  }

  /** Every store reached by admin operations keeps every constraint. */
  lemma {:induction false} ReachableStoresAreValid(s: Store, ops: seq<Op>)
    requires Valid(s)
    ensures Valid(Run(s, ops))
  {
    if ops != [] {
      ReachableStoresAreValid(s, ops[..|ops| - 1]);
      StepValid(Run(s, ops[..|ops| - 1]), ops[|ops| - 1]);
    }
  }

  lemma {:induction false} RulesKeepAudit(s: Store, id: Id, rules: seq<RuleRequest>, now: nat)
    ensures UpsertRules(s, id, rules, now).Ok? ==> SameAuditRows(s, UpsertRules(s, id, rules, now).value)
  {
    if rules != [] {
      RulesKeepAudit(s, id, rules[..|rules| - 1], now);
    }
  }

  lemma {:induction false} RoutesKeepAudit(s: Store, id: Id, routes: seq<RouteRequest>, now: nat)
    ensures UpsertRoutes(s, id, routes, now).Ok? ==> SameAuditRows(s, UpsertRoutes(s, id, routes, now).value)
  {
    if routes != [] {
      RoutesKeepAudit(s, id, routes[..|routes| - 1], now);
    }
  }

  lemma CreateKeepsAudit(s: Store, id: Id, create: CreateRequest, now: nat)
    ensures CreatePolicy(s, id, create, now).Ok? ==> SameAuditRows(s, CreatePolicy(s, id, create, now).value)
  {
    var first := InsertPolicy(s, id, PolicyRow(create.modelId, create.strategy, create.enabled, now));
    if first.Ok? {
      RulesKeepAudit(first.value, id, create.rules, now);
      if UpsertRules(first.value, id, create.rules, now).Ok? {
        RoutesKeepAudit(UpsertRules(first.value, id, create.rules, now).value, id, create.routes, now);
      }
    }
  }

  lemma DeleteKeepsAuditRows(s: Store, d: Doomed)
    ensures Delete(s, d).Ok? ==> SameAuditRows(s, Delete(s, d).value)
  {
  }

  lemma DeleteOpKeepsAudit(s: Store, op: Op)
    requires IsDelete(op)
    ensures SameAuditRows(s, Step(s, op))
  {
    assert Perform(s, op) == Delete(s, DoomedBy(op));
    DeleteKeepsAuditRows(s, DoomedBy(op));
  }

  lemma EntityOpKeepsAudit(s: Store, op: Op)
    requires !op.AuditBatch? && !IsDelete(op) && !op.CreateMappingPolicy? && !op.UpdateMappingPolicy?
    ensures Perform(s, op).Ok? ==>
          Perform(s, op).value.audit == s.audit && Perform(s, op).value.auditKeys == s.auditKeys
  {
  }

  /** No admin operation adds or removes an audit row. */
  lemma StepKeepsAudit(s: Store, op: Op)
    requires !op.AuditBatch?
    ensures SameAuditRows(s, Step(s, op))
  {
    if IsDelete(op) {
      DeleteOpKeepsAudit(s, op);
    } else if op.CreateMappingPolicy? {
      CreateKeepsAudit(s, op.id, op.create, op.now);
    } else if op.UpdateMappingPolicy? {
      UpdateReplacesExactly(s, op.id, op.update, op.now);
    } else {
      EntityOpKeepsAudit(s, op);
    }
  }

  /** Over any run, an audit row once written is still there with the same contents,
      and with SET NULL on every audit foreign key none ever makes a delete fail. */
  lemma {:induction false} AuditOutlivesEverything(s: Store, ops: seq<Op>)
    ensures forall id :: id in s.audit ==>
              id in Run(s, ops).audit && SameAuditRow(s.audit[id], Run(s, ops).audit[id])
    ensures Run(s, ops).auditKeys == s.auditKeys
    ensures s.auditKeys == ALL_SET_NULL ==> forall d: Doomed :: Delete(Run(s, ops), d).Ok?
  {
    if ops != [] {
      var before, last := Run(s, ops[..|ops| - 1]), ops[|ops| - 1];
      AuditOutlivesEverything(s, ops[..|ops| - 1]);
      if last.AuditBatch? {
        InsertIgnoreGrows(before.audit, last.rows);
      } else {
        StepKeepsAudit(before, last);
      }
    }
  }
}
