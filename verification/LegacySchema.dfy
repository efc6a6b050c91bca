/** The tables of the first schema that the policy migration reads, and its
    constraints. Rows stand in the order in which a scan returns them. */
module LegacySchema {
  import opened MachineInts
  import opened RouteSelection
  import opened Schema

  datatype MappingRow = MappingRow(
    id: Id, modelId: Id, providerModelId: Id, enabled: bool, createdAt: nat)
  datatype ConfigRow = ConfigRow(
    id: Id, keyId: Id, modelId: Id, strategy: Strategy, enabled: bool, createdAt: nat)
  datatype KeyRouteRow = KeyRouteRow(
    configId: Id, mappingId: Id, weight: i32, priority: i32, enabled: bool, createdAt: nat)

  datatype Legacy = Legacy(mappings: seq<MappingRow>, configs: seq<ConfigRow>, routes: seq<KeyRouteRow>)

  /** The tables of the first schema that stay in use. */
  datatype Core = Core(
    models: map<Id, ModelRow>, providers: map<Id, ProviderRow>, providerModels: map<Id, ProviderModelRow>,
    keys: map<Id, KeyRow>, audit: map<u128, AuditRow>, auditKeys: AuditForeignKeys)

  ghost predicate CoreValid(c: Core) {
    Valid(Store(c.models, c.providers, c.providerModels, c.keys, map[], [], [], [], c.audit, c.auditKeys))
  }

  predicate HasMapping(mappings: seq<MappingRow>, id: Id) {
    exists m :: m in mappings && m.id == id
  }

  ghost predicate MappingIdsDiffer(mappings: seq<MappingRow>) {
    forall i, j :: 0 <= i < j < |mappings| ==> mappings[i].id != mappings[j].id
  }

  ghost predicate ConfigIdsDiffer(configs: seq<ConfigRow>) {
    forall i, j :: 0 <= i < j < |configs| ==> configs[i].id != configs[j].id
  }

  ghost predicate MappingsOk(mappings: seq<MappingRow>, core: Core) {
    && MappingIdsDiffer(mappings)
    && (forall i, j :: 0 <= i < j < |mappings| ==>
          !(mappings[i].modelId == mappings[j].modelId && mappings[i].providerModelId == mappings[j].providerModelId))
    && forall m :: m in mappings ==> m.modelId in core.models && m.providerModelId in core.providerModels
  }

  ghost predicate ConfigsOk(configs: seq<ConfigRow>, core: Core) {
    && ConfigIdsDiffer(configs)
    && (forall i, j :: 0 <= i < j < |configs| ==>
          !(configs[i].keyId == configs[j].keyId && configs[i].modelId == configs[j].modelId))
    && forall c :: c in configs ==> c.keyId in core.keys && c.modelId in core.models && !c.strategy.RoundRobin?
  }

  predicate IsConfig(configs: seq<ConfigRow>, id: Id) {
    exists c :: c in configs && c.id == id
  }

  ghost predicate KeyRoutesOk(l: Legacy) {
    && (forall i, j :: 0 <= i < j < |l.routes| ==>
          !(l.routes[i].configId == l.routes[j].configId && l.routes[i].mappingId == l.routes[j].mappingId))
    && forall r :: r in l.routes ==>
         r.weight >= 0 && r.priority >= 0 && IsConfig(l.configs, r.configId) && HasMapping(l.mappings, r.mappingId)
  }

  /** Every primary, unique, foreign key and check constraint of the old tables. */
  ghost predicate LegacyValid(l: Legacy, core: Core) {
    MappingsOk(l.mappings, core) && ConfigsOk(l.configs, core) && KeyRoutesOk(l)
  }
}
