/**
 * Configuration modules (IConfigurationModule) and the two built-in ones, NetworkModule and
 * BaseModule, with the projection prototypes they hand out per scope type.
 */
module ConfigurationModules {
  import opened Wrappers
  import opened Schema
  import opened ScopeTypes
  import Net

  /**
   * A module's private prototype table. NetworkModule keys it by scope type name, BaseModule
   * by scope type; an entry may hold null.
   */
  datatype PrototypeTable =
    | ByScopeName(byName: map<string, Option<Prototype>>)
    | ByScopeType(byType: map<ScopeType, Option<Prototype>>)

  datatype Module = Module(name: string, table: PrototypeTable)

  /** ProvidePrototypeFor: the table entry for the scope type, or null when there is none. */
  function ProvidePrototypeFor(m: Module, t: ScopeType): (r: Option<Prototype>)
    ensures m.table.ByScopeName? ==> r == (if t.name in m.table.byName then m.table.byName[t.name] else None)
    ensures m.table.ByScopeType? ==> r == (if t in m.table.byType then m.table.byType[t] else None)
  {
    match m.table
    case ByScopeName(byName) => if t.name in byName then byName[t.name] else None
    case ByScopeType(byType) => if t in byType then byType[t] else None
  }

  // ---- NetworkModule ----

  const NetworkName := "Network"

  /** The fields of NetworkModule.Master, each with the default a fresh instance holds. */
  const NetworkMasterProperties: map<string, Property> := map[
    "FallbackDNS" := Property(IPAddressType, false, Ip(Net.AnyAddress)),
    "MainInterface" := Property(NetworkInterfaceType, false, Null),
    "DNSZones" := Property(ListType(StringType), false, Items([]))]

  /** The fields of NetworkModule.GuestMachine. */
  const NetworkGuestMachineProperties: map<string, Property> := map[
    "MainInterfacePhysicalAddress" := Property(PhysicalAddressType, false, Mac(Net.NoPhysicalAddress)),
    "FirewallRules" := Property(ListType(FirewallRuleType), false, Items([]))]

  const NetworkMasterPrototype := Prototype("NetworkModule.Master", NetworkMasterProperties, NetworkName)
  const NetworkGuestMachinePrototype := Prototype("NetworkModule.GuestMachine", NetworkGuestMachineProperties, NetworkName)

  /**
   * NetworkModule.Instance as the static initialisers leave it: Instance is created before
   * MasterPrototype and GuestMachinePrototype are assigned, so its table holds two nulls.
   */
  const NetworkModule := Module(NetworkName, ByScopeName(map["Master" := None, "GuestMachine" := None]))

  /** NetworkModule with the table its initialiser was written to hold. */
  const NetworkModuleIntended := Module(NetworkName, ByScopeName(map[
    "Master" := Some(NetworkMasterPrototype),
    "GuestMachine" := Some(NetworkGuestMachinePrototype)]))

  // ---- BaseModule ----

  /** BaseModule.Name as written: the same name as NetworkModule. */
  const BaseNameAsWritten := "Network"

  /** The name BaseModule evidently means to have. */
  const BaseName := "Base"

  const BaseProperties: map<string, Property> := map["HostName" := Property(StringType, false, Str(""))]

  /** BaseModule's prototypes; their Module is BaseModule.Instance, whose name is `moduleName`. */
  function BaseMasterPrototype(moduleName: string): (p: Prototype)
    ensures p.properties == BaseProperties && p.moduleName == moduleName
  {
    Prototype("BaseModule.Master", BaseProperties, moduleName)
  }

  function BaseGuestMachinePrototype(moduleName: string): (p: Prototype)
    ensures p.properties == BaseProperties && p.moduleName == moduleName
  {
    Prototype("BaseModule.GuestMachine", BaseProperties, moduleName)
  }

  /** BaseModule.Instance as written: named "Network", with a table of nulls keyed by scope type. */
  const BaseModule := Module(BaseNameAsWritten, ByScopeType(map[MasterScope := None, GuestMachineScope := None]))

  /** BaseModule as intended: named "Base", with its prototypes in the table. */
  const BaseModuleIntended := Module(BaseName, ByScopeType(map[
    MasterScope := Some(BaseMasterPrototype(BaseName)),
    GuestMachineScope := Some(BaseGuestMachinePrototype(BaseName))]))

  /** As written, neither built-in module provides a prototype for any scope type. */
  lemma {:induction false} BuiltInTablesHoldNulls(t: ScopeType)
    ensures ProvidePrototypeFor(NetworkModule, t) == None
    ensures ProvidePrototypeFor(BaseModule, t) == None
  {
  }

  /**
   * As intended, each built-in module provides its own prototype for each built-in scope type,
   * and that prototype names the module it belongs to.
   */
  lemma {:induction false} IntendedTablesResolve()
    ensures ProvidePrototypeFor(NetworkModuleIntended, MasterScope) == Some(NetworkMasterPrototype)
    ensures ProvidePrototypeFor(NetworkModuleIntended, GuestMachineScope) == Some(NetworkGuestMachinePrototype)
    ensures ProvidePrototypeFor(BaseModuleIntended, MasterScope) == Some(BaseMasterPrototype(BaseName))
    ensures ProvidePrototypeFor(BaseModuleIntended, GuestMachineScope) == Some(BaseGuestMachinePrototype(BaseName))
    ensures forall m, t, p :: m in {NetworkModuleIntended, BaseModuleIntended} && ProvidePrototypeFor(m, t) == Some(p) ==>
      p.moduleName == m.name
  {
  }

  /** Every prototype of the built-in modules declares no property whose default is allowed. */
  lemma {:induction false} BuiltInDefaultsNotAllowed(p: Prototype, k: string)
    requires p in {NetworkMasterPrototype, NetworkGuestMachinePrototype, BaseMasterPrototype(BaseName), BaseGuestMachinePrototype(BaseName)}
    requires k in p.properties
    ensures !p.properties[k].isDefaultValueAllowed && HasType(p.properties[k].defaultValue, p.properties[k].propType)
  {
  }
}
