/**
 * ConfigurationScopeTypeRegistry and ConfigurationModuleRegistry: dictionaries from name to
 * scope type or module. Nothing is ever removed, so the values enumerate in insertion order,
 * which is how the model stores them.
 */
module Registries {
  import opened Wrappers
  import opened ScopeTypes
  import opened ConfigurationModules

  datatype RegistryError = DuplicateName | UnknownName

  /** The registered scope type called `name`. */
  function FindScopeType(types: seq<ScopeType>, name: string): (r: Option<ScopeType>)
    ensures r.Some? ==> r.value in types && r.value.name == name
    ensures r.None? <==> forall i :: 0 <= i < |types| ==> types[i].name != name
  {
    if types == [] then None
    else if types[|types| - 1].name == name then Some(types[|types| - 1])
    else FindScopeType(types[..|types| - 1], name)
  }

  /** The registered module called `name`. */
  function FindModule(modules: seq<Module>, name: string): (r: Option<Module>)
    ensures r.Some? ==> r.value in modules && r.value.name == name
    ensures r.None? <==> forall i :: 0 <= i < |modules| ==> modules[i].name != name
  {
    if modules == [] then None
    else if modules[|modules| - 1].name == name then Some(modules[|modules| - 1])
    else FindModule(modules[..|modules| - 1], name)
  }

  /** Dictionary.Add on the scope type table: a second entry with the same name throws. */
  function RegisterScopeType(types: seq<ScopeType>, t: ScopeType): (r: Result<seq<ScopeType>, RegistryError>)
    ensures r.Ok? <==> FindScopeType(types, t.name).None?
    ensures r.Ok? ==> FindScopeType(r.value, t.name) == Some(t)
    ensures r.Ok? ==> forall n :: n != t.name ==> FindScopeType(r.value, n) == FindScopeType(types, n)
  {
    if FindScopeType(types, t.name).Some? then Err(DuplicateName) else Ok(types + [t])
  }

  /** Dictionary.Add on the module table: a second module with the same name throws. */
  function RegisterModule(modules: seq<Module>, m: Module): (r: Result<seq<Module>, RegistryError>)
    ensures r.Ok? <==> FindModule(modules, m.name).None?
    ensures r.Ok? ==> FindModule(r.value, m.name) == Some(m)
    ensures r.Ok? ==> forall n :: n != m.name ==> FindModule(r.value, n) == FindModule(modules, n)
  {
    if FindModule(modules, m.name).Some? then Err(DuplicateName)
    else
      var r := modules + [m];
      assert r[..|r| - 1] == modules;
      Ok(r)
  }

  /** Names are unique in a registry. */
  ghost predicate UniqueScopeTypeNames(types: seq<ScopeType>)
  {
    forall i, j :: 0 <= i < j < |types| ==> types[i].name != types[j].name
  }

  ghost predicate UniqueModuleNames(modules: seq<Module>)
  {
    forall i, j :: 0 <= i < j < |modules| ==> modules[i].name != modules[j].name
  }

  class ScopeTypeRegistry {
    var types: seq<ScopeType>

    ghost predicate Valid()
      reads this
    {
      UniqueScopeTypeNames(types)
    }

    constructor()
      ensures Valid() && types == []
    {
      types := [];
    }

    /** Register: adds the type under its name; a name already taken throws and changes nothing. */
    method Register(t: ScopeType) returns (r: Outcome<RegistryError>)
      requires Valid()
      modifies this
      ensures Valid()
      ensures r.Pass? <==> FindScopeType(old(types), t.name).None?
      ensures types == match RegisterScopeType(old(types), t) case Ok(ts) => ts case Err(_) => old(types)
    {
      match RegisterScopeType(types, t)
      case Ok(ts) =>
        types := ts;
        r := Pass;
      case Err(e) =>
        r := Fail(e);
    }

    /** ListAll: the registered types in registration order. */
    function ListAll(): (r: seq<ScopeType>)
      reads this
      ensures forall t :: t in r <==> t in types
    {
      types
    }

    /** GetByName: the type registered under the name; throws for an unknown name. */
    function GetByName(name: string): (r: Result<ScopeType, RegistryError>)
      reads this
      ensures r.Ok? ==> r.value in types && r.value.name == name
      ensures r.Err? <==> forall i :: 0 <= i < |types| ==> types[i].name != name
    {
      match FindScopeType(types, name)
      case Some(t) => Ok(t)
      case None => Err(UnknownName)
    }
  }

  class ModuleRegistry {
    var modules: seq<Module>

    ghost predicate Valid()
      reads this
    {
      UniqueModuleNames(modules)
    }

    constructor()
      ensures Valid() && modules == []
    {
      modules := [];
    }

    /** Register: adds the module under its name; a name already taken throws and changes nothing. */
    method Register(m: Module) returns (r: Outcome<RegistryError>)
      requires Valid()
      modifies this
      ensures Valid()
      ensures r.Pass? <==> FindModule(old(modules), m.name).None?
      ensures modules == match RegisterModule(old(modules), m) case Ok(ms) => ms case Err(_) => old(modules)
    {
      match RegisterModule(modules, m)
      case Ok(ms) =>
        modules := ms;
        r := Pass;
      case Err(e) =>
        r := Fail(e);
    }

    function ListAll(): (r: seq<Module>)
      reads this
      ensures forall m :: m in r <==> m in modules
    {
      modules
    }

    function GetByName(name: string): (r: Result<Module, RegistryError>)
      reads this
      ensures r.Ok? ==> r.value in modules && r.value.name == name
      ensures r.Err? <==> forall i :: 0 <= i < |modules| ==> modules[i].name != name
    {
      match FindModule(modules, name)
      case Some(m) => Ok(m)
      case None => Err(UnknownName)
    }
  }

  /**
   * The service registers BaseModule and then NetworkModule. As written both are named
   * "Network", so the second registration throws.
   */
  lemma {:induction false} RegisteringBuiltInModulesFails()
    ensures RegisterModule([], BaseModule).Ok?
    ensures RegisterModule(RegisterModule([], BaseModule).value, NetworkModule) == Err(DuplicateName)
  {
    assert FindModule([BaseModule], NetworkModule.name) == Some(BaseModule);
  }

  /** With BaseModule named "Base", both register and each name finds its own module. */
  lemma {:induction false} RegisteringIntendedModules()
    ensures RegisterModule([], BaseModuleIntended).Ok?
    ensures RegisterModule(RegisterModule([], BaseModuleIntended).value, NetworkModuleIntended).Ok?
    ensures var ms := RegisterModule(RegisterModule([], BaseModuleIntended).value, NetworkModuleIntended).value;
      FindModule(ms, "Base") == Some(BaseModuleIntended) && FindModule(ms, "Network") == Some(NetworkModuleIntended)
  {
    var ms := [BaseModuleIntended, NetworkModuleIntended];
    assert ms[..1] == [BaseModuleIntended];
    assert FindModule([BaseModuleIntended], "Network") == None;
  }

  /** Registering the two built-in scope types succeeds; each name finds its type. */
  lemma {:induction false} RegisteringBuiltInScopeTypes()
    ensures RegisterScopeType([], MasterScope).Ok?
    ensures RegisterScopeType([MasterScope], GuestMachineScope) == Ok([MasterScope, GuestMachineScope])
    ensures FindScopeType([MasterScope, GuestMachineScope], "Master") == Some(MasterScope)
    ensures FindScopeType([MasterScope, GuestMachineScope], "GuestMachine") == Some(GuestMachineScope)
  {
    assert [MasterScope, GuestMachineScope][..1] == [MasterScope];
    assert FindScopeType([MasterScope], "GuestMachine") == None;
    assert [MasterScope] + [GuestMachineScope] == [MasterScope, GuestMachineScope];
  }
}
