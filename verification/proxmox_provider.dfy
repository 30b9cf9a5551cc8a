/**
 * The Proxmox-based configuration provider: it reads the guest-machine config files of a
 * Proxmox host (containers, then virtual machines), turns each into a GuestMachine scope with
 * a Base projection (host name) and a Network projection (MAC address), and watches the two
 * directories through a tracker.
 */
module ProxmoxProvider {
  import opened Wrappers
  import opened Text
  import opened Net
  import opened GuestMachines
  import opened Schema
  import opened ScopeTypes
  import opened PartTables
  import opened ConfigurationBuilders
  import ConfigurationModules
  import opened Sequences

  /** GMGroupFetchOptions: where a group's files live and which options name the MAC and host name. */
  datatype GroupOptions = GroupOptions(
    directorySubPath: string,
    networkOptionName: string,
    networkParameterName: string,
    nameParameterName: string)

  const PVEDirectoryBasePath := "/etc/pve"

  /** The defaults for QEMU virtual machines. */
  const VirtualMachines := GroupOptions("qemu-server", "net0", "virtio", "name")

  /** The defaults for LXC containers. */
  const Containers := GroupOptions("lxc", "net0", "hwaddr", "hostname")

  /**
   * One "*.conf" file of a group directory: its name without extension and its lines,
   * or None when reading it fails.
   */
  datatype ConfigFile = ConfigFile(stem: string, lines: Option<seq<string>>)

  /** What one config file yields. */
  datatype GuestRecord = GuestRecord(id: GuestMachineId, hostName: string, hwaddr: PhysicalAddress)

  /** The step of the per-file parse that threw. */
  datatype ParseError =
    | BadFileName        // byte.Parse of the file name
    | ReservedId         // the GuestMachineId constructor
    | Unreadable         // File.ReadAllLinesAsync
    | NoNetworkOption    // First(StartsWith(NetworkOptionName))
    | NoNetworkToken     // Split(' ')[1]
    | NoAddressParameter // First(StartsWith(NetworkParameterName))
    | NoAddressValue     // Split('=')[1]
    | BadAddress         // PhysicalAddress.Parse
    | NoNameOption       // First(StartsWith(NameParameterName))
    | NoNameToken        // Split(' ')[1]

  /** The machine's MAC address and host name, read from its lines by the steps of FetchGMGroupAsync. */
  function ParseLines(opts: GroupOptions, id: GuestMachineId, lines: seq<string>): (r: Result<GuestRecord, ParseError>)
    ensures r.Ok? ==> r.value.id == id && ' ' !in r.value.hostName
    ensures FirstWithPrefix(lines, opts.networkOptionName).None? ==> r == Err(NoNetworkOption)
    ensures FirstWithPrefix(lines, opts.nameParameterName).None? ==> r.Err?
  {
    match ReadAddress(opts, lines)
    case Err(e) => Err(e)
    case Ok(hwaddr) =>
      match ReadName(opts, lines)
      case Err(e) => Err(e)
      case Ok(name) => Ok(GuestRecord(id, name, hwaddr))
  }

  /** The MAC address: the network option's second token, its parameter's value, parsed. */
  function ReadAddress(opts: GroupOptions, lines: seq<string>): (r: Result<PhysicalAddress, ParseError>)
    ensures FirstWithPrefix(lines, opts.networkOptionName).None? ==> r == Err(NoNetworkOption)
  {
    match FirstWithPrefix(lines, opts.networkOptionName)
    case None => Err(NoNetworkOption)
    case Some(i) =>
      match SecondPiece(lines[i], ' ')
      case None => Err(NoNetworkToken)
      case Some(netToken) => ReadAddressParameter(opts.networkParameterName, netToken)
  }

  /** The address within the network token: the comma-separated parameter's value, parsed. */
  function ReadAddressParameter(parameterName: string, netToken: string): (r: Result<PhysicalAddress, ParseError>)
    ensures r == Err(NoAddressParameter) ==>
      forall j :: 0 <= j < |Split(netToken, ',')| ==> !StartsWith(Split(netToken, ',')[j], parameterName)
    ensures (forall j :: 0 <= j < |Split(netToken, ',')| ==> !StartsWith(Split(netToken, ',')[j], parameterName)) ==>
      r == Err(NoAddressParameter)
    ensures r.Ok? ==> exists j :: 0 <= j < |Split(netToken, ',')| && StartsWith(Split(netToken, ',')[j], parameterName) &&
                                  SecondPiece(Split(netToken, ',')[j], '=').Some? &&
                                  ParsePhysicalAddress(SecondPiece(Split(netToken, ',')[j], '=').value) == Some(r.value)
  {
    var parameters := Split(netToken, ',');
    match FirstWithPrefix(parameters, parameterName)
    case None => Err(NoAddressParameter)
    case Some(j) =>
      assert StartsWith(parameters[j], parameterName);
      match SecondPiece(parameters[j], '=')
      case None => Err(NoAddressValue)
      case Some(text) =>
        match ParsePhysicalAddress(text)
        case None => Err(BadAddress)
        case Some(hwaddr) => Ok(hwaddr)
  }

  /** The host name: the name option's second token. */
  function ReadName(opts: GroupOptions, lines: seq<string>): (r: Result<string, ParseError>)
    ensures r.Ok? ==> ' ' !in r.value
    ensures FirstWithPrefix(lines, opts.nameParameterName).None? ==> r == Err(NoNameOption)
  {
    match FirstWithPrefix(lines, opts.nameParameterName)
    case None => Err(NoNameOption)
    case Some(k) =>
      match SecondPiece(lines[k], ' ')
      case None => Err(NoNameToken)
      case Some(name) => Ok(name)
  }


  /**
   * The parse of one config file: the id comes from the file name (byte.Parse, then the
   * GuestMachineId constructor), before the file is read.
   */
  function ParseConfig(opts: GroupOptions, f: ConfigFile): (r: Result<GuestRecord, ParseError>)
    ensures ParseByte(f.stem).None? ==> r == Err(BadFileName)
    ensures ParseByte(f.stem).Some? && 3 <= ParseByte(f.stem).value < 100 ==> r == Err(ReservedId)
    ensures r.Ok? ==> ParseByte(f.stem) == Some(r.value.id.Id()) && f.lines.Some?
    ensures r.Ok? ==> r == ParseLines(opts, r.value.id, f.lines.value)
  {
    match ParseByte(f.stem)
    case None => Err(BadFileName)
    case Some(b) =>
      match New(b)
      case Err(_) => Err(ReservedId)
      case Ok(id) =>
        match f.lines
        case None => Err(Unreadable)
        case Some(lines) => ParseLines(opts, id, lines)
  }

  /** The two lines of a config file that carry what the provider reads. */
  function ConfigLines(opts: GroupOptions, g: GuestRecord): seq<string>
  {
    [opts.networkOptionName + ": " + opts.networkParameterName + "=" + ColonText(g.hwaddr.bytes),
     opts.nameParameterName + ": " + g.hostName]
  }

  /** The file a Proxmox host keeps for a machine: named by its id, holding its two lines. */
  function ConfigFileOf(opts: GroupOptions, g: GuestRecord): ConfigFile
  {
    ConfigFile(DecimalString(g.id.Id()), Some(ConfigLines(opts, g)))
  }

  lemma {:induction false} SplitOptionLine(name: string, value: string)
    requires ' ' !in name && ' ' !in value
    ensures Split(name + ": " + value, ' ') == [name + ":", value]
  {
    assert name + ": " + value == (name + ":") + [' '] + value;
    SplitPair(name + ":", ' ', value);
  }

  /** The text after "<parameter>=" in a comma-free token, read as an address written in the colon form. */
  lemma {:induction false} ReadAddressToken(parameter: string, bytes: seq<uint8>)
    requires ',' !in parameter && '=' !in parameter
    ensures var token := parameter + "=" + ColonText(bytes);
      Split(token, ',') == [token] && SecondPiece(token, '=') == Some(ColonText(bytes)) &&
      ParsePhysicalAddress(ColonText(bytes)) == Some(PhysicalAddress(bytes))
    ensures var token := parameter + "=" + ColonText(bytes);
      ReadAddressParameter(parameter, token) == Ok(PhysicalAddress(bytes))
  {
    var mac := ColonText(bytes);
    ColonTextSeparatorFree(bytes);
    var token := parameter + "=" + mac;
    assert token == parameter + ['='] + mac;
    SplitWithoutSeparator(token, ',');
    SplitPair(parameter, '=', mac);
    ParseColonText(bytes);
    assert StartsWith(token, parameter);
    assert FirstWithPrefix([token], parameter) == Some(0);
  }

  /** In the written lines the network option is found first, and its second token is "<parameter>=<address>". */
  lemma {:induction false} FindWrittenNetworkOption(opts: GroupOptions, g: GuestRecord)
    requires opts == Containers || opts == VirtualMachines
    ensures var lines := ConfigLines(opts, g);
      FirstWithPrefix(lines, opts.networkOptionName) == Some(0) &&
      SecondPiece(lines[0], ' ') == Some(opts.networkParameterName + "=" + ColonText(g.hwaddr.bytes))
  {
    var token := opts.networkParameterName + "=" + ColonText(g.hwaddr.bytes);
    NetworkTokenSpaceFree(opts, g);
    NetworkLineIs(opts, g);
    var lines := ConfigLines(opts, g);
    assert StartsWith(lines[0], opts.networkOptionName);
    SplitOptionLine(opts.networkOptionName, token);
  }

  /** The first written line is the option name, ": ", then the token. */
  lemma {:induction false} NetworkLineIs(opts: GroupOptions, g: GuestRecord)
    ensures ConfigLines(opts, g)[0] ==
      opts.networkOptionName + ": " + (opts.networkParameterName + "=" + ColonText(g.hwaddr.bytes))
  {
    var a, b := opts.networkOptionName + ": ", opts.networkParameterName + "=";
    ConcatAssoc(a, b, ColonText(g.hwaddr.bytes));
  }

  /** The colon form of an address holds no space, comma or equals sign. */
  lemma {:induction false} ColonTextSeparatorFree(bytes: seq<uint8>)
    ensures ' ' !in ColonText(bytes) && ',' !in ColonText(bytes) && '=' !in ColonText(bytes)
  {
    var mac := ColonText(bytes);
    forall i | 0 <= i < |mac| ensures mac[i] != ' ' && mac[i] != ',' && mac[i] != '=' {
    }
  }

  /** The "<parameter>=<address>" token of the written network line holds no space. */
  lemma {:induction false} NetworkTokenSpaceFree(opts: GroupOptions, g: GuestRecord)
    requires opts == Containers || opts == VirtualMachines
    ensures ' ' !in opts.networkParameterName + "=" + ColonText(g.hwaddr.bytes)
  {
    ParameterNamePlain(opts);
    NotInConcat(opts.networkParameterName, "=", ' ');
    ColonTextSeparatorFree(g.hwaddr.bytes);
    NotInConcat(opts.networkParameterName + "=", ColonText(g.hwaddr.bytes), ' ');
  }

  /** In the written lines the name option is the second line, and its second token is the host name. */
  lemma {:induction false} FindWrittenNameOption(opts: GroupOptions, g: GuestRecord)
    requires opts == Containers || opts == VirtualMachines
    requires ' ' !in g.hostName
    ensures var lines := ConfigLines(opts, g);
      FirstWithPrefix(lines, opts.nameParameterName) == Some(1) &&
      SecondPiece(lines[1], ' ') == Some(g.hostName)
  {
    var lines := ConfigLines(opts, g);
    assert lines[1] == opts.nameParameterName + (": " + g.hostName);
    assert StartsWith(lines[1], opts.nameParameterName);
    NetworkLineIsNotName(opts, g);
    SplitOptionLine(opts.nameParameterName, g.hostName);
  }

  /** The network line does not start with the name option: "net0" differs from "hostname" and from "name". */
  lemma {:induction false} NetworkLineIsNotName(opts: GroupOptions, g: GuestRecord)
    requires opts == Containers || opts == VirtualMachines
    ensures !StartsWith(ConfigLines(opts, g)[0], opts.nameParameterName)
  {
    var line := ConfigLines(opts, g)[0];
    var head := opts.networkOptionName + ": ";
    assert line == head + (opts.networkParameterName + "=" + ColonText(g.hwaddr.bytes)) by {
      NetworkLineIs(opts, g);
    }
    assert line[0] == head[0] == 'n' && line[1] == head[1] == 'e';
    if opts == Containers {
      assert opts.nameParameterName[0] == 'h';
    } else {
      assert opts.nameParameterName[1] == 'a';
    }
  }

  /** The lines written for a machine, read back by ParseLines. */
  lemma {:induction false} ParseWrittenLines(opts: GroupOptions, g: GuestRecord)
    requires opts == Containers || opts == VirtualMachines
    requires ' ' !in g.hostName
    ensures ParseLines(opts, g.id, ConfigLines(opts, g)) == Ok(g)
  {
    ReadWrittenAddress(opts, g);
    FindWrittenNameOption(opts, g);
  }

  /** The address read from the written lines is the machine's. */
  lemma {:induction false} ReadWrittenAddress(opts: GroupOptions, g: GuestRecord)
    requires opts == Containers || opts == VirtualMachines
    ensures ReadAddress(opts, ConfigLines(opts, g)) == Ok(g.hwaddr)
  {
    FindWrittenNetworkOption(opts, g);
    ParameterNamePlain(opts);
    ReadAddressToken(opts.networkParameterName, g.hwaddr.bytes);
  }

  /** The default network parameter names hold no separator. */
  lemma {:induction false} ParameterNamePlain(opts: GroupOptions)
    requires opts == Containers || opts == VirtualMachines
    ensures ' ' !in opts.networkParameterName && ',' !in opts.networkParameterName && '=' !in opts.networkParameterName
  {
  }

  /**
   * Reading back: with either group's default options, the file written for a machine whose
   * host name has no space parses to that machine.
   */
  lemma {:induction false} ParseWrittenConfig(opts: GroupOptions, g: GuestRecord)
    requires opts == Containers || opts == VirtualMachines
    requires ' ' !in g.hostName
    ensures ParseConfig(opts, ConfigFileOf(opts, g)) == Ok(g)
  {
    ParseByteDecimalString(g.id.Id());
    NewOfId(g.id);
    ParseWrittenLines(opts, g);
  }

  // ---- What a file contributes to the builder ----

  /**
   * BaseModule.GuestMachine { HostName = name }, as a projection of BaseModule's GuestMachine
   * prototype, whose module is named `baseName`.
   */
  function BaseProjection(g: GuestRecord, baseName: string): (p: Projection)
    ensures p.prototype == ConfigurationModules.BaseGuestMachinePrototype(baseName)
    ensures "HostName" in p.data && p.data["HostName"].value == Str(g.hostName)
  {
    ConfigurationModules.BaseGuestMachinePrototype(baseName).CreateProjection(map["HostName" := Str(g.hostName)])
  }

  /** NetworkModule.GuestMachine { MainInterfacePhysicalAddress = hwaddr }, its rule list empty. */
  function NetworkProjection(g: GuestRecord): (p: Projection)
    ensures p.prototype == ConfigurationModules.NetworkGuestMachinePrototype
    ensures "MainInterfacePhysicalAddress" in p.data && p.data["MainInterfacePhysicalAddress"].value == Mac(g.hwaddr)
    ensures "FirewallRules" in p.data && p.data["FirewallRules"].value == Items([])
  {
    ConfigurationModules.NetworkGuestMachinePrototype.CreateProjection(map[
      "MainInterfacePhysicalAddress" := Mac(g.hwaddr), "FirewallRules" := Items([])])
  }

  /**
   * The scopes after one file, with BaseModule named `baseName`: nothing when the parse
   * throws; otherwise the machine's scope is ensured, then the Base and the Network
   * projections are added, the first AddProjection that throws ending the file.
   */
  function FileScopes(scopes: seq<RWScope>, active: Option<ProviderId>, opts: GroupOptions, f: ConfigFile, baseName: string): (r: seq<RWScope>)
    requires ScopesValid(scopes)
    ensures ScopesValid(r)
    ensures ParseConfig(opts, f).Err? ==> r == scopes
    ensures ParseConfig(opts, f).Ok? ==> FindScope(r, GuestMachineScope, MachineKey(ParseConfig(opts, f).value.id)).Some?
  {
    match ParseConfig(opts, f)
    case Err(_) => scopes
    case Ok(g) => MachineScopes(scopes, active, g, baseName)
  }

  /** A parsed file's machine: its scope ensured, then its Base and Network projections added in turn. */
  function MachineScopes(scopes: seq<RWScope>, active: Option<ProviderId>, g: GuestRecord, baseName: string): (r: seq<RWScope>)
    requires ScopesValid(scopes)
    ensures ScopesValid(r)
    ensures FindScope(r, GuestMachineScope, MachineKey(g.id)).Some?
  {
    var key := MachineKey(g.id);
    EnsureScopeKeepsValid(scopes, GuestMachineScope, key);
    ProjectionScopes(EnsureScope(scopes, GuestMachineScope, key), active, g, baseName)
  }

  /** The Base projection, then the Network projection unless the Base one was refused; the scopes stay where they are. */
  function ProjectionScopes(scopes: seq<RWScope>, active: Option<ProviderId>, g: GuestRecord, baseName: string): (r: seq<RWScope>)
    requires ScopesValid(scopes)
    ensures ScopesValid(r)
    ensures FindScope(r, GuestMachineScope, MachineKey(g.id)) == FindScope(scopes, GuestMachineScope, MachineKey(g.id))
  {
    var key := MachineKey(g.id);
    match AddPart(scopes, active, GuestMachineScope, key, BaseProjection(g, baseName))
    case Err(_) => scopes
    case Ok(s2) =>
      AddedScopeStays(scopes, active, key, BaseProjection(g, baseName));
      match AddPart(s2, active, GuestMachineScope, key, NetworkProjection(g))
      case Err(_) => s2
      case Ok(s3) =>
        AddedScopeStays(s2, active, key, NetworkProjection(g));
        s3
  }

  /** AddProjection keeps every scope where it is. */
  lemma {:induction false} AddedScopeStays(scopes: seq<RWScope>, active: Option<ProviderId>, key: ScopeKey, proj: Projection)
    requires ScopesValid(scopes) && AddPart(scopes, active, GuestMachineScope, key, proj).Ok?
    ensures FindScope(AddPart(scopes, active, GuestMachineScope, key, proj).value, GuestMachineScope, key) ==
      FindScope(scopes, GuestMachineScope, key)
  {
    FindScopeByTypesAndKeys(scopes, AddPart(scopes, active, GuestMachineScope, key, proj).value, GuestMachineScope, key);
  }

  /** The scopes after a sequence of files, in enumeration order. */
  function FilesScopes(scopes: seq<RWScope>, active: Option<ProviderId>, opts: GroupOptions, files: seq<ConfigFile>, baseName: string): (r: seq<RWScope>)
    requires ScopesValid(scopes)
    ensures ScopesValid(r)
  {
    if files == [] then scopes
    else FileScopes(FilesScopes(scopes, active, opts, files[..|files| - 1], baseName), active, opts, files[|files| - 1], baseName)
  }

  /** The scopes after a group: unchanged when its directory cannot be enumerated. */
  function GroupScopes(scopes: seq<RWScope>, active: Option<ProviderId>, opts: GroupOptions, dir: Option<seq<ConfigFile>>, baseName: string): (r: seq<RWScope>)
    requires ScopesValid(scopes)
    ensures ScopesValid(r)
  {
    match dir
    case None => scopes
    case Some(files) => FilesScopes(scopes, active, opts, files, baseName)
  }

  /** Files that do not parse contribute nothing, wherever they are in the directory. */
  lemma {:induction false} UnparsableFilesContributeNothing(scopes: seq<RWScope>, active: Option<ProviderId>, opts: GroupOptions,
    files: seq<ConfigFile>, baseName: string)
    requires ScopesValid(scopes)
    requires forall i :: 0 <= i < |files| ==> ParseConfig(opts, files[i]).Err?
    ensures FilesScopes(scopes, active, opts, files, baseName) == scopes
  {
    if files != [] {
      UnparsableFilesContributeNothing(scopes, active, opts, files[..|files| - 1], baseName);
    }
  }

  /**
   * As written (BaseModule named "Network"), the Base projection of a parsed file takes the
   * Network slot, so the file's Network projection is refused as a duplicate part and the
   * machine's MAC address never reaches the builder.
   */
  lemma {:induction false} NetworkProjectionLost(scopes: seq<RWScope>, p: ProviderId, opts: GroupOptions, f: ConfigFile)
    requires ScopesValid(scopes) && ParseConfig(opts, f).Ok?
    requires var g := ParseConfig(opts, f).value; var key := MachineKey(g.id);
      var s1 := EnsureScope(scopes, GuestMachineScope, key);
      AddPart(s1, Some(p), GuestMachineScope, key, BaseProjection(g, ConfigurationModules.BaseNameAsWritten)).Ok?
    ensures var g := ParseConfig(opts, f).value; var key := MachineKey(g.id);
      var s1 := EnsureScope(scopes, GuestMachineScope, key);
      FileScopes(scopes, Some(p), opts, f, ConfigurationModules.BaseNameAsWritten) ==
        AddPart(s1, Some(p), GuestMachineScope, key, BaseProjection(g, ConfigurationModules.BaseNameAsWritten)).value
  {
    var g := ParseConfig(opts, f).value;
    var key := MachineKey(g.id);
    EnsureScopeKeepsValid(scopes, GuestMachineScope, key);
    var s1 := EnsureScope(scopes, GuestMachineScope, key);
    var base := BaseProjection(g, ConfigurationModules.BaseNameAsWritten);
    var s2 := AddPart(s1, Some(p), GuestMachineScope, key, base).value;
    AddPartThenFind(s1, Some(p), GuestMachineScope, key, base);
    AddedScopeStays(s1, Some(p), key, base);
    var i := FindScope(s1, GuestMachineScope, key).value;
    assert SlotFor(s2[i], NetworkProjection(g)).parts == s2[i].projections[ConfigurationModules.NetworkName].parts;
    assert AddPart(s2, Some(p), GuestMachineScope, key, NetworkProjection(g)) == Err(DuplicatePart);
  }

  /**
   * With BaseModule named "Base", a parsed file whose machine has no parts of this provider
   * yet contributes both projections, each in its own slot.
   */
  lemma {:induction false} BothProjectionsAdded(scopes: seq<RWScope>, p: ProviderId, opts: GroupOptions, f: ConfigFile)
    requires ScopesValid(scopes) && ParseConfig(opts, f).Ok?
    requires var key := MachineKey(ParseConfig(opts, f).value.id);
      FindScope(scopes, GuestMachineScope, key).None?
    ensures var g := ParseConfig(opts, f).value; var key := MachineKey(g.id);
      var r := FileScopes(scopes, Some(p), opts, f, ConfigurationModules.BaseName);
      |r| == |scopes| + 1 && r[..|scopes|] == scopes && r[|scopes|].scopeType == GuestMachineScope && r[|scopes|].key == key &&
      r[|scopes|].projections.Keys == {ConfigurationModules.BaseName, ConfigurationModules.NetworkName}
  {
    var g := ParseConfig(opts, f).value;
    var key := MachineKey(g.id);
    EnsureScopeKeepsValid(scopes, GuestMachineScope, key);
    var s1 := EnsureScope(scopes, GuestMachineScope, key);
    assert FindScope(s1, GuestMachineScope, key) == Some(|scopes|);
    BothSlotsFilled(s1, |scopes|, p, g);
    assert s1[..|scopes|] == scopes;
  }

  /** Into a scope with no slots yet, the two projections of a machine go each to its own slot. */
  lemma {:induction false} BothSlotsFilled(scopes: seq<RWScope>, i: nat, p: ProviderId, g: GuestRecord)
    requires ScopesValid(scopes) && FindScope(scopes, GuestMachineScope, MachineKey(g.id)) == Some(i)
    requires scopes[i].projections == map[]
    ensures var r := ProjectionScopes(scopes, Some(p), g, ConfigurationModules.BaseName);
      |r| == |scopes| && (forall j :: 0 <= j < |scopes| && j != i ==> r[j] == scopes[j]) &&
      r[i].scopeType == scopes[i].scopeType && r[i].key == scopes[i].key &&
      r[i].projections.Keys == {ConfigurationModules.BaseName, ConfigurationModules.NetworkName}
  {
    var key := MachineKey(g.id);
    var base := BaseProjection(g, ConfigurationModules.BaseName);
    var s2 := AddPart(scopes, Some(p), GuestMachineScope, key, base).value;
    AddedScopeStays(scopes, Some(p), key, base);
    assert s2[i].projections.Keys == {ConfigurationModules.BaseName};
    assert SlotFor(s2[i], NetworkProjection(g)).parts == EmptyTable;
  }

  // ---- FetchGMGroupAsync and ProvideConfigurationAsync, on the builder ----

  /** The body of the per-file try block, with BaseModule as written. */
  method FetchFile(b: ConfigurationBuilder, opts: GroupOptions, f: ConfigFile)
    requires b.Valid()
    modifies b`scopes, b`snapshot
    ensures b.Valid()
    ensures b.scopes == FileScopes(old(b.scopes), b.activeProvider, opts, f, ConfigurationModules.BaseNameAsWritten)
    ensures b.snapshot == if b.aliased then b.scopes else old(b.snapshot)
  {
    var parsed := ParseConfig(opts, f);
    if parsed.Err? {
      return;
    }
    AddMachine(b, parsed.value);
  }

  /** The rest of the try block once the file has parsed: the scope, then the two projections. */
  method AddMachine(b: ConfigurationBuilder, g: GuestRecord)
    requires b.Valid()
    modifies b`scopes, b`snapshot
    ensures b.Valid()
    ensures b.scopes == MachineScopes(old(b.scopes), b.activeProvider, g, ConfigurationModules.BaseNameAsWritten)
    ensures b.snapshot == if b.aliased then b.scopes else old(b.snapshot)
  {
    b.EnsureScopeCreated(GuestMachineScope, MachineKey(g.id));
    AddProjections(b, g);
  }

  /** The two AddProjection calls; a refused Base projection ends the file. */
  method AddProjections(b: ConfigurationBuilder, g: GuestRecord)
    requires b.Valid()
    modifies b`scopes, b`snapshot
    ensures b.Valid()
    ensures b.scopes == ProjectionScopes(old(b.scopes), b.activeProvider, g, ConfigurationModules.BaseNameAsWritten)
    ensures b.snapshot == if b.aliased then b.scopes else old(b.snapshot)
  {
    var key := MachineKey(g.id);
    var base := b.AddProjection(GuestMachineScope, key, BaseProjection(g, ConfigurationModules.BaseNameAsWritten));
    if base.Fail? {
      return;
    }
    var network := b.AddProjection(GuestMachineScope, key, NetworkProjection(g));
  }

  /** FetchGMGroupAsync: every file of the directory in turn; per-file and per-group failures are swallowed. */
  method FetchGroup(b: ConfigurationBuilder, opts: GroupOptions, dir: Option<seq<ConfigFile>>)
    requires b.Valid()
    modifies b`scopes, b`snapshot
    ensures b.Valid()
    ensures b.scopes == GroupScopes(old(b.scopes), b.activeProvider, opts, dir, ConfigurationModules.BaseNameAsWritten)
    ensures b.snapshot == if b.aliased then b.scopes else old(b.snapshot)
  {
    if dir.None? {
      return;
    }
    var files := dir.value;
    for i := 0 to |files|
      invariant b.Valid()
      invariant b.scopes == FilesScopes(old(b.scopes), b.activeProvider, opts, files[..i], ConfigurationModules.BaseNameAsWritten)
      invariant b.snapshot == if b.aliased then b.scopes else old(b.snapshot)
    {
      assert files[..i + 1][..i] == files[..i];
      FetchFile(b, opts, files[i]);
    }
    assert files[..|files|] == files;
  }

  /** ProvideConfigurationAsync: containers first, then virtual machines; it never throws. */
  method ProvideConfiguration(b: ConfigurationBuilder, containers: Option<seq<ConfigFile>>, machines: Option<seq<ConfigFile>>)
    requires b.Valid()
    modifies b`scopes, b`snapshot
    ensures b.Valid()
    ensures b.scopes == GroupScopes(GroupScopes(old(b.scopes), b.activeProvider, Containers, containers, ConfigurationModules.BaseNameAsWritten),
      b.activeProvider, VirtualMachines, machines, ConfigurationModules.BaseNameAsWritten)
    ensures b.snapshot == if b.aliased then b.scopes else old(b.snapshot)
  {
    FetchGroup(b, Containers, containers);
    FetchGroup(b, VirtualMachines, machines);
  }

  // ---- The tracker ----

  /** The FileSystemWatcher events. */
  datatype FileEvent = Changed | Created | Deleted | Renamed

  /** The events Init subscribes WatcherFileChanged to on each watcher: Created twice. */
  const Subscriptions: seq<FileEvent> := [Changed, Created, Created, Deleted]

  /** How many of the subscriptions are to event `e`. */
  function Count(evs: seq<FileEvent>, e: FileEvent): (n: nat)
    ensures n <= |evs|
    ensures n == 0 <==> e !in evs
  {
    if evs == [] then 0 else (if evs[0] == e then 1 else 0) + Count(evs[1..], e)
  }

  /** The dispatcher's callback, identified by the dispatcher that owns it. */
  type CallbackId = nat

  /** The tracker of one provider: its watchers' subscriptions, its callback and its switch. */
  class Tracker {
    const owner: ProviderId
    /** Per watcher, the events WatcherFileChanged is subscribed to. */
    var handlers: seq<seq<FileEvent>>
    /** Per watcher, its EnableRaisingEvents: a new FileSystemWatcher raises no event until it is set. */
    var raising: seq<bool>
    var callback: Option<CallbackId>
    var enabled: bool

    constructor(owner: ProviderId, watchers: nat)
      ensures this.owner == owner && |handlers| == watchers && |raising| == watchers
      ensures forall w :: 0 <= w < watchers ==> handlers[w] == [] && !raising[w]
      ensures callback == None && !enabled
    {
      this.owner := owner;
      handlers := seq(watchers, _ => []);
      raising := seq(watchers, _ => false);
      callback := None;
      enabled := false;
    }

    /** Init: each watcher gets the subscriptions of WatcherFileChanged. */
    method Init()
      modifies this`handlers
      ensures |handlers| == |old(handlers)|
      ensures forall w :: 0 <= w < |handlers| ==> handlers[w] == old(handlers[w]) + Subscriptions
    {
      for w := 0 to |handlers|
        invariant |handlers| == |old(handlers)|
        invariant forall v :: 0 <= v < w ==> handlers[v] == old(handlers[v]) + Subscriptions
        invariant forall v :: w <= v < |handlers| ==> handlers[v] == old(handlers[v])
      {
        handlers := handlers[w := handlers[w] + Subscriptions];
      }
    }

    /** Sets EnableRaisingEvents on every watcher. */
    method EnableRaising()
      modifies this`raising
      ensures |raising| == |old(raising)|
      ensures forall w :: 0 <= w < |raising| ==> raising[w]
    {
      raising := seq(|raising|, _ => true);
    }

    method SetCallback(c: CallbackId)
      modifies this`callback
      ensures callback == Some(c)
    {
      callback := Some(c);
    }

    method StartTracking()
      modifies this`enabled
      ensures enabled
    {
      enabled := true;
    }

    method StopTracking()
      modifies this`enabled
      ensures !enabled
    {
      enabled := false;
    }

    /**
     * Event `e` on watcher `w`: a watcher that raises events runs every subscription to it,
     * and WatcherFileChanged invokes the callback with the owner only while enabled and a
     * callback is set.
     */
    function Raise(w: nat, e: FileEvent): (calls: seq<(CallbackId, ProviderId)>)
      reads this
      requires w < |handlers| && w < |raising|
      ensures !raising[w] || !enabled || callback.None? ==> calls == []
      ensures raising[w] && enabled && callback.Some? ==>
        |calls| == Count(handlers[w], e) && forall i :: 0 <= i < |calls| ==> calls[i] == (callback.value, owner)
    {
      if raising[w] && enabled && callback.Some? then
        var call := (callback.value, owner);
        seq(Count(handlers[w], e), _ => call)
      else []
    }
  }

  /**
   * CreateTracker as written: a tracker over the two group directories, initialised, whose
   * watchers are never told to raise events.
   */
  method CreateTrackerAsWritten(owner: ProviderId) returns (t: Tracker)
    ensures fresh(t) && t.owner == owner && |t.handlers| == 2 && |t.raising| == 2
    ensures forall w :: 0 <= w < 2 ==> t.handlers[w] == Subscriptions && !t.raising[w]
    ensures t.callback == None && !t.enabled
  {
    t := new Tracker(owner, 2);
    t.Init();
  }

  /**
   * With the watchers as CreateTrackerAsWritten leaves them, a tracker whose callback is set
   * and whose tracking is started still invokes nothing, whatever happens in the directories.
   */
  method AsWrittenTrackerIsSilent(owner: ProviderId, c: CallbackId) returns (t: Tracker)
    ensures |t.handlers| == 2 && |t.raising| == 2 && t.enabled && t.callback == Some(c)
    ensures forall w: nat, e: FileEvent :: w < 2 ==> t.Raise(w, e) == []
  {
    t := CreateTrackerAsWritten(owner);
    t.SetCallback(c);
    t.StartTracking();
  }

  /** CreateTracker: a tracker over the two group directories, initialised, its watchers raising events. */
  method CreateTracker(owner: ProviderId) returns (t: Tracker)
    ensures fresh(t) && t.owner == owner && |t.handlers| == 2 && |t.raising| == 2
    ensures forall w :: 0 <= w < 2 ==> t.handlers[w] == Subscriptions && t.raising[w]
    ensures t.callback == None && !t.enabled
  {
    t := new Tracker(owner, 2);
    t.Init();
    t.EnableRaising();
  }

  /**
   * Once its callback is set and tracking started, a file created in a watched directory
   * runs the callback twice, a change or deletion once and a rename not at all; after
   * StopTracking nothing runs it.
   */
  method CreatedFiresTwice(owner: ProviderId, c: CallbackId) returns (t: Tracker)
    ensures |t.handlers| == 2 && |t.raising| == 2
    ensures t.Raise(0, Created) == [(c, owner), (c, owner)]
    ensures t.Raise(1, Changed) == [(c, owner)] && t.Raise(1, Deleted) == [(c, owner)]
    ensures t.Raise(0, Renamed) == []
  {
    t := CreateTracker(owner);
    t.SetCallback(c);
    t.StartTracking();
  }

  /** After StopTracking no event invokes the callback. */
  method StoppedTrackerIsSilent(t: Tracker, w: nat, e: FileEvent)
    requires w < |t.handlers| && w < |t.raising|
    modifies t`enabled
    ensures t.Raise(w, e) == []
  {
    t.StopTracking();
  }
}
