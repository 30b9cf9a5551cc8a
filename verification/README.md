# GLNetTools configuration core in Dafny

GLNetTools configures the network of a Proxmox host. It runs a configuration provider
service and one or more network services. The model covers:

- **Typed, multi-provider configuration store.** Configuration modules ("Network", "Base")
  describe their properties for each scope type ("Master", "GuestMachine").
  - A *projection* holds one value per property of a module's prototype.
    `CreateProjection` fills in the defaults.
  - Several providers may contribute projections for the same (scope, module) slot.
    `DefaultBehavior.PerformSum` merges them: lists are concatenated; for a scalar, the
    first value that differs from the default wins.
- **Transactional builder** (`ConfigurationBuilder`). It keeps a list of scopes. Each scope
  has per-module slots, and each slot is a dictionary from provider to part. The builder
  supports add, sweep by provider, snapshot, rollback and build.
- **Holder and dispatcher**, run sequentially.
  - `ConfigurationHolder` publishes builds and fires one-shot waiters.
  - `ConfigurationProviderDispatcher` runs the initial load, the tracker lifecycle and the
    snapshot → sweep → re-fetch → rollback-on-failure cycle.
- **Distribution.**
  - The query filters of `WebController`.
  - The `"Type:key"` / `"#Version"` JSON encoding of a configuration, over an abstract
    JSON tree.
- **Smaller parts.**
  - Guest machine ids and firewall rules with context substitution.
  - The iptables argument lists of `FirewallManager`.
  - The Proxmox config-file parser and its file tracker.
  - The older `ServiceConfigurationBuilder`.
  - The IPC `PropertyObjectValue` and the handshake and event framing of
    `DefaultCommunicationAgent`.

## How the model is organised

The model follows the source's own form, file by file:

- **Pure records and LINQ expressions** become datatypes and functions.
  - `Schema`, `Configuration`, `DefaultBehavior`, `ScopeTypes`, `ConfigurationModules`,
    `WebControllers`, `JsonSerialization`.
- **Classes whose fields the source reassigns** become Dafny classes with `modifies`
  clauses. Each of their methods is tied to a specification function on sequences and maps.
  - The builder: `ConfigurationBuilders.ConfigurationBuilder` over `AddPart`, `RemoveParts`,
    `SnapshotOf` and `BuildScopes`.
  - The registries, the holder, the dispatcher and the Proxmox tracker.
  - The firewall manager, the service configuration builder and the communication agent.
    The agent's buffer is an `array`.
- **.NET `Dictionary`** is modelled in `PartTables` with its enumeration order: entries in
  slots plus a free list.
  - A removed entry's slot is reused by the next `Add`.
  - `ToDictionary` compacts the table.
  - This order decides which provider's scalar wins in a sum, so it is modelled rather
    than assumed.
- **Exceptions** become `Result`/`Outcome` values. A method that throws after a partial
  update states the partial update in its `ensures`.

## Model

| member | source | states |
|---|---|---|
| Text.DecimalString | GLNetTools.Common/Configuration/BuiltIn/BuiltInScopeTypes.cs:6 | the decimal text of a number is a nonempty run of digits without a leading zero (except "0") |
| Text.ParseDecimal | GLNetTools.Common/Configuration/BuiltIn/BuiltInScopeTypes.cs:6 | a number is read exactly from nonempty all-digit text |
| Text.ParseSigned | GLNetTools.Common/Configuration/BuiltIn/BuiltInScopeTypes.cs:6 | after an optional sign, nonempty digits below 256 are read as their value |
| Text.ParseByte | GLNetTools.Common/Configuration/BuiltIn/BuiltInScopeTypes.cs:6 | byte.Parse with NumberStyles.Integer: on bare digits it succeeds iff their value is below 256, and returns that value |
| Text.TrimWhiteSplit | GLNetTools.Common/Configuration/BuiltIn/BuiltInScopeTypes.cs:6 | the text is leading white space, the trimmed text, then trailing white space |
| Text.TrimStartSplit | GLNetTools.Common/Configuration/BuiltIn/BuiltInScopeTypes.cs:6 | trimming the start drops only white space |
| Text.TrimEndSplit | GLNetTools.Common/Configuration/BuiltIn/BuiltInScopeTypes.cs:6 | trimming the end drops only white space |
| Text.TrimStartLead | GLNetTools.Common/Configuration/BuiltIn/BuiltInScopeTypes.cs:6 | leading white space does not change the trimmed start |
| Text.TrimEndTrail | GLNetTools.Common/Configuration/BuiltIn/BuiltInScopeTypes.cs:6 | trailing white space does not change the trimmed end |
| Text.TrimWhiteOfParts | GLNetTools.Common/Configuration/BuiltIn/BuiltInScopeTypes.cs:6 | white space around text that neither starts nor ends with white space is trimmed off exactly |
| Text.ParseSignedOfParts | GLNetTools.Common/Configuration/BuiltIn/BuiltInScopeTypes.cs:6 | "+" or no sign before digits, or "-" before a zero value, reads as the digits' value |
| Text.ParseSignedSplit | GLNetTools.Common/Configuration/BuiltIn/BuiltInScopeTypes.cs:6 | whatever the sign stage accepts is a sign and digits with that value, "-" only for zero |
| Text.ParseByteOfParts | GLNetTools.Common/Configuration/BuiltIn/BuiltInScopeTypes.cs:6 | every white space, sign, digits, white space text within range parses to the digits' value |
| Text.ParseByteParts | GLNetTools.Common/Configuration/BuiltIn/BuiltInScopeTypes.cs:6 | every text byte.Parse accepts has that form, with the value returned |
| Text.ParseByteOfDecimal | GLNetTools.Common/Configuration/BuiltIn/BuiltInScopeTypes.cs:6 | a byte's decimal text reads back with any surrounding white space and an optional "+" |
| Text.ParseByteRefusesNegative | GLNetTools.Common/Configuration/BuiltIn/BuiltInScopeTypes.cs:6 | a minus sign before a nonzero value is refused |
| Text.DigitsOfDecimalString | GLNetTools.Common/Configuration/BuiltIn/BuiltInScopeTypes.cs:6 | the digits of a formatted number denote that number |
| Text.ParseDecimalString | GLNetTools.Common/Configuration/BuiltIn/BuiltInScopeTypes.cs:6 | formatting then parsing a number gives it back |
| Text.ParseByteDecimalString | GLNetTools.Common/Configuration/BuiltIn/BuiltInScopeTypes.cs:6 | byte.Parse of the text of a byte gives that byte |
| Text.Split | GLNetTools.ConfigurationProviderService/WebController.cs:72 | string.Split yields at least one piece and no piece holds the separator |
| Text.JoinSplit | GLNetTools.ConfigurationProviderService/WebController.cs:72 | joining the pieces of a split with the separator gives the original text |
| Text.SplitWithoutSeparator | GLNetTools.ConfigurationProviderService/WebController.cs:72 | text without the separator splits into itself alone |
| Text.SplitAfterPiece | GLNetTools.ConfigurationProviderService/WebController.cs:72 | a separator after separator-free text ends the first piece there |
| Text.SplitPair | GLNetTools.ConfigurationProviderService/WebController.cs:72 | two separator-free pieces joined by the separator split back into exactly those two |
| Text.SplitJoin | GLNetTools.Iptables/FirewallManager.cs:97 | joining separator-free pieces and splitting again gives the pieces back |
| Text.JoinDigits | GLNetTools.Iptables/FirewallManager.cs:97 | joining digit strings gives only digits and the separator |
| Text.SecondPiece | GLNetTools.ConfigurationProviderService/Providers/ProxmoxBasedConfigurationProvider.cs:54 | `Split(c)[1]` exists iff the separator occurs, and holds no separator |
| Text.SplitHasSeparator | GLNetTools.ConfigurationProviderService/Providers/ProxmoxBasedConfigurationProvider.cs:54 | a split has two or more pieces iff the text contains the separator |
| Text.FirstWithPrefix | GLNetTools.ConfigurationProviderService/Providers/ProxmoxBasedConfigurationProvider.cs:53 | `First(StartsWith)` finds the first line with the prefix; None iff no line has it |
| Net.HexChar | GLNetTools.ConfigurationProviderService/Providers/ProxmoxBasedConfigurationProvider.cs:57 | the digit written for a value below 16 reads back as that value |
| Net.DottedQuad | GLNetTools.Iptables/FirewallManager.cs:97 | IPAddress.ToString of an IPv4 address: digits and dots only, splitting at "." into the four octets' decimal texts |
| Net.NoDotInDecimal | GLNetTools.Iptables/FirewallManager.cs:97 | the decimal text of a number has no dot |
| Net.DottedQuadReadsBack | GLNetTools.Iptables/FirewallManager.cs:97 | each dot-separated piece reads back as its octet |
| Net.ParseHexByte | GLNetTools.ConfigurationProviderService/Providers/ProxmoxBasedConfigurationProvider.cs:57 | a byte group is read iff it is exactly two hexadecimal digits |
| Net.HexByte | GLNetTools.ConfigurationProviderService/Providers/ProxmoxBasedConfigurationProvider.cs:57 | a byte written as two hex digits reads back as that byte |
| Net.ParseHexGroups | GLNetTools.ConfigurationProviderService/Providers/ProxmoxBasedConfigurationProvider.cs:57 | all groups are read iff every group is a hex byte, one byte per group |
| Net.ParseBareHex | GLNetTools.ConfigurationProviderService/Providers/ProxmoxBasedConfigurationProvider.cs:57 | a bare hex run yields one byte per two digits |
| Net.ParsePhysicalAddress | GLNetTools.ConfigurationProviderService/Providers/ProxmoxBasedConfigurationProvider.cs:57 | with ":" or "-" third, defined iff every group is two hex digits, one byte per group in order; otherwise two digits per byte; "" is the empty address |
| Net.HexGroups | GLNetTools.ConfigurationProviderService/Providers/ProxmoxBasedConfigurationProvider.cs:56-57 | one two-digit group per address byte |
| Net.ColonText | GLNetTools.ConfigurationProviderService/Providers/ProxmoxBasedConfigurationProvider.cs:56-57 | the colon form holds only hex digits and ':', with ':' third whenever there are two bytes or more |
| Net.SplitColonText | GLNetTools.ConfigurationProviderService/Providers/ProxmoxBasedConfigurationProvider.cs:56-57 | splitting the colon form at ':' gives the byte groups |
| Net.ParseHexGroupsOf | GLNetTools.ConfigurationProviderService/Providers/ProxmoxBasedConfigurationProvider.cs:57 | the groups of an address read back as its bytes |
| Net.ParseColonText | GLNetTools.ConfigurationProviderService/Providers/ProxmoxBasedConfigurationProvider.cs:57 | PhysicalAddress.Parse reads every colon-form address back |
| GuestMachines.GuestMachineId.UseContext | GLNetTools.ConfigurationProviderService/GuestMachineId.cs:29-32 | the replacement iff this id is context-based, otherwise this id |
| GuestMachines.GuestMachineId.Id | GLNetTools.ConfigurationProviderService/GuestMachineId.cs:12 | the wrapped byte is a sentinel 0..2 or a machine 100..255 |
| GuestMachines.GuestMachineId.ToString | GLNetTools.ConfigurationProviderService/GuestMachineId.cs:40 | "[GM:" then the id's decimal text, which reads back as the id, then "]" |
| GuestMachines.New | GLNetTools.ConfigurationProviderService/GuestMachineId.cs:21-26 | the constructor accepts exactly the ids outside 3..99 and keeps the id |
| GuestMachines.NewOfId | GLNetTools.ConfigurationProviderService/GuestMachineId.cs:21-26 | every accepted id comes back from the constructor unchanged |
| GuestMachines.UseContextIdempotent | GLNetTools.ConfigurationProviderService/GuestMachineId.cs:29-32 | substituting the same context twice equals substituting it once |
| FirewallRules.FirewallProtocol.Code | GLNetTools.Common/FirewallProtocol.cs:4-11 | None, UDP, TCP, Any are exactly the bytes 0..3; every other byte is an unnamed value carrying itself |
| FirewallRules.ProtocolOf | GLNetTools.Common/FirewallProtocol.cs:4-11 | every byte is a FirewallProtocol value, whose byte it is |
| FirewallRules.ProtocolCodeRoundTrip | GLNetTools.Common/FirewallProtocol.cs:4-11 | a value's byte identifies the value |
| FirewallRules.FirewallRule.UseContext | GLNetTools.Common/FirewallRule.cs:18-25 | each endpoint is replaced iff it is context-based; ports, protocol and type are unchanged |
| FirewallRules.UseContextProperties | GLNetTools.Common/FirewallRule.cs:18-25 | UseContext is idempotent, removes every placeholder for a real context, and leaves context-free rules unchanged |
| Schema.Prototype.CreateProjection | GLNetTools.Common/Configuration/ConfigurationModuleProjectionPrototype.cs:24-33 | keys are exactly the prototype's properties; each takes the supplied value when present, else the default; it is paired with its own property; the prototype is this one |
| Schema.Projection.Values | GLNetTools.Common/Configuration/ConfigurationModuleProjection.cs:3 | the value map has the projection's keys |
| Schema.Projection.GetWeak | GLNetTools.Common/Configuration/ConfigurationModuleProjection.cs:12 | succeeds iff the name is stored, returning the stored value |
| Schema.Projection.GetProperty | GLNetTools.Common/Configuration/ConfigurationModuleProjection.cs:14 | succeeds iff the name is stored, returning the stored property |
| Schema.Projection.Get | GLNetTools.Common/Configuration/ConfigurationModuleProjection.cs:5-10 | fails for an unknown name, then for a type other than the declared one; otherwise equals GetWeak |
| Schema.CreateProjectionOfOwnValues | GLNetTools.Common/Configuration/ConfigurationModuleProjectionPrototype.cs:24-33 | re-creating a well-formed projection from its values gives it back |
| Schema.CreateProjectionOfNothing | GLNetTools.Common/Configuration/ConfigurationModuleProjectionPrototype.cs:28-29 | a projection made from no values holds every default |
| PartTables.IndexIn | GLNetTools.Common/Configuration/ConfigurationBuilder.cs:20 | finds a slot holding the provider's part, or reports that none does |
| PartTables.IndexOf | GLNetTools.Common/Configuration/ConfigurationBuilder.cs:20 | finds the provider's slot in a table, or reports that none holds it |
| PartTables.Contains | GLNetTools.Common/Configuration/ConfigurationBuilder.cs:23 | the provider has a part in the table |
| PartTables.ValuesIn | GLNetTools.Common/Configuration/ConfigurationBuilder.cs:51 | no more values than slots |
| PartTables.Values | GLNetTools.Common/Configuration/ConfigurationBuilder.cs:51 | Parts.Values has no more values than the table has slots |
| PartTables.PartsIn | GLNetTools.Common/Configuration/ConfigurationBuilder.cs:66 | the present parts, exactly |
| PartTables.Parts | GLNetTools.Common/Configuration/ConfigurationBuilder.cs:66 | the enumerated pairs are exactly the present ones |
| PartTables.Add | GLNetTools.Common/Configuration/ConfigurationBuilder.cs:23 | Dictionary.Add throws iff the provider is present; otherwise fills the last freed slot or appends |
| PartTables.Remove | GLNetTools.Common/Configuration/ConfigurationBuilder.cs:37 | Dictionary.Remove frees the provider's slot onto the free list; nothing when absent |
| PartTables.Live | GLNetTools.Common/Configuration/ConfigurationBuilder.cs:66 | exactly the present entries |
| PartTables.Compact | GLNetTools.Common/Configuration/ConfigurationBuilder.cs:66 | ToDictionary leaves no free slot |
| PartTables.IndexOfUnique | GLNetTools.Common/Configuration/ConfigurationBuilder.cs:23 | in a valid table a provider's slot is the only one holding it |
| PartTables.ValuesOfLive | GLNetTools.Common/Configuration/ConfigurationBuilder.cs:66 | dropping freed slots keeps the values and parts in order |
| PartTables.LiveDistinct | GLNetTools.Common/Configuration/ConfigurationBuilder.cs:66 | the compacted entries keep unique keys |
| PartTables.CompactKeepsOrder | GLNetTools.Common/Configuration/ConfigurationBuilder.cs:64-66 | the snapshot copy enumerates the same parts in the same order |
| PartTables.CompactValid | GLNetTools.Common/Configuration/ConfigurationBuilder.cs:64-66 | the snapshot copy is a valid table |
| PartTables.AddKeepsValid | GLNetTools.Common/Configuration/ConfigurationBuilder.cs:23 | Add preserves the table invariant |
| PartTables.AddIntoFreedSlotKeepsValid | GLNetTools.Common/Configuration/ConfigurationBuilder.cs:23 | reusing a freed slot preserves the invariant |
| PartTables.AppendKeepsValid | GLNetTools.Common/Configuration/ConfigurationBuilder.cs:23 | appending preserves the invariant |
| PartTables.RemoveKeepsValid | GLNetTools.Common/Configuration/ConfigurationBuilder.cs:37 | Remove preserves the table invariant |
| PartTables.AddThenFind | GLNetTools.Common/Configuration/ConfigurationBuilder.cs:23 | after Add the provider's slot holds the new part |
| PartTables.RemoveForgets | GLNetTools.Common/Configuration/ConfigurationBuilder.cs:37 | after Remove the provider is gone and every other part stays in its slot |
| PartTables.RemoveThenAddKeepsPlace | GLNetTools.Common/Configuration/ConfigurationBuilder.cs:36-37 | a provider re-added after its removal gets its old slot back, so it keeps its place in the order |
| ScopeTypes.SerializerOf | GLNetTools.Common/Configuration/BuiltIn/BuiltInScopeTypes.cs:5-9 | the GuestMachine type has the id serializer, Master the key-less one, and only they |
| ScopeTypes.SerializerAcceptsKeysOfItsType | GLNetTools.Common/Configuration/BuiltIn/BuiltInScopeTypes.cs:25-29 | the cast to the key type inside a serializer succeeds for the keys of its type |
| ScopeTypes.Serialize | GLNetTools.Common/Configuration/BuiltIn/BuiltInScopeTypes.cs:6-9 | "" for Master; a nonempty digit run without ':' for a machine id |
| ScopeTypes.Deserialize | GLNetTools.Common/Configuration/BuiltIn/BuiltInScopeTypes.cs:6-9 | any text gives NoScopeKey for Master; for a machine id, text byte.Parse refuses fails, a parsed 3..99 is refused by the id, and otherwise the key holds the parsed byte |
| ScopeTypes.Compare | GLNetTools.Common/Configuration/BuiltIn/BuiltInScopeTypes.cs:25 | true only for text that deserializes to the key; for Master exactly the empty text |
| ScopeTypes.DeserializeParsed | GLNetTools.Common/Configuration/BuiltIn/BuiltInScopeTypes.cs:6 | text byte.Parse reads as a machine's id deserializes to that machine |
| ScopeTypes.DeserializeSerialize | GLNetTools.Common/Configuration/BuiltIn/BuiltInScopeTypes.cs:6-9 | Deserialize(Serialize(k)) == k for every key |
| ScopeTypes.CompareSound | GLNetTools.Common/Configuration/BuiltIn/BuiltInScopeTypes.cs:25 | raw text that Compare accepts deserializes to the key |
| ScopeTypes.ComparePaddedId | GLNetTools.Common/Configuration/BuiltIn/BuiltInScopeTypes.cs:25 | a zero-padded id deserializes to the machine but Compare rejects it |
| ScopeTypes.CompareRefusesWhiteSpace | GLNetTools.Common/Configuration/BuiltIn/BuiltInScopeTypes.cs:25 | an id with a leading space deserializes to the machine but Compare rejects it |
| ScopeTypes.CompareRefusesSign | GLNetTools.Common/Configuration/BuiltIn/BuiltInScopeTypes.cs:25 | an id with a leading "+" deserializes to the machine but Compare rejects it |
| ScopeTypes.PaddedDigits | GLNetTools.Common/Configuration/BuiltIn/BuiltInScopeTypes.cs:6 | a leading zero does not change the parsed value |
| ConfigurationModules.ProvidePrototypeFor | GLNetTools.Common/Configuration/BuiltIn/NetworkModule.cs:27-32 | NetworkModule looks up by scope-type name, BaseModule by scope-type record (BaseModule.cs:24-29); null when absent |
| ConfigurationModules.BaseMasterPrototype | GLNetTools.Common/Configuration/BuiltIn/BaseModule.cs:32-35 | the Master schema is a single HostName property |
| ConfigurationModules.BaseGuestMachinePrototype | GLNetTools.Common/Configuration/BuiltIn/BaseModule.cs:37-40 | the GuestMachine schema is a single HostName property |
| ConfigurationModules.BuiltInTablesHoldNulls | GLNetTools.Common/Configuration/BuiltIn/NetworkModule.cs:8-21 | as written, neither module provides a prototype for any scope type |
| ConfigurationModules.IntendedTablesResolve | GLNetTools.Common/Configuration/BuiltIn/BaseModule.cs:5-18 | as intended, each module gives its own Master and GuestMachine prototype, which names that module |
| ConfigurationModules.BuiltInDefaultsNotAllowed | GLNetTools.Common/Configuration/ConfigurationModuleProjectionStaticPrototype.cs:44-48 | no built-in property allows its default, and every default has the declared type |
| Configuration.CreateWeak | GLNetTools.Common/Configuration/ConfigurationScope.cs:16-23 | succeeds iff the key fits the key type, with exactly the given type, key and projections |
| Configuration.GetProjectionWeak | GLNetTools.Common/Configuration/ConfigurationScope.cs:5-8 | the projection stored under the module's name; fails iff none is stored |
| Configuration.LookupIsByNameOnly | GLNetTools.Common/Configuration/ConfigurationScope.cs:7 | two modules with equal names resolve to the same projection |
| Configuration.GetProjection | GLNetTools.Common/Configuration/ConfigurationScope.cs:10-14 | succeeds iff the projection exists and belongs to the prototype; the result has exactly the prototype's fields |
| Configuration.FirstIndex | GLNetTools.Common/Configuration/ServiceConfiguration.cs:5 | the first position holding the element |
| Configuration.FirstIndexUnique | GLNetTools.Common/Configuration/ServiceConfiguration.cs:5 | an occurrence with none before it is the first |
| Configuration.FirstIndexSnoc | GLNetTools.Common/Configuration/ServiceConfiguration.cs:5 | appending moves no first occurrence; a new element first occurs at the end |
| Configuration.Distinct | GLNetTools.Common/Configuration/ServiceConfiguration.cs:5 | the same elements, each once, in order of first occurrence |
| Configuration.TypesOf | GLNetTools.Common/Configuration/ServiceConfiguration.cs:5 | the scope type of each scope, in order |
| Configuration.ScopeTypesOf | GLNetTools.Common/Configuration/ServiceConfiguration.cs:5 | every scope type that occurs, each exactly once |
| Configuration.TypesOfMembers | GLNetTools.Common/Configuration/ServiceConfiguration.cs:5 | a type is among the scopes' types iff some scope has it |
| Configuration.ScopeTypesInFirstOccurrenceOrder | GLNetTools.Common/Configuration/ServiceConfiguration.cs:5 | ScopeTypes lists the types in the order of their first scope |
| Configuration.FilterScopes | GLNetTools.Common/Configuration/ServiceConfiguration.cs:8 | exactly the scopes of that type |
| Configuration.FilterScopesSingle | GLNetTools.Common/Configuration/ServiceConfiguration.cs:8 | a single scope is kept iff it has the type |
| Configuration.FilterScopesAppend | GLNetTools.Common/Configuration/ServiceConfiguration.cs:8 | filtering distributes over concatenation, keeping order and repetitions |
| Configuration.Matching | GLNetTools.Common/Configuration/ServiceConfiguration.cs:13 | exactly the scopes of that type and key |
| Configuration.MatchingSingle | GLNetTools.Common/Configuration/ServiceConfiguration.cs:13 | a single scope is kept iff it has the type and key |
| Configuration.MatchingAppend | GLNetTools.Common/Configuration/ServiceConfiguration.cs:13 | matching distributes over concatenation, so every matching position counts |
| Configuration.MatchingTwoCount | GLNetTools.Common/Configuration/ServiceConfiguration.cs:13 | two matching positions give two or more matches |
| Configuration.MatchingTwoPositions | GLNetTools.Common/Configuration/ServiceConfiguration.cs:13 | two or more matches come from two matching positions |
| Configuration.GetScopeWeak | GLNetTools.Common/Configuration/ServiceConfiguration.cs:13 | Single: succeeds iff exactly one position matches, returning that scope; NoSuchScope iff none; AmbiguousScope iff two positions match |
| Registries.FindScopeType | GLNetTools.Common/Configuration/ConfigurationScopeTypeRegistry.cs:12 | the registered type of that name, if any |
| Registries.FindModule | GLNetTools.Common/Configuration/ConfigurationModuleRegistry.cs:12 | the registered module of that name, if any |
| Registries.RegisterScopeType | GLNetTools.Common/Configuration/ConfigurationScopeTypeRegistry.cs:8 | succeeds iff the name is free; the name then finds the type; other names are unaffected |
| Registries.RegisterModule | GLNetTools.Common/Configuration/ConfigurationModuleRegistry.cs:8 | succeeds iff the name is free; the name then finds the module; other names are unaffected |
| Registries.ScopeTypeRegistry.constructor | GLNetTools.Common/Configuration/ConfigurationScopeTypeRegistry.cs:5 | an empty registry |
| Registries.ScopeTypeRegistry.Register | GLNetTools.Common/Configuration/ConfigurationScopeTypeRegistry.cs:8 | passes iff the name is free; a taken name leaves the registry unchanged |
| Registries.ScopeTypeRegistry.ListAll | GLNetTools.Common/Configuration/ConfigurationScopeTypeRegistry.cs:10 | exactly the registered types |
| Registries.ScopeTypeRegistry.GetByName | GLNetTools.Common/Configuration/ConfigurationScopeTypeRegistry.cs:12 | a registered type of that name; fails iff none is registered |
| Registries.ModuleRegistry.constructor | GLNetTools.Common/Configuration/ConfigurationModuleRegistry.cs:5 | an empty registry |
| Registries.ModuleRegistry.Register | GLNetTools.Common/Configuration/ConfigurationModuleRegistry.cs:8 | passes iff the name is free; a taken name leaves the registry unchanged |
| Registries.ModuleRegistry.ListAll | GLNetTools.Common/Configuration/ConfigurationModuleRegistry.cs:10 | exactly the registered modules |
| Registries.ModuleRegistry.GetByName | GLNetTools.Common/Configuration/ConfigurationModuleRegistry.cs:12 | a registered module of that name; fails iff none is registered |
| Registries.RegisteringBuiltInModulesFails | GLNetTools.Common/Configuration/BuiltIn/BaseModule.cs:21 | as written, registering BaseModule then NetworkModule fails on the shared name |
| Registries.RegisteringIntendedModules | GLNetTools.Common/Configuration/BuiltIn/BaseModule.cs:21 | with BaseModule named "Base", both register and each name finds its module |
| Registries.RegisteringBuiltInScopeTypes | GLNetTools.Common/Configuration/BuiltIn/BuiltInScopeTypes.cs:5-9 | both built-in scope types register and are found by name |
| DefaultBehavior.ListUnion | GLNetTools.Common/Configuration/BuiltIn/DefaultBehavior.cs:20-23 | defined iff every input holds a list for the key |
| DefaultBehavior.PerformSum | GLNetTools.Common/Configuration/BuiltIn/DefaultBehavior.cs:10-40 | an empty input fails; otherwise defined iff every property sums; the result is a well-formed projection of the first input's prototype whose values are the sums |
| DefaultBehavior.ValidateProjection | GLNetTools.Common/Configuration/BuiltIn/DefaultBehavior.cs:42-55 | always true when unsummed; for a summed projection false iff some property not allowing its default holds it |
| DefaultBehavior.ListUnionAppend | GLNetTools.Common/Configuration/BuiltIn/DefaultBehavior.cs:20-23 | the union of two input runs is the concatenation of their unions |
| DefaultBehavior.SumListsConcatenate | GLNetTools.Common/Configuration/BuiltIn/DefaultBehavior.cs:18-25 | a list property sums to the first inputs' items followed by the second's, without de-duplication |
| DefaultBehavior.FirstNonDefaultWins | GLNetTools.Common/Configuration/BuiltIn/DefaultBehavior.cs:28 | a scalar sums to the first input value that differs from the default |
| DefaultBehavior.FirstNonDefaultAt | GLNetTools.Common/Configuration/BuiltIn/DefaultBehavior.cs:28 | the scan stops at the first non-default value |
| DefaultBehavior.AllDefault | GLNetTools.Common/Configuration/BuiltIn/DefaultBehavior.cs:28 | with every value at its default, the scan finds nothing |
| DefaultBehavior.SumOfDefaults | GLNetTools.Common/Configuration/BuiltIn/DefaultBehavior.cs:29-31 | all defaults sum to the default; with a null default the sum fails with "No value" |
| DefaultBehavior.NullShadowsLaterValues | GLNetTools.Common/Configuration/BuiltIn/DefaultBehavior.cs:28-29 | an explicit null before a real value yields the default, not the later value |
| DefaultBehavior.SumIsOrderSensitive | GLNetTools.Common/Configuration/BuiltIn/DefaultBehavior.cs:28 | with two differing non-default values the earlier input wins, in both orders |
| DefaultBehavior.SumOfOne | GLNetTools.Common/Configuration/BuiltIn/DefaultBehavior.cs:18-39 | summing a single well-formed projection gives it back |
| ProjectionPrototypes.SumProjections | GLNetTools.Common/Configuration/ConfigurationModuleProjectionPrototype.cs:35-40 | fails if any input is of another prototype; otherwise it is the behaviour's sum |
| ProjectionPrototypes.ValidateProjection | GLNetTools.Common/Configuration/ConfigurationModuleProjectionPrototype.cs:42-47 | fails for another prototype's projection; otherwise the behaviour decides |
| ConfigurationBuilders.FindScope | GLNetTools.Common/Configuration/ConfigurationBuilder.cs:14 | the index of a scope with that type and key, or none exists |
| ConfigurationBuilders.FindScopeByTypesAndKeys | GLNetTools.Common/Configuration/ConfigurationBuilder.cs:14 | the lookup depends only on the scopes' types and keys |
| ConfigurationBuilders.EnsureScope | GLNetTools.Common/Configuration/ConfigurationBuilder.cs:26-31 | appends an empty scope only when none of that type and key exists; afterwards one exists |
| ConfigurationBuilders.EnsureScopeKeepsValid | GLNetTools.Common/Configuration/ConfigurationBuilder.cs:26-31 | at most one scope per type and key remains |
| ConfigurationBuilders.AddPart | GLNetTools.Common/Configuration/ConfigurationBuilder.cs:10-24 | fails without an active provider, then without the scope, then on a duplicate part; otherwise only the module's slot changes (created with the projection's prototype) and holds the part |
| ConfigurationBuilders.AddPartAt | GLNetTools.Common/Configuration/ConfigurationBuilder.cs:17-23 | with the scope found, the add fails exactly when the provider already has a part in the module slot; otherwise only that slot changes, gaining the part, and at most one scope per type and key remains |
| ConfigurationBuilders.AddPartThenFind | GLNetTools.Common/Configuration/ConfigurationBuilder.cs:17-23 | after an add the active provider's part in the slot is the projection |
| ConfigurationBuilders.RemoveFromScope | GLNetTools.Common/Configuration/ConfigurationBuilder.cs:36-37 | the provider's part leaves every slot of the scope; the slots remain |
| ConfigurationBuilders.RemoveParts | GLNetTools.Common/Configuration/ConfigurationBuilder.cs:33-38 | every scope is swept, none is removed |
| ConfigurationBuilders.RemovePartsForgetsProvider | GLNetTools.Common/Configuration/ConfigurationBuilder.cs:33-38 | afterwards the provider has no part, other providers' parts stay, and no scope or slot disappears |
| ConfigurationBuilders.SnapshotScope | GLNetTools.Common/Configuration/ConfigurationBuilder.cs:62-68 | the deep copy keeps type, key and slots, and copies each part table |
| ConfigurationBuilders.SnapshotOf | GLNetTools.Common/Configuration/ConfigurationBuilder.cs:59-69 | one copied scope per scope, in order |
| ConfigurationBuilders.SnapshotSameContents | GLNetTools.Common/Configuration/ConfigurationBuilder.cs:59-69 | the snapshot is valid and holds the same slots, prototypes and parts in the same order |
| ConfigurationBuilders.SnapshotScopeSameContents | GLNetTools.Common/Configuration/ConfigurationBuilder.cs:62-68 | the copy of one scope has valid part tables holding the same contents as the original |
| ConfigurationBuilders.BuildScope | GLNetTools.Common/Configuration/ConfigurationBuilder.cs:47-55 | succeeds iff every slot sums and the key fits; the result has the scope's type and key and each slot's sum |
| ConfigurationBuilders.SlotSums | GLNetTools.Common/Configuration/ConfigurationBuilder.cs:49-53 | one sum per module slot, each the Sum of that slot's parts |
| ConfigurationBuilders.BuildFromSums | GLNetTools.Common/Configuration/ConfigurationBuilder.cs:47-55 | a scope is built exactly when every slot sums and the key fits the scope type; it keeps type, key and one projection per slot |
| ConfigurationBuilders.BuildScopes | GLNetTools.Common/Configuration/ConfigurationBuilder.cs:45-57 | succeeds iff every scope builds; one result per scope, in order |
| ConfigurationBuilders.BuildScopesPointwise | GLNetTools.Common/Configuration/ConfigurationBuilder.cs:45-57 | scopes that build alike give the same build |
| ConfigurationBuilders.BuildScopeBySums | GLNetTools.Common/Configuration/ConfigurationBuilder.cs:49-53 | scopes whose slots sum alike build alike |
| ConfigurationBuilders.SnapshotScopeBuildsTheSame | GLNetTools.Common/Configuration/ConfigurationBuilder.cs:59-69 | a copied scope builds like the original |
| ConfigurationBuilders.SnapshotBuildsTheSame | GLNetTools.Common/Configuration/ConfigurationBuilder.cs:59-69 | building the snapshot gives what building the live scopes gives |
| ConfigurationBuilders.EmptySlotFailsBuild | GLNetTools.Common/Configuration/ConfigurationBuilder.cs:49-51 | a slot without parts fails its scope and the whole build |
| ConfigurationBuilders.NoPartsNoValues | GLNetTools.Common/Configuration/ConfigurationBuilder.cs:51 | a table with no present entry has no values |
| ConfigurationBuilders.RemoveSoleProvider | GLNetTools.Common/Configuration/ConfigurationBuilder.cs:37 | removing the only provider of a table leaves no values |
| ConfigurationBuilders.SoleProviderRemovalBreaksBuild | GLNetTools.Common/Configuration/ConfigurationBuilder.cs:33-51 | sweeping a slot's only provider makes every later build fail |
| ConfigurationBuilders.BuildScopeSkippingEmpty | GLNetTools.Common/Configuration/ConfigurationBuilder.cs:49-53 | the intended build leaves empty slots out and sums the others |
| ConfigurationBuilders.SkippingEmptyAgrees | GLNetTools.Common/Configuration/ConfigurationBuilder.cs:49-53 | where no slot is empty, the intended build equals the written one |
| ConfigurationBuilders.RemovedScopeBuildsEmpty | GLNetTools.Common/Configuration/ConfigurationBuilder.cs:33-38 | with the intended build, a scope fed only by the swept provider builds with no projections |
| ConfigurationBuilders.BaseProjectionCollidesWithNetwork | GLNetTools.Common/Configuration/BuiltIn/BaseModule.cs:21 | as written, a provider's Base part after its Network part in one scope is a duplicate part |
| ConfigurationBuilders.BaseProjectionGetsItsOwnSlot | GLNetTools.Common/Configuration/BuiltIn/BaseModule.cs:21 | with the intended name, the Base part gets a slot next to the Network one |
| ConfigurationBuilders.ConfigurationBuilder.constructor | GLNetTools.Common/Configuration/ConfigurationBuilder.cs:5-7 | no scopes, an empty snapshot, no active provider |
| ConfigurationBuilders.ConfigurationBuilder.SetActiveProvider | GLNetTools.Common/Configuration/ConfigurationBuilder.cs:40-43 | only the active provider changes |
| ConfigurationBuilders.ConfigurationBuilder.EnsureScopeCreated | GLNetTools.Common/Configuration/ConfigurationBuilder.cs:26-31 | the scopes become EnsureScope of the old ones; an aliased snapshot follows them |
| ConfigurationBuilders.ConfigurationBuilder.AddProjection | GLNetTools.Common/Configuration/ConfigurationBuilder.cs:10-24 | the scopes become AddPart's result, or stay as they were when it fails, with its error |
| ConfigurationBuilders.ConfigurationBuilder.RemovePartsCreatedBy | GLNetTools.Common/Configuration/ConfigurationBuilder.cs:33-38 | the scopes become RemoveParts of the old ones |
| ConfigurationBuilders.ConfigurationBuilder.Build | GLNetTools.Common/Configuration/ConfigurationBuilder.cs:45-57 | succeeds iff every scope builds; the configuration holds the built scopes and no version |
| ConfigurationBuilders.ConfigurationBuilder.TakeSnapshot | GLNetTools.Common/Configuration/ConfigurationBuilder.cs:59-69 | the snapshot becomes a deep copy; the live scopes are unchanged |
| ConfigurationBuilders.ConfigurationBuilder.Rollback | GLNetTools.Common/Configuration/ConfigurationBuilder.cs:71-74 | the live scopes become the snapshot list itself, aliased; the active provider stays |
| ConfigurationBuilders.RollbackWithoutSnapshot | GLNetTools.Common/Configuration/ConfigurationBuilder.cs:6 | a rollback with no earlier snapshot empties the builder |
| ConfigurationBuilders.RollbackAliasesSnapshot | GLNetTools.Common/Configuration/ConfigurationBuilder.cs:73 | after a rollback, a scope created later survives the next rollback |
| ConfigurationHolders.Notify | GLNetTools.ConfigurationProviderService/ConfigurationHolder.cs:53-59 | a rebuild completes exactly the pending Tasks whose predicate accepts the configuration, each with it |
| ConfigurationHolders.Tickets | GLNetTools.ConfigurationProviderService/ConfigurationHolder.cs:11 | the tickets of the registered handlers |
| ConfigurationHolders.NotifyStep | GLNetTools.ConfigurationProviderService/ConfigurationHolder.cs:75 | one more handler completes its task iff its predicate accepts |
| ConfigurationHolders.NotifyWithin | GLNetTools.ConfigurationProviderService/ConfigurationHolder.cs:75 | a rebuild completes only waiting tasks |
| ConfigurationHolders.NotifyRejected | GLNetTools.ConfigurationProviderService/ConfigurationHolder.cs:53-59 | a handler whose predicate rejects the configuration completes nothing |
| ConfigurationHolders.NotifiedWereWaiting | GLNetTools.ConfigurationProviderService/ConfigurationHolder.cs:75 | the handlers complete only tickets already handed out, and never a ticket that was neither completed nor waiting |
| ConfigurationHolders.ConfigurationHolder.constructor | GLNetTools.ConfigurationProviderService/ConfigurationHolder.cs:14-18 | no configuration and no handler |
| ConfigurationHolders.ConfigurationHolder.Current | GLNetTools.ConfigurationProviderService/ConfigurationHolder.cs:21 | fails iff nothing was built yet; otherwise the last configuration |
| ConfigurationHolders.ConfigurationHolder.AwaitForNewConfiguration | GLNetTools.ConfigurationProviderService/ConfigurationHolder.cs:38-65 | fails before the first build; ready with the current configuration iff checkCurrent and the predicate accepts it; otherwise exactly one handler is registered |
| ConfigurationHolders.ConfigurationHolder.RebuildConfiguration | GLNetTools.ConfigurationProviderService/ConfigurationHolder.cs:67-84 | a failing build changes nothing; otherwise the build is published unchanged, every handler runs once and the list is cleared |
| ConfigurationHolders.RejectedWaiterIsAbandoned | GLNetTools.ConfigurationProviderService/ConfigurationHolder.cs:53-59 | a waiter rejected by the next rebuild is discarded and never completes |
| ConfigurationHolders.HolderWithOneWaiter | GLNetTools.ConfigurationProviderService/ConfigurationHolder.cs:38-84 | after one rebuild and one wait that skips the current check, the holder publishes the built configuration and holds exactly that one pending waiter |
| ProviderDispatch.ApplyStep | GLNetTools.ConfigurationProviderService/ConfigurationProviderDispatcher.cs:30 | a refused builder call leaves the scopes unchanged |
| ProviderDispatch.ApplySteps | GLNetTools.ConfigurationProviderService/ConfigurationProviderDispatcher.cs:30 | the builder calls in order keep the builder valid |
| ProviderDispatch.FetchOutcome | GLNetTools.ConfigurationProviderService/ConfigurationProviderDispatcher.cs:30 | a fetch passes iff every call passes and the provider does not throw; its calls' effects stay either way |
| ProviderDispatch.FailedStepsKeepPrefix | GLNetTools.ConfigurationProviderService/ConfigurationProviderDispatcher.cs:27-37 | a refused fetch keeps the effects of the calls before the refused one |
| ProviderDispatch.AcceptedStepsPass | GLNetTools.ConfigurationProviderService/ConfigurationProviderDispatcher.cs:30 | a fetch whose calls are all accepted passes |
| ProviderDispatch.ApplyStepsSnoc | GLNetTools.ConfigurationProviderService/ConfigurationProviderDispatcher.cs:30 | one more call after successful calls |
| ProviderDispatch.Provide | GLNetTools.ConfigurationProviderService/ConfigurationProviderDispatcher.cs:30 | the provider's calls change the builder exactly as FetchOutcome says |
| ProviderDispatch.RunStep | GLNetTools.ConfigurationProviderService/ConfigurationProviderDispatcher.cs:30 | one call of the provider on the builder changes its scopes as the step prescribes, keeps the active provider and returns the step's outcome |
| ProviderDispatch.RunSteps | GLNetTools.ConfigurationProviderService/ConfigurationProviderDispatcher.cs:30 | the provider's calls in order change the scopes as the steps prescribe and stop at the first refusal |
| ProviderDispatch.RefusedStepEndsFetch | GLNetTools.ConfigurationProviderService/ConfigurationProviderDispatcher.cs:27-37 | the calls after a refused one are not run |
| ProviderDispatch.InitialLoad | GLNetTools.ConfigurationProviderService/ConfigurationProviderDispatcher.cs:18-43 | every provider runs in order; the fail count is at most the number of providers |
| ProviderDispatch.LoadOne | GLNetTools.ConfigurationProviderService/ConfigurationProviderDispatcher.cs:27-37 | the scopes after the provider's calls; the count grows by one exactly when a call is refused or the provider throws |
| ProviderDispatch.LoadProvider | GLNetTools.ConfigurationProviderService/ConfigurationProviderDispatcher.cs:27-37 | on the builder: the provider becomes active, and the scopes and count are LoadOne's; the snapshot is untouched unless it is the live list |
| ProviderDispatch.ProviderPassesPrefix | GLNetTools.ConfigurationProviderService/ConfigurationProviderDispatcher.cs:25-38 | whether a provider passes does not depend on later providers |
| ProviderDispatch.LoadPasses | GLNetTools.ConfigurationProviderService/ConfigurationProviderDispatcher.cs:25-38 | one success flag per provider, in order |
| ProviderDispatch.LoadPassesSnoc | GLNetTools.ConfigurationProviderService/ConfigurationProviderDispatcher.cs:25-38 | the flags of all providers are those of the earlier providers followed by whether the last one passes |
| ProviderDispatch.LoadPassesAt | GLNetTools.ConfigurationProviderService/ConfigurationProviderDispatcher.cs:25-38 | the flag of each provider is whether its fetch passed during the initial load |
| ProviderDispatch.LoadPassesEarlier | GLNetTools.ConfigurationProviderService/ConfigurationProviderDispatcher.cs:25-38 | a provider before the last has the flag it had within the shorter load |
| ProviderDispatch.LastFlagCounted | GLNetTools.ConfigurationProviderService/ConfigurationProviderDispatcher.cs:33-37 | the last provider adds one to the fail count exactly when its flag is clear |
| ProviderDispatch.NoFailsIffAllFlags | GLNetTools.ConfigurationProviderService/ConfigurationProviderDispatcher.cs:22-42 | the fail count is zero exactly when every flag is set |
| ProviderDispatch.NoFailsIffAllPass | GLNetTools.ConfigurationProviderService/ConfigurationProviderDispatcher.cs:18-43 | the count is zero iff every provider passes, run after the ones before it |
| ProviderDispatch.ConfigurationProviderDispatcher.constructor | GLNetTools.ConfigurationProviderService/ConfigurationProviderDispatcher.cs:11-15 | the providers, no tracker, not initialised |
| ProviderDispatch.ConfigurationProviderDispatcher.PerformInitialConfigurationLoad | GLNetTools.ConfigurationProviderService/ConfigurationProviderDispatcher.cs:18-43 | the builder and fail count are InitialLoad's; the last provider stays active; the snapshot is untouched unless it is the live list |
| ProviderDispatch.ConfigurationProviderDispatcher.InitializeTracking | GLNetTools.ConfigurationProviderService/ConfigurationProviderDispatcher.cs:45-59 | fails iff already initialised, changing nothing; otherwise one fresh tracker per provider, each with the dispatcher's callback and with watchers that raise events (the corrected tracker; see Left out) |
| ProviderDispatch.ConfigurationProviderDispatcher.EnableTracking | GLNetTools.ConfigurationProviderService/ConfigurationProviderDispatcher.cs:61-67 | fails iff not initialised; otherwise every tracker is started |
| ProviderDispatch.ConfigurationProviderDispatcher.DisableTracking | GLNetTools.ConfigurationProviderService/ConfigurationProviderDispatcher.cs:69-75 | fails iff not initialised; otherwise every tracker is stopped |
| ProviderDispatch.ConfigurationProviderDispatcher.TrackerCallback | GLNetTools.ConfigurationProviderService/ConfigurationProviderDispatcher.cs:77-111 | snapshot of the scopes as they were, sweep, activate, re-fetch; a failed fetch rolls back to that snapshot and skips the rebuild; a successful one rebuilds once, and a failing rebuild keeps the new parts |
| ProviderDispatch.RollbackRestoresContents | GLNetTools.ConfigurationProviderService/ConfigurationProviderDispatcher.cs:95-99 | a rolled-back builder holds and builds what it held before the callback |
| ProviderDispatch.Refetch | GLNetTools.ConfigurationProviderService/ConfigurationProviderDispatcher.cs:87-92 | after the snapshot, the provider's parts are removed and it becomes the active provider; the builder then holds what the provider's fetch makes of the swept scopes, and the snapshot is a copy of the scopes before the sweep |
| WebControllers.IsModuleRequested | GLNetTools.ConfigurationProviderService/WebController.cs:65-68 | true iff some entry is the module's name or "*" |
| WebControllers.SplitFirstPiece | GLNetTools.ConfigurationProviderService/WebController.cs:72 | the first piece is followed by the separator in the text |
| WebControllers.ParseScopeEntry | GLNetTools.ConfigurationProviderService/WebController.cs:72 | defined iff the entry has ':'; the parts are free of ':' and the type part is the text before the first ':' |
| WebControllers.ParseScopeEntryOf | GLNetTools.ConfigurationProviderService/WebController.cs:72 | "type:key" splits back into type and key |
| WebControllers.ParseScopeEntries | GLNetTools.ConfigurationProviderService/WebController.cs:72 | succeeds iff every entry has ':'; otherwise it names the first entry without one |
| WebControllers.EntryMatches | GLNetTools.ConfigurationProviderService/WebController.cs:74-76 | a matching entry names the type or is "*:*"; a matching non-wildcard key deserializes to the key; "type:*" and "type:serialized key" match; "*:key" matches nothing |
| WebControllers.AnyEntryMatches | GLNetTools.ConfigurationProviderService/WebController.cs:73-77 | true iff some entry matches |
| WebControllers.IsScopeRequested | GLNetTools.ConfigurationProviderService/WebController.cs:70-78 | throws iff some entry lacks ':'; otherwise true iff some entry is "*:*", "type:*" or "type:key" accepted by Compare |
| WebControllers.WildcardSelectsEverything | GLNetTools.ConfigurationProviderService/WebController.cs:74 | "*:*" selects every scope |
| WebControllers.SerializedKeySelectsScope | GLNetTools.ConfigurationProviderService/WebController.cs:76 | the entry written from a scope's type and serialized key selects it |
| WebControllers.MasterEntryThrows | GLNetTools.ConfigurationProviderService/WebController.cs:72 | the documented entry "Master" throws even beside "*:*" |
| WebControllers.ParseDocumentedEntry | GLNetTools.ConfigurationProviderService/WebController.cs:58 | the documented form: "Type:key", or a bare "Type" meaning every key |
| WebControllers.IsScopeRequestedDocumented | GLNetTools.ConfigurationProviderService/WebController.cs:58 | the intended filter: true iff some entry, read in the documented form, matches |
| WebControllers.DocumentedAgreesOnWellFormed | GLNetTools.ConfigurationProviderService/WebController.cs:70-78 | on entries with ':' the intended filter equals the written one |
| WebControllers.DocumentedMasterEntrySelectsMaster | GLNetTools.ConfigurationProviderService/WebController.cs:58 | under the intended reading "Master" selects the Master scope |
| WebControllers.IsKept | GLNetTools.ConfigurationProviderService/WebController.cs:35-40 | a scope without a serializer is dropped; otherwise the scope filter decides |
| WebControllers.Restrict | GLNetTools.ConfigurationProviderService/WebController.cs:41-45 | same type and key; exactly the requested modules' projections, unchanged |
| WebControllers.Requested | GLNetTools.ConfigurationProviderService/WebController.cs:34-45 | fails iff the filter is malformed and a serializable scope is reached; otherwise no more scopes than given |
| WebControllers.RequestedAppend | GLNetTools.ConfigurationProviderService/WebController.cs:34-45 | the response keeps the scopes' order |
| WebControllers.RequestedFirst | GLNetTools.ConfigurationProviderService/WebController.cs:34-45 | the answer for a nonempty list is the first scope, restricted, when it is kept, followed by the answer for the rest |
| WebControllers.KeptScopeAnswered | GLNetTools.ConfigurationProviderService/WebController.cs:34-45 | every kept scope is in the response, restricted |
| WebControllers.AnsweredScopeKept | GLNetTools.ConfigurationProviderService/WebController.cs:34-45 | every scope in the response is a kept scope, restricted |
| WebControllers.AnsweredScopeIndex | GLNetTools.ConfigurationProviderService/WebController.cs:34-45 | every answered scope is the restriction of a kept configuration scope, found at some index |
| WebControllers.Respond | GLNetTools.ConfigurationProviderService/WebController.cs:34-47 | the requested scopes with the configuration's own version |
| WebControllers.RequestEverything | GLNetTools.ConfigurationProviderService/WebController.cs:34-45 | "*:*" and "*" return every scope unchanged when all are serializable |
| WebControllers.WholeScopeKept | GLNetTools.ConfigurationProviderService/WebController.cs:35-45 | with "*:*" and every module requested, a scope with a key serializer is kept whole |
| WebControllers.AwaitConfiguration | GLNetTools.ConfigurationProviderService/WebController.cs:22-31 | without WaitForOlderThan, one read; otherwise the first observed configuration with no version or a newer one |
| JsonSerialization.EncodeValue | GLNetTools.Common/Configuration/JsonSerialization/JsonServiceConfigurationSerializer.cs:145 | JSON null iff the value is null |
| JsonSerialization.DecodeValue | GLNetTools.Common/Configuration/JsonSerialization/JsonServiceConfigurationSerializer.cs:101 | JSON null is refused; a result has the declared type and is not null |
| JsonSerialization.DecodeEncodeValue | GLNetTools.Common/Configuration/JsonSerialization/JsonServiceConfigurationSerializer.cs:101-145 | every non-null value of its type reads back as itself |
| JsonSerialization.NullValueDoesNotReadBack | GLNetTools.Common/Configuration/JsonSerialization/JsonServiceConfigurationSerializer.cs:101 | a written null property cannot be read back |
| JsonSerialization.Names | GLNetTools.Common/Configuration/JsonSerialization/JsonServiceConfigurationSerializer.cs:59 | the member names, in order |
| JsonSerialization.FindName | GLNetTools.Common/Configuration/JsonSerialization/JsonServiceConfigurationSerializer.cs:59 | the first member of that name; none iff absent |
| JsonSerialization.Assign | GLNetTools.Common/Configuration/JsonSerialization/JsonServiceConfigurationSerializer.cs:59 | replaces an existing member in place, or appends |
| JsonSerialization.Populate | GLNetTools.Common/Configuration/JsonSerialization/JsonServiceConfigurationSerializer.cs:59 | a dictionary with distinct names and exactly the input's names |
| JsonSerialization.PopulateDistinct | GLNetTools.Common/Configuration/JsonSerialization/JsonServiceConfigurationSerializer.cs:59 | distinct members populate to themselves |
| JsonSerialization.Lookup | GLNetTools.Common/Configuration/JsonSerialization/JsonServiceConfigurationSerializer.cs:99 | defined iff the name occurs |
| JsonSerialization.LookupDistinct | GLNetTools.Common/Configuration/JsonSerialization/JsonServiceConfigurationSerializer.cs:99 | with distinct names a member's name finds its value |
| JsonSerialization.RemoveName | GLNetTools.Common/Configuration/JsonSerialization/JsonServiceConfigurationSerializer.cs:66 | no member of that name remains; without one nothing changes |
| JsonSerialization.ReadVersion | GLNetTools.Common/Configuration/JsonSerialization/JsonServiceConfigurationSerializer.cs:65 | succeeds iff the token is a date |
| JsonSerialization.ReadOptionalVersion | GLNetTools.Common/Configuration/JsonSerialization/JsonServiceConfigurationSerializer.cs:62-67 | no "#Version" gives no version; one is read iff it is a date |
| JsonSerialization.ToProjectionTable | GLNetTools.Common/Configuration/JsonSerialization/JsonServiceConfigurationSerializer.cs:68 | a converted table has distinct module names |
| JsonSerialization.ToRawScopes | GLNetTools.Common/Configuration/JsonSerialization/JsonServiceConfigurationSerializer.cs:68 | one raw scope per member, with its name, in order |
| JsonSerialization.ReadProperties | GLNetTools.Common/Configuration/JsonSerialization/JsonServiceConfigurationSerializer.cs:96-102 | succeeds iff every present property converts; exactly the present properties, converted |
| JsonSerialization.ReadProjection | GLNetTools.Common/Configuration/JsonSerialization/JsonServiceConfigurationSerializer.cs:90-104 | nothing when the prototype is null; otherwise a well-formed projection of it, defaults filled |
| JsonSerialization.ReadProjectionMember | GLNetTools.Common/Configuration/JsonSerialization/JsonServiceConfigurationSerializer.cs:77 | an unknown module name fails |
| JsonSerialization.ReadProjections | GLNetTools.Common/Configuration/JsonSerialization/JsonServiceConfigurationSerializer.cs:76-78 | only named modules appear; those without a prototype are dropped |
| JsonSerialization.ReadScope | GLNetTools.Common/Configuration/JsonSerialization/JsonServiceConfigurationSerializer.cs:70-80 | the type is the one registered under the first segment, the key is deserialized from the second |
| JsonSerialization.ReadScopes | GLNetTools.Common/Configuration/JsonSerialization/JsonServiceConfigurationSerializer.cs:70-81 | succeeds iff every scope reads; one scope per member, in order |
| JsonSerialization.ReadJson | GLNetTools.Common/Configuration/JsonSerialization/JsonServiceConfigurationSerializer.cs:52-86 | null reads as null; a non-object fails; the scopes read come before the existing value's scopes |
| JsonSerialization.ReadObject | GLNetTools.Common/Configuration/JsonSerialization/JsonServiceConfigurationSerializer.cs:59-81 | on success the version is the one read from the "#Version" member, and there is one scope per other member |
| JsonSerialization.KeysOf | GLNetTools.Common/Configuration/JsonSerialization/JsonServiceConfigurationSerializer.cs:127 | the dictionary's keys, each once |
| JsonSerialization.WriteProjection | GLNetTools.Common/Configuration/JsonSerialization/JsonServiceConfigurationSerializer.cs:140-147 | one member per property, holding its encoded value |
| JsonSerialization.WriteScope | GLNetTools.Common/Configuration/JsonSerialization/JsonServiceConfigurationSerializer.cs:126-134 | one member per projection, holding the written projection |
| JsonSerialization.ScopeMemberName | GLNetTools.Common/Configuration/JsonSerialization/JsonServiceConfigurationSerializer.cs:124 | "Type:key" always holds the separator |
| JsonSerialization.ScopeMembers | GLNetTools.Common/Configuration/JsonSerialization/JsonServiceConfigurationSerializer.cs:122-135 | one member per scope, in order |
| JsonSerialization.WriteJson | GLNetTools.Common/Configuration/JsonSerialization/JsonServiceConfigurationSerializer.cs:107-136 | null writes JSON null; it succeeds iff every scope type has a serializer; "#Version" comes first iff there is a version |
| JsonSerialization.LookupWrittenProperty | GLNetTools.Common/Configuration/JsonSerialization/JsonServiceConfigurationSerializer.cs:99-145 | a written property is found under its name |
| JsonSerialization.ReadPropertiesAllPresent | GLNetTools.Common/Configuration/JsonSerialization/JsonServiceConfigurationSerializer.cs:96-102 | an object holding every property reads as those values |
| JsonSerialization.ReadWrittenProperties | GLNetTools.Common/Configuration/JsonSerialization/JsonServiceConfigurationSerializer.cs:96-147 | written properties read back as the projection's values |
| JsonSerialization.ReadWrittenProjection | GLNetTools.Common/Configuration/JsonSerialization/JsonServiceConfigurationSerializer.cs:90-147 | a written projection reads back as itself |
| JsonSerialization.ReadWrittenMember | GLNetTools.Common/Configuration/JsonSerialization/JsonServiceConfigurationSerializer.cs:77-131 | a written projection member reads back as the projection |
| JsonSerialization.ReadMembers | GLNetTools.Common/Configuration/JsonSerialization/JsonServiceConfigurationSerializer.cs:76-78 | members that each read back read back together, in order |
| JsonSerialization.ReadProjectionsStep | GLNetTools.Common/Configuration/JsonSerialization/JsonServiceConfigurationSerializer.cs:76-78 | a member that reads as a projection adds it under its name to what the members before it read as |
| JsonSerialization.ReadWrittenProjections | GLNetTools.Common/Configuration/JsonSerialization/JsonServiceConfigurationSerializer.cs:76-133 | a written scope's projections read back |
| JsonSerialization.SplitScopeMemberName | GLNetTools.Common/Configuration/JsonSerialization/JsonServiceConfigurationSerializer.cs:72-124 | the member name splits into type name and serialized key |
| JsonSerialization.WrittenScopeIsATable | GLNetTools.Common/Configuration/JsonSerialization/JsonServiceConfigurationSerializer.cs:68 | a written scope converts to its own members |
| JsonSerialization.ReadWrittenScope | GLNetTools.Common/Configuration/JsonSerialization/JsonServiceConfigurationSerializer.cs:70-134 | a written scope reads back as itself |
| JsonSerialization.ScopeMemberNamesDistinct | GLNetTools.Common/Configuration/JsonSerialization/JsonServiceConfigurationSerializer.cs:124 | two scopes of a configuration never share a member name |
| JsonSerialization.ScopeMemberIsNotVersion | GLNetTools.Common/Configuration/JsonSerialization/JsonServiceConfigurationSerializer.cs:118-124 | no scope member is named "#Version" |
| JsonSerialization.WrittenMembersDistinct | GLNetTools.Common/Configuration/JsonSerialization/JsonServiceConfigurationSerializer.cs:116-135 | written members have distinct names |
| JsonSerialization.DistinctAfterVersion | GLNetTools.Common/Configuration/JsonSerialization/JsonServiceConfigurationSerializer.cs:116-135 | the version member and the distinct scope members stay distinct together |
| JsonSerialization.ReadScopeMembers | GLNetTools.Common/Configuration/JsonSerialization/JsonServiceConfigurationSerializer.cs:68-81 | written scope members convert and read back as the scopes |
| JsonSerialization.RawScopesOf | GLNetTools.Common/Configuration/JsonSerialization/JsonServiceConfigurationSerializer.cs:68 | members that each convert give those raw scopes |
| JsonSerialization.ReadVersionMember | GLNetTools.Common/Configuration/JsonSerialization/JsonServiceConfigurationSerializer.cs:62-67 | the written version reads back |
| JsonSerialization.RemoveVersionMember | GLNetTools.Common/Configuration/JsonSerialization/JsonServiceConfigurationSerializer.cs:66 | removing "#Version" leaves the scope members |
| JsonSerialization.ReadObjectOfMembers | GLNetTools.Common/Configuration/JsonSerialization/JsonServiceConfigurationSerializer.cs:52-86 | an object of the written members reads as the configuration |
| JsonSerialization.ReadWrittenMembers | GLNetTools.Common/Configuration/JsonSerialization/JsonServiceConfigurationSerializer.cs:59-81 | the members written for a readable configuration read back as that configuration |
| JsonSerialization.WrittenObject | GLNetTools.Common/Configuration/JsonSerialization/JsonServiceConfigurationSerializer.cs:107-136 | a readable configuration is written as one object holding its version member and then its scope members |
| JsonSerialization.ReadJsonOfObject | GLNetTools.Common/Configuration/JsonSerialization/JsonServiceConfigurationSerializer.cs:52-86 | an object read with no existing value gives exactly the configuration its members make |
| JsonSerialization.ReadWriteRoundTrip | GLNetTools.Common/Configuration/JsonSerialization/JsonServiceConfigurationSerializer.cs:21-32 | reading what was written gives the same scopes in order, the same projections and the same version |
| JsonSerialization.BuiltInModulesReadNothing | GLNetTools.Common/Configuration/JsonSerialization/JsonServiceConfigurationSerializer.cs:92-94 | as written, with either built-in module registered alone, every projection it names is dropped on read |
| ProxmoxProvider.ParseLines | GLNetTools.ConfigurationProviderService/Providers/ProxmoxBasedConfigurationProvider.cs:53-60 | fails without the network option or the name option; a parsed name has no space |
| ProxmoxProvider.ReadAddress | GLNetTools.ConfigurationProviderService/Providers/ProxmoxBasedConfigurationProvider.cs:53-57 | a file with no network option line fails with the missing-network error |
| ProxmoxProvider.ReadAddressParameter | GLNetTools.ConfigurationProviderService/Providers/ProxmoxBasedConfigurationProvider.cs:54-57 | the missing-parameter error iff no comma-separated parameter starts with the name; an address comes from such a parameter's value |
| ProxmoxProvider.ReadName | GLNetTools.ConfigurationProviderService/Providers/ProxmoxBasedConfigurationProvider.cs:59-60 | a file with no name line fails with the missing-name error; a read name holds no space |
| ProxmoxProvider.ParseConfig | GLNetTools.ConfigurationProviderService/Providers/ProxmoxBasedConfigurationProvider.cs:46-60 | a non-byte file name and an id in 3..99 fail; a parsed id is the file name's byte |
| ProxmoxProvider.SplitOptionLine | GLNetTools.ConfigurationProviderService/Providers/ProxmoxBasedConfigurationProvider.cs:54-60 | "name: value" splits at ' ' into the option and its value |
| ProxmoxProvider.ReadAddressToken | GLNetTools.ConfigurationProviderService/Providers/ProxmoxBasedConfigurationProvider.cs:55-57 | "parameter=address" yields the address |
| ProxmoxProvider.FindWrittenNetworkOption | GLNetTools.ConfigurationProviderService/Providers/ProxmoxBasedConfigurationProvider.cs:53-54 | the network line is found and its second token holds the address |
| ProxmoxProvider.FindWrittenNameOption | GLNetTools.ConfigurationProviderService/Providers/ProxmoxBasedConfigurationProvider.cs:59-60 | the name line is found and its second token is the host name |
| ProxmoxProvider.NetworkLineIsNotName | GLNetTools.ConfigurationProviderService/Providers/ProxmoxBasedConfigurationProvider.cs:53-59 | the written network line does not start with the name option, so the name search passes over it |
| ProxmoxProvider.ReadWrittenAddress | GLNetTools.ConfigurationProviderService/Providers/ProxmoxBasedConfigurationProvider.cs:53-57 | the address is read back from the lines written for a machine |
| ProxmoxProvider.ParseWrittenLines | GLNetTools.ConfigurationProviderService/Providers/ProxmoxBasedConfigurationProvider.cs:53-60 | the lines written for a machine parse back to it |
| ProxmoxProvider.ParseWrittenConfig | GLNetTools.ConfigurationProviderService/Providers/ProxmoxBasedConfigurationProvider.cs:46-60 | the file written for a machine parses back to it |
| ProxmoxProvider.BaseProjection | GLNetTools.ConfigurationProviderService/Providers/ProxmoxBasedConfigurationProvider.cs:63-66 | a Base GuestMachine projection with the host name |
| ProxmoxProvider.NetworkProjection | GLNetTools.ConfigurationProviderService/Providers/ProxmoxBasedConfigurationProvider.cs:67-70 | a Network GuestMachine projection with the address and no rules |
| ProxmoxProvider.FileScopes | GLNetTools.ConfigurationProviderService/Providers/ProxmoxBasedConfigurationProvider.cs:46-77 | a file that fails to parse changes nothing; a parsed one ensures its machine's scope |
| ProxmoxProvider.MachineScopes | GLNetTools.ConfigurationProviderService/Providers/ProxmoxBasedConfigurationProvider.cs:62-70 | after the scope is ensured and the projections added, the scopes stay valid and the machine's scope exists |
| ProxmoxProvider.ProjectionScopes | GLNetTools.ConfigurationProviderService/Providers/ProxmoxBasedConfigurationProvider.cs:63-70 | adding the two projections keeps the scopes valid and every scope where it was |
| ProxmoxProvider.AddedScopeStays | GLNetTools.ConfigurationProviderService/Providers/ProxmoxBasedConfigurationProvider.cs:63-70 | adding a projection keeps the machine's scope where it is |
| ProxmoxProvider.FilesScopes | GLNetTools.ConfigurationProviderService/Providers/ProxmoxBasedConfigurationProvider.cs:44-78 | the files in order keep the builder valid |
| ProxmoxProvider.GroupScopes | GLNetTools.ConfigurationProviderService/Providers/ProxmoxBasedConfigurationProvider.cs:37-86 | a group keeps the builder valid; an unreadable directory changes nothing |
| ProxmoxProvider.UnparsableFilesContributeNothing | GLNetTools.ConfigurationProviderService/Providers/ProxmoxBasedConfigurationProvider.cs:62-77 | files that fail to parse contribute nothing |
| ProxmoxProvider.NetworkProjectionLost | GLNetTools.Common/Configuration/BuiltIn/BaseModule.cs:21 | as written, a parsed file's Network projection is refused and its address is lost |
| ProxmoxProvider.BothProjectionsAdded | GLNetTools.Common/Configuration/BuiltIn/BaseModule.cs:21 | with the intended name, both projections are added in their own slots |
| ProxmoxProvider.BothSlotsFilled | GLNetTools.Common/Configuration/BuiltIn/BaseModule.cs:21 | into a scope without slots, the Base and Network projections each take their own slot and no other scope changes |
| ProxmoxProvider.FetchFile | GLNetTools.ConfigurationProviderService/Providers/ProxmoxBasedConfigurationProvider.cs:46-77 | the builder's scopes become FileScopes' |
| ProxmoxProvider.AddMachine | GLNetTools.ConfigurationProviderService/Providers/ProxmoxBasedConfigurationProvider.cs:62-70 | the builder's scopes become the machine's scope ensured and its projections added |
| ProxmoxProvider.AddProjections | GLNetTools.ConfigurationProviderService/Providers/ProxmoxBasedConfigurationProvider.cs:63-70 | the builder's scopes become those with the Base projection and then, unless it was refused, the Network projection added |
| ProxmoxProvider.FetchGroup | GLNetTools.ConfigurationProviderService/Providers/ProxmoxBasedConfigurationProvider.cs:37-86 | the builder's scopes become GroupScopes'; failures are swallowed |
| ProxmoxProvider.ProvideConfiguration | GLNetTools.ConfigurationProviderService/Providers/ProxmoxBasedConfigurationProvider.cs:31-35 | containers first, then virtual machines |
| ProxmoxProvider.Count | GLNetTools.ConfigurationProviderService/Providers/ProxmoxBasedConfigurationProvider.cs:108-111 | zero iff the event has no subscription |
| ProxmoxProvider.Tracker.constructor | GLNetTools.ConfigurationProviderService/Providers/ProxmoxBasedConfigurationProvider.cs:97-101 | no subscription, no callback, disabled; no watcher raises events, as a new FileSystemWatcher does not |
| ProxmoxProvider.Tracker.Init | GLNetTools.ConfigurationProviderService/Providers/ProxmoxBasedConfigurationProvider.cs:104-113 | every watcher gains the four subscriptions |
| ProxmoxProvider.Tracker.SetCallback | GLNetTools.ConfigurationProviderService/Providers/ProxmoxBasedConfigurationProvider.cs:121-124 | the callback is replaced |
| ProxmoxProvider.Tracker.StartTracking | GLNetTools.ConfigurationProviderService/Providers/ProxmoxBasedConfigurationProvider.cs:126-129 | enabled |
| ProxmoxProvider.Tracker.StopTracking | GLNetTools.ConfigurationProviderService/Providers/ProxmoxBasedConfigurationProvider.cs:131-134 | disabled |
| ProxmoxProvider.Tracker.Raise | GLNetTools.ConfigurationProviderService/Providers/ProxmoxBasedConfigurationProvider.cs:115-119 | no call unless the watcher raises events and the tracker is enabled with a callback; otherwise one call per subscription |
| ProxmoxProvider.Tracker.EnableRaising | GLNetTools.ConfigurationProviderService/Providers/ProxmoxBasedConfigurationProvider.cs:22-23 | every watcher raises events |
| ProxmoxProvider.CreateTrackerAsWritten | GLNetTools.ConfigurationProviderService/Providers/ProxmoxBasedConfigurationProvider.cs:20-29 | a fresh, initialised tracker over two watchers that raise no events |
| ProxmoxProvider.AsWrittenTrackerIsSilent | GLNetTools.ConfigurationProviderService/Providers/ProxmoxBasedConfigurationProvider.cs:20-29 | as written, a started tracker with a callback still invokes nothing for any event |
| ProxmoxProvider.CreateTracker | GLNetTools.ConfigurationProviderService/Providers/ProxmoxBasedConfigurationProvider.cs:20-29 | a fresh, initialised tracker over two watchers that raise events |
| ProxmoxProvider.CreatedFiresTwice | GLNetTools.ConfigurationProviderService/Providers/ProxmoxBasedConfigurationProvider.cs:108-111 | when the watchers raise events: a creation runs the callback twice, a change or deletion once, a rename never |
| ProxmoxProvider.StoppedTrackerIsSilent | GLNetTools.ConfigurationProviderService/Providers/ProxmoxBasedConfigurationProvider.cs:115-119 | a stopped tracker invokes nothing |
| FirewallManagers.FormHostAddress | GLNetTools.Iptables/FirewallManager.cs:126-132 | the subnet's first three octets and the machine id as the last |
| FirewallManagers.Render | GLNetTools.Iptables/FirewallManager.cs:97 | ports render in decimal, hosts dotted |
| FirewallManagers.ProtocolArgument | GLNetTools.Iptables/FirewallManager.cs:65 | "-p tcp" for TCP, "-p udp" for every other value, the unnamed bytes included |
| FirewallManagers.ForwardOptional | GLNetTools.Iptables/FirewallManager.cs:45-52 | at most four optional arguments |
| FirewallManagers.ForwardOptionalPresence | GLNetTools.Iptables/FirewallManager.cs:45-52 | --sport/--dport iff the port is nonzero, -s/-d iff the machine is not Any |
| FirewallManagers.RuleArguments | GLNetTools.Iptables/FirewallManager.cs:37-65 | an unknown rule type fails; every list ends with the protocol argument |
| FirewallManagers.ForwardLayout | GLNetTools.Iptables/FirewallManager.cs:39-53 | "-t filter", "-j ACCEPT", "-A chain", then the optional arguments, then "-p" |
| FirewallManagers.Commands | GLNetTools.Iptables/FirewallManager.cs:22-68 | no address fails, even for None; None issues nothing; Any issues UDP then TCP |
| FirewallManagers.AnyCommandLines | GLNetTools.Iptables/FirewallManager.cs:30-35 | Any's command lines are the UDP lines then the TCP lines |
| FirewallManagers.AnyFailsLikeEach | GLNetTools.Iptables/FirewallManager.cs:30-35 | a rule for any protocol fails exactly when its UDP and TCP rules fail, with the same error |
| FirewallManagers.Pairs | GLNetTools.Iptables/FirewallManager.cs:97 | one "flag value" pair per argument |
| FirewallManagers.CommandLine | GLNetTools.Iptables/FirewallManager.cs:97 | the line starts with the first flag and a space |
| FirewallManagers.Words | GLNetTools.Iptables/FirewallManager.cs:97 | two words per argument |
| FirewallManagers.WordAt | GLNetTools.Iptables/FirewallManager.cs:97 | word 2i is argument i's flag, 2i+1 its value |
| FirewallManagers.WordPair | GLNetTools.Iptables/FirewallManager.cs:97 | argument k contributes words 2k and 2k+1 |
| FirewallManagers.JoinCons | GLNetTools.Iptables/FirewallManager.cs:97 | joining a piece in front |
| FirewallManagers.JoinPairInFront | GLNetTools.Iptables/FirewallManager.cs:97 | a pair in front joins like its two words |
| FirewallManagers.CommandLineStep | GLNetTools.Iptables/FirewallManager.cs:97 | one more argument in front of the joined line |
| FirewallManagers.FrontArgument | GLNetTools.Iptables/FirewallManager.cs:97 | the first argument gives the first pair and two words |
| FirewallManagers.CommandLineIsWords | GLNetTools.Iptables/FirewallManager.cs:97 | joining the pairs is joining the words |
| FirewallManagers.CommandLineSplits | GLNetTools.Iptables/FirewallManager.cs:97 | with no space in flags or values, the command line splits into exactly the words |
| FirewallManagers.SpaceFreeAppend | GLNetTools.Iptables/FirewallManager.cs:37-65 | concatenated space-free lists are space-free |
| FirewallManagers.RenderedNumbersSpaceFree | GLNetTools.Iptables/FirewallManager.cs:97 | ports and addresses render without spaces |
| FirewallManagers.ForwardOptionalSpaceFree | GLNetTools.Iptables/FirewallManager.cs:45-52 | the optional arguments are space-free |
| FirewallManagers.RuleArgumentsSpaceFree | GLNetTools.Iptables/FirewallManager.cs:37-65 | with space-free chain names every list splits back into its words |
| FirewallManagers.ForwardSpaceFree | GLNetTools.Iptables/FirewallManager.cs:39-53 | a Forward list is space-free |
| FirewallManagers.DNatSpaceFree | GLNetTools.Iptables/FirewallManager.cs:54-61 | a DNat list is space-free |
| FirewallManagers.DestinationSpaceFree | GLNetTools.Iptables/FirewallManager.cs:59 | the "--to-destination" value, host address and port, holds no space |
| FirewallManagers.CommandLines | GLNetTools.Iptables/FirewallManager.cs:97 | one command line per call |
| FirewallManagers.ForwardArguments | GLNetTools.Iptables/FirewallManager.cs:37-53 | the list built step by step equals the Forward layout |
| FirewallManagers.DNatArguments | GLNetTools.Iptables/FirewallManager.cs:54-61 | "-t nat", "-A chain", "--dport src", "--to-destination host:dst", "-j DNAT", "-p" |
| FirewallManagers.FirewallManager.constructor | GLNetTools.Iptables/FirewallManager.cs:7-14 | the options, no address, no call |
| FirewallManagers.FirewallManager.UseSubNetwork | GLNetTools.Iptables/FirewallManager.cs:17-20 | only the address changes |
| FirewallManagers.FirewallManager.PerformIptablesCall | GLNetTools.Iptables/FirewallManager.cs:95-97 | one command line is appended to the issued calls |
| FirewallManagers.FirewallManager.Add | GLNetTools.Iptables/FirewallManager.cs:22-68 | the issued calls grow by Commands' lines, or not at all when it throws |
| FirewallManagers.FirewallManager.AddBoth | GLNetTools.Iptables/FirewallManager.cs:30-35 | a rule for any protocol issues the UDP command line and then the TCP one, failing without a call when the rule type is unknown |
| FirewallManagers.FirewallManager.AddSingle | GLNetTools.Iptables/FirewallManager.cs:37-67 | for a UDP or TCP rule, an unknown rule type fails without a call; otherwise exactly the rule's one command line is issued |
| FirewallManagers.AnyIssuesUdpThenTcp | GLNetTools.Iptables/FirewallManager.cs:30-35 | a rule for Any issues the UDP call, then the TCP call |
| FirewallManagers.AddBeforeSubNetworkFails | GLNetTools.Iptables/FirewallManager.cs:24-25 | Add without an address throws even for protocol None |
| ServiceConfigurationBuilders.BuildMachines | GLNetTools.ConfigurationProviderService/ServiceConfigurationBuilder.cs:55-61 | succeeds iff every machine has an address and a name; one entry per id, carrying them and the rules |
| ServiceConfigurationBuilders.BuildMachinesReportsFirstIncomplete | GLNetTools.ConfigurationProviderService/ServiceConfigurationBuilder.cs:55-61 | the error names the first incomplete machine, the address checked before the name |
| ServiceConfigurationBuilders.BuildConfiguration | GLNetTools.ConfigurationProviderService/ServiceConfigurationBuilder.cs:52-68 | succeeds iff machines are complete and the fallback DNS and server name are set; zones and main interface pass through |
| ServiceConfigurationBuilders.ServiceConfigurationBuilder.constructor | GLNetTools.ConfigurationProviderService/ServiceConfigurationBuilder.cs:8-24 | no machines, no zones, nothing set |
| ServiceConfigurationBuilders.ServiceConfigurationBuilder.CreateGuestMachine | GLNetTools.ConfigurationProviderService/ServiceConfigurationBuilder.cs:27-32 | idempotent; an existing machine keeps its fields |
| ServiceConfigurationBuilders.ServiceConfigurationBuilder.SetGuestMachineName | GLNetTools.ConfigurationProviderService/ServiceConfigurationBuilder.cs:34-38 | fails iff the id is unknown; otherwise overwrites the name only |
| ServiceConfigurationBuilders.ServiceConfigurationBuilder.SetGuestMachineMainInterfacePhysicalAddress | GLNetTools.ConfigurationProviderService/ServiceConfigurationBuilder.cs:40-44 | fails iff the id is unknown; otherwise overwrites the address only |
| ServiceConfigurationBuilders.ServiceConfigurationBuilder.AddGuestMachinFirewallRule | GLNetTools.ConfigurationProviderService/ServiceConfigurationBuilder.cs:46-50 | fails iff the id is unknown; otherwise appends the rule |
| ServiceConfigurationBuilders.ServiceConfigurationBuilder.Build | GLNetTools.ConfigurationProviderService/ServiceConfigurationBuilder.cs:52-68 | BuildConfiguration of the builder's state at the call, as values; the source's sharing of the rule and zone lists is under Left out |
| ServiceConfigurationBuilders.CreateTwiceKeepsName | GLNetTools.ConfigurationProviderService/ServiceConfigurationBuilder.cs:27-32 | creating a machine again keeps its name |
| ServiceConfigurationBuilders.MissingFallbackReported | GLNetTools.ConfigurationProviderService/ServiceConfigurationBuilder.cs:64 | without a fallback DNS server the build fails on it |
| ServiceConfigurationBuilders.MissingAddressReportedFirst | GLNetTools.ConfigurationProviderService/ServiceConfigurationBuilder.cs:57-60 | a machine lacking both fields is reported for its address |
| ServiceConfigurationBuilders.BuildsWithoutMainInterface | GLNetTools.ConfigurationProviderService/ServiceConfigurationBuilder.cs:65 | a build succeeds without a main interface |
| PropertyObjectValues.PrimitiveType.Code | GLNetTools.Common.IPC/PropertyObjectValue.cs:53-61 | NestedObject is 255, every other type at most 4 |
| PropertyObjectValues.PrimitiveTypeOf | GLNetTools.Common.IPC/PropertyObjectValue.cs:53-61 | a byte names a type iff it is 0..4 or 255, and that type's code is the byte |
| PropertyObjectValues.CodeRoundTrip | GLNetTools.Common.IPC/PropertyObjectValue.cs:53-61 | the byte of a type names that type |
| PropertyObjectValues.PropertyObjectValue.Type | GLNetTools.Common.IPC/PropertyObjectValue.cs:17-27 | each constructor fixes its own tag |
| PropertyObjectValues.AsInt | GLNetTools.Common.IPC/PropertyObjectValue.cs:35 | the payload iff the tag is Integer; otherwise an invalid cast naming the tag |
| PropertyObjectValues.AsFloat | GLNetTools.Common.IPC/PropertyObjectValue.cs:37 | the payload iff the tag is Float; otherwise an invalid cast |
| PropertyObjectValues.AsBoolean | GLNetTools.Common.IPC/PropertyObjectValue.cs:39 | the payload iff the tag is Boolean; otherwise an invalid cast |
| PropertyObjectValues.AsString | GLNetTools.Common.IPC/PropertyObjectValue.cs:41 | the payload iff the tag is String; otherwise an invalid cast |
| PropertyObjectValues.AsNestedObject | GLNetTools.Common.IPC/PropertyObjectValue.cs:43 | the payload iff the tag is NestedObject; otherwise an invalid cast |
| PropertyObjectValues.NullsEqual | GLNetTools.Common.IPC/PropertyObjectValue.cs:45-46 | two Null values are equal |
| PropertyObjectValues.ValueEquals | GLNetTools.Common.IPC/PropertyObjectValue.cs:45-46 | equal values have one tag; with plain payloads equality is identity |
| PropertyObjectValues.ObjectEquals | GLNetTools.Common.IPC/PropertyObject.cs:40-43 | equal objects have as many entries, with the same keys in the same order |
| PropertyObjectValues.EntriesEqualFrom | GLNetTools.Common.IPC/PropertyObject.cs:40-43 | agreeing entries from an index on have the same keys there |
| PropertyObjectValues.ValueEqualsReflexive | GLNetTools.Common.IPC/PropertyObjectValue.cs:45-46 | every value equals itself, NaN included |
| PropertyObjectValues.EntriesReflexive | GLNetTools.Common.IPC/PropertyObject.cs:40-43 | an object's entries agree with themselves |
| PropertyObjectValues.ValueEqualsSymmetric | GLNetTools.Common.IPC/PropertyObjectValue.cs:45-46 | Equals is symmetric |
| PropertyObjectValues.EntriesSymmetric | GLNetTools.Common.IPC/PropertyObject.cs:40-43 | entry agreement is symmetric |
| PropertyObjectValues.ValueEqualsTransitive | GLNetTools.Common.IPC/PropertyObjectValue.cs:45-46 | Equals is transitive |
| PropertyObjectValues.EntriesTransitive | GLNetTools.Common.IPC/PropertyObject.cs:40-43 | entry agreement is transitive |
| PropertyObjectValues.EntriesEqualFromIff | GLNetTools.Common.IPC/PropertyObject.cs:40-43 | objects are equal iff their entries agree pairwise, in order |
| PropertyObjectValues.OrderMatters | GLNetTools.Common.IPC/PropertyObject.cs:42 | the same entries in another order make an unequal object |
| CommunicationAgents.LLMessageType.Code | GLNetTools.Common.IPC/LowLevel/LLMessageType.cs:3-14 | control messages have codes 0..2, the others 11..15 |
| CommunicationAgents.CodesDistinct | GLNetTools.Common.IPC/LowLevel/LLMessageType.cs:3-14 | the byte identifies the message type |
| CommunicationAgents.AsciiByte | GLNetTools.Common.IPC/LowLevel/DefaultCommunicationAgent.cs:50 | ASCII characters map to themselves, others to '?' |
| CommunicationAgents.AsciiBytes | GLNetTools.Common.IPC/LowLevel/DefaultCommunicationAgent.cs:50 | one byte per character |
| CommunicationAgents.Overwrite | GLNetTools.Common.IPC/LowLevel/DefaultCommunicationAgent.cs:50-56 | the data at the offset, everything else unchanged |
| CommunicationAgents.OverwriteExtends | GLNetTools.Common.IPC/LowLevel/DefaultCommunicationAgent.cs:50-56 | writing a longer prefix over a shorter one leaves what writing the longer one alone leaves |
| CommunicationAgents.EventFrame | GLNetTools.Common.IPC/LowLevel/DefaultCommunicationAgent.cs:50-56 | length byte, ASCII name, body |
| CommunicationAgents.CheckHandshake | GLNetTools.Common.IPC/LowLevel/DefaultCommunicationAgent.cs:39-44 | true iff the message is the one-byte handshake with the protocol version |
| CommunicationAgents.CreateDropConnection | GLNetTools.Common.IPC/LowLevel/DefaultCommunicationAgent.cs:46 | a DropConnection with no payload, which is not a handshake |
| CommunicationAgents.ShouldDisconnectByTimeout | GLNetTools.Common.IPC/LowLevel/DefaultCommunicationAgent.cs:71-74 | a peer is dropped only after its last message, never within ten seconds of it, and always from ten seconds on |
| CommunicationAgents.TimeoutMonotone | GLNetTools.Common.IPC/LowLevel/DefaultCommunicationAgent.cs:71-74 | a peer due for disconnection stays due |
| CommunicationAgents.TimeoutBoundary | GLNetTools.Common.IPC/LowLevel/DefaultCommunicationAgent.cs:71-74 | just under ten seconds is kept, exactly ten is dropped |
| CommunicationAgents.DecodeEvent | GLNetTools.Common.IPC/LowLevel/DefaultCommunicationAgent.cs:50-56 | a payload decodes iff it holds the announced name; it is length, name and body |
| CommunicationAgents.EventPayload | GLNetTools.Common.IPC/LowLevel/DefaultCommunicationAgent.cs:57-59 | the intended payload decodes to the name and the whole body |
| CommunicationAgents.EventPayloadAsWritten | GLNetTools.Common.IPC/LowLevel/DefaultCommunicationAgent.cs:57-59 | as written, the frame without its last byte |
| CommunicationAgents.AsWrittenLosesLastByte | GLNetTools.Common.IPC/LowLevel/DefaultCommunicationAgent.cs:57-59 | as written, the body reads back without its last byte |
| CommunicationAgents.EmptyDocumentExample | GLNetTools.Common.IPC/LowLevel/DefaultCommunicationAgent.cs:57-59 | the empty document for "a": seven bytes intended, six as written |
| CommunicationAgents.DefaultCommunicationAgent.constructor | GLNetTools.Common.IPC/LowLevel/DefaultCommunicationAgent.cs:10 | a zeroed 10241-byte buffer at position 0 |
| CommunicationAgents.DefaultCommunicationAgent.CreateHandshake | GLNetTools.Common.IPC/LowLevel/DefaultCommunicationAgent.cs:33-37 | byte 0 becomes the version; the message is the handshake, and CheckHandshake accepts it |
| CommunicationAgents.DefaultCommunicationAgent.WriteName | GLNetTools.Common.IPC/LowLevel/DefaultCommunicationAgent.cs:50-51 | the name after byte 0 and its length cast to a byte in byte 0 |
| CommunicationAgents.DefaultCommunicationAgent.WriteBody | GLNetTools.Common.IPC/LowLevel/DefaultCommunicationAgent.cs:55-56 | the body after the name; the buffer starts with the frame |
| CommunicationAgents.DefaultCommunicationAgent.WriteEvent | GLNetTools.Common.IPC/LowLevel/DefaultCommunicationAgent.cs:55-59 | the body follows the name in the buffer, the buffer holds the event frame and the message carries the payload as the code slices it |
| CommunicationAgents.DefaultCommunicationAgent.WriteNamePrefix | GLNetTools.Common.IPC/LowLevel/DefaultCommunicationAgent.cs:50 | the ASCII bytes of the characters that fit land after byte 0; nothing else changes |
| CommunicationAgents.DefaultCommunicationAgent.CreateEventUpdateMessage | GLNetTools.Common.IPC/LowLevel/DefaultCommunicationAgent.cs:48-60 | a name beyond the buffer fails after the characters that fit are written, byte 0 untouched; over 255 fails after the write; a full stream fails; otherwise the frame is written and the payload ends one byte early |

## Left out

- Concurrency: the `SemaphoreSlim` lock of `ConfigurationHolder` and the async suspension
  points are not modelled. `AccessBuilderAsync` is modelled as a direct call on the builder.
- The spin-wait in `WebController.HandleConfigurationRequest` is modelled over the sequence
  of values the property is observed to hold.
- The operating system's delivery of `FileSystemWatcher` events is not modelled. Events are
  raised explicitly through `Tracker.Raise`, which honours each watcher's `EnableRaisingEvents`.
- Directory enumeration is not modelled. A directory is a parameter holding its files
  in enumeration order, or none when it cannot be enumerated.
- Logging, `Guid` correlation ids, `DateTime.UtcNow` and process entry points are not
  modelled. The clock is a parameter of the timeout check.
- Iptables process execution, exit codes and `Reset` are not modelled. A call is recorded
  as its command line.
- JSON text, Newtonsoft converters, the BSON serializer and `PropertyObject`'s dictionary
  are not modelled:
  - the JSON model is an abstract tree;
  - the event body is opaque bytes;
  - a `PropertyObject` is its entries in enumeration order.
- Floating point is not modelled: a double is its bit pattern, with equality defined on it.
- `GetHashCode` is not modelled, nor any `ToString` other than `GuestMachineId`'s and the
  IPv4 address text.
- `default(PropertyObjectValue)` is not modelled: its payload is a .NET null, and it cannot
  be built through the constructors.
- A null nested `PropertyObject` is not modelled.
- The reflection behind static models (`ConfigurationModuleProjectionStaticPrototype`,
  `CommonStaticModel`, `CastClass`) is not modelled. Prototypes are explicit property
  tables, and `GetProjection` returns the field map.
- The static metadata of NetworkModule's schema is not modelled. It appears only as the
  property table.
- `Net.ParsePhysicalAddress`: the colon, dash and bare-hex forms are modelled, chosen by the
  character found third. The dotted `xxxx.xxxx.xxxx` form that newer .NET versions accept is
  not modelled.
- `Text.FirstWithPrefix`: its prefix test `StartsWith` is ordinal. The source's
  `string.StartsWith(string)` (ProxmoxBasedConfigurationProvider.cs:53,55,59) compares by the
  current culture, which skips ignorable characters such as U+00AD and NUL and treats
  canonically equivalent forms as equal. The two tests agree on ASCII prefixes over lines
  without ignorable characters. `ProxmoxProvider.ReadAddress`, `ReadAddressParameter` and
  `ReadName` inherit the ordinal test.
- `ProviderDispatch.ConfigurationProviderDispatcher.InitializeTracking`: builds its trackers
  with the corrected `ProxmoxProvider.CreateTracker`, whose watchers raise events, so the
  dispatcher's callback can run. The source's `provider.CreateTracker()` never sets
  EnableRaisingEvents (see "## Findings"), so in the source no tracker ever calls the
  dispatcher; `ProxmoxProvider.AsWrittenTrackerIsSilent` states that behaviour.
- `Text.ParseByte`: culture-specific sign symbols and the trailing NUL characters .NET number
  parsing tolerates are not modelled.
- The `DEBUG` build's protocol name is not modelled.
- `ServiceConfigurationBuilders.ServiceConfigurationBuilder`: each machine's mutable
  record is a value in a map. Dictionary enumeration order is taken to be insertion order;
  the source never removes a machine.
- `ServiceConfigurationBuilders.ServiceConfigurationBuilder.Build`: returns a configuration
  of plain values, copied from the builder's state at the call. In the source the result
  keeps references to the builder's own lists: each machine's `Rules` list
  (ServiceConfigurationBuilder.cs:58) and `_dnsZones` (ServiceConfigurationBuilder.cs:63).
  A rule added by `AddGuestMachinFirewallRule` after `Build`, or a zone added through
  `DNSZones`, therefore shows up in a configuration already built. The model does not
  capture this sharing, and it does not capture that record equality compares these lists
  by reference.
- `CommunicationAgents.DefaultCommunicationAgent.CreateEventUpdateMessage`: on BufferFull
  it writes none of the body. The serializer's partial write before the stream overflows
  is not modelled.
- `CommunicationAgents.DefaultCommunicationAgent.CreateEventUpdateMessage`: the returned
  message is a copy. The source's span over the shared buffer would alias later writes.
- `FirewallManagers.ForwardOptional`: its own contract only bounds the length. The
  presence of each argument is stated by `ForwardOptionalPresence`.
- `FirewallManagers.RuleArguments`: its own contract is light. The layouts are stated by
  `ForwardLayout` and `DNatArguments`.

## Findings

| source | as written | input that shows it | evidently intended | confidence | as-written member | corrected member |
|---|---|---|---|---|---|---|
| GLNetTools.Common/Configuration/BuiltIn/NetworkModule.cs:8-21 | `Instance` is created before the prototype fields, so its lookup table holds nulls (same in BaseModule.cs:5-18) | `ProvidePrototypeFor(Master)` on either module | each module provides its Master and GuestMachine prototypes | high, not executed | ConfigurationModules.BuiltInTablesHoldNulls | ConfigurationModules.IntendedTablesResolve |
| GLNetTools.Common/Configuration/BuiltIn/BaseModule.cs:21 | BaseModule is named "Network", like NetworkModule | registering both modules; or a provider adding a Base and then a Network projection to one machine | a distinct name such as "Base", so both register and each projection gets its own slot | high, not executed | Registries.RegisteringBuiltInModulesFails | Registries.RegisteringIntendedModules |
| GLNetTools.Common/Configuration/BuiltIn/BaseModule.cs:21 | the Proxmox provider's Network projection of a machine lands in the slot its Base projection took, and is refused | any parsable machine config file | both projections added, so the MAC address reaches the configuration | high, not executed | ProxmoxProvider.NetworkProjectionLost | ProxmoxProvider.BothProjectionsAdded |
| GLNetTools.Common.IPC/LowLevel/DefaultCommunicationAgent.cs:57-59 | the payload length is the stream position minus 1, one byte short of the frame | name "a" with the empty BSON document 05 00 00 00 00 | the whole frame, so the body's final zero byte is sent | high, not executed | CommunicationAgents.AsWrittenLosesLastByte | CommunicationAgents.EventPayload |
| GLNetTools.ConfigurationProviderService/WebController.cs:72 | every scope entry is split and its second piece read, so an entry without ':' throws | the documented entry "Master" | a bare type name selects every scope of that type | high, not executed | WebControllers.MasterEntryThrows | WebControllers.DocumentedMasterEntrySelectsMaster |
| GLNetTools.Common/Configuration/ConfigurationBuilder.cs:33-51 | the sweep keeps slots it empties, and Build sums every slot, so an emptied slot makes every build fail | a machine whose config file is deleted, leaving its only provider's parts swept | empty slots are skipped when building | medium, not executed | ConfigurationBuilders.SoleProviderRemovalBreaksBuild | ConfigurationBuilders.RemovedScopeBuildsEmpty |
| GLNetTools.ConfigurationProviderService/Providers/ProxmoxBasedConfigurationProvider.cs:22-23 | the watchers are created without setting EnableRaisingEvents, and nothing sets it later, so they raise no events | any config file created, changed or deleted in a watched directory after EnableTracking | both watchers raise events, so a changed config file re-runs the provider | high, not executed | ProxmoxProvider.AsWrittenTrackerIsSilent | ProxmoxProvider.CreateTracker |
