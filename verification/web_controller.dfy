/**
 * WebController: answers a configuration request with the part of the current configuration
 * the query's scope and module filters select, under the configuration's own version.
 */
module WebControllers {
  import opened Wrappers
  import opened Text
  import opened ScopeTypes
  import opened Configuration
  import opened ConfigurationHolders
  import opened Sequences

  const AllModules: string := "*"
  const AllScopes: string := "*"
  const ScopeTypeSeparator: char := ':'

  /** QueryModel: scope entries ("GuestMachine:123"), module names, and the version to wait past. */
  datatype Query = Query(scopes: seq<string>, modules: seq<string>, waitForOlderThan: Option<int>)

  /** A scope entry once split at the separator: its first two pieces. */
  datatype ScopeEntry = ScopeEntry(typePart: string, keyPart: string)

  /** Splitting the scope entries throws on the first entry without a separator. */
  datatype QueryError = MalformedScopeEntry(entry: string)

  /** IsModuleRequested: some module entry names the module, or is the wildcard. */
  function IsModuleRequested(q: Query, moduleName: string): (r: bool)
    ensures r <==> exists i :: 0 <= i < |q.modules| && (q.modules[i] == moduleName || q.modules[i] == AllModules)
  {
    moduleName in q.modules || AllModules in q.modules
  }

  /** The first piece of text split at a separator it contains ends just before that separator. */
  lemma {:induction false} SplitFirstPiece(s: string, c: char)
    requires c in s
    ensures Split(s, c)[0] + [c] <= s
  {
    if s[0] != c {
      SplitFirstPiece(s[1..], c);
      assert Split(s, c)[0] == [s[0]] + Split(s[1..], c)[0];
      assert s == [s[0]] + s[1..];
    }
  }

  /** `split[0]` and `split[1]` of `s.Split(":")`, or None where the second index throws. */
  function ParseScopeEntry(s: string): (r: Option<ScopeEntry>)
    ensures r.Some? <==> ScopeTypeSeparator in s
    ensures r.Some? ==> r.value.typePart + [ScopeTypeSeparator] <= s
    ensures r.Some? ==> ScopeTypeSeparator !in r.value.typePart && ScopeTypeSeparator !in r.value.keyPart
  {
    var pieces := Split(s, ScopeTypeSeparator);
    SplitHasSeparator(s, ScopeTypeSeparator);
    if |pieces| >= 2 then
      SplitFirstPiece(s, ScopeTypeSeparator);
      Some(ScopeEntry(pieces[0], pieces[1]))
    else None
  }

  /** An entry written as type, separator, key splits back into that type and key. */
  lemma {:induction false} ParseScopeEntryOf(typePart: string, keyPart: string)
    requires ScopeTypeSeparator !in typePart && ScopeTypeSeparator !in keyPart
    ensures ParseScopeEntry(typePart + [ScopeTypeSeparator] + keyPart) == Some(ScopeEntry(typePart, keyPart))
  {
    SplitPair(typePart, ScopeTypeSeparator, keyPart);
  }

  /** Every entry has a separator. */
  predicate WellFormed(q: Query)
  {
    forall i :: 0 <= i < |q.scopes| ==> ScopeTypeSeparator in q.scopes[i]
  }

  /** The Select(...).ToArray() over the scope entries: all of them split, or the first bad one throws. */
  function ParseScopeEntries(entries: seq<string>): (r: Result<seq<ScopeEntry>, QueryError>)
    ensures r.Ok? <==> forall i :: 0 <= i < |entries| ==> ScopeTypeSeparator in entries[i]
    ensures r.Ok? ==> |r.value| == |entries| && forall i :: 0 <= i < |entries| ==> ParseScopeEntry(entries[i]) == Some(r.value[i])
    ensures r.Err? ==> exists i :: (0 <= i < |entries| && entries[i] == r.error.entry && ScopeTypeSeparator !in entries[i] &&
      forall j :: 0 <= j < i ==> ScopeTypeSeparator in entries[j])
  {
    if entries == [] then Ok([])
    else match ParseScopeEntry(entries[0])
      case None => Err(MalformedScopeEntry(entries[0]))
      case Some(e) =>
        match ParseScopeEntries(entries[1..])
        case Err(err) => Err(err)
        case Ok(rest) => Ok([e] + rest)
  }

  /** One scope entry selects the scope: both parts wildcards, or the type with a wildcard or its key. */
  function EntryMatches(e: ScopeEntry, typeName: string, ser: KeySerializer, key: ScopeKey): (r: bool)
    requires Accepts(ser, key)
    ensures r ==> e.typePart == typeName || (e.typePart == AllScopes && e.keyPart == AllScopes)
    ensures r && e.keyPart != AllScopes ==> Deserialize(ser, e.keyPart) == Ok(key)
    ensures e.typePart == typeName && (e.keyPart == AllScopes || e.keyPart == Serialize(ser, key)) ==> r
    ensures e.typePart == AllScopes && e.keyPart != AllScopes && typeName != AllScopes ==> !r
  {
    (e.typePart == AllScopes && e.keyPart == AllScopes) ||
    (e.typePart == typeName && e.keyPart == AllScopes) ||
    (e.typePart == typeName && Compare(ser, key, e.keyPart))
  }

  /** Any entry of the list selects the scope. */
  function AnyEntryMatches(entries: seq<ScopeEntry>, typeName: string, ser: KeySerializer, key: ScopeKey): (r: bool)
    requires Accepts(ser, key)
    ensures r <==> exists i :: 0 <= i < |entries| && EntryMatches(entries[i], typeName, ser, key)
  {
    if entries == [] then false
    else EntryMatches(entries[0], typeName, ser, key) || AnyEntryMatches(entries[1..], typeName, ser, key)
  }

  /**
   * IsScopeRequested: every entry is split first, so one entry without a separator makes the
   * call throw whatever the other entries say; otherwise some entry must select the scope.
   */
  function IsScopeRequested(q: Query, typeName: string, key: ScopeKey, ser: KeySerializer): (r: Result<bool, QueryError>)
    requires Accepts(ser, key)
    ensures r.Err? <==> !WellFormed(q)
    ensures r.Ok? ==> (r.value <==> exists i :: (0 <= i < |q.scopes| &&
      EntryMatches(ParseScopeEntry(q.scopes[i]).value, typeName, ser, key)))
  {
    match ParseScopeEntries(q.scopes)
    case Err(e) => Err(e)
    case Ok(entries) =>
      var found := AnyEntryMatches(entries, typeName, ser, key);
      assert found ==> exists i :: 0 <= i < |q.scopes| && EntryMatches(ParseScopeEntry(q.scopes[i]).value, typeName, ser, key);
      Ok(found)
  }

  /** The entry "*:*" selects every scope of every serializable type. */
  lemma {:induction false} WildcardSelectsEverything(q: Query, typeName: string, key: ScopeKey, ser: KeySerializer)
    requires Accepts(ser, key) && WellFormed(q) && "*:*" in q.scopes
    ensures IsScopeRequested(q, typeName, key, ser) == Ok(true)
  {
    var i :| 0 <= i < |q.scopes| && q.scopes[i] == "*:*";
    ParseScopeEntryOf("*", "*");
    assert "*" + [ScopeTypeSeparator] + "*" == "*:*";
  }

  /** The entry written from a scope's type name and serialized key selects that scope. */
  lemma {:induction false} SerializedKeySelectsScope(q: Query, t: ScopeType, key: ScopeKey)
    requires SerializerOf(t).Some? && KeyFits(t.keyType, key) && WellFormed(q)
    requires ScopeTypeSeparator !in t.name
    requires t.name + [ScopeTypeSeparator] + Serialize(SerializerOf(t).value, key) in q.scopes
    ensures IsScopeRequested(q, t.name, key, SerializerOf(t).value) == Ok(true)
  {
    var ser := SerializerOf(t).value;
    var entry := t.name + [ScopeTypeSeparator] + Serialize(ser, key);
    var i :| 0 <= i < |q.scopes| && q.scopes[i] == entry;
    ParseScopeEntryOf(t.name, Serialize(ser, key));
  }

  /**
   * The documented entry "Master" makes every request that reaches a serializable scope throw,
   * even beside an entry that selects everything.
   */
  lemma {:induction false} MasterEntryThrows(modules: seq<string>, key: ScopeKey, ser: KeySerializer)
    requires Accepts(ser, key)
    ensures IsScopeRequested(Query(["*:*", "Master"], modules, None), "Master", key, ser) == Err(MalformedScopeEntry("Master"))
  {
    var entries := ["*:*", "Master"];
    assert ScopeTypeSeparator !in entries[1];
    ParseScopeEntryOf("*", "*");
    assert "*" + [ScopeTypeSeparator] + "*" == entries[0];
    assert entries[1..] == ["Master"];
    assert ParseScopeEntry("Master") == None;
  }

  /**
   * The entry format the query model documents: "Type:key", or a bare "Type" for a scope type
   * without keys. A bare entry selects every scope of that type.
   */
  function ParseDocumentedEntry(s: string): (r: ScopeEntry)
    ensures ScopeTypeSeparator in s ==> Some(r) == ParseScopeEntry(s)
    ensures ScopeTypeSeparator !in s ==> r == ScopeEntry(s, AllScopes)
  {
    match ParseScopeEntry(s)
    case Some(e) => e
    case None => ScopeEntry(s, AllScopes)
  }

  /** IsScopeRequested as the documented format intends it: no entry throws. */
  function IsScopeRequestedDocumented(q: Query, typeName: string, key: ScopeKey, ser: KeySerializer): (r: bool)
    requires Accepts(ser, key)
    ensures r <==> exists i :: 0 <= i < |q.scopes| && EntryMatches(ParseDocumentedEntry(q.scopes[i]), typeName, ser, key)
  {
    exists i :: 0 <= i < |q.scopes| && EntryMatches(ParseDocumentedEntry(q.scopes[i]), typeName, ser, key)
  }

  /** On entries that all have a separator, the documented reading agrees with the code. */
  lemma {:induction false} DocumentedAgreesOnWellFormed(q: Query, typeName: string, key: ScopeKey, ser: KeySerializer)
    requires Accepts(ser, key) && WellFormed(q)
    ensures IsScopeRequested(q, typeName, key, ser) == Ok(IsScopeRequestedDocumented(q, typeName, key, ser))
  {
    assert forall i :: 0 <= i < |q.scopes| ==> ParseDocumentedEntry(q.scopes[i]) == ParseScopeEntry(q.scopes[i]).value;
  }

  /** Under the documented reading, "Master" selects the Master scope. */
  lemma {:induction false} DocumentedMasterEntrySelectsMaster(modules: seq<string>)
    ensures IsScopeRequestedDocumented(Query(["Master"], modules, None), MasterScope.name, NoScopeKey, MasterKeySerializer)
  {
    assert ParseScopeEntry("Master") == None;
    assert EntryMatches(ParseDocumentedEntry(["Master"][0]), MasterScope.name, MasterKeySerializer, NoScopeKey);
  }

  /** Whether the response keeps a scope: it needs a serializer, and then the scope filter decides. */
  function IsKept(q: Query, s: ConfigurationScope): (r: Result<bool, QueryError>)
    ensures SerializerOf(s.scopeType).None? ==> r == Ok(false)
    ensures SerializerOf(s.scopeType).Some? ==> (r.Err? <==> !WellFormed(q))
    ensures r == Ok(true) ==> SerializerOf(s.scopeType).Some?
  {
    match SerializerOf(s.scopeType)
    case None => Ok(false)
    case Some(ser) =>
      SerializerAcceptsKeysOfItsType(s.scopeType, s.key);
      IsScopeRequested(q, s.scopeType.name, s.key, ser)
  }

  /** A kept scope: same type and key, only the requested modules' projections. */
  function Restrict(q: Query, s: ConfigurationScope): (r: ConfigurationScope)
    ensures r.scopeType == s.scopeType && r.key == s.key
    ensures forall m :: m in r.projections <==> m in s.projections && IsModuleRequested(q, m)
    ensures forall m :: m in r.projections ==> r.projections[m] == s.projections[m]
  {
    Scope(s.scopeType, s.key, map m | m in s.projections && IsModuleRequested(q, m) :: s.projections[m])
  }

  /** The Where(...).Select(...).ToArray() over the scopes: in order, failing with the scope filter. */
  function Requested(q: Query, scopes: seq<ConfigurationScope>): (r: Result<seq<ConfigurationScope>, QueryError>)
    ensures r.Err? <==> !WellFormed(q) && exists i :: 0 <= i < |scopes| && SerializerOf(scopes[i].scopeType).Some?
    ensures r.Ok? ==> |r.value| <= |scopes|
  {
    if scopes == [] then Ok([])
    else
      var s := scopes[0];
      match IsKept(q, s)
      case Err(e) => Err(e)
      case Ok(kept) =>
        match Requested(q, scopes[1..])
        case Err(e) => Err(e)
        case Ok(rest) =>
          var here := if kept then [Restrict(q, s)] else [];
          Ok(here + rest)
  }

  /** The response of a concatenation is the concatenation of the responses: the order is kept. */
  lemma {:induction false} RequestedAppend(q: Query, a: seq<ConfigurationScope>, b: seq<ConfigurationScope>)
    requires Requested(q, a).Ok? && Requested(q, b).Ok?
    ensures Requested(q, a + b) == Ok(Requested(q, a).value + Requested(q, b).value)
  {
    if a == [] {
      assert a + b == b && Requested(q, a).value == [];
      assert [] + Requested(q, b).value == Requested(q, b).value;
    } else {
      assert IsKept(q, a[0]).Ok? && Requested(q, a[1..]).Ok?;
      var here := if IsKept(q, a[0]).value then [Restrict(q, a[0])] else [];
      var restA := Requested(q, a[1..]).value;
      var restB := Requested(q, b).value;
      assert Requested(q, a).value == here + restA;
      TailOfConcat(a, b);
      RequestedAppend(q, a[1..], b);
      assert Requested(q, a + b) == Ok(here + (restA + restB));
      ConcatAssoc(here, restA, restB);
    }
  }

  /** Every scope the filters keep is in the response, restricted to the requested modules. */
  lemma {:induction false} KeptScopeAnswered(q: Query, scopes: seq<ConfigurationScope>, i: nat)
    requires Requested(q, scopes).Ok? && i < |scopes| && IsKept(q, scopes[i]) == Ok(true)
    ensures Restrict(q, scopes[i]) in Requested(q, scopes).value
  {
    RequestedFirst(q, scopes);
    var here := if IsKept(q, scopes[0]).value then [Restrict(q, scopes[0])] else [];
    var rest := Requested(q, scopes[1..]).value;
    if i > 0 {
      assert scopes[1..][i - 1] == scopes[i];
      KeptScopeAnswered(q, scopes[1..], i - 1);
    }
    InConcat(here, rest, Restrict(q, scopes[i]));
  }

  /** The response starts with the first scope, when kept, followed by the response for the rest. */
  lemma {:induction false} RequestedFirst(q: Query, scopes: seq<ConfigurationScope>)
    requires Requested(q, scopes).Ok? && scopes != []
    ensures IsKept(q, scopes[0]).Ok? && Requested(q, scopes[1..]).Ok?
    ensures Requested(q, scopes).value ==
      (if IsKept(q, scopes[0]).value then [Restrict(q, scopes[0])] else []) + Requested(q, scopes[1..]).value
  {
  }

  /** Every scope in the response is a scope the filters keep, restricted to the requested modules. */
  lemma {:induction false} AnsweredScopeKept(q: Query, scopes: seq<ConfigurationScope>, j: nat)
    requires Requested(q, scopes).Ok? && j < |Requested(q, scopes).value|
    ensures exists i :: (0 <= i < |scopes| && IsKept(q, scopes[i]) == Ok(true) &&
      Requested(q, scopes).value[j] == Restrict(q, scopes[i]))
  {
    var i := AnsweredScopeIndex(q, scopes, j);
  }

  /** The index of the scope that entry j of the response comes from. */
  lemma {:induction false} AnsweredScopeIndex(q: Query, scopes: seq<ConfigurationScope>, j: nat) returns (i: nat)
    requires Requested(q, scopes).Ok? && j < |Requested(q, scopes).value|
    ensures i < |scopes| && IsKept(q, scopes[i]) == Ok(true) && Requested(q, scopes).value[j] == Restrict(q, scopes[i])
  {
    RequestedFirst(q, scopes);
    var kept := IsKept(q, scopes[0]).value;
    var here := if kept then [Restrict(q, scopes[0])] else [];
    var rest := Requested(q, scopes[1..]).value;
    if kept && j == 0 {
      assert (here + rest)[0] == Restrict(q, scopes[0]);
      i := 0;
    } else {
      var k := j - |here|;
      assert (here + rest)[j] == rest[k];
      var i' := AnsweredScopeIndex(q, scopes[1..], k);
      i := i' + 1;
      assert scopes[1..][i'] == scopes[i];
    }
  }

  /**
   * The response to a query: the requested scopes under the configuration's own version. The
   * serialization of the result is the configuration serializer's Write.
   */
  function Respond(q: Query, c: ServiceConfiguration): (r: Result<ServiceConfiguration, QueryError>)
    ensures r.Err? <==> Requested(q, c.scopes).Err?
    ensures r.Ok? ==> r.value.version == c.version && r.value.scopes == Requested(q, c.scopes).value
  {
    match Requested(q, c.scopes)
    case Err(e) => Err(e)
    case Ok(scopes) => Ok(ServiceConfiguration(scopes, c.version))
  }

  /** Asking for every module of every scope gives back the configuration, when all its scope types serialize. */
  lemma {:induction false} RequestEverything(q: Query, scopes: seq<ConfigurationScope>)
    requires WellFormed(q) && "*:*" in q.scopes && AllModules in q.modules
    requires forall i :: 0 <= i < |scopes| ==> SerializerOf(scopes[i].scopeType).Some?
    ensures Requested(q, scopes) == Ok(scopes)
  {
    if scopes != [] {
      var s := scopes[0];
      WholeScopeKept(q, s);
      RequestEverything(q, scopes[1..]);
      assert scopes == [s] + scopes[1..];
    }
  }

  /** RequestEverything for one scope: it is kept, with all of its projections. */
  lemma {:induction false} WholeScopeKept(q: Query, s: ConfigurationScope)
    requires WellFormed(q) && "*:*" in q.scopes && AllModules in q.modules
    requires SerializerOf(s.scopeType).Some?
    ensures IsKept(q, s) == Ok(true) && Restrict(q, s) == s
  {
    SerializerAcceptsKeysOfItsType(s.scopeType, s.key);
    WildcardSelectsEverything(q, s.scopeType.name, s.key, SerializerOf(s.scopeType).value);
    assert Restrict(q, s).projections == s.projections;
  }

  /** The configuration a request may answer from: any, or one not older than the awaited version. */
  predicate NewEnough(c: ServiceConfiguration, waitForOlderThan: Option<int>)
  {
    waitForOlderThan.None? || c.version.None? || c.version.value > waitForOlderThan.value
  }

  /** How reading the configuration for a request ended. */
  datatype Poll = Served(config: ServiceConfiguration) | NotReady(error: HolderError) | StillWaiting

  /**
   * The read at the top of HandleConfigurationRequest, over the successive values `observed` of
   * the holder's Configuration property: one read without WaitForOlderThan, otherwise reads
   * until one is new enough. A read before the first build throws. Running out of observed values
   * stands for a request still spinning.
   */
  method AwaitConfiguration(q: Query, observed: seq<Result<ServiceConfiguration, HolderError>>) returns (r: Poll)
    requires observed != []
    ensures r.Served? ==> NewEnough(r.config, q.waitForOlderThan)
    ensures r.Served? ==> exists i :: (0 <= i < |observed| && observed[i] == Ok(r.config) &&
      forall j :: 0 <= j < i ==> observed[j].Ok? && !NewEnough(observed[j].value, q.waitForOlderThan))
    ensures r.NotReady? ==> exists i :: (0 <= i < |observed| && observed[i] == Err(r.error) &&
      forall j :: 0 <= j < i ==> observed[j].Ok? && !NewEnough(observed[j].value, q.waitForOlderThan))
    ensures r.StillWaiting? <==> forall j :: 0 <= j < |observed| ==> observed[j].Ok? && !NewEnough(observed[j].value, q.waitForOlderThan)
    ensures q.waitForOlderThan.None? ==> !r.StillWaiting? && (observed[0].Ok? ==> r == Served(observed[0].value))
  {
    var i := 0;
    while i < |observed|
      invariant 0 <= i <= |observed| && (q.waitForOlderThan.None? ==> i == 0)
      invariant forall j :: 0 <= j < i ==> observed[j].Ok? && !NewEnough(observed[j].value, q.waitForOlderThan)
    {
      match observed[i] {
        case Err(e) =>
          return NotReady(e);
        case Ok(c) =>
          if NewEnough(c, q.waitForOlderThan) {
            return Served(c);
          }
      }
      i := i + 1;
    }
    r := StillWaiting;
  }
}
