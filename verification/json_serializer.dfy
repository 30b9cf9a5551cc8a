/**
 * The JSON converter of ServiceConfiguration: one object member "#Version" (optional) and one
 * member per scope, named "<scope type name>:<serialized key>", holding one object per module
 * projection, holding one member per property.
 */
module JsonSerialization {
  import opened Wrappers
  import opened Text
  import opened Schema
  import opened ScopeTypes
  import opened ConfigurationModules
  import opened Configuration
  import opened Registries
  import opened Sequences

  /**
   * A JSON token. A leaf is a scalar written by a per-type converter (string, IP address,
   * physical address, firewall rule); its text form is not modelled.
   */
  datatype Json =
    | JNull
    | JDate(ticks: int)
    | JLeaf(value: Value)
    | JArray(items: seq<Json>)
    | JObject(members: seq<Member>)

  datatype Member = Member(name: string, value: Json)

  const VersionPropertyName := "#Version"
  const TypeKeySeparator := ':'

  // ---- property values ----

  /** serializer.Serialize of a property value: null, a list as an array, a scalar as a leaf. */
  function EncodeValue(v: Value): (j: Json)
    ensures j.JNull? <==> v.Null?
  {
    match v
    case Null => JNull
    case Items(xs) => JArray(seq(|xs|, i requires 0 <= i < |xs| => EncodeValue(xs[i])))
    case _ => JLeaf(v)
  }

  /**
   * token.ToObject(type): a value of the declared type. A JSON null converts to null, which
   * the reader refuses; inside a list a null element stays null.
   */
  function DecodeValue(t: PropType, j: Json): (r: Option<Value>)
    ensures j.JNull? ==> r.None?
    ensures r.Some? ==> HasType(r.value, t) && !r.value.Null?
  {
    match j
    case JLeaf(v) => if v.Null? || v.Items? || !HasType(v, t) then None else Some(v)
    case JArray(xs) =>
      if t.ListType? && forall i :: 0 <= i < |xs| ==> xs[i].JNull? || DecodeValue(t.element, xs[i]).Some? then
        var items := seq(|xs|, i requires 0 <= i < |xs| && (xs[i].JNull? || DecodeValue(t.element, xs[i]).Some?) =>
          if xs[i].JNull? then Null else DecodeValue(t.element, xs[i]).value);
        assert forall i :: 0 <= i < |items| ==> HasType(items[i], t.element);
        Some(Items(items))
      else None
    case _ => None
  }

  /** Every non-null value of its declared type reads back as itself. */
  lemma {:induction false} DecodeEncodeValue(v: Value, t: PropType)
    requires HasType(v, t) && !v.Null?
    ensures DecodeValue(t, EncodeValue(v)) == Some(v)
    decreases v
  {
    match v
    case Items(xs) =>
      var ys := EncodeValue(v).items;
      forall i | 0 <= i < |xs| && !xs[i].Null?
        ensures DecodeValue(t.element, ys[i]) == Some(xs[i])
      {
        DecodeEncodeValue(xs[i], t.element);
      }
      var items := DecodeValue(t, EncodeValue(v)).value.items;
      assert items == xs;
    case _ =>
  }

  /** A null property value is written as JSON null and cannot be read back. */
  lemma {:induction false} NullValueDoesNotReadBack(t: PropType)
    ensures DecodeValue(t, EncodeValue(Null)).None?
  {
  }

  // ---- objects ----

  function Names(ms: seq<Member>): (ns: seq<string>)
    ensures |ns| == |ms| && forall i :: 0 <= i < |ms| ==> ns[i] == ms[i].name
  {
    seq(|ms|, i requires 0 <= i < |ms| => ms[i].name)
  }

  predicate DistinctNames(ms: seq<Member>)
  {
    forall i, j :: 0 <= i < j < |ms| ==> ms[i].name != ms[j].name
  }

  /** The first member with that name. */
  function FindName(ms: seq<Member>, k: string): (r: Option<nat>)
    ensures r.Some? ==> r.value < |ms| && ms[r.value].name == k && forall i :: 0 <= i < r.value ==> ms[i].name != k
    ensures r.None? <==> k !in Names(ms)
  {
    if ms == [] then None
    else if ms[0].name == k then Some(0)
    else match FindName(ms[1..], k)
      case None => None
      case Some(i) => Some(i + 1)
  }

  /** dictionary[key] = value: replaces the value in place, or appends a new entry. */
  function Assign(ms: seq<Member>, m: Member): (r: seq<Member>)
    ensures FindName(ms, m.name).Some? ==> r == ms[FindName(ms, m.name).value := m]
    ensures FindName(ms, m.name).None? ==> r == ms + [m]
  {
    match FindName(ms, m.name)
    case Some(i) => ms[i := m]
    case None => ms + [m]
  }

  /**
   * Deserialize<Dictionary<string, T>>: the members assigned in order, so a repeated name keeps
   * the position of its first occurrence and the value of its last one.
   */
  function Populate(ms: seq<Member>): (r: seq<Member>)
    ensures DistinctNames(r)
    ensures forall k :: k in Names(r) <==> k in Names(ms)
  {
    if ms == [] then []
    else
      var prefix := Populate(ms[..|ms| - 1]);
      var last := ms[|ms| - 1];
      assert Names(ms) == Names(ms[..|ms| - 1]) + [last.name];
      var r := Assign(prefix, last);
      if FindName(prefix, last.name).Some? then
        assert Names(r) == Names(prefix);
        r
      else
        assert Names(r) == Names(prefix) + [last.name];
        r
  }

  /** Populating from members with distinct names keeps them as they are. */
  lemma {:induction false} PopulateDistinct(ms: seq<Member>)
    requires DistinctNames(ms)
    ensures Populate(ms) == ms
  {
    if ms != [] {
      var prefix := ms[..|ms| - 1];
      PopulateDistinct(prefix);
      assert FindName(prefix, ms[|ms| - 1].name).None?;
      assert prefix + [ms[|ms| - 1]] == ms;
    }
  }

  /** The JObject indexer: the value of the last member of that name (loading keeps the last). */
  function Lookup(ms: seq<Member>, k: string): (r: Option<Json>)
    ensures r.Some? <==> k in Names(ms)
  {
    if ms == [] then None
    else if ms[|ms| - 1].name == k then Some(ms[|ms| - 1].value)
    else
      assert Names(ms) == Names(ms[..|ms| - 1]) + [ms[|ms| - 1].name];
      Lookup(ms[..|ms| - 1], k)
  }

  lemma {:induction false} LookupDistinct(ms: seq<Member>, i: nat)
    requires DistinctNames(ms) && i < |ms|
    ensures Lookup(ms, ms[i].name) == Some(ms[i].value)
  {
    if i < |ms| - 1 {
      LookupDistinct(ms[..|ms| - 1], i);
    }
  }

  /** rawData.Remove(name). */
  function RemoveName(ms: seq<Member>, k: string): (r: seq<Member>)
    ensures forall i :: 0 <= i < |r| ==> r[i].name != k
    ensures (forall i :: 0 <= i < |ms| ==> ms[i].name != k) ==> r == ms
  {
    if ms == [] then []
    else (if ms[0].name == k then [] else [ms[0]]) + RemoveName(ms[1..], k)
  }

  // ---- reading ----

  datatype ReadError =
    | NotAnObject            // the top-level token is neither an object nor null
    | BadVersion             // "#Version" does not convert to DateTime
    | ScopeNotAnObject       // a scope member is neither an object nor null
    | ProjectionNotAnObject  // a projection member is neither an object nor null
    | UnknownScopeType       // GetByName throws for the part before ':'
    | MissingKeyPart         // no ':' in the scope member name: split[1] is out of range
    | NoKeySerializer        // the scope type has no key serializer
    | BadKey                 // the key serializer refuses the text after ':'
    | NullScope              // a scope member is JSON null
    | UnknownModule          // GetByName throws for a projection member name
    | NullProjection         // a projection member is JSON null and its prototype has properties
    | BadPropertyValue       // a property is JSON null or not of its declared type
    | ScopeKeyMismatch       // CreateWeak refuses the key

  /** ToObject<DateTime> of the version member. */
  function ReadVersion(j: Json): (r: Result<int, ReadError>)
    ensures r.Ok? <==> j.JDate?
  {
    if j.JDate? then Ok(j.ticks) else Err(BadVersion)
  }

  /** The version member, when there is one. */
  function ReadOptionalVersion(ms: seq<Member>): (r: Result<Option<int>, ReadError>)
    ensures Lookup(ms, VersionPropertyName).None? ==> r == Ok(None)
    ensures Lookup(ms, VersionPropertyName).Some? ==> (r.Ok? <==> Lookup(ms, VersionPropertyName).value.JDate?)
    ensures r.Ok? && r.value.Some? ==> Lookup(ms, VersionPropertyName) == Some(JDate(r.value.value))
  {
    match Lookup(ms, VersionPropertyName)
    case None => Ok(None)
    case Some(v) =>
      match ReadVersion(v)
      case Ok(ticks) => Ok(Some(ticks))
      case Err(e) => Err(e)
  }

  /** A scope member after ToObject<Dictionary<string, JObject>>; a JSON null gives no table. */
  datatype RawScope = RawScope(name: string, table: Option<seq<Member>>)

  function ToProjectionTable(j: Json): (r: Result<Option<seq<Member>>, ReadError>)
    ensures r.Ok? && r.value.Some? ==> DistinctNames(r.value.value)
  {
    match j
    case JNull => Ok(None)
    case JObject(ms) =>
      if forall i :: 0 <= i < |ms| ==> ms[i].value.JObject? || ms[i].value.JNull? then Ok(Some(Populate(ms)))
      else Err(ProjectionNotAnObject)
    case _ => Err(ScopeNotAnObject)
  }

  /** Line 68: every scope member converted, in order, before any scope is read. */
  function ToRawScopes(ms: seq<Member>): (r: Result<seq<RawScope>, ReadError>)
    ensures r.Ok? ==> |r.value| == |ms| && forall i :: 0 <= i < |ms| ==>
      r.value[i].name == ms[i].name && Ok(r.value[i].table) == ToProjectionTable(ms[i].value)
  {
    if ms == [] then Ok([])
    else match ToProjectionTable(ms[0].value)
      case Err(e) => Err(e)
      case Ok(table) =>
        match ToRawScopes(ms[1..])
        case Err(e) => Err(e)
        case Ok(rest) => Ok([RawScope(ms[0].name, table)] + rest)
  }

  /** The properties of the prototype present in the object, each converted to its declared type. */
  function ReadProperties(p: Prototype, props: seq<Member>): (r: Result<map<string, Value>, ReadError>)
    ensures r.Ok? <==> forall k :: k in p.properties && Lookup(props, k).Some? ==>
      DecodeValue(p.properties[k].propType, Lookup(props, k).value).Some?
    ensures r.Ok? ==> (
      (forall k :: k in r.value <==> k in p.properties && Lookup(props, k).Some?) &&
      forall k :: k in r.value ==> Some(r.value[k]) == DecodeValue(p.properties[k].propType, Lookup(props, k).value))
  {
    if exists k :: k in p.properties && Lookup(props, k).Some? && DecodeValue(p.properties[k].propType, Lookup(props, k).value).None? then
      Err(BadPropertyValue)
    else
      Ok(map k | k in p.properties && Lookup(props, k).Some? :: DecodeValue(p.properties[k].propType, Lookup(props, k).value).value)
  }

  /** readProjection: nothing when the module has no prototype for the scope type. */
  function ReadProjection(proto: Option<Prototype>, obj: Json): (r: Result<Option<Projection>, ReadError>)
    ensures proto.None? ==> r == Ok(None)
    ensures r.Ok? && r.value.Some? ==> proto.Some? && r.value.value.prototype == proto.value && r.value.value.WellFormed()
  {
    match proto
    case None => Ok(None)
    case Some(p) =>
      match obj
      case JObject(props) =>
        (match ReadProperties(p, props)
         case Err(e) => Err(e)
         case Ok(data) => Ok(Some(p.CreateProjection(data))))
      case JNull => if p.properties == map[] then Ok(Some(p.CreateProjection(map[]))) else Err(NullProjection)
      case _ => Err(ProjectionNotAnObject)
  }

  /** One projection member: the module is looked up by name first, then its prototype for the scope type. */
  function ReadProjectionMember(modules: seq<Module>, t: ScopeType, m: Member): (r: Result<Option<Projection>, ReadError>)
    ensures FindModule(modules, m.name).None? ==> r == Err(UnknownModule)
  {
    match FindModule(modules, m.name)
    case None => Err(UnknownModule)
    case Some(md) => ReadProjection(ProvidePrototypeFor(md, t), m.value)
  }

  /** The projection members in order; those without a prototype are skipped. */
  function ReadProjections(modules: seq<Module>, t: ScopeType, ms: seq<Member>): (r: Result<map<string, Projection>, ReadError>)
    ensures r.Ok? ==> r.value.Keys <= set k | k in Names(ms)
  {
    if ms == [] then Ok(map[])
    else
      var last := ms[|ms| - 1];
      assert Names(ms) == Names(ms[..|ms| - 1]) + [last.name];
      match ReadProjections(modules, t, ms[..|ms| - 1])
      case Err(e) => Err(e)
      case Ok(acc) =>
        match ReadProjectionMember(modules, t, last)
        case Err(e) => Err(e)
        case Ok(None) => Ok(acc)
        case Ok(Some(p)) => Ok(acc[last.name := p])
  }

  /** One scope: split the name at ':', resolve the type, deserialize the key, read the projections. */
  function ReadScope(types: seq<ScopeType>, modules: seq<Module>, raw: RawScope): (r: Result<ConfigurationScope, ReadError>)
    ensures r.Ok? ==> FindScopeType(types, Split(raw.name, TypeKeySeparator)[0]) == Some(r.value.scopeType)
  {
    var split := Split(raw.name, TypeKeySeparator);
    match FindScopeType(types, split[0])
    case None => Err(UnknownScopeType)
    case Some(t) =>
      if |split| < 2 then Err(MissingKeyPart)
      else match SerializerOf(t)
        case None => Err(NoKeySerializer)
        case Some(ser) =>
          match Deserialize(ser, split[1])
          case Err(_) => Err(BadKey)
          case Ok(key) =>
            match raw.table
            case None => Err(NullScope)
            case Some(ms) =>
              match ReadProjections(modules, t, ms)
              case Err(e) => Err(e)
              case Ok(projections) =>
                match CreateWeak(t, key, projections)
                case Err(_) => Err(ScopeKeyMismatch)
                case Ok(s) => Ok(s)
  }

  function ReadScopes(types: seq<ScopeType>, modules: seq<Module>, raws: seq<RawScope>): (r: Result<seq<ConfigurationScope>, ReadError>)
    ensures r.Ok? <==> forall i :: 0 <= i < |raws| ==> ReadScope(types, modules, raws[i]).Ok?
    ensures r.Ok? ==> |r.value| == |raws| && forall i :: 0 <= i < |raws| ==> r.value[i] == ReadScope(types, modules, raws[i]).value
  {
    if raws == [] then Ok([])
    else match ReadScope(types, modules, raws[0])
      case Err(e) => Err(e)
      case Ok(s) =>
        match ReadScopes(types, modules, raws[1..])
        case Err(e) =>
          assert exists i :: 0 <= i < |raws[1..]| && ReadScope(types, modules, raws[1..][i]).Err?;
          Err(e)
        case Ok(rest) => Ok([s] + rest)
  }


  /**
   * ReadJson over the registered scope types and modules: null for a JSON null; otherwise the
   * scopes in member order, followed by the scopes of the existing value, with the version read
   * from "#Version" when present.
   */
  function ReadJson(types: seq<ScopeType>, modules: seq<Module>, j: Json, existing: Option<ServiceConfiguration>): (r: Result<Option<ServiceConfiguration>, ReadError>)
    ensures j.JNull? ==> r == Ok(None)
    ensures !j.JNull? && !j.JObject? ==> r == Err(NotAnObject)
    ensures r.Ok? && r.value.Some? && existing.Some? ==> (
      |existing.value.scopes| <= |r.value.value.scopes| &&
      r.value.value.scopes[|r.value.value.scopes| - |existing.value.scopes|..] == existing.value.scopes)
  {
    match j
    case JNull => Ok(None)
    case JObject(ms) =>
      (match ReadObject(types, modules, ms)
       case Err(e) => Err(e)
       case Ok(read) =>
         var all := read.scopes + (if existing.Some? then existing.value.scopes else []);
         assert existing.Some? ==> all[|all| - |existing.value.scopes|..] == existing.value.scopes;
         Ok(Some(ServiceConfiguration(all, read.version))))
    case _ => Err(NotAnObject)
  }

  /** The members of a configuration object: the version, then every other member as a scope. */
  function ReadObject(types: seq<ScopeType>, modules: seq<Module>, ms: seq<Member>): (r: Result<ServiceConfiguration, ReadError>)
    ensures r.Ok? ==> ReadOptionalVersion(Populate(ms)) == Ok(r.value.version)
    ensures r.Ok? ==> |r.value.scopes| == |RemoveName(Populate(ms), VersionPropertyName)|
  {
    var raw := Populate(ms);
    var version := ReadOptionalVersion(raw);
    if version.Err? then Err(version.error)
    else
      match ToRawScopes(RemoveName(raw, VersionPropertyName))
      case Err(e) => Err(e)
      case Ok(raws) =>
        match ReadScopes(types, modules, raws)
        case Err(e) => Err(e)
        case Ok(scopes) => Ok(ServiceConfiguration(scopes, version.value))
  }

  // ---- writing ----

  /** The enumeration order of a dictionary: some listing of its keys, each once. */
  ghost function KeysOf<V>(m: map<string, V>): (ks: seq<string>)
    ensures |ks| == |m.Keys|
    ensures forall k :: k in ks <==> k in m
    ensures forall i, j :: 0 <= i < j < |ks| ==> ks[i] != ks[j]
    decreases |m.Keys|
  {
    if m == map[] then []
    else
      var k :| k in m;
      RemoveKey(m, k);
      var rest := KeysOf(m - {k});
      PrependDistinct(k, rest);
      [k] + rest
  }

  /** writeProjection: one member per property, in the data dictionary's order. */
  ghost function WriteProjection(p: Projection): (j: Json)
    ensures j.JObject? && DistinctNames(j.members)
    ensures forall k :: k in Names(j.members) <==> k in p.data
    ensures forall i :: 0 <= i < |j.members| ==> (
      j.members[i].name in p.data && j.members[i].value == EncodeValue(p.data[j.members[i].name].value))
  {
    var ks := KeysOf(p.data);
    var ms := seq(|ks|, i requires 0 <= i < |ks| => Member(ks[i], EncodeValue(p.data[ks[i]].value)));
    KeyedMembers(ks, ms);
    JObject(ms)
  }

  /** One scope's object: one member per projection. */
  ghost function WriteScope(s: Scope): (j: Json)
    ensures j.JObject? && DistinctNames(j.members)
    ensures forall k :: k in Names(j.members) <==> k in s.projections
    ensures forall i :: 0 <= i < |j.members| ==> (
      j.members[i].name in s.projections && j.members[i].value == WriteProjection(s.projections[j.members[i].name]))
  {
    var ks := KeysOf(s.projections);
    var ms := seq(|ks|, i requires 0 <= i < |ks| => Member(ks[i], WriteProjection(s.projections[ks[i]])));
    KeyedMembers(ks, ms);
    JObject(ms)
  }

  /** Members named by a listing of distinct keys have those names, and distinct ones. */
  lemma {:induction false} KeyedMembers(ks: seq<string>, ms: seq<Member>)
    requires |ms| == |ks| && forall i :: 0 <= i < |ks| ==> ms[i].name == ks[i]
    requires forall i, j :: 0 <= i < j < |ks| ==> ks[i] != ks[j]
    ensures Names(ms) == ks && DistinctNames(ms)
  {
  }

  /** The member name of a scope: type name, ':', serialized key. */
  function ScopeMemberName(s: ConfigurationScope): (name: string)
    requires SerializerOf(s.scopeType).Some?
    ensures TypeKeySeparator in name
  {
    SerializerAcceptsKeysOfItsType(s.scopeType, s.key);
    var name := s.scopeType.name + [TypeKeySeparator] + Serialize(SerializerOf(s.scopeType).value, s.key);
    assert name[|s.scopeType.name|] == TypeKeySeparator;
    name
  }

  datatype WriteError = NoSerializer   // `Serializer!` of a scope type without one

  function VersionMembers(version: Option<int>): (ms: seq<Member>)
  {
    if version.Some? then [Member(VersionPropertyName, JDate(version.value))] else []
  }

  /** One member per scope, in order. */
  ghost function ScopeMembers(scopes: seq<ConfigurationScope>): (ms: seq<Member>)
    requires forall i :: 0 <= i < |scopes| ==> SerializerOf(scopes[i].scopeType).Some?
    ensures |ms| == |scopes|
    ensures forall i :: 0 <= i < |scopes| ==> ms[i] == Member(ScopeMemberName(scopes[i]), WriteScope(scopes[i]))
  {
    seq(|scopes|, i requires 0 <= i < |scopes| => Member(ScopeMemberName(scopes[i]), WriteScope(scopes[i])))
  }

  /** WriteJson: null, or the version member followed by one member per scope in order. */
  ghost function WriteJson(c: Option<ServiceConfiguration>): (r: Result<Json, WriteError>)
    ensures c.None? ==> r == Ok(JNull)
    ensures c.Some? ==> (r.Ok? <==> forall i :: 0 <= i < |c.value.scopes| ==> SerializerOf(c.value.scopes[i].scopeType).Some?)
  {
    match c
    case None => Ok(JNull)
    case Some(c) =>
      if exists i :: 0 <= i < |c.scopes| && SerializerOf(c.scopes[i].scopeType).None? then Err(NoSerializer)
      else Ok(JObject(VersionMembers(c.version) + ScopeMembers(c.scopes)))
  }

  // ---- the round trip ----

  /** Everything the reader needs to find again what the writer wrote. */
  ghost predicate Readable(types: seq<ScopeType>, modules: seq<Module>, c: ServiceConfiguration)
  {
    (forall i :: 0 <= i < |c.scopes| ==> ScopeReadable(types, modules, c.scopes[i])) &&
    forall i, j :: 0 <= i < j < |c.scopes| ==>
      !(c.scopes[i].scopeType == c.scopes[j].scopeType && c.scopes[i].key == c.scopes[j].key)
  }

  /**
   * The scope's type is the one registered under its name, has a key serializer and no ':' in
   * its name; every projection's module is registered under the projection's name and provides
   * the projection's prototype for the scope type; every projection is well formed and holds
   * only non-null values of the declared types.
   */
  ghost predicate ScopeReadable(types: seq<ScopeType>, modules: seq<Module>, s: ConfigurationScope)
  {
    FindScopeType(types, s.scopeType.name) == Some(s.scopeType) &&
    SerializerOf(s.scopeType).Some? && TypeKeySeparator !in s.scopeType.name &&
    forall m :: m in s.projections ==> ProjectionReadable(modules, s.scopeType, m, s.projections[m])
  }

  ghost predicate ProjectionReadable(modules: seq<Module>, t: ScopeType, name: string, p: Projection)
  {
    FindModule(modules, name).Some? &&
    ProvidePrototypeFor(FindModule(modules, name).value, t) == Some(p.prototype) &&
    p.WellFormed() &&
    forall k :: k in p.data ==> !p.data[k].value.Null? && HasType(p.data[k].value, p.data[k].property.propType)
  }

  /** The object written for a projection holds each property's encoded value under its name. */
  lemma {:induction false} LookupWrittenProperty(p: Projection, k: string)
    requires k in p.data
    ensures Lookup(WriteProjection(p).members, k) == Some(EncodeValue(p.data[k].value))
  {
    var props := WriteProjection(p).members;
    var i :| 0 <= i < |props| && Names(props)[i] == k;
    LookupDistinct(props, i);
  }

  /** An object holding every property of the prototype, each of its declared type, reads as those values. */
  lemma {:induction false} ReadPropertiesAllPresent(p: Prototype, props: seq<Member>, values: map<string, Value>)
    requires values.Keys == p.properties.Keys
    requires forall k :: k in p.properties ==>
      Lookup(props, k).Some? && DecodeValue(p.properties[k].propType, Lookup(props, k).value) == Some(values[k])
    ensures ReadProperties(p, props) == Ok(values)
  {
    var r := ReadProperties(p, props);
    assert r.Ok?;
    forall k | k in values ensures k in r.value && r.value[k] == values[k] {
      assert Some(r.value[k]) == Some(values[k]);
    }
    assert r.value == values;
  }

  lemma {:induction false} ReadWrittenProperties(p: Projection)
    requires p.WellFormed()
    requires forall k :: k in p.data ==> !p.data[k].value.Null? && HasType(p.data[k].value, p.data[k].property.propType)
    ensures ReadProperties(p.prototype, WriteProjection(p).members) == Ok(p.Values())
  {
    var props := WriteProjection(p).members;
    forall k | k in p.prototype.properties
      ensures Lookup(props, k).Some?
      ensures DecodeValue(p.prototype.properties[k].propType, Lookup(props, k).value) == Some(p.data[k].value)
    {
      LookupWrittenProperty(p, k);
      DecodeEncodeValue(p.data[k].value, p.data[k].property.propType);
    }
    ReadPropertiesAllPresent(p.prototype, props, p.Values());
  }

  /** A written projection reads back as itself. */
  lemma {:induction false} ReadWrittenProjection(p: Projection)
    requires p.WellFormed()
    requires forall k :: k in p.data ==> !p.data[k].value.Null? && HasType(p.data[k].value, p.data[k].property.propType)
    ensures ReadProjection(Some(p.prototype), WriteProjection(p)) == Ok(Some(p))
  {
    ReadWrittenProperties(p);
    CreateProjectionOfOwnValues(p);
  }

  /** A written projection member reads back as the projection. */
  lemma {:induction false} ReadWrittenMember(modules: seq<Module>, t: ScopeType, name: string, p: Projection)
    requires ProjectionReadable(modules, t, name, p)
    ensures ReadProjectionMember(modules, t, Member(name, WriteProjection(p))) == Ok(Some(p))
  {
    ReadWrittenProjection(p);
  }

  /** The entries of `m` named by the members, extended by one more member. */
  lemma {:induction false} ExtendByName<V>(m: map<string, V>, ms: seq<Member>)
    requires ms != [] && ms[|ms| - 1].name in m
    ensures (map k | k in Names(ms[..|ms| - 1]) && k in m :: m[k])[ms[|ms| - 1].name := m[ms[|ms| - 1].name]] ==
            (map k | k in Names(ms) && k in m :: m[k])
  {
    assert ms[..|ms| - 1] + [ms[|ms| - 1]] == ms;
    assert Names(ms) == Names(ms[..|ms| - 1]) + [ms[|ms| - 1].name];
  }

  lemma {:induction false} NamesCoverMap<V>(m: map<string, V>, ms: seq<Member>)
    requires forall k :: k in m ==> k in Names(ms)
    ensures (map k | k in Names(ms) && k in m :: m[k]) == m
  {
  }

  /** Members that each read as the projection of their name read, in order, as those projections. */
  lemma {:induction false} ReadMembers(modules: seq<Module>, t: ScopeType, projections: map<string, Projection>, ms: seq<Member>)
    requires forall i :: 0 <= i < |ms| ==>
      ms[i].name in projections && ReadProjectionMember(modules, t, ms[i]) == Ok(Some(projections[ms[i].name]))
    ensures ReadProjections(modules, t, ms) == Ok(map k | k in Names(ms) && k in projections :: projections[k])
  {
    if ms != [] {
      var prefix := ms[..|ms| - 1];
      var last := ms[|ms| - 1];
      assert forall i :: 0 <= i < |prefix| ==> prefix[i] == ms[i];
      ReadMembers(modules, t, projections, prefix);
      ReadProjectionsStep(modules, t, ms, map k | k in Names(prefix) && k in projections :: projections[k], projections[last.name]);
      ExtendByName(projections, ms);
    }
  }

  /** A member that reads as a projection adds it, under its name, to what the members before it read as. */
  lemma {:induction false} ReadProjectionsStep(modules: seq<Module>, t: ScopeType, ms: seq<Member>, acc: map<string, Projection>, p: Projection)
    requires ms != [] && ReadProjections(modules, t, ms[..|ms| - 1]) == Ok(acc)
    requires ReadProjectionMember(modules, t, ms[|ms| - 1]) == Ok(Some(p))
    ensures ReadProjections(modules, t, ms) == Ok(acc[ms[|ms| - 1].name := p])
  {
  }

  /** The projections of a written scope read back as the scope's projections. */
  lemma {:induction false} ReadWrittenProjections(modules: seq<Module>, s: ConfigurationScope)
    requires forall m :: m in s.projections ==> ProjectionReadable(modules, s.scopeType, m, s.projections[m])
    ensures ReadProjections(modules, s.scopeType, WriteScope(s).members) == Ok(s.projections)
  {
    var ms := WriteScope(s).members;
    forall i | 0 <= i < |ms|
      ensures ms[i].name in s.projections && ReadProjectionMember(modules, s.scopeType, ms[i]) == Ok(Some(s.projections[ms[i].name]))
    {
      ReadWrittenMember(modules, s.scopeType, ms[i].name, s.projections[ms[i].name]);
    }
    ReadMembers(modules, s.scopeType, s.projections, ms);
    NamesCoverMap(s.projections, ms);
  }

  /** Splitting a scope member name gives back the type name and the serialized key. */
  lemma {:induction false} SplitScopeMemberName(s: ConfigurationScope)
    requires SerializerOf(s.scopeType).Some? && TypeKeySeparator !in s.scopeType.name
    ensures Split(ScopeMemberName(s), TypeKeySeparator) ==
      [s.scopeType.name, Serialize(SerializerOf(s.scopeType).value, s.key)]
  {
    SerializerAcceptsKeysOfItsType(s.scopeType, s.key);
    SplitPair(s.scopeType.name, TypeKeySeparator, Serialize(SerializerOf(s.scopeType).value, s.key));
  }

  /** The object written for a scope converts to its own members as the projection table. */
  lemma {:induction false} WrittenScopeIsATable(s: Scope)
    ensures ToProjectionTable(WriteScope(s)) == Ok(Some(WriteScope(s).members))
  {
    PopulateDistinct(WriteScope(s).members);
  }

  /** A written scope reads back as itself. */
  lemma {:induction false} ReadWrittenScope(types: seq<ScopeType>, modules: seq<Module>, s: ConfigurationScope)
    requires ScopeReadable(types, modules, s)
    ensures ReadScope(types, modules, RawScope(ScopeMemberName(s), Some(WriteScope(s).members))) == Ok(s)
  {
    var split := Split(ScopeMemberName(s), TypeKeySeparator);
    SplitScopeMemberName(s);
    var ser := SerializerOf(s.scopeType).value;
    SerializerAcceptsKeysOfItsType(s.scopeType, s.key);
    DeserializeSerialize(ser, s.key);
    assert FindScopeType(types, split[0]) == Some(s.scopeType);
    assert Deserialize(ser, split[1]) == Ok(s.key);
    ReadWrittenProjections(modules, s);
    assert CreateWeak(s.scopeType, s.key, s.projections) == Ok(s);
  }

  /** Two scopes of one configuration never share a member name. */
  lemma {:induction false} ScopeMemberNamesDistinct(types: seq<ScopeType>, modules: seq<Module>, c: ServiceConfiguration, i: nat, j: nat)
    requires Readable(types, modules, c) && i < j < |c.scopes|
    ensures ScopeMemberName(c.scopes[i]) != ScopeMemberName(c.scopes[j])
  {
    var a := c.scopes[i];
    var b := c.scopes[j];
    if ScopeMemberName(a) == ScopeMemberName(b) {
      SplitScopeMemberName(a);
      SplitScopeMemberName(b);
      assert a.scopeType == b.scopeType;
      var ser := SerializerOf(a.scopeType).value;
      SerializerAcceptsKeysOfItsType(a.scopeType, a.key);
      SerializerAcceptsKeysOfItsType(b.scopeType, b.key);
      DeserializeSerialize(ser, a.key);
      DeserializeSerialize(ser, b.key);
      assert false;
    }
  }

  lemma {:induction false} ScopeMemberIsNotVersion(s: ConfigurationScope)
    requires SerializerOf(s.scopeType).Some?
    ensures ScopeMemberName(s) != VersionPropertyName
  {
    assert TypeKeySeparator !in VersionPropertyName;
  }

  /** The members WriteJson writes have distinct names, and none is "#Version" but the version's. */
  lemma {:induction false} WrittenMembersDistinct(types: seq<ScopeType>, modules: seq<Module>, c: ServiceConfiguration)
    requires Readable(types, modules, c)
    ensures forall i :: 0 <= i < |c.scopes| ==> ScopeMembers(c.scopes)[i].name != VersionPropertyName
    ensures DistinctNames(VersionMembers(c.version) + ScopeMembers(c.scopes))
  {
    var vms := VersionMembers(c.version);
    var sms := ScopeMembers(c.scopes);
    forall i | 0 <= i < |sms| ensures sms[i].name != VersionPropertyName {
      ScopeMemberIsNotVersion(c.scopes[i]);
    }
    forall i, j | 0 <= i < j < |sms| ensures sms[i].name != sms[j].name {
      ScopeMemberNamesDistinct(types, modules, c, i, j);
    }
    DistinctAfterVersion(vms, sms);
  }

  lemma {:induction false} DistinctAfterVersion(vms: seq<Member>, sms: seq<Member>)
    requires |vms| <= 1 && forall i :: 0 <= i < |vms| ==> vms[i].name == VersionPropertyName
    requires DistinctNames(sms) && forall i :: 0 <= i < |sms| ==> sms[i].name != VersionPropertyName
    ensures DistinctNames(vms + sms)
  {
  }

  /** The scope members of a readable configuration convert and read back as its scopes. */
  lemma {:induction false} ReadScopeMembers(types: seq<ScopeType>, modules: seq<Module>, scopes: seq<ConfigurationScope>)
    requires forall i :: 0 <= i < |scopes| ==> SerializerOf(scopes[i].scopeType).Some?
    requires forall i :: 0 <= i < |scopes| ==> ScopeReadable(types, modules, scopes[i])
    ensures ToRawScopes(ScopeMembers(scopes)).Ok?
    ensures ReadScopes(types, modules, ToRawScopes(ScopeMembers(scopes)).value) == Ok(scopes)
  {
    var sms := ScopeMembers(scopes);
    var raws := seq(|scopes|, i requires 0 <= i < |scopes| => RawScope(ScopeMemberName(scopes[i]), Some(WriteScope(scopes[i]).members)));
    forall i | 0 <= i < |scopes|
      ensures ToProjectionTable(sms[i].value) == Ok(raws[i].table)
      ensures ReadScope(types, modules, raws[i]) == Ok(scopes[i])
    {
      WrittenScopeIsATable(scopes[i]);
      ReadWrittenScope(types, modules, scopes[i]);
    }
    RawScopesOf(sms, raws);
    assert ReadScopes(types, modules, raws).value == scopes;
  }

  lemma {:induction false} RawScopesOf(ms: seq<Member>, raws: seq<RawScope>)
    requires |ms| == |raws|
    requires forall i :: 0 <= i < |ms| ==> raws[i].name == ms[i].name && ToProjectionTable(ms[i].value) == Ok(raws[i].table)
    ensures ToRawScopes(ms) == Ok(raws)
  {
    if ms != [] {
      RawScopesOf(ms[1..], raws[1..]);
      assert raws == [raws[0]] + raws[1..];
    }
  }

  /** The version member is read back. */
  lemma {:induction false} ReadVersionMember(version: Option<int>, sms: seq<Member>)
    requires DistinctNames(VersionMembers(version) + sms)
    requires forall i :: 0 <= i < |sms| ==> sms[i].name != VersionPropertyName
    ensures ReadOptionalVersion(VersionMembers(version) + sms) == Ok(version)
  {
    var ms := VersionMembers(version) + sms;
    if version.Some? {
      LookupDistinct(ms, 0);
    } else {
      assert ms == sms;
      assert VersionPropertyName !in Names(sms);
    }
  }

  /** Removing the version member leaves the scope members. */
  lemma {:induction false} RemoveVersionMember(version: Option<int>, sms: seq<Member>)
    requires forall i :: 0 <= i < |sms| ==> sms[i].name != VersionPropertyName
    ensures RemoveName(VersionMembers(version) + sms, VersionPropertyName) == sms
  {
    if version.Some? {
      var m := Member(VersionPropertyName, JDate(version.value));
      assert VersionMembers(version) + sms == [m] + sms;
      RemoveNamedHead(m, sms, VersionPropertyName);
      assert RemoveName(sms, VersionPropertyName) == sms;
    } else {
      assert VersionMembers(version) + sms == sms;
      assert RemoveName(sms, VersionPropertyName) == sms;
    }
  }

  lemma {:induction false} RemoveNamedHead(m: Member, rest: seq<Member>, k: string)
    requires m.name == k
    ensures RemoveName([m] + rest, k) == RemoveName(rest, k)
  {
    assert ([m] + rest)[1..] == rest;
  }

  lemma {:induction false} ReadObjectOfMembers(types: seq<ScopeType>, modules: seq<Module>, ms: seq<Member>, c: ServiceConfiguration)
    requires Populate(ms) == ms
    requires ReadOptionalVersion(ms) == Ok(c.version)
    requires ToRawScopes(RemoveName(ms, VersionPropertyName)).Ok?
    requires ReadScopes(types, modules, ToRawScopes(RemoveName(ms, VersionPropertyName)).value) == Ok(c.scopes)
    ensures ReadObject(types, modules, ms) == Ok(c)
  {
  }

  /**
   * Reading what WriteJson wrote, over registries that know every scope type and module of the
   * configuration, gives the configuration back: the same scopes in the same order, the same
   * projections and the same version.
   */
  lemma {:induction false} ReadWriteRoundTrip(types: seq<ScopeType>, modules: seq<Module>, c: ServiceConfiguration)
    requires Readable(types, modules, c)
    ensures WriteJson(Some(c)).Ok?
    ensures ReadJson(types, modules, WriteJson(Some(c)).value, None) == Ok(Some(c))
  {
    var ms := VersionMembers(c.version) + ScopeMembers(c.scopes);
    WrittenObject(types, modules, c);
    ReadWrittenMembers(types, modules, c);
    ReadJsonOfObject(types, modules, ms);
  }

  /** A readable configuration is written as an object of its version and scope members. */
  lemma {:induction false} WrittenObject(types: seq<ScopeType>, modules: seq<Module>, c: ServiceConfiguration)
    requires Readable(types, modules, c)
    ensures WriteJson(Some(c)) == Ok(JObject(VersionMembers(c.version) + ScopeMembers(c.scopes)))
  {
    assert forall i :: 0 <= i < |c.scopes| ==> ScopeReadable(types, modules, c.scopes[i]);
  }

  /** A JSON object read with no existing value is the configuration its members make. */
  lemma {:induction false} ReadJsonOfObject(types: seq<ScopeType>, modules: seq<Module>, ms: seq<Member>)
    requires ReadObject(types, modules, ms).Ok?
    ensures ReadJson(types, modules, JObject(ms), None) == Ok(Some(ReadObject(types, modules, ms).value))
  {
    var read := ReadObject(types, modules, ms).value;
    assert read.scopes + [] == read.scopes;
  }

  /** The members WriteJson writes for a configuration read back as that configuration. */
  lemma {:induction false} ReadWrittenMembers(types: seq<ScopeType>, modules: seq<Module>, c: ServiceConfiguration)
    requires Readable(types, modules, c)
    ensures ReadObject(types, modules, VersionMembers(c.version) + ScopeMembers(c.scopes)) == Ok(c)
  {
    var sms := ScopeMembers(c.scopes);
    var ms := VersionMembers(c.version) + sms;
    WrittenMembersDistinct(types, modules, c);
    PopulateDistinct(ms);
    ReadVersionMember(c.version, sms);
    RemoveVersionMember(c.version, sms);
    ReadScopeMembers(types, modules, c.scopes);
    ReadObjectOfMembers(types, modules, ms, c);
  }

  /**
   * As written, the built-in modules hold no prototype for any scope type, so the reader skips
   * every projection they name: whatever was written, a read scope has no projection of them.
   * Both modules are named "Network", so a registry holds one of them or the other; the lemma
   * is stated for each alone.
   */
  lemma {:induction false} BuiltInModulesReadNothing(t: ScopeType, m: Member)
    ensures ReadProjectionMember([NetworkModule], t, m) == (if m.name == NetworkName then Ok(None) else Err(UnknownModule))
    ensures ReadProjectionMember([BaseModule], t, m) == (if m.name == NetworkName then Ok(None) else Err(UnknownModule))
  {
    BuiltInTablesHoldNulls(t);
  }
}
