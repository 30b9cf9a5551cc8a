/**
 * The configuration schema: property declarations, module projection prototypes and
 * the projections (property name -> declared property and value) they create.
 */
module Schema {
  import opened Wrappers
  import Net
  import FirewallRules

  /** The declared CLR type of a configuration property. */
  datatype PropType =
    | StringType
    | IPAddressType
    | PhysicalAddressType
    | NetworkInterfaceType
    | FirewallRuleType
    | ListType(element: PropType)   // List<element>

  /** A property value; Null is the CLR null, Items a List<T> instance. */
  datatype Value =
    | Null
    | Str(text: string)
    | Ip(address: Net.IPAddress)
    | Mac(physical: Net.PhysicalAddress)
    | Interface(interfaceName: string)   // a NetworkInterface, identified by its name
    | Rule(rule: FirewallRules.FirewallRule)
    | Items(items: seq<Value>)

  /** `v` is an instance of `t` or null (every property type here is a reference type). */
  predicate HasType(v: Value, t: PropType)
  {
    match v
    case Null => true
    case Str(_) => t == StringType
    case Ip(_) => t == IPAddressType
    case Mac(_) => t == PhysicalAddressType
    case Interface(_) => t == NetworkInterfaceType
    case Rule(_) => t == FirewallRuleType
    case Items(xs) => t.ListType? && forall i :: 0 <= i < |xs| ==> HasType(xs[i], t.element)
  }

  /** ConfigurationProperty: declared type, whether the default may survive validation, and the default. */
  datatype Property = Property(propType: PropType, isDefaultValueAllowed: bool, defaultValue: Value)

  /** ConfigurationPropertyWithValue. */
  datatype PropertyWithValue = PropertyWithValue(property: Property, value: Value)

  /**
   * ConfigurationModuleProjectionPrototype. The source compares prototypes by reference;
   * `name` makes two distinct prototype objects distinct values. Every prototype of the
   * core uses DefaultBehavior, so the behaviour is not a field.
   */
  datatype Prototype = Prototype(name: string, properties: map<string, Property>, moduleName: string)
  {
    /**
     * A projection holding every declared property exactly once: the supplied value when
     * `values` has the key (even a null one), the property's default otherwise; keys that
     * are not properties are ignored.
     */
    function CreateProjection(values: map<string, Value>): (r: Projection)
      ensures r.prototype == this && r.WellFormed()
      ensures forall k :: k in properties ==>
        r.data[k].value == (if k in values then values[k] else properties[k].defaultValue)
    {
      Projection(this, map k | k in properties :: PropertyWithValue(properties[k],
        if k in values then values[k] else properties[k].defaultValue))
    }
  }

  datatype ProjectionError = KeyNotFound | TypeMismatch

  /** ConfigurationModuleProjection: the prototype it came from and its data. */
  datatype Projection = Projection(prototype: Prototype, data: map<string, PropertyWithValue>)
  {
    /** The shape every projection made by CreateProjection has: one entry per declared property. */
    predicate WellFormed()
    {
      data.Keys == prototype.properties.Keys &&
      forall k :: k in data ==> data[k].property == prototype.properties[k]
    }

    /** The values alone, as CreateProjection takes them. */
    function Values(): (m: map<string, Value>)
      ensures m.Keys == data.Keys
    {
      map k | k in data :: data[k].value
    }

    /** GetWeak: the stored value; the dictionary indexer throws for an unknown name. */
    function GetWeak(name: string): (r: Result<Value, ProjectionError>)
      ensures r.Ok? <==> name in data
      ensures r.Ok? ==> r.value == data[name].value
    {
      if name in data then Ok(data[name].value) else Err(KeyNotFound)
    }

    /** GetProperty: the stored declaration; throws for an unknown name. */
    function GetProperty(name: string): (r: Result<Property, ProjectionError>)
      ensures r.Ok? <==> name in data
      ensures r.Ok? ==> r.value == data[name].property
    {
      if name in data then Ok(data[name].property) else Err(KeyNotFound)
    }

    /**
     * Get<TValue>: the value, provided the requested type is exactly the declared one
     * (polymorphic reads are refused); an unknown name fails first.
     */
    function Get(name: string, requested: PropType): (r: Result<Value, ProjectionError>)
      ensures name !in data ==> r == Err(KeyNotFound)
      ensures name in data && requested != data[name].property.propType ==> r == Err(TypeMismatch)
      ensures r.Ok? <==> name in data && requested == data[name].property.propType
      ensures r.Ok? ==> r == GetWeak(name)
    {
      match GetProperty(name)
      case Err(e) => Err(e)
      case Ok(property) =>
        if requested != property.propType then Err(TypeMismatch) else GetWeak(name)
    }
  }

  /** Re-creating a well-formed projection from its own values gives the same projection. */
  lemma {:induction false} CreateProjectionOfOwnValues(p: Projection)
    requires p.WellFormed()
    ensures p.prototype.CreateProjection(p.Values()) == p
  {
    var q := p.prototype.CreateProjection(p.Values());
    assert q.data.Keys == p.data.Keys;
    forall k | k in q.data ensures q.data[k] == p.data[k] {
    }
  }

  /** A projection created from no values holds every default. */
  lemma {:induction false} CreateProjectionOfNothing(proto: Prototype, k: string)
    requires k in proto.properties
    ensures proto.CreateProjection(map[]).GetWeak(k) == Ok(proto.properties[k].defaultValue)
  {
  }
}
