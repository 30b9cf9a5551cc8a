/**
 * PropertyObjectValue: the tagged value an IPC property object holds, and the equality
 * the struct defines on it (same tag, and the payloads equal as .NET objects).
 */
module PropertyObjectValues {
  import opened Wrappers
  import opened Text

  type int32 = x: int | -0x8000_0000 <= x < 0x8000_0000

  /** A double as its IEEE 754 binary64 bit pattern; the model does no arithmetic on it. */
  type DoubleBits = x: int | 0 <= x < 0x1_0000_0000_0000_0000

  /** All exponent bits set and a nonzero fraction. */
  predicate IsNaN(d: DoubleBits)
  {
    (d / 0x10_0000_0000_0000) % 0x800 == 0x7FF && d % 0x10_0000_0000_0000 != 0
  }

  /** Positive or negative zero: every bit but the sign clear. */
  predicate IsZero(d: DoubleBits)
  {
    d % 0x8000_0000_0000_0000 == 0
  }

  /** Double.Equals: numeric ==, except that a NaN equals every NaN. */
  predicate DoubleEquals(a: DoubleBits, b: DoubleBits)
  {
    a == b || (IsNaN(a) && IsNaN(b)) || (IsZero(a) && IsZero(b))
  }

  /** PrimitiveType, an enum over byte. */
  datatype PrimitiveType = Null | Integer | Float | Boolean | String | NestedObject
  {
    function Code(): (b: uint8)
      ensures this == NestedObject <==> b == 255
      ensures this != NestedObject ==> b <= 4
    {
      match this
      case Null => 0
      case Integer => 1
      case Float => 2
      case Boolean => 3
      case String => 4
      case NestedObject => 255
    }
  }

  /** The enum value a byte names, if any. */
  function PrimitiveTypeOf(b: uint8): (r: Option<PrimitiveType>)
    ensures r.Some? <==> b <= 4 || b == 255
    ensures r.Some? ==> r.value.Code() == b
  {
    if b == 0 then Some(Null)
    else if b == 1 then Some(Integer)
    else if b == 2 then Some(Float)
    else if b == 3 then Some(Boolean)
    else if b == 4 then Some(String)
    else if b == 255 then Some(NestedObject)
    else None
  }

  /** Distinct types have distinct byte values, so the byte identifies the type. */
  lemma {:induction false} CodeRoundTrip(t: PrimitiveType)
    ensures PrimitiveTypeOf(t.Code()) == Some(t)
  {
  }

  /**
   * A value, one constructor per constructor of the struct; the tag is a function of the
   * constructor, so a payload never disagrees with its tag.
   */
  datatype PropertyObjectValue =
    | NullValue
    | IntegerValue(i: int32)
    | FloatValue(d: DoubleBits)
    | BooleanValue(b: bool)
    | StringValue(s: string)
    | NestedObjectValue(o: PropertyObject)
  {
    function Type(): (t: PrimitiveType)
      ensures t == Null <==> this.NullValue?
      ensures t == Integer <==> this.IntegerValue?
      ensures t == Float <==> this.FloatValue?
      ensures t == Boolean <==> this.BooleanValue?
      ensures t == String <==> this.StringValue?
      ensures t == NestedObject <==> this.NestedObjectValue?
    {
      match this
      case NullValue => Null
      case IntegerValue(_) => Integer
      case FloatValue(_) => Float
      case BooleanValue(_) => Boolean
      case StringValue(_) => String
      case NestedObjectValue(_) => NestedObject
    }

    predicate IsNull() { Type() == Null }
  }

  /** PropertyObject, as its entries in the dictionary's enumeration order. */
  datatype PropertyObject = PropertyObject(entries: seq<Entry>)

  datatype Entry = Entry(key: string, value: PropertyObjectValue)

  /** A cast of the payload to a type it does not have throws InvalidCastException. */
  datatype CastError = InvalidCast(actual: PrimitiveType)

  function AsInt(v: PropertyObjectValue): (r: Result<int32, CastError>)
    ensures r.Ok? <==> v.Type() == Integer
    ensures r.Ok? ==> IntegerValue(r.value) == v
    ensures r.Err? ==> r.error == InvalidCast(v.Type())
  {
    if v.IntegerValue? then Ok(v.i) else Err(InvalidCast(v.Type()))
  }

  function AsFloat(v: PropertyObjectValue): (r: Result<DoubleBits, CastError>)
    ensures r.Ok? <==> v.Type() == Float
    ensures r.Ok? ==> FloatValue(r.value) == v
    ensures r.Err? ==> r.error == InvalidCast(v.Type())
  {
    if v.FloatValue? then Ok(v.d) else Err(InvalidCast(v.Type()))
  }

  function AsBoolean(v: PropertyObjectValue): (r: Result<bool, CastError>)
    ensures r.Ok? <==> v.Type() == Boolean
    ensures r.Ok? ==> BooleanValue(r.value) == v
    ensures r.Err? ==> r.error == InvalidCast(v.Type())
  {
    if v.BooleanValue? then Ok(v.b) else Err(InvalidCast(v.Type()))
  }

  function AsString(v: PropertyObjectValue): (r: Result<string, CastError>)
    ensures r.Ok? <==> v.Type() == String
    ensures r.Ok? ==> StringValue(r.value) == v
    ensures r.Err? ==> r.error == InvalidCast(v.Type())
  {
    if v.StringValue? then Ok(v.s) else Err(InvalidCast(v.Type()))
  }

  function AsNestedObject(v: PropertyObjectValue): (r: Result<PropertyObject, CastError>)
    ensures r.Ok? <==> v.Type() == NestedObject
    ensures r.Ok? ==> NestedObjectValue(r.value) == v
    ensures r.Err? ==> r.error == InvalidCast(v.Type())
  {
    if v.NestedObjectValue? then Ok(v.o) else Err(InvalidCast(v.Type()))
  }

  /**
   * Equals: the same tag and equal payloads. The Null payload is one shared object, so two
   * Null values are equal; a nested object compares entry by entry in enumeration order.
   */
  function ValueEquals(a: PropertyObjectValue, b: PropertyObjectValue): (r: bool)
    ensures r ==> a.Type() == b.Type()
    ensures !a.FloatValue? && !a.NestedObjectValue? ==> (r <==> a == b)
    decreases a, 0
  {
    a.Type() == b.Type() &&
    match a
    case NullValue => true
    case IntegerValue(i) => i == b.i
    case FloatValue(d) => DoubleEquals(d, b.d)
    case BooleanValue(x) => x == b.b
    case StringValue(s) => s == b.s
    case NestedObjectValue(o) => ObjectEquals(o, b.o)
  }

  /** PropertyObject.Equals: SequenceEqual over the key/value pairs. */
  function ObjectEquals(o: PropertyObject, p: PropertyObject): (r: bool)
    ensures r ==> |o.entries| == |p.entries|
    ensures r ==> forall k :: 0 <= k < |o.entries| ==> o.entries[k].key == p.entries[k].key
    decreases o, |o.entries| + 1
  {
    |o.entries| == |p.entries| && EntriesEqualFrom(o, p, 0)
  }

  /** The pairs from index i on agree: equal keys, and values equal by ValueEquals. */
  function EntriesEqualFrom(o: PropertyObject, p: PropertyObject, i: nat): (r: bool)
    requires |o.entries| == |p.entries| && i <= |o.entries|
    ensures r ==> forall k :: i <= k < |o.entries| ==> o.entries[k].key == p.entries[k].key
    decreases o, |o.entries| - i
  {
    i == |o.entries| ||
    (o.entries[i].key == p.entries[i].key &&
     ValueEquals(o.entries[i].value, p.entries[i].value) &&
     EntriesEqualFrom(o, p, i + 1))
  }

  /** Any two Null values are equal. */
  lemma {:induction false} NullsEqual()
    ensures ValueEquals(NullValue, NullValue)
  {
  }

  /** Every value equals itself, NaN payloads included. */
  lemma {:induction false} ValueEqualsReflexive(a: PropertyObjectValue)
    ensures ValueEquals(a, a)
    decreases a, 0
  {
    if a.NestedObjectValue? {
      EntriesReflexive(a.o, 0);
    }
  }

  lemma {:induction false} EntriesReflexive(o: PropertyObject, i: nat)
    requires i <= |o.entries|
    ensures EntriesEqualFrom(o, o, i)
    decreases o, |o.entries| - i
  {
    if i < |o.entries| {
      ValueEqualsReflexive(o.entries[i].value);
      EntriesReflexive(o, i + 1);
    }
  }

  /** Equals is symmetric. */
  lemma {:induction false} ValueEqualsSymmetric(a: PropertyObjectValue, b: PropertyObjectValue)
    requires ValueEquals(a, b)
    ensures ValueEquals(b, a)
    decreases a, 0
  {
    if a.NestedObjectValue? {
      EntriesSymmetric(a.o, b.o, 0);
    }
  }

  lemma {:induction false} EntriesSymmetric(o: PropertyObject, p: PropertyObject, i: nat)
    requires |o.entries| == |p.entries| && i <= |o.entries| && EntriesEqualFrom(o, p, i)
    ensures EntriesEqualFrom(p, o, i)
    decreases o, |o.entries| - i
  {
    if i < |o.entries| {
      ValueEqualsSymmetric(o.entries[i].value, p.entries[i].value);
      EntriesSymmetric(o, p, i + 1);
    }
  }

  /** Equals is transitive: NaNs form one class, the two zeros another. */
  lemma {:induction false} ValueEqualsTransitive(a: PropertyObjectValue, b: PropertyObjectValue, c: PropertyObjectValue)
    requires ValueEquals(a, b) && ValueEquals(b, c)
    ensures ValueEquals(a, c)
    decreases a, 0
  {
    if a.NestedObjectValue? {
      EntriesTransitive(a.o, b.o, c.o, 0);
    }
  }

  lemma {:induction false} EntriesTransitive(o: PropertyObject, p: PropertyObject, q: PropertyObject, i: nat)
    requires |o.entries| == |p.entries| == |q.entries| && i <= |o.entries|
    requires EntriesEqualFrom(o, p, i) && EntriesEqualFrom(p, q, i)
    ensures EntriesEqualFrom(o, q, i)
    decreases o, |o.entries| - i
  {
    if i < |o.entries| {
      ValueEqualsTransitive(o.entries[i].value, p.entries[i].value, q.entries[i].value);
      EntriesTransitive(o, p, q, i + 1);
    }
  }

  /** Two objects are equal exactly when their entries agree pairwise, in order. */
  lemma {:induction false} EntriesEqualFromIff(o: PropertyObject, p: PropertyObject, i: nat)
    requires |o.entries| == |p.entries| && i <= |o.entries|
    ensures EntriesEqualFrom(o, p, i) <==>
      forall j :: i <= j < |o.entries| ==>
        o.entries[j].key == p.entries[j].key && ValueEquals(o.entries[j].value, p.entries[j].value)
    decreases |o.entries| - i
  {
    if i < |o.entries| {
      EntriesEqualFromIff(o, p, i + 1);
    }
  }

  /** The same entries in another order make a different object: equality follows enumeration order. */
  lemma {:induction false} OrderMatters(k1: string, k2: string, v: PropertyObjectValue)
    requires k1 != k2
    ensures !ObjectEquals(PropertyObject([Entry(k1, v), Entry(k2, v)]), PropertyObject([Entry(k2, v), Entry(k1, v)]))
  {
  }
}
