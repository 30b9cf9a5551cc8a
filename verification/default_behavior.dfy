/**
 * DefaultBehavior: how the projections several providers contributed for one module
 * are summed into one, and how a summed projection is validated.
 */
module DefaultBehavior {
  import opened Wrappers
  import opened Schema
  import opened Sequences

  /** Why one property could not be summed. */
  datatype PropertyError =
    | MissingValue   // a projection has no entry for the property (the indexer throws)
    | NotAList       // a list property holds something that is not a list
    | NoValue        // a scalar property ends up null ("No value for ... provided")

  datatype SumError = NoProjections | WrongPrototype | PropertyFailed

  /**
   * object.Equals(value, default) for a property of declared type `t`. Lists compare by
   * reference; every list a sum produces is a new instance, so a list only equals its
   * default here when both are null.
   */
  predicate ObjectEquals(v: Value, d: Value, t: PropType)
  {
    if t.ListType? then v.Null? && d.Null? else v == d
  }

  /** All items of every input's list, in input order (the SelectMany of the list branch). */
  function ListUnion(ps: seq<Projection>, key: string): (r: Result<seq<Value>, PropertyError>)
    ensures r.Ok? <==> forall i :: 0 <= i < |ps| ==> key in ps[i].data && ps[i].data[key].value.Items?
  {
    if ps == [] then Ok([])
    else if key !in ps[0].data then Err(MissingValue)
    else if !ps[0].data[key].value.Items? then Err(NotAList)
    else match ListUnion(ps[1..], key)
      case Err(e) => Err(e)
      case Ok(rest) => Ok(ps[0].data[key].value.items + rest)
  }

  /**
   * The first input value that differs from the default (Where + FirstOrDefault). The scan is
   * lazy: it stops at that value, so inputs after it are never read.
   */
  function FirstNonDefault(ps: seq<Projection>, key: string, default: Value): Result<Option<Value>, PropertyError>
  {
    if ps == [] then Ok(None)
    else if key !in ps[0].data then Err(MissingValue)
    else if ps[0].data[key].value != default then Ok(Some(ps[0].data[key].value))
    else FirstNonDefault(ps[1..], key, default)
  }

  /** The summed value of one property. */
  function SumProperty(ps: seq<Projection>, key: string, property: Property): Result<Value, PropertyError>
  {
    if property.propType.ListType? then
      match ListUnion(ps, key)
      case Err(e) => Err(e)
      case Ok(items) => Ok(Items(items))
    else
      match FirstNonDefault(ps, key, property.defaultValue)
      case Err(e) => Err(e)
      case Ok(first) =>
        var v := if first.None? || first.value.Null? then property.defaultValue else first.value;
        if v.Null? then Err(NoValue) else Ok(v)
  }

  /**
   * PerformSum: the prototype of the first projection decides the properties; each property
   * is summed over all inputs and the result is created through that prototype. An empty
   * input fails (First() throws), and so does any property that cannot be summed.
   */
  function PerformSum(ps: seq<Projection>): (r: Result<Projection, SumError>)
    ensures ps == [] ==> r == Err(NoProjections)
    ensures r.Ok? <==> (ps != [] &&
      forall k :: k in ps[0].prototype.properties ==> SumProperty(ps, k, ps[0].prototype.properties[k]).Ok?)
    ensures r.Ok? ==> r.value.prototype == ps[0].prototype && r.value.WellFormed()
    ensures r.Ok? ==> forall k :: k in r.value.data ==>
      Ok(r.value.data[k].value) == SumProperty(ps, k, ps[0].prototype.properties[k])
  {
    if ps == [] then Err(NoProjections)
    else
      var proto := ps[0].prototype;
      if exists k :: k in proto.properties && SumProperty(ps, k, proto.properties[k]).Err? then
        Err(PropertyFailed)
      else
        Ok(proto.CreateProjection(map k | k in proto.properties :: SumProperty(ps, k, proto.properties[k]).value))
  }

  /**
   * ValidateProjection of the behaviour: an unsummed projection is always valid; a summed one
   * is invalid when a property whose default is not allowed still holds its default. Reading
   * a property the projection lacks throws.
   */
  function ValidateProjection(p: Projection, isSummedProjection: bool): (r: Result<bool, ProjectionError>)
    ensures !isSummedProjection ==> r == Ok(true)
    ensures isSummedProjection && (forall k :: k in p.prototype.properties ==> k in p.data) ==>
      r == Ok(!HoldsForbiddenDefault(p))
  {
    if !isSummedProjection then Ok(true)
    else
      var props := p.prototype.properties;
      if exists k :: k in props && !props[k].isDefaultValueAllowed && k !in p.data then Err(KeyNotFound)
      else Ok(!HoldsForbiddenDefault(p))
  }

  /** Some property whose default is not allowed still holds its default. */
  predicate HoldsForbiddenDefault(p: Projection)
  {
    exists k :: k in p.prototype.properties && k in p.data && !p.prototype.properties[k].isDefaultValueAllowed &&
      ObjectEquals(p.data[k].value, p.prototype.properties[k].defaultValue, p.prototype.properties[k].propType)
  }

  // ---- Properties of the sum ----

  lemma {:induction false} ListUnionAppend(xs: seq<Projection>, ys: seq<Projection>, key: string)
    requires ListUnion(xs, key).Ok? && ListUnion(ys, key).Ok?
    ensures ListUnion(xs + ys, key) == Ok(ListUnion(xs, key).value + ListUnion(ys, key).value)
  {
    var b := ListUnion(ys, key).value;
    if xs == [] {
      assert xs + ys == ys;
      assert [] + b == b;
    } else {
      var zs := xs + ys;
      TailOfConcat(xs, ys);
      var head := xs[0].data[key].value.items;
      var a := ListUnion(xs[1..], key).value;
      ListUnionAppend(xs[1..], ys, key);
      assert ListUnion(zs[1..], key) == Ok(a + b);
      ConcatAssoc(head, a, b);
    }
  }

  /**
   * Lists concatenate: summing the inputs of two providers yields the first provider's items
   * followed by the second's.
   */
  lemma {:induction false} SumListsConcatenate(xs: seq<Projection>, ys: seq<Projection>, key: string, property: Property)
    requires property.propType.ListType?
    requires SumProperty(xs, key, property).Ok? && SumProperty(ys, key, property).Ok?
    ensures SumProperty(xs + ys, key, property) ==
      Ok(Items(SumProperty(xs, key, property).value.items + SumProperty(ys, key, property).value.items))
  {
    ListUnionAppend(xs, ys, key);
  }

  /**
   * First non-default wins: when input `i` is the first whose value differs from the
   * property's default and that value is not null, the sum is that value; inputs after `i`
   * are not read at all.
   */
  lemma {:induction false} FirstNonDefaultWins(ps: seq<Projection>, key: string, property: Property, i: nat)
    requires !property.propType.ListType?
    requires i < |ps| && forall j :: 0 <= j <= i ==> key in ps[j].data
    requires forall j :: 0 <= j < i ==> ps[j].data[key].value == property.defaultValue
    requires ps[i].data[key].value != property.defaultValue && !ps[i].data[key].value.Null?
    ensures SumProperty(ps, key, property) == Ok(ps[i].data[key].value)
  {
    FirstNonDefaultAt(ps, key, property.defaultValue, i);
  }

  lemma {:induction false} FirstNonDefaultAt(ps: seq<Projection>, key: string, default: Value, i: nat)
    requires i < |ps| && forall j :: 0 <= j <= i ==> key in ps[j].data
    requires forall j :: 0 <= j < i ==> ps[j].data[key].value == default
    requires ps[i].data[key].value != default
    ensures FirstNonDefault(ps, key, default) == Ok(Some(ps[i].data[key].value))
  {
    if i > 0 {
      FirstNonDefaultAt(ps[1..], key, default, i - 1);
    }
  }

  lemma {:induction false} AllDefault(ps: seq<Projection>, key: string, default: Value)
    requires forall j :: 0 <= j < |ps| ==> key in ps[j].data && ps[j].data[key].value == default
    ensures FirstNonDefault(ps, key, default) == Ok(None)
  {
    if ps != [] {
      AllDefault(ps[1..], key, default);
    }
  }

  /**
   * When every input holds the default, the sum is the default, and it fails with
   * "No value" exactly when that default is null.
   */
  lemma {:induction false} SumOfDefaults(ps: seq<Projection>, key: string, property: Property)
    requires !property.propType.ListType?
    requires forall j :: 0 <= j < |ps| ==> key in ps[j].data && ps[j].data[key].value == property.defaultValue
    ensures property.defaultValue.Null? ==> SumProperty(ps, key, property) == Err(NoValue)
    ensures !property.defaultValue.Null? ==> SumProperty(ps, key, property) == Ok(property.defaultValue)
  {
    AllDefault(ps, key, property.defaultValue);
  }

  /**
   * An explicit null that differs from a non-null default is picked as the first non-default
   * value and then replaced by the default, so later providers' values are ignored.
   */
  lemma {:induction false} NullShadowsLaterValues(a: Projection, b: Projection, key: string, property: Property)
    requires !property.propType.ListType? && !property.defaultValue.Null?
    requires key in a.data && a.data[key].value.Null?
    ensures SumProperty([a, b], key, property) == Ok(property.defaultValue)
  {
  }

  /** Order matters for scalars: with two different non-default values, the earlier input wins. */
  lemma {:induction false} SumIsOrderSensitive(a: Projection, b: Projection, key: string, property: Property)
    requires !property.propType.ListType?
    requires key in a.data && key in b.data
    requires a.data[key].value != property.defaultValue && !a.data[key].value.Null?
    requires b.data[key].value != property.defaultValue && !b.data[key].value.Null?
    ensures SumProperty([a, b], key, property) == Ok(a.data[key].value)
    ensures SumProperty([b, a], key, property) == Ok(b.data[key].value)
  {
    FirstNonDefaultWins([a, b], key, property, 0);
    FirstNonDefaultWins([b, a], key, property, 0);
  }

  /** The values a single projection may hold for summing it alone to give it back unchanged. */
  predicate SummableAlone(p: Projection)
  {
    forall k :: k in p.data ==>
      if p.data[k].property.propType.ListType? then p.data[k].value.Items? else !p.data[k].value.Null?
  }

  /**
   * Summing a single well-formed projection yields that projection, provided its lists are
   * lists and its scalars are not null (a null scalar becomes the default, or fails).
   */
  lemma {:induction false} SumOfOne(p: Projection)
    requires p.WellFormed() && SummableAlone(p)
    ensures PerformSum([p]) == Ok(p)
  {
    var proto := p.prototype;
    forall k | k in proto.properties
      ensures SumProperty([p], k, proto.properties[k]) == Ok(p.data[k].value)
    {
      var property := proto.properties[k];
      if property.propType.ListType? {
        assert [p][1..] == [];
        assert ListUnion([p][1..], k) == Ok([]);
        assert ListUnion([p], k) == Ok(p.data[k].value.items + []);
        assert p.data[k].value.items + [] == p.data[k].value.items;
        assert p.data[k].value == Items(p.data[k].value.items);
      } else if p.data[k].value != property.defaultValue {
        FirstNonDefaultWins([p], k, property, 0);
      } else {
        SumOfDefaults([p], k, property);
      }
    }
    var r := PerformSum([p]);
    assert r.Ok?;
    assert r.value.data == p.data;
  }
}

/** The prototype-level entry points, which check that every projection is theirs before delegating. */
module ProjectionPrototypes {
  import opened Wrappers
  import opened Schema
  import DefaultBehavior

  /** SumProjections: every input must come from this prototype; then the behaviour sums them. */
  function SumProjections(proto: Prototype, values: seq<Projection>): (r: Result<Projection, DefaultBehavior.SumError>)
    ensures (exists i :: 0 <= i < |values| && values[i].prototype != proto) ==> r == Err(DefaultBehavior.WrongPrototype)
    ensures values == [] ==> r == Err(DefaultBehavior.NoProjections)
    ensures r.Ok? ==> r.value.prototype == proto && r.value.WellFormed()
    ensures (forall i :: 0 <= i < |values| ==> values[i].prototype == proto) ==> r == DefaultBehavior.PerformSum(values)
  {
    if exists i :: 0 <= i < |values| && values[i].prototype != proto then Err(DefaultBehavior.WrongPrototype)
    else DefaultBehavior.PerformSum(values)
  }

  /** ValidateProjection: the projection must come from this prototype; then the behaviour decides. */
  function ValidateProjection(proto: Prototype, p: Projection, isSummedProjection: bool): (r: Result<bool, ValidateError>)
    ensures p.prototype != proto ==> r == Err(NotThatPrototype)
    ensures p.prototype == proto ==> match DefaultBehavior.ValidateProjection(p, isSummedProjection)
      case Ok(b) => r == Ok(b)
      case Err(_) => r == Err(MissingProperty)
  {
    if p.prototype != proto then Err(NotThatPrototype)
    else match DefaultBehavior.ValidateProjection(p, isSummedProjection)
      case Ok(b) => Ok(b)
      case Err(_) => Err(MissingProperty)
  }

  datatype ValidateError = NotThatPrototype | MissingProperty
}
