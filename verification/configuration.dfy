/** ConfigurationScope and ServiceConfiguration: the built configuration every service reads. */
module Configuration {
  import opened Wrappers
  import opened Schema
  import opened ScopeTypes
  import opened ConfigurationModules

  /** A scope as the records store it: scope type, key and the projections by module name. */
  datatype Scope = Scope(scopeType: ScopeType, key: ScopeKey, projections: map<string, Projection>)

  /**
   * ConfigurationScope: a scope whose key is an instance of its type's key type. The only way
   * to create one weakly (CreateWeak) goes through the generic constructor, which refuses any
   * other key.
   */
  type ConfigurationScope = s: Scope | KeyFits(s.scopeType.keyType, s.key)
    witness Scope(MasterScope, NoScopeKey, map[])

  datatype ScopeError = KeyTypeMismatch | NoSuchProjection | NotThatPrototype

  /** CreateWeak: the generic ConfigurationScope<TKey> constructor invoked by reflection. */
  function CreateWeak(t: ScopeType, key: ScopeKey, projections: map<string, Projection>): (r: Result<ConfigurationScope, ScopeError>)
    ensures r.Ok? <==> KeyFits(t.keyType, key)
    ensures r.Ok? ==> r.value.scopeType == t && r.value.key == key && r.value.projections == projections
  {
    if KeyFits(t.keyType, key) then Ok(Scope(t, key, projections)) else Err(KeyTypeMismatch)
  }

  /** GetProjectionWeak: the projection stored under the module's name; throws when absent. */
  function GetProjectionWeak(s: ConfigurationScope, m: Module): (r: Result<Projection, ScopeError>)
    ensures r.Ok? <==> m.name in s.projections
    ensures r.Ok? ==> r.value == s.projections[m.name]
  {
    if m.name in s.projections then Ok(s.projections[m.name]) else Err(NoSuchProjection)
  }

  /** Two modules with the same name resolve to the same projection of a scope. */
  lemma {:induction false} LookupIsByNameOnly(s: ConfigurationScope, m1: Module, m2: Module)
    requires m1.name == m2.name
    ensures GetProjectionWeak(s, m1) == GetProjectionWeak(s, m2)
  {
  }

  /**
   * GetProjection: the projection mapped to the static model of `proto`, here the map from
   * field name to value. Mapping refuses a projection of another prototype.
   */
  function GetProjection(s: ConfigurationScope, m: Module, proto: Prototype): (r: Result<map<string, Value>, ScopeError>)
    ensures r.Ok? <==> (m.name in s.projections && s.projections[m.name].prototype == proto &&
      proto.properties.Keys <= s.projections[m.name].data.Keys)
    ensures r.Ok? ==> (r.value.Keys == proto.properties.Keys &&
      forall k :: k in r.value ==> r.value[k] == s.projections[m.name].data[k].value)
  {
    match GetProjectionWeak(s, m)
    case Err(e) => Err(e)
    case Ok(p) =>
      if p.prototype != proto then Err(NotThatPrototype)
      else if !(proto.properties.Keys <= p.data.Keys) then Err(NoSuchProjection)
      else Ok(map k | k in proto.properties :: p.data[k].value)
  }

  /** ServiceConfiguration: the scopes and an optional version. */
  datatype ServiceConfiguration = ServiceConfiguration(scopes: seq<ConfigurationScope>, version: Option<int>)

  /** The position of the first occurrence of `x` in `xs`. */
  function FirstIndex<T(==)>(xs: seq<T>, x: T): (i: nat)
    requires x in xs
    ensures i < |xs| && xs[i] == x
    ensures forall j :: 0 <= j < i ==> xs[j] != x
  {
    if xs[0] == x then 0 else 1 + FirstIndex(xs[1..], x)
  }

  /** An occurrence with no earlier one is the first occurrence. */
  lemma {:induction false} FirstIndexUnique<T>(xs: seq<T>, x: T, i: nat)
    requires i < |xs| && xs[i] == x
    requires forall j :: 0 <= j < i ==> xs[j] != x
    ensures FirstIndex(xs, x) == i
  {
  }

  /** Appending an element moves no first occurrence, and a new element comes first at the end. */
  lemma {:induction false} FirstIndexSnoc<T>(p: seq<T>, x: T)
    ensures forall y :: y in p ==> FirstIndex(p + [x], y) == FirstIndex(p, y)
    ensures x !in p ==> FirstIndex(p + [x], x) == |p|
  {
    forall y | y in p
      ensures FirstIndex(p + [x], y) == FirstIndex(p, y)
    {
      FirstIndexUnique(p + [x], y, FirstIndex(p, y));
    }
    if x !in p {
      FirstIndexUnique(p + [x], x, |p|);
    }
  }

  /**
   * Select + Distinct: each element once, at the position of its first occurrence, so the
   * result lists the elements in the order they first occur.
   */
  function Distinct<T(==,!new)>(xs: seq<T>): (r: seq<T>)
    ensures forall x :: x in r <==> x in xs
    ensures forall i, j :: 0 <= i < j < |r| ==> r[i] != r[j]
    ensures forall k, l :: 0 <= k < l < |r| ==> FirstIndex(xs, r[k]) < FirstIndex(xs, r[l])
  {
    if xs == [] then []
    else
      var p, x := xs[..|xs| - 1], xs[|xs| - 1];
      var rest := Distinct(p);
      assert xs == p + [x];
      FirstIndexSnoc(p, x);
      if x in rest then rest else rest + [x]
  }

  function TypesOf(scopes: seq<ConfigurationScope>): (r: seq<ScopeType>)
    ensures |r| == |scopes| && forall i :: 0 <= i < |r| ==> r[i] == scopes[i].scopeType
  {
    if scopes == [] then [] else TypesOf(scopes[..|scopes| - 1]) + [scopes[|scopes| - 1].scopeType]
  }

  /** ScopeTypes: every scope type that occurs, once each, in order of first occurrence. */
  function ScopeTypesOf(c: ServiceConfiguration): (r: seq<ScopeType>)
    ensures forall t :: t in r <==> exists i :: 0 <= i < |c.scopes| && c.scopes[i].scopeType == t
    ensures forall i, j :: 0 <= i < j < |r| ==> r[i] != r[j]
  {
    TypesOfMembers(c.scopes);
    Distinct(TypesOf(c.scopes))
  }

  /**
   * The scope types are listed in order of first occurrence: the first scope of an earlier
   * listed type comes before the first scope of a later one.
   */
  lemma {:induction false} ScopeTypesInFirstOccurrenceOrder(c: ServiceConfiguration)
    ensures forall t :: t in ScopeTypesOf(c) ==> t in TypesOf(c.scopes)
    ensures forall k, l :: 0 <= k < l < |ScopeTypesOf(c)| ==>
      FirstIndex(TypesOf(c.scopes), ScopeTypesOf(c)[k]) < FirstIndex(TypesOf(c.scopes), ScopeTypesOf(c)[l])
  {
    assert ScopeTypesOf(c) == Distinct(TypesOf(c.scopes));
  }

  /** A type is among the scopes' types exactly when some scope has it. */
  lemma {:induction false} TypesOfMembers(scopes: seq<ConfigurationScope>)
    ensures forall t :: t in TypesOf(scopes) <==> exists i :: 0 <= i < |scopes| && scopes[i].scopeType == t
  {
    var types := TypesOf(scopes);
    forall t | t in types ensures exists i :: 0 <= i < |scopes| && scopes[i].scopeType == t {
      var i :| 0 <= i < |types| && types[i] == t;
    }
  }

  /** FilterScopes: the scopes of one type, in their original order. */
  function FilterScopes(scopes: seq<ConfigurationScope>, t: ScopeType): (r: seq<ConfigurationScope>)
    ensures forall s :: s in r <==> s in scopes && s.scopeType == t
    ensures |r| <= |scopes|
  {
    if scopes == [] then []
    else if scopes[0].scopeType == t then [scopes[0]] + FilterScopes(scopes[1..], t)
    else FilterScopes(scopes[1..], t)
  }

  /** Where keeps a scope of the type and drops any other. */
  lemma {:induction false} FilterScopesSingle(s: ConfigurationScope, t: ScopeType)
    ensures FilterScopes([s], t) == if s.scopeType == t then [s] else []
  {
    assert [s][1..] == [];
  }

  /** Where distributes over concatenation, so it keeps order and repetitions. */
  lemma {:induction false} FilterScopesAppend(a: seq<ConfigurationScope>, b: seq<ConfigurationScope>, t: ScopeType)
    ensures FilterScopes(a + b, t) == FilterScopes(a, t) + FilterScopes(b, t)
    decreases |a|
  {
    if a != [] {
      assert (a + b)[0] == a[0] && (a + b)[1..] == a[1..] + b;
      FilterScopesAppend(a[1..], b, t);
    } else {
      assert a + b == b;
    }
  }

  /** The scope has the type and the key GetScopeWeak asks for. */
  predicate Matches(s: ConfigurationScope, t: ScopeType, key: ScopeKey)
  {
    s.scopeType == t && s.key == key
  }

  /** Scopes of type `t` and key `key`, in their original order. */
  function Matching(scopes: seq<ConfigurationScope>, t: ScopeType, key: ScopeKey): (r: seq<ConfigurationScope>)
    ensures forall s :: s in r <==> s in scopes && Matches(s, t, key)
  {
    if scopes == [] then []
    else if Matches(scopes[0], t, key) then [scopes[0]] + Matching(scopes[1..], t, key)
    else Matching(scopes[1..], t, key)
  }

  /** The predicate keeps a matching scope and drops any other. */
  lemma {:induction false} MatchingSingle(s: ConfigurationScope, t: ScopeType, key: ScopeKey)
    ensures Matching([s], t, key) == if Matches(s, t, key) then [s] else []
  {
    assert [s][1..] == [];
  }

  /** Matching distributes over concatenation, so it counts every matching position. */
  lemma {:induction false} MatchingAppend(a: seq<ConfigurationScope>, b: seq<ConfigurationScope>, t: ScopeType, key: ScopeKey)
    ensures Matching(a + b, t, key) == Matching(a, t, key) + Matching(b, t, key)
    decreases |a|
  {
    if a != [] {
      assert (a + b)[0] == a[0] && (a + b)[1..] == a[1..] + b;
      MatchingAppend(a[1..], b, t, key);
    } else {
      assert a + b == b;
    }
  }

  /** Two matching positions make two or more matching scopes. */
  lemma {:induction false} MatchingTwoCount(scopes: seq<ConfigurationScope>, t: ScopeType, key: ScopeKey, i: nat, j: nat)
    requires i < j < |scopes| && Matches(scopes[i], t, key) && Matches(scopes[j], t, key)
    ensures |Matching(scopes, t, key)| >= 2
    decreases i
  {
    var tail := scopes[1..];
    if i == 0 {
      assert tail[j - 1] == scopes[j] && scopes[j] in tail;
    } else {
      MatchingTwoCount(tail, t, key, i - 1, j - 1);
    }
  }

  /** Two or more matching scopes come from two matching positions. */
  lemma {:induction false} MatchingTwoPositions(scopes: seq<ConfigurationScope>, t: ScopeType, key: ScopeKey) returns (i: nat, j: nat)
    requires |Matching(scopes, t, key)| >= 2
    ensures i < j < |scopes| && Matches(scopes[i], t, key) && Matches(scopes[j], t, key)
    decreases |scopes|
  {
    var tail := scopes[1..];
    if Matches(scopes[0], t, key) {
      assert Matching(scopes, t, key) == [scopes[0]] + Matching(tail, t, key);
      var x := Matching(tail, t, key)[0];
      assert x in Matching(tail, t, key);
      var k :| 0 <= k < |tail| && tail[k] == x;
      i, j := 0, k + 1;
    } else {
      assert Matching(scopes, t, key) == Matching(tail, t, key);
      var i', j' := MatchingTwoPositions(tail, t, key);
      i, j := i' + 1, j' + 1;
    }
  }

  datatype LookupError = NoSuchScope | AmbiguousScope

  /**
   * GetScopeWeak (Single): the scope at the one position that has the type and the key; an
   * error when no position has them, and another when two or more do, even when those
   * scopes are equal.
   */
  function GetScopeWeak(c: ServiceConfiguration, t: ScopeType, key: ScopeKey): (r: Result<ConfigurationScope, LookupError>)
    ensures r.Ok? ==> r.value in c.scopes && Matches(r.value, t, key)
    ensures r == Err(NoSuchScope) <==> forall i :: 0 <= i < |c.scopes| ==> !Matches(c.scopes[i], t, key)
    ensures r == Err(AmbiguousScope) <==>
      exists i, j :: 0 <= i < j < |c.scopes| && Matches(c.scopes[i], t, key) && Matches(c.scopes[j], t, key)
    ensures r.Ok? <==> exists i :: 0 <= i < |c.scopes| && Matches(c.scopes[i], t, key) &&
                                (forall j :: 0 <= j < |c.scopes| && Matches(c.scopes[j], t, key) ==> j == i)
    ensures r.Ok? ==> forall i :: 0 <= i < |c.scopes| && Matches(c.scopes[i], t, key) ==> c.scopes[i] == r.value
  {
    var found := Matching(c.scopes, t, key);
    assert forall i, j :: 0 <= i < j < |c.scopes| && Matches(c.scopes[i], t, key) && Matches(c.scopes[j], t, key) ==> |found| >= 2 by {
      forall i, j | 0 <= i < j < |c.scopes| && Matches(c.scopes[i], t, key) && Matches(c.scopes[j], t, key)
        ensures |found| >= 2
      {
        MatchingTwoCount(c.scopes, t, key, i, j);
      }
    }
    if |found| == 0 then
      assert forall i :: 0 <= i < |c.scopes| ==> !Matches(c.scopes[i], t, key) by {
        forall i | 0 <= i < |c.scopes| ensures !Matches(c.scopes[i], t, key) {
          assert c.scopes[i] in c.scopes;
        }
      }
      Err(NoSuchScope)
    else if |found| == 1 then
      assert found[0] in found;
      var i :| 0 <= i < |c.scopes| && c.scopes[i] == found[0];
      assert Matches(c.scopes[i], t, key);
      Ok(found[0])
    else
      assert exists i, j :: 0 <= i < j < |c.scopes| && Matches(c.scopes[i], t, key) && Matches(c.scopes[j], t, key) by {
        var i, j := MatchingTwoPositions(c.scopes, t, key);
      }
      Err(AmbiguousScope)
  }
}
