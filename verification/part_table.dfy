/**
 * The Parts dictionary of a module slot in the configuration builder: provider -> projection.
 * Its enumeration order decides which provider's value wins a sum, so the model keeps the
 * layout of a .NET Dictionary: an entry array enumerated in index order, where a removal
 * frees a slot and the next insertion reuses the most recently freed slot before appending.
 */
module PartTables {
  import opened Wrappers
  import opened Schema

  /** Providers are compared by reference; an id stands for each provider object. */
  type ProviderId = nat

  datatype Part = Part(provider: ProviderId, projection: Projection)

  /** The entries (None = a freed slot) and the free list, most recently freed first. */
  datatype PartTable = PartTable(entries: seq<Option<Part>>, freeList: seq<nat>)

  const EmptyTable: PartTable := PartTable([], [])

  ghost predicate FreeListSound(t: PartTable)
  {
    forall k :: 0 <= k < |t.freeList| ==> t.freeList[k] < |t.entries| && t.entries[t.freeList[k]].None?
  }

  ghost predicate FreeListDistinct(t: PartTable)
  {
    forall k, l :: 0 <= k < l < |t.freeList| ==> t.freeList[k] != t.freeList[l]
  }

  ghost predicate FreeListComplete(t: PartTable)
  {
    forall i :: 0 <= i < |t.entries| && t.entries[i].None? ==> i in t.freeList
  }

  ghost predicate KeysUnique(entries: seq<Option<Part>>)
  {
    forall i, j :: 0 <= i < j < |entries| && entries[i].Some? && entries[j].Some? ==>
      entries[i].value.provider != entries[j].value.provider
  }

  /** The dictionary invariant: the free list is exactly the freed slots, each once; keys are unique. */
  ghost predicate Valid(t: PartTable)
  {
    FreeListSound(t) && FreeListDistinct(t) && FreeListComplete(t) && KeysUnique(t.entries)
  }

  /** The slot holding the provider's part, if any. */
  function IndexIn(entries: seq<Option<Part>>, p: ProviderId): (r: Option<nat>)
    ensures r.Some? ==> r.value < |entries| && entries[r.value].Some? && entries[r.value].value.provider == p
    ensures r.None? ==> forall i :: 0 <= i < |entries| && entries[i].Some? ==> entries[i].value.provider != p
  {
    if entries == [] then None
    else
      var last := |entries| - 1;
      if entries[last].Some? && entries[last].value.provider == p then Some(last)
      else IndexIn(entries[..last], p)
  }

  function IndexOf(t: PartTable, p: ProviderId): (r: Option<nat>)
    ensures r.Some? ==> r.value < |t.entries| && t.entries[r.value].Some? && t.entries[r.value].value.provider == p
    ensures r.None? ==> forall i :: 0 <= i < |t.entries| && t.entries[i].Some? ==> t.entries[i].value.provider != p
  {
    IndexIn(t.entries, p)
  }

  predicate Contains(t: PartTable, p: ProviderId) { IndexOf(t, p).Some? }

  /** The projections of the present entries, in index order. */
  function ValuesIn(entries: seq<Option<Part>>): (r: seq<Projection>)
    ensures |r| <= |entries|
  {
    if entries == [] then []
    else
      var last := |entries| - 1;
      if entries[last].Some? then ValuesIn(entries[..last]) + [entries[last].value.projection]
      else ValuesIn(entries[..last])
  }

  /** Parts.Values: the projections in enumeration order. */
  function Values(t: PartTable): (r: seq<Projection>)
    ensures |r| <= |t.entries|
  {
    ValuesIn(t.entries)
  }

  /** The parts of the present entries, in index order. */
  function PartsIn(entries: seq<Option<Part>>): (r: seq<Part>)
    ensures |r| <= |entries|
    ensures forall x :: x in r <==> Some(x) in entries
  {
    if entries == [] then []
    else
      var last := |entries| - 1;
      assert entries == entries[..last] + [entries[last]];
      if entries[last].Some? then PartsIn(entries[..last]) + [entries[last].value]
      else PartsIn(entries[..last])
  }

  /** The (provider, projection) pairs in enumeration order. */
  function Parts(t: PartTable): (r: seq<Part>)
    ensures forall x :: x in r <==> Some(x) in t.entries
  {
    PartsIn(t.entries)
  }

  datatype TableError = DuplicateKey

  /** Dictionary.Add: throws for a provider already present; fills the most recently freed slot, else appends. */
  function Add(t: PartTable, p: ProviderId, x: Projection): (r: Result<PartTable, TableError>)
    requires Valid(t)
    ensures r.Err? <==> Contains(t, p)
    ensures r.Ok? && t.freeList != [] ==> r.value == PartTable(t.entries[t.freeList[0] := Some(Part(p, x))], t.freeList[1..])
    ensures r.Ok? && t.freeList == [] ==> r.value == PartTable(t.entries + [Some(Part(p, x))], [])
  {
    if Contains(t, p) then Err(DuplicateKey)
    else if t.freeList != [] then Ok(PartTable(t.entries[t.freeList[0] := Some(Part(p, x))], t.freeList[1..]))
    else Ok(PartTable(t.entries + [Some(Part(p, x))], []))
  }

  /** Dictionary.Remove: frees the provider's slot and pushes it on the free list; nothing when absent. */
  function Remove(t: PartTable, p: ProviderId): (r: PartTable)
    ensures IndexOf(t, p).None? ==> r == t
    ensures IndexOf(t, p).Some? ==> r == PartTable(t.entries[IndexOf(t, p).value := None], [IndexOf(t, p).value] + t.freeList)
  {
    match IndexOf(t, p)
    case None => t
    case Some(i) => PartTable(t.entries[i := None], [i] + t.freeList)
  }

  /** Only the present entries, in order. */
  function Live(entries: seq<Option<Part>>): (r: seq<Option<Part>>)
    ensures forall i :: 0 <= i < |r| ==> r[i].Some?
    ensures forall x :: x in r <==> x in entries && x.Some?
  {
    if entries == [] then []
    else if entries[|entries| - 1].Some? then Live(entries[..|entries| - 1]) + [entries[|entries| - 1]]
    else Live(entries[..|entries| - 1])
  }

  /** ToDictionary: a fresh dictionary with the same pairs in the same order and no freed slots. */
  function Compact(t: PartTable): (r: PartTable)
    ensures r.freeList == [] && forall i :: 0 <= i < |r.entries| ==> r.entries[i].Some?
  {
    PartTable(Live(t.entries), [])
  }

  // ---- Properties ----

  /** In a valid table a provider's slot is the only one holding it. */
  lemma {:induction false} IndexOfUnique(t: PartTable, p: ProviderId, i: nat)
    requires Valid(t) && i < |t.entries| && t.entries[i].Some? && t.entries[i].value.provider == p
    ensures IndexOf(t, p) == Some(i)
  {
  }

  lemma {:induction false} ValuesOfLive(entries: seq<Option<Part>>)
    ensures ValuesIn(Live(entries)) == ValuesIn(entries)
    ensures PartsIn(Live(entries)) == PartsIn(entries)
  {
    if entries != [] {
      var last := |entries| - 1;
      ValuesOfLive(entries[..last]);
      var live := Live(entries);
      if entries[last].Some? {
        assert live[..|live| - 1] == Live(entries[..last]);
      } else {
        assert live == Live(entries[..last]);
      }
    }
  }

  lemma {:induction false} LiveDistinct(entries: seq<Option<Part>>)
    requires KeysUnique(entries)
    ensures KeysUnique(Live(entries))
  {
    if entries != [] {
      var last := |entries| - 1;
      var front := Live(entries[..last]);
      assert KeysUnique(entries[..last]);
      LiveDistinct(entries[..last]);
      if entries[last].Some? {
        var live := Live(entries);
        forall i, j | 0 <= i < j < |live| ensures live[i].value.provider != live[j].value.provider {
          if j == |front| {
            assert live[i] in front;
            assert live[i] in entries[..last];
            var a :| 0 <= a < last && entries[..last][a] == live[i];
            assert entries[a] == live[i] && entries[last] == live[j];
          } else {
            assert live[i] == front[i] && live[j] == front[j];
          }
        }
      }
    }
  }

  /** The snapshot copy enumerates the same parts in the same order. */
  lemma {:induction false} CompactKeepsOrder(t: PartTable)
    ensures Values(Compact(t)) == Values(t) && Parts(Compact(t)) == Parts(t)
  {
    ValuesOfLive(t.entries);
  }

  /** The snapshot copy of a valid table is valid. */
  lemma {:induction false} CompactValid(t: PartTable)
    requires Valid(t)
    ensures Valid(Compact(t))
  {
    LiveDistinct(t.entries);
  }

  /** Add keeps a table valid. */
  lemma {:induction false} AddKeepsValid(t: PartTable, p: ProviderId, x: Projection)
    requires Valid(t) && !Contains(t, p)
    ensures Valid(Add(t, p, x).value)
  {
    if t.freeList != [] {
      AddIntoFreedSlotKeepsValid(t, p, x);
    } else {
      AppendKeepsValid(t, p, x);
    }
  }

  lemma {:induction false} AddIntoFreedSlotKeepsValid(t: PartTable, p: ProviderId, x: Projection)
    requires Valid(t) && !Contains(t, p) && t.freeList != []
    ensures Valid(Add(t, p, x).value)
  {
    var r := Add(t, p, x).value;
    var f := t.freeList[0];
    assert r.entries == t.entries[f := Some(Part(p, x))] && r.freeList == t.freeList[1..];
    forall k | 0 <= k < |r.freeList| ensures r.freeList[k] < |r.entries| && r.entries[r.freeList[k]].None? {
      assert r.freeList[k] == t.freeList[k + 1] != f;
    }
    forall i | 0 <= i < |r.entries| && r.entries[i].None? ensures i in r.freeList {
      assert i != f && t.entries[i].None?;
      var k :| 0 <= k < |t.freeList| && t.freeList[k] == i;
      assert r.freeList[k - 1] == i;
    }
    forall i, j | 0 <= i < j < |r.entries| && r.entries[i].Some? && r.entries[j].Some?
      ensures r.entries[i].value.provider != r.entries[j].value.provider
    {
      if i != f && j != f {
        assert r.entries[i] == t.entries[i] && r.entries[j] == t.entries[j];
      }
    }
  }

  lemma {:induction false} AppendKeepsValid(t: PartTable, p: ProviderId, x: Projection)
    requires Valid(t) && !Contains(t, p) && t.freeList == []
    ensures Valid(Add(t, p, x).value)
  {
    var r := Add(t, p, x).value;
    assert r.entries == t.entries + [Some(Part(p, x))];
    forall i | 0 <= i < |r.entries| ensures r.entries[i].Some? {
      if i < |t.entries| && t.entries[i].None? {
        assert false;
      }
    }
    forall i, j | 0 <= i < j < |r.entries| ensures r.entries[i].value.provider != r.entries[j].value.provider {
      assert r.entries[i] == t.entries[i];
    }
  }

  /** Remove keeps a table valid. */
  lemma {:induction false} RemoveKeepsValid(t: PartTable, p: ProviderId)
    requires Valid(t)
    ensures Valid(Remove(t, p))
  {
    if IndexOf(t, p).Some? {
      var i := IndexOf(t, p).value;
      var r := Remove(t, p);
      assert i !in t.freeList;
      forall k | 0 <= k < |r.freeList| ensures r.freeList[k] < |r.entries| && r.entries[r.freeList[k]].None? {
        if k > 0 { assert r.freeList[k] == t.freeList[k - 1]; }
      }
      forall k, l | 0 <= k < l < |r.freeList| ensures r.freeList[k] != r.freeList[l] {
        assert r.freeList[l] == t.freeList[l - 1];
        if k > 0 { assert r.freeList[k] == t.freeList[k - 1]; }
        else { assert r.freeList[l] in t.freeList; }
      }
      assert FreeListSound(r) && FreeListDistinct(r);
    }
  }

  /** After Add, looking the provider up finds the new projection. */
  lemma {:induction false} AddThenFind(t: PartTable, p: ProviderId, x: Projection)
    requires Valid(t) && !Contains(t, p)
    ensures Add(t, p, x).Ok?
    ensures var r := Add(t, p, x).value; IndexOf(r, p).Some? && r.entries[IndexOf(r, p).value] == Some(Part(p, x))
  {
    var r := Add(t, p, x).value;
    var i := if t.freeList != [] then t.freeList[0] else |t.entries|;
    assert r.entries[i] == Some(Part(p, x));
    AddKeepsValid(t, p, x);
    IndexOfUnique(r, p, i);
  }

  /** After Remove, the provider is gone and every other part is where it was. */
  lemma {:induction false} RemoveForgets(t: PartTable, p: ProviderId)
    requires Valid(t)
    ensures !Contains(Remove(t, p), p)
    ensures |Remove(t, p).entries| == |t.entries|
    ensures forall i :: 0 <= i < |t.entries| && t.entries[i].Some? && t.entries[i].value.provider != p ==>
      Remove(t, p).entries[i] == t.entries[i]
  {
    if IndexOf(t, p).Some? {
      var i := IndexOf(t, p).value;
      var r := Remove(t, p);
      forall j | 0 <= j < |r.entries| && r.entries[j].Some? ensures r.entries[j].value.provider != p {
        assert j != i;
        assert r.entries[j] == t.entries[j];
      }
    }
  }

  /**
   * Removing a provider's part and adding a new one for the same provider puts the new part
   * in the old part's slot: the provider keeps its place in the enumeration order, and so
   * its precedence in every sum.
   */
  lemma {:induction false} RemoveThenAddKeepsPlace(t: PartTable, p: ProviderId, x: Projection)
    requires Valid(t) && Contains(t, p)
    ensures Valid(Remove(t, p)) && Add(Remove(t, p), p, x).Ok?
    ensures Add(Remove(t, p), p, x).value == t.(entries := t.entries[IndexOf(t, p).value := Some(Part(p, x))])
  {
    RemoveForgets(t, p);
    RemoveKeepsValid(t, p);
  }
}
