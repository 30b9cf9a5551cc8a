/**
 * ConfigurationBuilder: the mutable store providers write projection parts into, scope by
 * scope and module by module, and from which the service configuration is built.
 */
module ConfigurationBuilders {
  import opened Wrappers
  import opened Schema
  import opened ScopeTypes
  import opened PartTables
  import opened Configuration
  import ProjectionPrototypes
  import DefaultBehavior
  import ConfigurationModules
  import opened Sequences

  /** ProjectionParts: the slot of one module in a scope: its prototype and the providers' parts. */
  datatype ProjectionParts = ProjectionParts(prototype: Prototype, parts: PartTable)

  /** RWScope: scope type, key and the slots by module name. */
  datatype RWScope = RWScope(scopeType: ScopeType, key: ScopeKey, projections: map<string, ProjectionParts>)

  /** At most one scope per (type, key), and every part table is a valid dictionary. */
  ghost predicate ScopesValid(scopes: seq<RWScope>)
  {
    (forall i, j :: 0 <= i < j < |scopes| ==>
      !(scopes[i].scopeType == scopes[j].scopeType && scopes[i].key == scopes[j].key)) &&
    (forall i, m :: 0 <= i < |scopes| && m in scopes[i].projections ==> Valid(scopes[i].projections[m].parts))
  }

  /** The scope of that type and key. */
  function FindScope(scopes: seq<RWScope>, t: ScopeType, key: ScopeKey): (r: Option<nat>)
    ensures r.Some? ==> r.value < |scopes| && scopes[r.value].scopeType == t && scopes[r.value].key == key
    ensures r.None? ==> forall i :: 0 <= i < |scopes| ==> !(scopes[i].scopeType == t && scopes[i].key == key)
  {
    if scopes == [] then None
    else if scopes[|scopes| - 1].scopeType == t && scopes[|scopes| - 1].key == key then Some(|scopes| - 1)
    else FindScope(scopes[..|scopes| - 1], t, key)
  }

  /** FindScope looks only at the types and keys of the scopes. */
  lemma {:induction false} FindScopeByTypesAndKeys(a: seq<RWScope>, b: seq<RWScope>, t: ScopeType, key: ScopeKey)
    requires |a| == |b| && forall i :: 0 <= i < |a| ==> a[i].scopeType == b[i].scopeType && a[i].key == b[i].key
    ensures FindScope(a, t, key) == FindScope(b, t, key)
  {
    if a != [] {
      FindScopeByTypesAndKeys(a[..|a| - 1], b[..|b| - 1], t, key);
    }
  }

  /** EnsureScopeCreated: appends an empty scope unless one of that type and key exists. */
  function EnsureScope(scopes: seq<RWScope>, t: ScopeType, key: ScopeKey): (r: seq<RWScope>)
    ensures FindScope(scopes, t, key).Some? ==> r == scopes
    ensures FindScope(scopes, t, key).None? ==> r == scopes + [RWScope(t, key, map[])]
    ensures FindScope(r, t, key).Some?
  {
    if FindScope(scopes, t, key).Some? then scopes
    else
      var r := scopes + [RWScope(t, key, map[])];
      assert r[..|r| - 1] == scopes;
      r
  }

  lemma {:induction false} EnsureScopeKeepsValid(scopes: seq<RWScope>, t: ScopeType, key: ScopeKey)
    requires ScopesValid(scopes)
    ensures ScopesValid(EnsureScope(scopes, t, key))
  {
  }

  datatype AddError = NoActiveProvider | NoScope | DuplicatePart

  /** The slot a projection goes to: the existing slot of its module, or a new empty one with its prototype. */
  function SlotFor(s: RWScope, proj: Projection): ProjectionParts
  {
    var m := proj.prototype.moduleName;
    if m in s.projections then s.projections[m] else ProjectionParts(proj.prototype, EmptyTable)
  }

  /**
   * AddProjection: with no active provider it throws; without the scope it throws; otherwise
   * the projection is added to its module's slot (created on first use with the projection's
   * prototype) under the active provider, which throws if that provider already has a part there.
   */
  function AddPart(scopes: seq<RWScope>, active: Option<ProviderId>, t: ScopeType, key: ScopeKey, proj: Projection): (r: Result<seq<RWScope>, AddError>)
    requires ScopesValid(scopes)
    ensures active.None? <==> r == Err(NoActiveProvider)
    ensures active.Some? && FindScope(scopes, t, key).None? ==> r == Err(NoScope)
    ensures r == Err(DuplicatePart) <==> (active.Some? && FindScope(scopes, t, key).Some? &&
      Contains(SlotFor(scopes[FindScope(scopes, t, key).value], proj).parts, active.value))
    ensures r.Ok? ==> var i := FindScope(scopes, t, key).value; var m := proj.prototype.moduleName;
      |r.value| == |scopes| &&
      (forall j :: 0 <= j < |scopes| && j != i ==> r.value[j] == scopes[j]) &&
      r.value[i].scopeType == t && r.value[i].key == key &&
      r.value[i].projections.Keys == scopes[i].projections.Keys + {m} &&
      (forall n :: n in scopes[i].projections && n != m ==> r.value[i].projections[n] == scopes[i].projections[n]) &&
      r.value[i].projections[m].prototype == SlotFor(scopes[i], proj).prototype &&
      Ok(r.value[i].projections[m].parts) == Add(SlotFor(scopes[i], proj).parts, active.value, proj)
    ensures r.Ok? ==> ScopesValid(r.value)
  {
    if active.None? then Err(NoActiveProvider)
    else match FindScope(scopes, t, key)
      case None => Err(NoScope)
      case Some(i) => AddPartAt(scopes, i, active.value, proj)
  }

  /** AddProjection once the scope is found at index i: the provider's part joins the module slot. */
  function AddPartAt(scopes: seq<RWScope>, i: nat, p: ProviderId, proj: Projection): (r: Result<seq<RWScope>, AddError>)
    requires ScopesValid(scopes) && i < |scopes|
    ensures r.Err? <==> Contains(SlotFor(scopes[i], proj).parts, p)
    ensures r.Err? ==> r.error == DuplicatePart
    ensures r.Ok? ==> var m := proj.prototype.moduleName;
      |r.value| == |scopes| &&
      (forall j :: 0 <= j < |scopes| && j != i ==> r.value[j] == scopes[j]) &&
      r.value[i].scopeType == scopes[i].scopeType && r.value[i].key == scopes[i].key &&
      r.value[i].projections.Keys == scopes[i].projections.Keys + {m} &&
      (forall n :: n in scopes[i].projections && n != m ==> r.value[i].projections[n] == scopes[i].projections[n]) &&
      r.value[i].projections[m].prototype == SlotFor(scopes[i], proj).prototype &&
      Ok(r.value[i].projections[m].parts) == Add(SlotFor(scopes[i], proj).parts, p, proj)
    ensures r.Ok? ==> ScopesValid(r.value)
  {
    var s := scopes[i];
    var slot := SlotFor(s, proj);
    match Add(slot.parts, p, proj)
    case Err(_) => Err(DuplicatePart)
    case Ok(parts) =>
      AddKeepsValid(slot.parts, p, proj);
      Ok(scopes[i := s.(projections := s.projections[proj.prototype.moduleName := slot.(parts := parts)])])
  }

  /** After a successful AddProjection the active provider's part in the module slot is that projection. */
  lemma {:induction false} AddPartThenFind(scopes: seq<RWScope>, active: Option<ProviderId>, t: ScopeType, key: ScopeKey, proj: Projection)
    requires ScopesValid(scopes) && AddPart(scopes, active, t, key, proj).Ok?
    ensures var r := AddPart(scopes, active, t, key, proj).value;
      var i := FindScope(scopes, t, key).value;
      var parts := r[i].projections[proj.prototype.moduleName].parts;
      IndexOf(parts, active.value).Some? && parts.entries[IndexOf(parts, active.value).value] == Some(Part(active.value, proj))
  {
    var i := FindScope(scopes, t, key).value;
    AddThenFind(SlotFor(scopes[i], proj).parts, active.value, proj);
  }

  /** RemovePartsCreatedBy, for one scope: the provider's part leaves every slot; the slots stay. */
  function RemoveFromScope(s: RWScope, p: ProviderId): (r: RWScope)
    ensures r.scopeType == s.scopeType && r.key == s.key && r.projections.Keys == s.projections.Keys
    ensures forall m :: m in r.projections ==>
      r.projections[m] == s.projections[m].(parts := Remove(s.projections[m].parts, p))
  {
    s.(projections := map m | m in s.projections :: s.projections[m].(parts := Remove(s.projections[m].parts, p)))
  }

  /** RemovePartsCreatedBy over all scopes. */
  function RemoveParts(scopes: seq<RWScope>, p: ProviderId): (r: seq<RWScope>)
    ensures |r| == |scopes| && forall i :: 0 <= i < |r| ==> r[i] == RemoveFromScope(scopes[i], p)
  {
    seq(|scopes|, i requires 0 <= i < |scopes| => RemoveFromScope(scopes[i], p))
  }

  /**
   * After RemovePartsCreatedBy the provider has no part anywhere, every other provider's part
   * is in its old slot, and no scope or module slot disappears.
   */
  lemma {:induction false} RemovePartsForgetsProvider(scopes: seq<RWScope>, p: ProviderId)
    requires ScopesValid(scopes)
    ensures ScopesValid(RemoveParts(scopes, p))
    ensures forall i, m :: 0 <= i < |scopes| && m in scopes[i].projections ==>
      !Contains(RemoveParts(scopes, p)[i].projections[m].parts, p)
    ensures forall i, m, e ::
      (0 <= i < |scopes| && m in scopes[i].projections &&
       0 <= e < |scopes[i].projections[m].parts.entries| &&
       scopes[i].projections[m].parts.entries[e].Some? && scopes[i].projections[m].parts.entries[e].value.provider != p) ==>
      RemoveParts(scopes, p)[i].projections[m].parts.entries[e] == scopes[i].projections[m].parts.entries[e]
  {
    var r := RemoveParts(scopes, p);
    forall i, m | 0 <= i < |scopes| && m in scopes[i].projections
      ensures Valid(r[i].projections[m].parts) && !Contains(r[i].projections[m].parts, p)
      ensures forall e ::
        (0 <= e < |scopes[i].projections[m].parts.entries| &&
         scopes[i].projections[m].parts.entries[e].Some? && scopes[i].projections[m].parts.entries[e].value.provider != p) ==>
        r[i].projections[m].parts.entries[e] == scopes[i].projections[m].parts.entries[e]
    {
      RemoveKeepsValid(scopes[i].projections[m].parts, p);
      RemoveForgets(scopes[i].projections[m].parts, p);
    }
  }

  /** TakeSnapshot's deep copy of one scope: every part table is copied with ToDictionary. */
  function SnapshotScope(s: RWScope): (r: RWScope)
    ensures r.scopeType == s.scopeType && r.key == s.key && r.projections.Keys == s.projections.Keys
    ensures forall m :: m in r.projections ==>
      r.projections[m].prototype == s.projections[m].prototype && r.projections[m].parts == Compact(s.projections[m].parts)
  {
    s.(projections := map m | m in s.projections :: s.projections[m].(parts := Compact(s.projections[m].parts)))
  }

  /** TakeSnapshot: the deep copy of all scopes. */
  function SnapshotOf(scopes: seq<RWScope>): (r: seq<RWScope>)
    ensures |r| == |scopes| && forall i :: 0 <= i < |r| ==> r[i] == SnapshotScope(scopes[i])
  {
    seq(|scopes|, i requires 0 <= i < |scopes| => SnapshotScope(scopes[i]))
  }

  /** What a scope holds, ignoring the layout of its dictionaries: per slot, its prototype and its parts in order. */
  function ScopeContents(s: RWScope): (ScopeType, ScopeKey, map<string, (Prototype, seq<Part>)>)
  {
    (s.scopeType, s.key, map m | m in s.projections :: (s.projections[m].prototype, Parts(s.projections[m].parts)))
  }

  /** The snapshot holds the same scopes, slots, prototypes and parts in the same order, and is valid. */
  lemma {:induction false} SnapshotSameContents(scopes: seq<RWScope>)
    requires ScopesValid(scopes)
    ensures ScopesValid(SnapshotOf(scopes))
    ensures forall i :: 0 <= i < |scopes| ==> ScopeContents(SnapshotOf(scopes)[i]) == ScopeContents(scopes[i])
  {
    var r := SnapshotOf(scopes);
    forall i | 0 <= i < |scopes|
      ensures forall m :: m in r[i].projections ==> Valid(r[i].projections[m].parts)
      ensures ScopeContents(r[i]) == ScopeContents(scopes[i])
    {
      SnapshotScopeSameContents(scopes[i]);
    }
  }

  /** SnapshotSameContents for one scope. */
  lemma {:induction false} SnapshotScopeSameContents(s: RWScope)
    requires forall m :: m in s.projections ==> Valid(s.projections[m].parts)
    ensures forall m :: m in SnapshotScope(s).projections ==> Valid(SnapshotScope(s).projections[m].parts)
    ensures ScopeContents(SnapshotScope(s)) == ScopeContents(s)
  {
    var r := SnapshotScope(s);
    forall m | m in s.projections
      ensures Valid(r.projections[m].parts)
      ensures Parts(r.projections[m].parts) == Parts(s.projections[m].parts)
    {
      CompactValid(s.projections[m].parts);
      CompactKeepsOrder(s.projections[m].parts);
    }
    assert ScopeContents(r).2 == ScopeContents(s).2;
  }

  // ---- Build ----

  datatype BuildError = SumFailed | KeyTypeMismatch

  /** One slot summed by its prototype, over the parts in enumeration order. */
  function SumSlot(slot: ProjectionParts): Result<Projection, DefaultBehavior.SumError>
  {
    ProjectionPrototypes.SumProjections(slot.prototype, Values(slot.parts))
  }

  /** Build, for one scope: every slot summed, then the scope created with its type and key. */
  function BuildScope(s: RWScope): (r: Result<ConfigurationScope, BuildError>)
    ensures r.Ok? <==> (forall m :: m in s.projections ==> SumSlot(s.projections[m]).Ok?) && KeyFits(s.scopeType.keyType, s.key)
    ensures r.Ok? ==> (
      r.value.scopeType == s.scopeType && r.value.key == s.key &&
      r.value.projections.Keys == s.projections.Keys &&
      forall m :: m in s.projections ==> r.value.projections[m] == SumSlot(s.projections[m]).value)
  {
    BuildFromSums(s.scopeType, s.key, SlotSums(s))
  }

  /** Every slot of a scope, summed. */
  function SlotSums(s: RWScope): (r: map<string, Result<Projection, DefaultBehavior.SumError>>)
    ensures r.Keys == s.projections.Keys
    ensures forall m :: m in r ==> r[m] == SumSlot(s.projections[m])
  {
    map m | m in s.projections :: SumSlot(s.projections[m])
  }

  /** The scope built from the slot sums: the first failed sum fails it, then the key must fit its type. */
  function BuildFromSums(t: ScopeType, key: ScopeKey, sums: map<string, Result<Projection, DefaultBehavior.SumError>>): (r: Result<ConfigurationScope, BuildError>)
    ensures r.Ok? <==> (forall m :: m in sums ==> sums[m].Ok?) && KeyFits(t.keyType, key)
    ensures r.Ok? ==> (
      r.value.scopeType == t && r.value.key == key && r.value.projections.Keys == sums.Keys &&
      forall m :: m in sums ==> r.value.projections[m] == sums[m].value)
  {
    if exists m :: m in sums && sums[m].Err? then Err(SumFailed)
    else match CreateWeak(t, key, map m | m in sums :: sums[m].value)
      case Ok(c) => Ok(c)
      case Err(_) => Err(BuildError.KeyTypeMismatch)
  }

  /** Build: every scope built in order; the first scope that fails makes the whole build fail. */
  function BuildScopes(scopes: seq<RWScope>): (r: Result<seq<ConfigurationScope>, BuildError>)
    ensures r.Ok? <==> forall i :: 0 <= i < |scopes| ==> BuildScope(scopes[i]).Ok?
    ensures r.Ok? ==> |r.value| == |scopes| && forall i :: 0 <= i < |scopes| ==> r.value[i] == BuildScope(scopes[i]).value
  {
    if scopes == [] then Ok([])
    else match BuildScope(scopes[0])
      case Err(e) => Err(e)
      case Ok(s) =>
        match BuildScopes(scopes[1..])
        case Err(e) =>
          assert exists i :: 0 <= i < |scopes[1..]| && BuildScope(scopes[1..][i]).Err?;
          Err(e)
        case Ok(rest) => Ok([s] + rest)
  }

  lemma {:induction false} BuildScopesPointwise(a: seq<RWScope>, b: seq<RWScope>)
    requires |a| == |b| && forall i :: 0 <= i < |a| ==> BuildScope(a[i]) == BuildScope(b[i])
    ensures BuildScopes(a) == BuildScopes(b)
  {
    if a != [] {
      BuildScopesPointwise(a[1..], b[1..]);
    }
  }

  /** Two scopes whose slots sum to the same projections build to the same scope. */
  lemma {:induction false} BuildScopeBySums(a: RWScope, b: RWScope)
    requires a.scopeType == b.scopeType && a.key == b.key && a.projections.Keys == b.projections.Keys
    requires forall m :: m in a.projections ==> SumSlot(a.projections[m]) == SumSlot(b.projections[m])
    ensures BuildScope(a) == BuildScope(b)
  {
    SameMaps(SlotSums(a), SlotSums(b));
  }

  lemma {:induction false} SnapshotScopeBuildsTheSame(s: RWScope)
    ensures BuildScope(SnapshotScope(s)) == BuildScope(s)
  {
    var r := SnapshotScope(s);
    forall m | m in s.projections ensures SumSlot(r.projections[m]) == SumSlot(s.projections[m]) {
      CompactKeepsOrder(s.projections[m].parts);
    }
    BuildScopeBySums(r, s);
  }

  /** Building from the snapshot gives exactly what building from the live scopes gives. */
  lemma {:induction false} SnapshotBuildsTheSame(scopes: seq<RWScope>)
    ensures BuildScopes(SnapshotOf(scopes)) == BuildScopes(scopes)
  {
    var r := SnapshotOf(scopes);
    forall i | 0 <= i < |scopes| ensures BuildScope(r[i]) == BuildScope(scopes[i]) {
      SnapshotScopeBuildsTheSame(scopes[i]);
    }
    BuildScopesPointwise(r, scopes);
  }

  /** A slot left without parts cannot be summed (PerformSum takes First() of nothing), so Build fails. */
  lemma {:induction false} EmptySlotFailsBuild(scopes: seq<RWScope>, i: nat, m: string)
    requires i < |scopes| && m in scopes[i].projections && Values(scopes[i].projections[m].parts) == []
    ensures BuildScope(scopes[i]) == Err(SumFailed)
    ensures BuildScopes(scopes).Err?
  {
    assert SumSlot(scopes[i].projections[m]).Err?;
  }

  lemma {:induction false} NoPartsNoValues(entries: seq<Option<Part>>)
    requires forall e :: 0 <= e < |entries| ==> entries[e].None?
    ensures ValuesIn(entries) == []
  {
    if entries != [] {
      NoPartsNoValues(entries[..|entries| - 1]);
    }
  }

  /** Removing the only provider of a table leaves a table with no values. */
  lemma {:induction false} RemoveSoleProvider(t: PartTable, p: ProviderId)
    requires Valid(t) && forall x :: x in Parts(t) ==> x.provider == p
    ensures Values(Remove(t, p)) == []
  {
    RemoveForgets(t, p);
    NoPartsNoValues(Remove(t, p).entries);
  }

  /**
   * When the provider being refreshed is the only contributor to a slot (a guest machine
   * whose configuration file was deleted), removing its parts leaves that slot empty, and
   * every later Build fails until the service restarts.
   */
  lemma {:induction false} SoleProviderRemovalBreaksBuild(scopes: seq<RWScope>, p: ProviderId, i: nat, m: string)
    requires ScopesValid(scopes) && i < |scopes| && m in scopes[i].projections
    requires forall x :: x in Parts(scopes[i].projections[m].parts) ==> x.provider == p
    ensures BuildScopes(RemoveParts(scopes, p)).Err?
  {
    RemoveSoleProvider(scopes[i].projections[m].parts, p);
    EmptySlotFailsBuild(RemoveParts(scopes, p), i, m);
  }

  /** Build as evidently intended: slots that hold no part are left out instead of summed. */
  function BuildScopeSkippingEmpty(s: RWScope): (r: Result<ConfigurationScope, BuildError>)
    ensures r.Ok? <==> (
      (forall m :: m in s.projections && Values(s.projections[m].parts) != [] ==> SumSlot(s.projections[m]).Ok?) &&
      KeyFits(s.scopeType.keyType, s.key))
    ensures r.Ok? ==> (
      r.value.scopeType == s.scopeType && r.value.key == s.key &&
      (forall m :: m in r.value.projections <==> m in s.projections && Values(s.projections[m].parts) != []) &&
      forall m :: m in r.value.projections ==> r.value.projections[m] == SumSlot(s.projections[m]).value)
  {
    var live := map m | m in s.projections && Values(s.projections[m].parts) != [] :: s.projections[m];
    assert forall m :: m in live <==> m in s.projections && Values(s.projections[m].parts) != [];
    BuildScope(s.(projections := live))
  }

  /** Where no slot is empty, the intended build is the build as written. */
  lemma {:induction false} SkippingEmptyAgrees(s: RWScope)
    requires forall m :: m in s.projections ==> Values(s.projections[m].parts) != []
    ensures BuildScopeSkippingEmpty(s) == BuildScope(s)
  {
    var live := map m | m in s.projections && Values(s.projections[m].parts) != [] :: s.projections[m];
    assert live == s.projections;
  }

  /**
   * With the intended build, a scope whose every part came from the removed provider builds to
   * a scope with no projections instead of failing.
   */
  lemma {:induction false} RemovedScopeBuildsEmpty(s: RWScope, p: ProviderId)
    requires forall m :: m in s.projections ==> (
      Valid(s.projections[m].parts) &&
      forall x :: x in Parts(s.projections[m].parts) ==> x.provider == p)
    requires KeyFits(s.scopeType.keyType, s.key)
    ensures BuildScopeSkippingEmpty(RemoveFromScope(s, p)) == Ok(Scope(s.scopeType, s.key, map[]))
  {
    var r := RemoveFromScope(s, p);
    forall m | m in r.projections ensures Values(r.projections[m].parts) == [] {
      RemoveSoleProvider(s.projections[m].parts, p);
    }
  }

  /**
   * As written, BaseModule is named "Network", so the Base projection a provider adds to a
   * scope lands in the slot of the Network projection the same provider added just before:
   * the second AddProjection fails as a duplicate part.
   */
  lemma {:induction false} BaseProjectionCollidesWithNetwork(scopes: seq<RWScope>, p: ProviderId, t: ScopeType, key: ScopeKey, network: Projection, base: Projection)
    requires ScopesValid(scopes) && FindScope(scopes, t, key).Some?
    requires network.prototype.moduleName == ConfigurationModules.NetworkName
    requires base.prototype == ConfigurationModules.BaseGuestMachinePrototype(ConfigurationModules.BaseNameAsWritten)
    requires AddPart(scopes, Some(p), t, key, network).Ok?
    ensures AddPart(AddPart(scopes, Some(p), t, key, network).value, Some(p), t, key, base) == Err(DuplicatePart)
  {
    var s1 := AddPart(scopes, Some(p), t, key, network).value;
    var i := FindScope(scopes, t, key).value;
    AddPartThenFind(scopes, Some(p), t, key, network);
    FindScopeByTypesAndKeys(scopes, s1, t, key);
    var parts := s1[i].projections[ConfigurationModules.NetworkName].parts;
    assert Contains(parts, p);
    assert SlotFor(s1[i], base).parts == parts;
    assert Contains(SlotFor(s1[FindScope(s1, t, key).value], base).parts, p);
  }

  /**
   * With the module named "Base" as intended, the Base projection gets a slot of its own next
   * to the Network one and the same provider may fill both.
   */
  lemma {:induction false} BaseProjectionGetsItsOwnSlot(scopes: seq<RWScope>, p: ProviderId, t: ScopeType, key: ScopeKey, network: Projection, base: Projection)
    requires ScopesValid(scopes) && FindScope(scopes, t, key).Some?
    requires ConfigurationModules.BaseName !in scopes[FindScope(scopes, t, key).value].projections
    requires network.prototype.moduleName == ConfigurationModules.NetworkName
    requires base.prototype == ConfigurationModules.BaseGuestMachinePrototype(ConfigurationModules.BaseName)
    requires AddPart(scopes, Some(p), t, key, network).Ok?
    ensures var r := AddPart(AddPart(scopes, Some(p), t, key, network).value, Some(p), t, key, base);
      r.Ok? && ConfigurationModules.BaseName in r.value[FindScope(scopes, t, key).value].projections &&
      ConfigurationModules.NetworkName in r.value[FindScope(scopes, t, key).value].projections
  {
  }

  class ConfigurationBuilder {
    var scopes: seq<RWScope>
    var snapshot: seq<RWScope>
    /** Rollback assigns the snapshot list itself to the live field: from then on both are one object. */
    var aliased: bool
    var activeProvider: Option<ProviderId>

    ghost predicate Valid()
      reads this
    {
      ScopesValid(scopes) && ScopesValid(snapshot) && (aliased ==> snapshot == scopes)
    }

    constructor()
      ensures Valid() && scopes == [] && snapshot == [] && !aliased && activeProvider == None
    {
      scopes := [];
      snapshot := [];
      aliased := false;
      activeProvider := None;
    }

    method SetActiveProvider(provider: Option<ProviderId>)
      requires Valid()
      modifies this`activeProvider
      ensures Valid() && activeProvider == provider
    {
      activeProvider := provider;
    }

    method EnsureScopeCreated(t: ScopeType, key: ScopeKey)
      requires Valid()
      modifies this`scopes, this`snapshot
      ensures Valid()
      ensures scopes == EnsureScope(old(scopes), t, key)
      ensures snapshot == if aliased then scopes else old(snapshot)
    {
      EnsureScopeKeepsValid(scopes, t, key);
      scopes := EnsureScope(scopes, t, key);
      if aliased {
        snapshot := scopes;
      }
    }

    method AddProjection(t: ScopeType, key: ScopeKey, proj: Projection) returns (r: Outcome<AddError>)
      requires Valid()
      modifies this`scopes, this`snapshot
      ensures Valid()
      ensures match AddPart(old(scopes), activeProvider, t, key, proj)
        case Ok(s) => r == Pass && scopes == s
        case Err(e) => r == Fail(e) && scopes == old(scopes)
      ensures snapshot == if aliased then scopes else old(snapshot)
    {
      match AddPart(scopes, activeProvider, t, key, proj)
      case Err(e) =>
        r := Fail(e);
      case Ok(s) =>
        scopes := s;
        if aliased {
          snapshot := scopes;
        }
        r := Pass;
    }

    method RemovePartsCreatedBy(p: ProviderId)
      requires Valid()
      modifies this`scopes, this`snapshot
      ensures Valid()
      ensures scopes == RemoveParts(old(scopes), p)
      ensures snapshot == if aliased then scopes else old(snapshot)
    {
      RemovePartsForgetsProvider(scopes, p);
      var i := 0;
      while i < |scopes|
        invariant 0 <= i <= |scopes| == |old(scopes)|
        invariant forall j :: 0 <= j < i ==> scopes[j] == RemoveFromScope(old(scopes)[j], p)
        invariant forall j :: i <= j < |scopes| ==> scopes[j] == old(scopes)[j]
        invariant snapshot == if aliased then scopes else old(snapshot)
      {
        scopes := scopes[i := RemoveFromScope(scopes[i], p)];
        if aliased {
          snapshot := scopes;
        }
        i := i + 1;
      }
    }

    /** Build: a new configuration of all scopes; no version is set. The builder is not changed. */
    function Build(): (r: Result<ServiceConfiguration, BuildError>)
      reads this
      ensures r.Ok? <==> BuildScopes(scopes).Ok?
      ensures r.Ok? ==> r.value == ServiceConfiguration(BuildScopes(scopes).value, None)
    {
      match BuildScopes(scopes)
      case Ok(built) => Ok(ServiceConfiguration(built, None))
      case Err(e) => Err(e)
    }

    method TakeSnapshot()
      requires Valid()
      modifies this`snapshot, this`aliased
      ensures Valid()
      ensures snapshot == SnapshotOf(scopes) && !aliased
    {
      SnapshotSameContents(scopes);
      snapshot := SnapshotOf(scopes);
      aliased := false;
    }

    method Rollback()
      requires Valid()
      modifies this`scopes, this`aliased
      ensures Valid()
      ensures scopes == old(snapshot) && snapshot == old(snapshot) && aliased
    {
      scopes := snapshot;
      aliased := true;
    }
  }

  /** Rollback before any TakeSnapshot restores the empty snapshot the builder started with. */
  method RollbackWithoutSnapshot(t: ScopeType, key: ScopeKey) returns (b: ConfigurationBuilder)
    ensures b.scopes == [] && b.aliased
  {
    b := new ConfigurationBuilder();
    b.EnsureScopeCreated(t, key);
    b.Rollback();
  }

  /**
   * After a Rollback the live scopes and the snapshot are one list, so a scope created later
   * survives the next Rollback.
   */
  method RollbackAliasesSnapshot(t: ScopeType, key: ScopeKey) returns (b: ConfigurationBuilder)
    ensures |b.scopes| == 1 && b.scopes[0] == RWScope(t, key, map[])
  {
    b := new ConfigurationBuilder();
    b.TakeSnapshot();
    b.Rollback();
    b.EnsureScopeCreated(t, key);
    b.Rollback();
  }
}
