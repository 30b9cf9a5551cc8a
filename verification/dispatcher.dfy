/**
 * ConfigurationProviderDispatcher: runs the providers into the holder's builder at start-up,
 * then keeps one tracker per provider whose callback re-fetches that provider's parts inside a
 * snapshot/rollback transaction and republishes the configuration.
 */
module ProviderDispatch {
  import opened Wrappers
  import opened Schema
  import opened ScopeTypes
  import opened PartTables
  import opened Configuration
  import opened ConfigurationBuilders
  import opened ConfigurationHolders
  import ProxmoxProvider

  /** One builder call a provider makes while it provides its configuration. */
  datatype Step =
    | EnsureStep(scopeType: ScopeType, key: ScopeKey)
    | AddStep(scopeType: ScopeType, key: ScopeKey, projection: Projection)

  /**
   * What one ProvideConfigurationAsync call does: its builder calls in order, and whether it
   * throws after them. A builder call that throws ends the fetch as well.
   */
  datatype Fetch = Fetch(steps: seq<Step>, throws: bool)

  /** Why a fetch threw: the builder refused a projection, or the provider's own code threw. */
  datatype FetchError = BuilderRefused(error: AddError) | ProviderThrew

  /** One builder call. */
  function ApplyStep(scopes: seq<RWScope>, active: Option<ProviderId>, step: Step): (r: (seq<RWScope>, Outcome<AddError>))
    requires ScopesValid(scopes)
    ensures ScopesValid(r.0)
    ensures r.1.Fail? ==> r.0 == scopes
  {
    match step
    case EnsureStep(t, key) =>
      EnsureScopeKeepsValid(scopes, t, key);
      (EnsureScope(scopes, t, key), Pass)
    case AddStep(t, key, proj) =>
      match AddPart(scopes, active, t, key, proj)
      case Ok(s) => (s, Pass)
      case Err(e) => (scopes, Fail(e))
  }

  /** The builder calls in order, up to the first one that throws. */
  function ApplySteps(scopes: seq<RWScope>, active: Option<ProviderId>, steps: seq<Step>): (r: (seq<RWScope>, Outcome<AddError>))
    requires ScopesValid(scopes)
    ensures ScopesValid(r.0)
  {
    if steps == [] then (scopes, Pass)
    else
      var before := ApplySteps(scopes, active, steps[..|steps| - 1]);
      if before.1.Fail? then before else ApplyStep(before.0, active, steps[|steps| - 1])
  }

  /** A whole fetch: its builder calls, then the provider's own throw. */
  function FetchOutcome(scopes: seq<RWScope>, active: Option<ProviderId>, f: Fetch): (r: (seq<RWScope>, Outcome<FetchError>))
    requires ScopesValid(scopes)
    ensures ScopesValid(r.0)
    ensures r.0 == ApplySteps(scopes, active, f.steps).0
    ensures r.1.Pass? <==> ApplySteps(scopes, active, f.steps).1.Pass? && !f.throws
  {
    var applied := ApplySteps(scopes, active, f.steps);
    match applied.1
    case Fail(e) => (applied.0, Fail(BuilderRefused(e)))
    case Pass => (applied.0, if f.throws then Fail(ProviderThrew) else Pass)
  }

  /**
   * A fetch that throws keeps what its calls before the throw did: the scopes are those after
   * some prefix of its steps that all succeeded, the next step (if any) being the one refused.
   */
  lemma {:induction false} FailedStepsKeepPrefix(scopes: seq<RWScope>, active: Option<ProviderId>, steps: seq<Step>)
    requires ScopesValid(scopes) && ApplySteps(scopes, active, steps).1.Fail?
    ensures exists n :: (0 <= n < |steps| &&
      ApplySteps(scopes, active, steps[..n]) == (ApplySteps(scopes, active, steps).0, Pass) &&
      ApplyStep(ApplySteps(scopes, active, steps[..n]).0, active, steps[n]).1.Fail?)
  {
    var last := |steps| - 1;
    var before := ApplySteps(scopes, active, steps[..last]);
    if before.1.Fail? {
      assert ApplySteps(scopes, active, steps) == before;
      FailedStepsKeepPrefix(scopes, active, steps[..last]);
      var n :| 0 <= n < |steps[..last]| &&
        ApplySteps(scopes, active, steps[..last][..n]) == (before.0, Pass) &&
        ApplyStep(ApplySteps(scopes, active, steps[..last][..n]).0, active, steps[..last][n]).1.Fail?;
      assert steps[..last][..n] == steps[..n] && steps[..last][n] == steps[n];
      assert ApplyStep(ApplySteps(scopes, active, steps[..n]).0, active, steps[n]).1.Fail?;
    } else {
      var r := ApplyStep(before.0, active, steps[last]);
      assert ApplySteps(scopes, active, steps) == r;
      assert r.1.Fail? && r.0 == before.0;
      assert ApplySteps(scopes, active, steps[..last]) == (ApplySteps(scopes, active, steps).0, Pass);
    }
  }

  /** A fetch whose every call the builder accepts and that does not throw succeeds. */
  lemma {:induction false} AcceptedStepsPass(scopes: seq<RWScope>, active: Option<ProviderId>, steps: seq<Step>)
    requires ScopesValid(scopes)
    requires forall n :: 0 <= n < |steps| ==> ApplyStep(ApplySteps(scopes, active, steps[..n]).0, active, steps[n]).1.Pass?
    ensures ApplySteps(scopes, active, steps).1.Pass?
  {
    if ApplySteps(scopes, active, steps).1.Fail? {
      FailedStepsKeepPrefix(scopes, active, steps);
      assert false;
    }
  }

  /** One more builder call, after calls that all succeeded. */
  lemma {:induction false} ApplyStepsSnoc(scopes: seq<RWScope>, active: Option<ProviderId>, steps: seq<Step>, i: nat)
    requires ScopesValid(scopes) && i < |steps| && ApplySteps(scopes, active, steps[..i]).1.Pass?
    ensures ApplySteps(scopes, active, steps[..i + 1]) == ApplyStep(ApplySteps(scopes, active, steps[..i]).0, active, steps[i])
  {
    assert steps[..i + 1][..i] == steps[..i];
  }

  /** The provider runs its fetch on the builder, call by call. */
  method Provide(b: ConfigurationBuilder, f: Fetch) returns (r: Outcome<FetchError>)
    requires b.Valid()
    modifies b`scopes, b`snapshot
    ensures b.Valid()
    ensures (b.scopes, r) == FetchOutcome(old(b.scopes), b.activeProvider, f)
    ensures b.snapshot == if b.aliased then b.scopes else old(b.snapshot)
  {
    var outcome := RunSteps(b, f.steps);
    r := match outcome
      case Fail(e) => Fail(BuilderRefused(e))
      case Pass => if f.throws then Fail(ProviderThrew) else Pass;
  }

  /** The builder calls in order, stopping at the first one the builder refuses. */
  method RunSteps(b: ConfigurationBuilder, steps: seq<Step>) returns (outcome: Outcome<AddError>)
    requires b.Valid()
    modifies b`scopes, b`snapshot
    ensures b.Valid() && b.activeProvider == old(b.activeProvider)
    ensures (b.scopes, outcome) == ApplySteps(old(b.scopes), b.activeProvider, steps)
    ensures b.snapshot == if b.aliased then b.scopes else old(b.snapshot)
    decreases |steps|
  {
    if steps == [] {
      return Pass;
    }
    outcome := RunSteps(b, steps[..|steps| - 1]);
    if outcome.Pass? {
      outcome := RunStep(b, steps[|steps| - 1]);
    }
  }

  /** One builder call on the builder itself. */
  method RunStep(b: ConfigurationBuilder, step: Step) returns (r: Outcome<AddError>)
    requires b.Valid()
    modifies b`scopes, b`snapshot
    ensures b.Valid() && b.activeProvider == old(b.activeProvider)
    ensures (b.scopes, r) == ApplyStep(old(b.scopes), b.activeProvider, step)
    ensures b.snapshot == if b.aliased then b.scopes else old(b.snapshot)
  {
    match step {
      case EnsureStep(t, key) =>
        b.EnsureScopeCreated(t, key);
        r := Pass;
      case AddStep(t, key, proj) =>
        r := b.AddProjection(t, key, proj);
    }
  }

  /** Once a step is refused, the steps after it are not run. */
  lemma {:induction false} RefusedStepEndsFetch(scopes: seq<RWScope>, active: Option<ProviderId>, pre: seq<Step>, s: Step, post: seq<Step>)
    requires ScopesValid(scopes)
    requires ApplySteps(scopes, active, pre).1.Pass?
    requires ApplyStep(ApplySteps(scopes, active, pre).0, active, s).1.Fail?
    ensures ApplySteps(scopes, active, pre + [s] + post) == ApplyStep(ApplySteps(scopes, active, pre).0, active, s)
    decreases |post|
  {
    var steps := pre + [s] + post;
    if post == [] {
      assert steps[..|steps| - 1] == pre && steps[|steps| - 1] == s;
    } else {
      var shorter := post[..|post| - 1];
      assert steps[..|steps| - 1] == pre + [s] + shorter;
      RefusedStepEndsFetch(scopes, active, pre, s, shorter);
      FailureIsKept(scopes, active, steps);
    }
  }

  /** A fetch that has failed stays failed, whatever its last step. */
  lemma {:induction false} FailureIsKept(scopes: seq<RWScope>, active: Option<ProviderId>, steps: seq<Step>)
    requires ScopesValid(scopes) && steps != []
    requires ApplySteps(scopes, active, steps[..|steps| - 1]).1.Fail?
    ensures ApplySteps(scopes, active, steps) == ApplySteps(scopes, active, steps[..|steps| - 1])
  {
  }

  /** A provider as the dispatcher sees it: its id, and whether its tracker watches anything. */
  datatype Provider = Provider(id: ProviderId, tracked: bool)

  /**
   * The initial load: every provider in order, each set active first; a provider that throws
   * is counted and keeps the parts it added before throwing. Returns the scopes and the count.
   */
  function InitialLoad(scopes: seq<RWScope>, providers: seq<Provider>, fetches: seq<Fetch>): (r: (seq<RWScope>, nat))
    requires ScopesValid(scopes) && |fetches| == |providers|
    ensures ScopesValid(r.0) && r.1 <= |providers|
  {
    if providers == [] then (scopes, 0)
    else
      var n := |providers| - 1;
      LoadOne(InitialLoad(scopes, providers[..n], fetches[..n]), providers[n], fetches[n])
  }

  /** One provider of the initial load, on the builder: set active, fetch, and count a failure. */
  method LoadProvider(b: ConfigurationBuilder, p: Provider, f: Fetch, failsBefore: nat) returns (failsAfter: nat)
    requires b.Valid()
    modifies b`scopes, b`snapshot, b`activeProvider
    ensures b.Valid() && b.activeProvider == Some(p.id)
    ensures (b.scopes, failsAfter) == LoadOne((old(b.scopes), failsBefore), p, f)
    ensures b.snapshot == if b.aliased then b.scopes else old(b.snapshot)
  {
    b.SetActiveProvider(Some(p.id));
    var outcome := Provide(b, f);
    failsAfter := if outcome.Fail? then failsBefore + 1 else failsBefore;
  }

  /** One provider of the initial load: its fetch as the active provider, and one more failure if it threw. */
  function LoadOne(acc: (seq<RWScope>, nat), p: Provider, f: Fetch): (r: (seq<RWScope>, nat))
    requires ScopesValid(acc.0)
    ensures ScopesValid(r.0) && acc.1 <= r.1 <= acc.1 + 1
    ensures r.0 == ApplySteps(acc.0, Some(p.id), f.steps).0
    ensures r.1 == acc.1 <==> ApplySteps(acc.0, Some(p.id), f.steps).1.Pass? && !f.throws
  {
    var outcome := FetchOutcome(acc.0, Some(p.id), f);
    (outcome.0, acc.1 + if outcome.1.Fail? then 1 else 0)
  }

  /** Whether provider `i` of the initial load succeeds, given what the providers before it did. */
  predicate ProviderPasses(scopes: seq<RWScope>, providers: seq<Provider>, fetches: seq<Fetch>, i: nat)
    requires ScopesValid(scopes) && |fetches| == |providers| && i < |providers|
  {
    FetchOutcome(InitialLoad(scopes, providers[..i], fetches[..i]).0, Some(providers[i].id), fetches[i]).1.Pass?
  }

  /** One more provider after the first i. */
  lemma {:induction false} InitialLoadSnoc(scopes: seq<RWScope>, providers: seq<Provider>, fetches: seq<Fetch>, i: nat)
    requires ScopesValid(scopes) && |fetches| == |providers| && i < |providers|
    ensures InitialLoad(scopes, providers[..i + 1], fetches[..i + 1]) ==
      LoadOne(InitialLoad(scopes, providers[..i], fetches[..i]), providers[i], fetches[i])
  {
    assert providers[..i + 1][..i] == providers[..i] && fetches[..i + 1][..i] == fetches[..i];
  }

  /** Whether a provider succeeds does not depend on the providers after it. */
  lemma {:induction false} ProviderPassesPrefix(scopes: seq<RWScope>, providers: seq<Provider>, fetches: seq<Fetch>, n: nat, i: nat)
    requires ScopesValid(scopes) && |fetches| == |providers| && i < n <= |providers|
    ensures ProviderPasses(scopes, providers[..n], fetches[..n], i) == ProviderPasses(scopes, providers, fetches, i)
  {
    assert providers[..n][..i] == providers[..i] && fetches[..n][..i] == fetches[..i];
  }

  /** Which providers of the initial load succeeded, in order. */
  function LoadPasses(scopes: seq<RWScope>, providers: seq<Provider>, fetches: seq<Fetch>): (r: seq<bool>)
    requires ScopesValid(scopes) && |fetches| == |providers|
    ensures |r| == |providers|
  {
    if providers == [] then []
    else
      var n := |providers| - 1;
      var before := InitialLoad(scopes, providers[..n], fetches[..n]);
      LoadPasses(scopes, providers[..n], fetches[..n]) + [FetchOutcome(before.0, Some(providers[n].id), fetches[n]).1.Pass?]
  }

  /** Entry i of the flags is whether provider i succeeds, run after the providers before it. */
  lemma {:induction false} LoadPassesAt(scopes: seq<RWScope>, providers: seq<Provider>, fetches: seq<Fetch>, i: nat)
    requires ScopesValid(scopes) && |fetches| == |providers| && i < |providers|
    ensures LoadPasses(scopes, providers, fetches)[i] == ProviderPasses(scopes, providers, fetches, i)
    decreases |providers|, 1
  {
    if i < |providers| - 1 {
      LoadPassesEarlier(scopes, providers, fetches, i);
    } else {
      LoadPassesSnoc(scopes, providers, fetches);
    }
  }

  /** LoadPassesAt for a provider before the last: its flag and its success are those within the prefix. */
  lemma {:induction false} LoadPassesEarlier(scopes: seq<RWScope>, providers: seq<Provider>, fetches: seq<Fetch>, i: nat)
    requires ScopesValid(scopes) && |fetches| == |providers| && i < |providers| - 1
    ensures LoadPasses(scopes, providers, fetches)[i] == ProviderPasses(scopes, providers, fetches, i)
    decreases |providers|, 0
  {
    var n := |providers| - 1;
    var ps, fs := providers[..n], fetches[..n];
    LoadPassesSnoc(scopes, providers, fetches);
    var flags := LoadPasses(scopes, ps, fs);
    assert (flags + [ProviderPasses(scopes, providers, fetches, n)])[i] == flags[i];
    LoadPassesAt(scopes, ps, fs, i);
    ProviderPassesPrefix(scopes, providers, fetches, n, i);
  }

  /** The flags of all providers are those of all but the last, then the last one's. */
  lemma {:induction false} LoadPassesSnoc(scopes: seq<RWScope>, providers: seq<Provider>, fetches: seq<Fetch>)
    requires ScopesValid(scopes) && |fetches| == |providers| && providers != []
    ensures var n := |providers| - 1;
      LoadPasses(scopes, providers, fetches) ==
        LoadPasses(scopes, providers[..n], fetches[..n]) + [ProviderPasses(scopes, providers, fetches, n)]
  {
  }

  /** The last provider adds one to the count exactly when its flag is clear. */
  lemma {:induction false} LastFlagCounted(scopes: seq<RWScope>, providers: seq<Provider>, fetches: seq<Fetch>)
    requires ScopesValid(scopes) && |fetches| == |providers| && providers != []
    ensures var n := |providers| - 1;
      var flags := LoadPasses(scopes, providers, fetches);
      flags == LoadPasses(scopes, providers[..n], fetches[..n]) + [flags[n]] &&
      InitialLoad(scopes, providers, fetches).1 ==
        InitialLoad(scopes, providers[..n], fetches[..n]).1 + if flags[n] then 0 else 1
  {
  }

  /** All of flags + [x] are set exactly when all of flags are and x is. */
  lemma {:induction false} AllSetSnoc(flags: seq<bool>, x: bool)
    ensures (forall i :: 0 <= i < |flags + [x]| ==> (flags + [x])[i]) <==>
      (forall i :: 0 <= i < |flags| ==> flags[i]) && x
  {
    if forall i :: 0 <= i < |flags| ==> flags[i] {
      if x {
        forall i | 0 <= i < |flags + [x]| ensures (flags + [x])[i] {
          if i < |flags| {
            assert (flags + [x])[i] == flags[i];
          }
        }
      } else {
        assert !(flags + [x])[|flags|];
      }
    } else {
      var i :| 0 <= i < |flags| && !flags[i];
      assert (flags + [x])[i] == flags[i];
    }
  }

  /** The load reports no failure exactly when every flag is set. */
  lemma {:induction false} NoFailsIffAllFlags(scopes: seq<RWScope>, providers: seq<Provider>, fetches: seq<Fetch>)
    requires ScopesValid(scopes) && |fetches| == |providers|
    ensures InitialLoad(scopes, providers, fetches).1 == 0 <==>
      forall i :: 0 <= i < |providers| ==> LoadPasses(scopes, providers, fetches)[i]
    decreases |providers|
  {
    if providers != [] {
      var n := |providers| - 1;
      NoFailsIffAllFlags(scopes, providers[..n], fetches[..n]);
      LastFlagCounted(scopes, providers, fetches);
      var flags := LoadPasses(scopes, providers, fetches);
      AllSetSnoc(LoadPasses(scopes, providers[..n], fetches[..n]), flags[n]);
    }
  }

  /**
   * A failing provider is counted and does not stop the others: the load reports no failure
   * exactly when every provider, run after the ones before it, succeeds.
   */
  lemma {:induction false} NoFailsIffAllPass(scopes: seq<RWScope>, providers: seq<Provider>, fetches: seq<Fetch>)
    requires ScopesValid(scopes) && |fetches| == |providers|
    ensures InitialLoad(scopes, providers, fetches).1 == 0 <==>
      forall i :: 0 <= i < |providers| ==> ProviderPasses(scopes, providers, fetches, i)
  {
    NoFailsIffAllFlags(scopes, providers, fetches);
    if InitialLoad(scopes, providers, fetches).1 == 0 {
      forall i | 0 <= i < |providers| ensures ProviderPasses(scopes, providers, fetches, i) {
        LoadPassesAt(scopes, providers, fetches, i);
      }
    } else {
      var i :| 0 <= i < |providers| && !LoadPasses(scopes, providers, fetches)[i];
      LoadPassesAt(scopes, providers, fetches, i);
    }
  }

  datatype DispatchError = AlreadyInitialized | NotInitialized

  /** How one tracker callback ended. */
  datatype CallbackResult =
    | Updated
    | RolledBack(fetchError: FetchError)
    | RebuildFailed(buildError: BuildError)

  class ConfigurationProviderDispatcher {
    const providers: seq<Provider>
    /** The dispatcher's TrackerCallback, as the trackers hold it. */
    const handle: ProxmoxProvider.CallbackId
    /** One entry per provider once tracking is initialised; None stands for NullTracker.Instance. */
    var trackers: seq<Option<ProxmoxProvider.Tracker>>
    var holderForTracking: ConfigurationHolder?

    ghost predicate Valid()
      reads this
    {
      (holderForTracking == null ==> trackers == []) &&
      (holderForTracking != null ==> |trackers| == |providers|)
    }

    /** The tracker objects, which Start/StopTracking change. */
    ghost function TrackerObjects(): set<ProxmoxProvider.Tracker>
      reads this
    {
      set i | 0 <= i < |trackers| && trackers[i].Some? :: trackers[i].value
    }

    constructor(providers: seq<Provider>, handle: ProxmoxProvider.CallbackId)
      ensures Valid() && this.providers == providers && this.handle == handle
      ensures trackers == [] && holderForTracking == null
    {
      this.providers := providers;
      this.handle := handle;
      trackers := [];
      holderForTracking := null;
    }

    /**
     * PerformInitialConfigurationLoadAsync: within one access to the builder, each provider
     * in order is set active and runs its fetch; the failures are counted, not propagated.
     */
    method PerformInitialConfigurationLoad(holder: ConfigurationHolder, fetches: seq<Fetch>) returns (fails: nat)
      requires holder.builder.Valid() && |fetches| == |providers|
      modifies holder.builder`scopes, holder.builder`snapshot, holder.builder`activeProvider
      ensures holder.builder.Valid()
      ensures (holder.builder.scopes, fails) == InitialLoad(old(holder.builder.scopes), providers, fetches)
      ensures holder.builder.activeProvider == if providers == [] then old(holder.builder.activeProvider) else Some(providers[|providers| - 1].id)
      ensures holder.builder.snapshot == if holder.builder.aliased then holder.builder.scopes else old(holder.builder.snapshot)
    {
      var b := holder.builder;
      fails := 0;
      for i := 0 to |providers|
        invariant b.Valid()
        invariant (b.scopes, fails) == InitialLoad(old(b.scopes), providers[..i], fetches[..i])
        invariant b.activeProvider == if i == 0 then old(b.activeProvider) else Some(providers[i - 1].id)
        invariant b.snapshot == if b.aliased then b.scopes else old(b.snapshot)
      {
        InitialLoadSnoc(old(b.scopes), providers, fetches, i);
        fails := LoadProvider(b, providers[i], fetches[i], fails);
      }
      assert providers[..|providers|] == providers && fetches[..|fetches|] == fetches;
    }

    /**
     * InitializeTracking: refused when already initialised; otherwise it remembers the holder
     * and creates one tracker per provider, each given this dispatcher's callback. The trackers
     * come from the corrected `ProxmoxProvider.CreateTracker`, so their watchers raise events.
     */
    method InitializeTracking(holder: ConfigurationHolder) returns (r: Outcome<DispatchError>)
      requires Valid()
      modifies this
      ensures Valid()
      ensures r.Fail? <==> old(holderForTracking) != null
      ensures r.Fail? ==> r.error == AlreadyInitialized && trackers == old(trackers) && holderForTracking == old(holderForTracking)
      ensures r.Pass? ==> holderForTracking == holder && |trackers| == |providers|
      ensures r.Pass? ==> forall i :: 0 <= i < |providers| ==>
        (trackers[i].Some? <==> providers[i].tracked) &&
        (trackers[i].Some? ==>
          fresh(trackers[i].value) && trackers[i].value.owner == providers[i].id &&
          trackers[i].value.callback == Some(handle) && !trackers[i].value.enabled &&
          trackers[i].value.handlers == [ProxmoxProvider.Subscriptions, ProxmoxProvider.Subscriptions] &&
          trackers[i].value.raising == [true, true])
    {
      if holderForTracking != null {
        return Fail(AlreadyInitialized);
      }
      holderForTracking := holder;
      for i := 0 to |providers|
        invariant holderForTracking == holder && |trackers| == i
        invariant forall j :: 0 <= j < i ==>
          (trackers[j].Some? <==> providers[j].tracked) &&
          (trackers[j].Some? ==>
            fresh(trackers[j].value) && trackers[j].value.owner == providers[j].id &&
            trackers[j].value.callback == Some(handle) && !trackers[j].value.enabled &&
            trackers[j].value.handlers == [ProxmoxProvider.Subscriptions, ProxmoxProvider.Subscriptions] &&
            trackers[j].value.raising == [true, true])
      {
        if providers[i].tracked {
          var t := ProxmoxProvider.CreateTracker(providers[i].id);
          t.SetCallback(handle);
          assert t.handlers == [ProxmoxProvider.Subscriptions, ProxmoxProvider.Subscriptions];
          assert t.raising == [true, true];
          trackers := trackers + [Some(t)];
        } else {
          trackers := trackers + [None];
        }
      }
      r := Pass;
    }

    /** EnableTracking: refused before InitializeTracking; otherwise every tracker is started. */
    method EnableTracking() returns (r: Outcome<DispatchError>)
      requires Valid()
      modifies TrackerObjects()
      ensures r.Fail? <==> holderForTracking == null
      ensures r.Fail? ==> r.error == NotInitialized
      ensures r.Pass? ==> forall i :: 0 <= i < |trackers| && trackers[i].Some? ==> trackers[i].value.enabled
      ensures forall i :: 0 <= i < |trackers| && trackers[i].Some? ==>
        trackers[i].value.callback == old(trackers[i].value.callback) &&
        trackers[i].value.handlers == old(trackers[i].value.handlers)
    {
      if holderForTracking == null {
        return Fail(NotInitialized);
      }
      for i := 0 to |trackers|
        invariant forall j :: 0 <= j < i && trackers[j].Some? ==> trackers[j].value.enabled
        invariant forall j :: 0 <= j < |trackers| && trackers[j].Some? ==>
          trackers[j].value.callback == old(trackers[j].value.callback) &&
          trackers[j].value.handlers == old(trackers[j].value.handlers)
      {
        if trackers[i].Some? {
          trackers[i].value.StartTracking();
        }
      }
      r := Pass;
    }

    /** DisableTracking: refused before InitializeTracking; otherwise every tracker is stopped. */
    method DisableTracking() returns (r: Outcome<DispatchError>)
      requires Valid()
      modifies TrackerObjects()
      ensures r.Fail? <==> holderForTracking == null
      ensures r.Fail? ==> r.error == NotInitialized
      ensures r.Pass? ==> forall i :: 0 <= i < |trackers| && trackers[i].Some? ==> !trackers[i].value.enabled
      ensures forall i :: 0 <= i < |trackers| && trackers[i].Some? ==>
        trackers[i].value.callback == old(trackers[i].value.callback) &&
        trackers[i].value.handlers == old(trackers[i].value.handlers)
    {
      if holderForTracking == null {
        return Fail(NotInitialized);
      }
      for i := 0 to |trackers|
        invariant forall j :: 0 <= j < i && trackers[j].Some? ==> !trackers[j].value.enabled
        invariant forall j :: 0 <= j < |trackers| && trackers[j].Some? ==>
          trackers[j].value.callback == old(trackers[j].value.callback) &&
          trackers[j].value.handlers == old(trackers[j].value.handlers)
      {
        if trackers[i].Some? {
          trackers[i].value.StopTracking();
        }
      }
      r := Pass;
    }

    /**
     * TrackerCallback for provider `p`, whose fetch this time is `f`: snapshot, sweep the
     * provider's parts, set it active and re-fetch; if the fetch throws, roll the builder back
     * to the snapshot and stop; otherwise rebuild the configuration once. Nothing escapes.
     */
    method TrackerCallback(p: ProviderId, f: Fetch) returns (r: CallbackResult)
      requires holderForTracking != null && holderForTracking.Valid() && holderForTracking.builder.Valid()
      modifies holderForTracking, holderForTracking.builder
      ensures holderForTracking.Valid() && holderForTracking.builder.Valid()
      ensures holderForTracking.builder.activeProvider == Some(p)
      ensures holderForTracking.builder.snapshot == SnapshotOf(old(holderForTracking.builder.scopes))
      ensures ScopesValid(RemoveParts(old(holderForTracking.builder.scopes), p))
      ensures var fetched := FetchOutcome(RemoveParts(old(holderForTracking.builder.scopes), p), Some(p), f);
        fetched.1.Fail? ==> (r == RolledBack(fetched.1.error) && holderForTracking.builder.aliased &&
          holderForTracking.builder.scopes == SnapshotOf(old(holderForTracking.builder.scopes)))
      ensures var fetched := FetchOutcome(RemoveParts(old(holderForTracking.builder.scopes), p), Some(p), f);
        fetched.1.Pass? ==> (holderForTracking.builder.scopes == fetched.0 && !holderForTracking.builder.aliased &&
          (r.Updated? <==> holderForTracking.builder.Build().Ok?) &&
          (r.RebuildFailed? <==> holderForTracking.builder.Build().Err?))
      ensures r.RebuildFailed? ==> r.buildError == holderForTracking.builder.Build().error
      ensures r.Updated? ==>
        var c := holderForTracking.builder.Build().value;
        holderForTracking.configuration == Some(c) && holderForTracking.waiters == [] &&
        holderForTracking.completed == old(holderForTracking.completed) + Notify(old(holderForTracking.waiters), c)
      ensures !r.Updated? ==>
        holderForTracking.configuration == old(holderForTracking.configuration) &&
        holderForTracking.waiters == old(holderForTracking.waiters) &&
        holderForTracking.completed == old(holderForTracking.completed)
    {
      var h := holderForTracking;
      var fetched := Refetch(h.builder, p, f);
      if fetched.Fail? {
        h.builder.Rollback();
        return RolledBack(fetched.error);
      }
      var rebuilt := h.RebuildConfiguration();
      if rebuilt.Fail? {
        return RebuildFailed(rebuilt.error);
      }
      r := Updated;
    }
  }

  /** The part of TrackerCallback before the rollback decision: snapshot, sweep, set active, fetch. */
  method Refetch(b: ConfigurationBuilder, p: ProviderId, f: Fetch) returns (fetched: Outcome<FetchError>)
    requires b.Valid()
    modifies b`scopes, b`snapshot, b`aliased, b`activeProvider
    ensures b.Valid() && b.activeProvider == Some(p) && !b.aliased
    ensures ScopesValid(RemoveParts(old(b.scopes), p))
    ensures b.snapshot == SnapshotOf(old(b.scopes))
    ensures (b.scopes, fetched) == FetchOutcome(RemoveParts(old(b.scopes), p), Some(p), f)
  {
    RemovePartsForgetsProvider(b.scopes, p);
    b.TakeSnapshot();
    b.RemovePartsCreatedBy(p);
    b.SetActiveProvider(Some(p));
    fetched := Provide(b, f);
  }

  /**
   * A rolled-back callback leaves the builder holding what it held before, slot by slot and
   * part by part, and building it gives what building it before gave.
   */
  lemma {:induction false} RollbackRestoresContents(scopes: seq<RWScope>)
    requires ScopesValid(scopes)
    ensures |SnapshotOf(scopes)| == |scopes|
    ensures forall i :: 0 <= i < |scopes| ==> ScopeContents(SnapshotOf(scopes)[i]) == ScopeContents(scopes[i])
    ensures BuildScopes(SnapshotOf(scopes)) == BuildScopes(scopes)
  {
    SnapshotSameContents(scopes);
    SnapshotBuildsTheSame(scopes);
  }
}
