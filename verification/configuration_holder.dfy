/**
 * ConfigurationHolder: the current service configuration, the builder it is rebuilt from,
 * and the callers waiting for a configuration that satisfies their predicate.
 */
module ConfigurationHolders {
  import opened Wrappers
  import opened Configuration
  import opened ConfigurationBuilders

  /** A caller of AwaitForNewConfiguration whose task is still open: its ticket and predicate. */
  datatype Waiter = Waiter(ticket: nat, accepts: ServiceConfiguration -> bool)

  /** The Configuration getter throws before the first successful rebuild. */
  datatype HolderError = NoConfiguration

  /** What AwaitForNewConfiguration returns, a Task: already completed, or pending under a ticket. */
  datatype Awaited = Ready(config: ServiceConfiguration) | Pending(ticket: nat)

  /** The Task results a rebuild to `c` completes: those of the waiters whose predicate accepts `c`, each with `c`. */
  function Notify(ws: seq<Waiter>, c: ServiceConfiguration): (r: map<nat, ServiceConfiguration>)
    ensures forall t :: t in r <==> exists i :: 0 <= i < |ws| && ws[i].ticket == t && ws[i].accepts(c)
    ensures forall t :: t in r ==> r[t] == c
  {
    if ws == [] then map[]
    else
      var rest := Notify(ws[..|ws| - 1], c);
      var w := ws[|ws| - 1];
      if w.accepts(c) then rest[w.ticket := c] else rest
  }

  /** The tickets of a list of waiters. */
  function Tickets(ws: seq<Waiter>): (r: set<nat>)
    ensures forall t :: t in r <==> exists i :: 0 <= i < |ws| && ws[i].ticket == t
  {
    set i | 0 <= i < |ws| :: ws[i].ticket
  }

  /** Notifying one more waiter adds its ticket exactly when its predicate accepts. */
  lemma {:induction false} NotifyStep(ws: seq<Waiter>, i: nat, c: ServiceConfiguration)
    requires i < |ws|
    ensures Notify(ws[..i + 1], c) == if ws[i].accepts(c) then Notify(ws[..i], c)[ws[i].ticket := c] else Notify(ws[..i], c)
  {
    assert ws[..i + 1][..i] == ws[..i];
  }

  /** A rebuild completes only tasks that were waiting. */
  lemma {:induction false} NotifyWithin(ws: seq<Waiter>, c: ServiceConfiguration)
    ensures Notify(ws, c).Keys <= Tickets(ws)
  {
  }

  /** A lone waiter whose predicate rejects the configuration is not completed. */
  lemma {:induction false} NotifyRejected(w: Waiter, c: ServiceConfiguration)
    requires !w.accepts(c)
    ensures Notify([w], c) == map[]
  {
    assert [w][..0] == [];
  }

  /**
   * After a rebuild every completed ticket was handed out, and a ticket that was neither
   * completed nor waiting is still not completed.
   */
  lemma {:induction false} NotifiedWereWaiting(done: map<nat, ServiceConfiguration>, ws: seq<Waiter>, c: ServiceConfiguration, next: nat)
    requires forall t :: t in done ==> t < next
    requires forall i :: 0 <= i < |ws| ==> ws[i].ticket < next
    ensures forall t :: t in done + Notify(ws, c) ==> t < next
    ensures forall t :: t !in done && t !in Tickets(ws) ==> t !in done + Notify(ws, c)
  {
    NotifyWithin(ws, c);
  }

  lemma {:induction false} UnionUpdate<K, V>(a: map<K, V>, b: map<K, V>, k: K, v: V)
    ensures a + b[k := v] == (a + b)[k := v]
  {
  }

  class ConfigurationHolder {
    var configuration: Option<ServiceConfiguration>
    const builder: ConfigurationBuilder
    /** RebuiltHandlers, one per pending AwaitForNewConfiguration task. */
    var waiters: seq<Waiter>
    /** The results of the Tasks completed so far, by ticket. */
    var completed: map<nat, ServiceConfiguration>
    /** The ticket the next pending task gets. */
    var nextTicket: nat

    /**
     * Every task is pending or completed, never both, and each pending task has one handler:
     * so no handler ever completes a task twice.
     */
    ghost predicate Valid()
      reads this
    {
      (forall i :: 0 <= i < |waiters| ==> waiters[i].ticket < nextTicket && waiters[i].ticket !in completed) &&
      (forall i, j :: 0 <= i < j < |waiters| ==> waiters[i].ticket != waiters[j].ticket) &&
      (forall t :: t in completed ==> t < nextTicket)
    }

    /** A ticket handed out whose task is neither completed nor waiting: it can never complete. */
    ghost predicate Abandoned(t: nat)
      reads this
    {
      t < nextTicket && t !in completed && t !in Tickets(waiters)
    }

    constructor(b: ConfigurationBuilder)
      ensures Valid() && builder == b
      ensures configuration == None && waiters == [] && completed == map[] && nextTicket == 0
    {
      builder := b;
      configuration := None;
      waiters := [];
      completed := map[];
      nextTicket := 0;
    }

    /** The Configuration property: the last configuration built, or an error before the first one. */
    function Current(): (r: Result<ServiceConfiguration, HolderError>)
      reads this
      ensures r.Ok? <==> configuration.Some?
      ensures r.Ok? ==> r.value == configuration.value
    {
      match configuration
      case Some(c) => Ok(c)
      case None => Err(NoConfiguration)
    }

    /**
     * AwaitForNewConfiguration: reads the current configuration first (so it fails before the
     * first build, even when `checkCurrent` is false); returns it at once when `checkCurrent`
     * and the predicate holds; otherwise registers a handler under a fresh ticket.
     */
    method AwaitForNewConfiguration(accepts: ServiceConfiguration -> bool, checkCurrent: bool)
      returns (r: Result<Awaited, HolderError>)
      requires Valid()
      modifies this`waiters, this`nextTicket
      ensures Valid()
      ensures r.Err? <==> old(configuration).None?
      ensures r.Err? ==> waiters == old(waiters) && nextTicket == old(nextTicket)
      ensures r.Ok? && r.value.Ready? <==> old(configuration).Some? && checkCurrent && accepts(old(configuration).value)
      ensures r.Ok? && r.value.Ready? ==> r.value.config == old(configuration).value && waiters == old(waiters)
      ensures r.Ok? && r.value.Pending? ==>
        r.value.ticket == old(nextTicket) && r.value.ticket !in completed && r.value.ticket !in Tickets(old(waiters)) &&
        waiters == old(waiters) + [Waiter(r.value.ticket, accepts)]
      ensures forall t :: old(Abandoned(t)) ==> Abandoned(t)
    {
      var current := Current();
      if current.Err? {
        return Err(current.error);
      }
      var c := current.value;
      if checkCurrent && accepts(c) {
        return Ok(Ready(c));
      }
      var ticket := nextTicket;
      waiters := waiters + [Waiter(ticket, accepts)];
      nextTicket := nextTicket + 1;
      r := Ok(Pending(ticket));
    }

    /**
     * RebuildConfiguration: builds the builder's scopes; when Build throws nothing changes.
     * Otherwise the new configuration is published, every handler runs once (completing the
     * tasks whose predicate accepts it) and then all handlers are discarded.
     */
    method RebuildConfiguration() returns (r: Outcome<BuildError>)
      requires Valid()
      modifies this`configuration, this`waiters, this`completed
      ensures Valid()
      ensures r.Fail? <==> builder.Build().Err?
      ensures r.Fail? ==> r.error == builder.Build().error
      ensures r.Fail? ==>
        configuration == old(configuration) && waiters == old(waiters) && completed == old(completed)
      ensures r.Pass? ==> configuration == Some(builder.Build().value) && waiters == []
      ensures r.Pass? ==> completed == old(completed) + Notify(old(waiters), builder.Build().value)
      ensures forall t :: old(Abandoned(t)) ==> Abandoned(t)
    {
      var built := builder.Build();
      if built.Err? {
        return Fail(built.error);
      }
      var config := built.value;
      configuration := Some(config);
      var i := 0;
      while i < |waiters|
        invariant 0 <= i <= |waiters| && waiters == old(waiters) && configuration == Some(config)
        invariant completed == old(completed) + Notify(waiters[..i], config)
      {
        var w := waiters[i];
        NotifyStep(waiters, i, config);
        if w.accepts(config) {
          UnionUpdate(old(completed), Notify(waiters[..i], config), w.ticket, config);
          completed := completed[w.ticket := config];
        }
        i := i + 1;
      }
      assert waiters[..i] == waiters;
      NotifiedWereWaiting(old(completed), waiters, config, nextTicket);
      waiters := [];
      r := Pass;
    }
  }

  /**
   * A waiter whose predicate rejects the next configuration is abandoned by that rebuild,
   * so its task never completes, whatever later configurations are built.
   */
  method RejectedWaiterIsAbandoned(b: ConfigurationBuilder, accepts: ServiceConfiguration -> bool)
    returns (h: ConfigurationHolder, ticket: nat)
    requires b.Valid() && b.Build().Ok? && !accepts(b.Build().value)
    ensures h.Valid() && h.builder == b && h.Abandoned(ticket)
  {
    h, ticket := HolderWithOneWaiter(b, accepts);
    var second := h.RebuildConfiguration();
    NotifyRejected(Waiter(ticket, accepts), b.Build().value);
  }

  /** A holder over b after one successful rebuild and one pending wait on accepts. */
  method HolderWithOneWaiter(b: ConfigurationBuilder, accepts: ServiceConfiguration -> bool)
    returns (h: ConfigurationHolder, ticket: nat)
    requires b.Valid() && b.Build().Ok?
    ensures fresh(h) && h.Valid() && h.builder == b && h.configuration == Some(b.Build().value)
    ensures h.waiters == [Waiter(ticket, accepts)] && ticket < h.nextTicket && ticket !in h.completed
  {
    h := new ConfigurationHolder(b);
    var first := h.RebuildConfiguration();
    var awaited := h.AwaitForNewConfiguration(accepts, false);
    ticket := awaited.value.ticket;
    assert h.waiters[0].ticket == ticket;
  }
}
