/**
 * The older ServiceConfigurationBuilder of the configuration provider service: guest
 * machines are created by id, then named, given a main interface address and firewall
 * rules; Build checks that everything required is set and projects the result.
 */
module ServiceConfigurationBuilders {
  import opened Wrappers
  import opened Net
  import opened GuestMachines
  import opened FirewallRules
  import Sequences

  /** The host's network interface, an opaque handle passed through Build untouched. */
  datatype NetworkInterface = NetworkInterface(name: string)

  /** A machine while it is being built: name and address may still be missing. */
  datatype MutableGuestMachine = MutableGuestMachine(
    name: Option<string>,
    mainInterfacePhysicalAddress: Option<PhysicalAddress>,
    rules: seq<FirewallRule>)
  {
    predicate IsComplete() { name.Some? && mainInterfacePhysicalAddress.Some? }
  }

  /** A machine as CreateGuestMachine adds it: nothing set, no rules. */
  const EmptyMachine := MutableGuestMachine(None, None, [])

  datatype GuestMachineNetworkConfiguration = GuestMachineNetworkConfiguration(
    mainInterfacePhysicalAddress: PhysicalAddress, rules: seq<FirewallRule>)

  datatype GuestMachineConfiguration = GuestMachineConfiguration(
    id: GuestMachineId, name: string, network: GuestMachineNetworkConfiguration)

  datatype ServiceConfiguration = ServiceConfiguration(
    machines: seq<GuestMachineConfiguration>,
    dnsZones: seq<string>,
    fallbackDNSServer: IPAddress,
    mainInterface: Option<NetworkInterface>,
    serverName: string)

  /** ConfigurationDoNotCompletedException, with the property path it names. */
  datatype BuildError =
    | MissingPhysicalAddress(id: GuestMachineId)
    | MissingName(id: GuestMachineId)
    | MissingFallbackDNSServer
    | MissingServerName

  /** The indexer of the machine dictionary throws for an id never created. */
  datatype SetterError = UnknownMachine(id: GuestMachineId)

  /** The exception Build raises for an incomplete machine: the address is checked before the name. */
  function MachineError(id: GuestMachineId, m: MutableGuestMachine): BuildError
  {
    if m.mainInterfacePhysicalAddress.None? then MissingPhysicalAddress(id) else MissingName(id)
  }

  /**
   * The Select over the machines, in enumeration order: each complete machine becomes its
   * configuration; the first incomplete one throws.
   */
  function BuildMachines(ids: seq<GuestMachineId>, gms: map<GuestMachineId, MutableGuestMachine>): (r: Result<seq<GuestMachineConfiguration>, BuildError>)
    requires forall i :: 0 <= i < |ids| ==> ids[i] in gms
    ensures r.Ok? <==> forall i :: 0 <= i < |ids| ==> gms[ids[i]].IsComplete()
    ensures r.Ok? ==> |r.value| == |ids|
    ensures r.Ok? ==> forall i :: 0 <= i < |ids| ==>
      r.value[i].id == ids[i] &&
      Some(r.value[i].name) == gms[ids[i]].name &&
      Some(r.value[i].network.mainInterfacePhysicalAddress) == gms[ids[i]].mainInterfacePhysicalAddress &&
      r.value[i].network.rules == gms[ids[i]].rules
  {
    if ids == [] then Ok([])
    else
      var m := gms[ids[0]];
      if m.mainInterfacePhysicalAddress.None? then Err(MissingPhysicalAddress(ids[0]))
      else if m.name.None? then Err(MissingName(ids[0]))
      else
        var here := GuestMachineConfiguration(ids[0], m.name.value,
          GuestMachineNetworkConfiguration(m.mainInterfacePhysicalAddress.value, m.rules));
        match BuildMachines(ids[1..], gms)
        case Err(e) => Err(e)
        case Ok(rest) => Ok([here] + rest)
  }

  /** An incomplete machine after only complete ones is the one Build reports. */
  lemma {:induction false} BuildMachinesReportsFirstIncomplete(ids: seq<GuestMachineId>, gms: map<GuestMachineId, MutableGuestMachine>, k: nat)
    requires forall i :: 0 <= i < |ids| ==> ids[i] in gms
    requires k < |ids| && !gms[ids[k]].IsComplete()
    requires forall j :: 0 <= j < k ==> gms[ids[j]].IsComplete()
    ensures BuildMachines(ids, gms) == Err(MachineError(ids[k], gms[ids[k]]))
  {
    if k > 0 {
      BuildMachinesReportsFirstIncomplete(ids[1..], gms, k - 1);
    }
  }

  /**
   * Build: the machines first, then FallbackDNSServer, then ServerName; MainInterface and
   * the DNS zones pass through, and a missing MainInterface is no error.
   */
  function BuildConfiguration(
    ids: seq<GuestMachineId>, gms: map<GuestMachineId, MutableGuestMachine>, dnsZones: seq<string>,
    fallbackDNSServer: Option<IPAddress>, mainInterface: Option<NetworkInterface>, serverName: Option<string>
  ): (r: Result<ServiceConfiguration, BuildError>)
    requires forall i :: 0 <= i < |ids| ==> ids[i] in gms
    ensures r.Ok? <==>
      (forall i :: 0 <= i < |ids| ==> gms[ids[i]].IsComplete()) && fallbackDNSServer.Some? && serverName.Some?
    ensures r.Ok? ==>
      r.value.dnsZones == dnsZones && r.value.mainInterface == mainInterface &&
      Some(r.value.fallbackDNSServer) == fallbackDNSServer && Some(r.value.serverName) == serverName
    ensures r.Ok? ==> BuildMachines(ids, gms) == Ok(r.value.machines)
    ensures r.Err? && BuildMachines(ids, gms).Ok? ==>
      r.error == (if fallbackDNSServer.None? then MissingFallbackDNSServer else MissingServerName)
    ensures r.Err? && BuildMachines(ids, gms).Err? ==> r.error == BuildMachines(ids, gms).error
  {
    match BuildMachines(ids, gms)
    case Err(e) => Err(e)
    case Ok(machines) =>
      if fallbackDNSServer.None? then Err(MissingFallbackDNSServer)
      else if serverName.None? then Err(MissingServerName)
      else Ok(ServiceConfiguration(machines, dnsZones, fallbackDNSServer.value, mainInterface, serverName.value))
  }

  class ServiceConfigurationBuilder {
    /** The keys of the machine dictionary in enumeration order, which is the order they were added in. */
    var ids: seq<GuestMachineId>
    var gms: map<GuestMachineId, MutableGuestMachine>
    var dnsZones: seq<string>
    var fallbackDNSServer: Option<IPAddress>
    var mainInterface: Option<NetworkInterface>
    var serverName: Option<string>

    ghost predicate Valid()
      reads this
    {
      Sequences.Distinct(ids) && (forall id :: id in gms <==> id in ids)
    }

    constructor()
      ensures Valid()
      ensures ids == [] && gms == map[] && dnsZones == []
      ensures fallbackDNSServer.None? && mainInterface.None? && serverName.None?
    {
      ids := [];
      gms := map[];
      dnsZones := [];
      fallbackDNSServer := None;
      mainInterface := None;
      serverName := None;
    }

    /** CreateGuestMachine: adds an empty machine unless the id already has one, which is kept as it is. */
    method CreateGuestMachine(id: GuestMachineId)
      requires Valid()
      modifies this`ids, this`gms
      ensures Valid()
      ensures id in old(gms) ==> ids == old(ids) && gms == old(gms)
      ensures id !in old(gms) ==> ids == old(ids) + [id] && gms == old(gms)[id := EmptyMachine]
    {
      if id !in gms {
        gms := gms[id := EmptyMachine];
        ids := ids + [id];
      }
    }

    /** SetGuestMachineName: overwrites the name of an existing machine. */
    method SetGuestMachineName(id: GuestMachineId, name: string) returns (r: Outcome<SetterError>)
      requires Valid()
      modifies this`gms
      ensures Valid()
      ensures r.Fail? <==> id !in old(gms)
      ensures r.Fail? ==> r.error == UnknownMachine(id) && gms == old(gms)
      ensures r.Pass? ==> gms == old(gms)[id := old(gms)[id].(name := Some(name))]
    {
      if id !in gms {
        return Fail(UnknownMachine(id));
      }
      gms := gms[id := gms[id].(name := Some(name))];
      r := Pass;
    }

    /** SetGuestMachineMainInterfacePhysicalAddress: overwrites the address of an existing machine. */
    method SetGuestMachineMainInterfacePhysicalAddress(id: GuestMachineId, address: PhysicalAddress) returns (r: Outcome<SetterError>)
      requires Valid()
      modifies this`gms
      ensures Valid()
      ensures r.Fail? <==> id !in old(gms)
      ensures r.Fail? ==> r.error == UnknownMachine(id) && gms == old(gms)
      ensures r.Pass? ==> gms == old(gms)[id := old(gms)[id].(mainInterfacePhysicalAddress := Some(address))]
    {
      if id !in gms {
        return Fail(UnknownMachine(id));
      }
      gms := gms[id := gms[id].(mainInterfacePhysicalAddress := Some(address))];
      r := Pass;
    }

    /** AddGuestMachinFirewallRule: appends a rule to an existing machine's list. */
    method AddGuestMachinFirewallRule(id: GuestMachineId, rule: FirewallRule) returns (r: Outcome<SetterError>)
      requires Valid()
      modifies this`gms
      ensures Valid()
      ensures r.Fail? <==> id !in old(gms)
      ensures r.Fail? ==> r.error == UnknownMachine(id) && gms == old(gms)
      ensures r.Pass? ==> gms == old(gms)[id := old(gms)[id].(rules := old(gms)[id].rules + [rule])]
    {
      if id !in gms {
        return Fail(UnknownMachine(id));
      }
      gms := gms[id := gms[id].(rules := gms[id].rules + [rule])];
      r := Pass;
    }

    /** Build: the configuration the builder's current state describes, or the first missing property. */
    method Build() returns (r: Result<ServiceConfiguration, BuildError>)
      requires Valid()
      ensures r == BuildConfiguration(ids, gms, dnsZones, fallbackDNSServer, mainInterface, serverName)
    {
      r := BuildConfiguration(ids, gms, dnsZones, fallbackDNSServer, mainInterface, serverName);
    }
  }

  /** Creating a machine a second time changes nothing: its name survives. */
  method CreateTwiceKeepsName(id: GuestMachineId, name: string) returns (b: ServiceConfigurationBuilder)
    ensures b.Valid() && b.ids == [id]
    ensures b.gms == map[id := EmptyMachine.(name := Some(name))]
  {
    b := new ServiceConfigurationBuilder();
    b.CreateGuestMachine(id);
    assert b.gms == map[id := EmptyMachine];
    var r := b.SetGuestMachineName(id, name);
    assert b.gms == map[id := EmptyMachine.(name := Some(name))];
    b.CreateGuestMachine(id);
  }

  /** A machine with a name and an address but no host properties set fails on FallbackDNSServer. */
  method MissingFallbackReported(id: GuestMachineId, name: string, address: PhysicalAddress) returns (r: Result<ServiceConfiguration, BuildError>)
    ensures r == Err(MissingFallbackDNSServer)
  {
    var b := new ServiceConfigurationBuilder();
    b.CreateGuestMachine(id);
    var n := b.SetGuestMachineName(id, name);
    var a := b.SetGuestMachineMainInterfacePhysicalAddress(id, address);
    r := b.Build();
  }

  /** A machine with a name only fails on its address even when the host properties are missing too. */
  method MissingAddressReportedFirst(id: GuestMachineId, name: string) returns (r: Result<ServiceConfiguration, BuildError>)
    ensures r == Err(MissingPhysicalAddress(id))
  {
    var b := new ServiceConfigurationBuilder();
    b.CreateGuestMachine(id);
    var n := b.SetGuestMachineName(id, name);
    r := b.Build();
  }

  /** Everything required set and MainInterface left unset: Build succeeds without it. */
  method BuildsWithoutMainInterface(id: GuestMachineId, name: string, address: PhysicalAddress, dns: IPAddress, server: string)
    returns (r: Result<ServiceConfiguration, BuildError>)
    ensures r.Ok? && r.value.mainInterface.None?
    ensures r.value.machines == [GuestMachineConfiguration(id, name, GuestMachineNetworkConfiguration(address, []))]
    ensures r.value.fallbackDNSServer == dns && r.value.serverName == server
  {
    var b := new ServiceConfigurationBuilder();
    b.CreateGuestMachine(id);
    var n := b.SetGuestMachineName(id, name);
    var a := b.SetGuestMachineMainInterfacePhysicalAddress(id, address);
    b.fallbackDNSServer := Some(dns);
    b.serverName := Some(server);
    r := b.Build();
  }
}
