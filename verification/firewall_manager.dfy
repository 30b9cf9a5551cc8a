/**
 * FirewallManager: turns firewall rules into iptables argument lists for the guest machines'
 * subnet. Running iptables is not modelled; each call is recorded as its command line.
 */
module FirewallManagers {
  import opened Wrappers
  import opened Text
  import opened Net
  import opened GuestMachines
  import opened FirewallRules
  import opened Sequences

  const NatTable: string := "nat"
  const FilterTable: string := "filter"

  /** FirewallManager.Options. */
  datatype Options = Options(
    iptablesExecutablePath: string,
    iptablesInitExecutablePath: string,
    forwardChainName: string,
    dnatChainName: string)

  /** The defaults of Options. */
  const DefaultOptions: Options := Options("/usr/sbin/iptables", "./initFirewall.sh", "GM-TO-GM", "GM-DNAT")

  /** An argument value as it is formatted into the command line: a word, a port, a host address. */
  datatype ArgValue = Word(text: string) | Port(port: uint16) | Host(a: uint8, b: uint8, c: uint8, d: uint8)

  /** One (flag, value) pair of an iptables call. */
  datatype Argument = Argument(flag: string, value: ArgValue)

  /** Add throws before any address is set, and for a rule type it does not know. */
  datatype FirewallError = NoNetworkAddress | UnknownRuleType(code: int)

  /**
   * FormHostAddress: the subnet address's four bytes with the last one replaced by the
   * machine id. An IPv6 address does not fit the four-byte buffer, which then stays zero.
   */
  function FormHostAddress(network: IPAddress, gm: GuestMachineId): (r: ArgValue)
    ensures r.Host? && r.d == gm.Id()
    ensures network.IPv4? ==> r.a == network.a && r.b == network.b && r.c == network.c
    ensures network.IPv6? ==> r.a == 0 && r.b == 0 && r.c == 0
  {
    match network
    case IPv4(a, b, c, _) => Host(a, b, c, gm.Id())
    case IPv6(_) => Host(0, 0, 0, gm.Id())
  }

  /** How a value is written into the command line: ports in decimal, hosts dotted. */
  function Render(v: ArgValue): (s: string)
    ensures v.Word? ==> s == v.text
    ensures v.Port? ==> ParseDecimal(s) == Some(v.port)
    ensures v.Host? ==> ' ' !in s
  {
    match v
    case Word(t) => t
    case Port(p) => ParseDecimalString(p); DecimalString(p)
    case Host(a, b, c, d) =>
      var q := DottedQuad(a, b, c, d);
      assert forall i :: 0 <= i < |q| ==> q[i] != ' ';
      q
  }

  /** The "-p" argument every list ends with: tcp for TCP, udp for anything else. */
  function ProtocolArgument(p: FirewallProtocol): (r: Argument)
    ensures r.flag == "-p" && (r.value == Word("tcp") <==> p == TCP) && (r.value == Word("udp") <==> p != TCP)
  {
    Argument("-p", Word(if p == TCP then "tcp" else "udp"))
  }

  /** The optional arguments of a Forward rule, in their order: ports when nonzero, machines unless Any. */
  function ForwardOptional(network: IPAddress, rule: FirewallRule): (r: seq<Argument>)
    ensures |r| <= 4
  {
    (if rule.sourcePort != 0 then [Argument("--sport", Port(rule.sourcePort))] else []) +
    (if rule.destinationPort != 0 then [Argument("--dport", Port(rule.destinationPort))] else []) +
    (if rule.sourceMachineId != AnyMachine then [Argument("-s", FormHostAddress(network, rule.sourceMachineId))] else []) +
    (if rule.destinationMachineId != AnyMachine then [Argument("-d", FormHostAddress(network, rule.destinationMachineId))] else [])
  }

  /** Each optional argument is present exactly when its field is set. */
  lemma {:induction false} ForwardOptionalPresence(network: IPAddress, rule: FirewallRule)
    ensures var r := ForwardOptional(network, rule);
      (Argument("--sport", Port(rule.sourcePort)) in r <==> rule.sourcePort != 0) &&
      (Argument("--dport", Port(rule.destinationPort)) in r <==> rule.destinationPort != 0) &&
      (Argument("-s", FormHostAddress(network, rule.sourceMachineId)) in r <==> rule.sourceMachineId != AnyMachine) &&
      (Argument("-d", FormHostAddress(network, rule.destinationMachineId)) in r <==> rule.destinationMachineId != AnyMachine)
  {
  }

  /** The arguments of one iptables call for a rule of a single protocol. */
  function RuleArguments(opts: Options, network: IPAddress, rule: FirewallRule): (r: Result<seq<Argument>, FirewallError>)
    ensures r.Err? <==> rule.ruleType.Undefined?
    ensures r.Err? ==> r.error == UnknownRuleType(rule.ruleType.code)
    ensures r.Ok? ==> |r.value| >= 4 && r.value[|r.value| - 1] == ProtocolArgument(rule.protocol)
    ensures r.Ok? && rule.ruleType == DNat ==> |r.value| == 6
  {
    match rule.ruleType
    case Forward =>
      Ok([Argument("-t", Word(FilterTable)), Argument("-j", Word("ACCEPT")), Argument("-A", Word(opts.forwardChainName))] +
        ForwardOptional(network, rule) + [ProtocolArgument(rule.protocol)])
    case DNat =>
      Ok([Argument("-t", Word(NatTable)), Argument("-A", Word(opts.dnatChainName)), Argument("--dport", Port(rule.sourcePort)),
        Argument("--to-destination", Word(Render(FormHostAddress(network, rule.destinationMachineId)) + ":" + DecimalString(rule.destinationPort))),
        Argument("-j", Word("DNAT")), ProtocolArgument(rule.protocol)])
    case Undefined(code) => Err(UnknownRuleType(code))
  }

  /** A Forward call: table, target and chain first, then the optional arguments, then "-p". */
  lemma {:induction false} ForwardLayout(opts: Options, network: IPAddress, rule: FirewallRule)
    requires rule.ruleType == Forward
    ensures var args := RuleArguments(opts, network, rule).value;
      args[..3] == [Argument("-t", Word(FilterTable)), Argument("-j", Word("ACCEPT")), Argument("-A", Word(opts.forwardChainName))] &&
      args[3..|args| - 1] == ForwardOptional(network, rule)
  {
    var args := RuleArguments(opts, network, rule).value;
    var head := [Argument("-t", Word(FilterTable)), Argument("-j", Word("ACCEPT")), Argument("-A", Word(opts.forwardChainName))];
    assert args == head + ForwardOptional(network, rule) + [ProtocolArgument(rule.protocol)];
    assert args[..3] == head;
    assert args[3..|args| - 1] == ForwardOptional(network, rule);
  }

  /**
   * The iptables calls Add makes: none without an address (it throws) or for protocol None;
   * two for Any, the UDP variant first, then the TCP variant; one otherwise.
   */
  function Commands(opts: Options, network: Option<IPAddress>, rule: FirewallRule): (r: Result<seq<seq<Argument>>, FirewallError>)
    ensures network.None? ==> r == Err(NoNetworkAddress)
    ensures network.Some? && rule.protocol == NoProtocol ==> r == Ok([])
    ensures network.Some? && rule.protocol == AnyProtocol ==>
      (r.Ok? <==> !rule.ruleType.Undefined?) &&
      (r.Ok? ==> r.value == [RuleArguments(opts, network.value, rule.(protocol := UDP)).value,
                             RuleArguments(opts, network.value, rule.(protocol := TCP)).value])
    ensures network.Some? && rule.protocol != NoProtocol && rule.protocol != AnyProtocol ==>
      (r.Ok? <==> !rule.ruleType.Undefined?) &&
      (r.Ok? ==> r.value == [RuleArguments(opts, network.value, rule).value])
    ensures r.Err? && network.Some? ==> r.error == UnknownRuleType(rule.ruleType.code)
    ensures r.Ok? ==> forall i :: 0 <= i < |r.value| ==> r.value[i] != []
  {
    match network
    case None => Err(NoNetworkAddress)
    case Some(net) =>
      match rule.protocol
      case NoProtocol => Ok([])
      case AnyProtocol =>
        (match RuleArguments(opts, net, rule.(protocol := UDP))
        case Err(e) => Err(e)
        case Ok(udp) => Ok([udp, RuleArguments(opts, net, rule.(protocol := TCP)).value]))
      case _ =>
        match RuleArguments(opts, net, rule)
        case Err(e) => Err(e)
        case Ok(args) => Ok([args])
  }

  /** A rule for any protocol fails exactly when its UDP and its TCP rule fail, and with the same error. */
  lemma {:induction false} AnyFailsLikeEach(opts: Options, net: IPAddress, rule: FirewallRule)
    requires rule.protocol == AnyProtocol
    ensures Commands(opts, Some(net), rule).Err? <==> Commands(opts, Some(net), rule.(protocol := UDP)).Err?
    ensures Commands(opts, Some(net), rule).Err? <==> Commands(opts, Some(net), rule.(protocol := TCP)).Err?
    ensures Commands(opts, Some(net), rule).Err? ==>
      Commands(opts, Some(net), rule).error == Commands(opts, Some(net), rule.(protocol := UDP)).error
  {
  }

  /** The calls for both protocols are the UDP calls followed by the TCP calls. */
  lemma {:induction false} AnyCommandLines(opts: Options, net: IPAddress, rule: FirewallRule)
    requires rule.protocol == AnyProtocol && !rule.ruleType.Undefined?
    ensures Commands(opts, Some(net), rule).Ok?
    ensures CommandLines(Commands(opts, Some(net), rule).value) ==
      CommandLines(Commands(opts, Some(net), rule.(protocol := UDP)).value) +
      CommandLines(Commands(opts, Some(net), rule.(protocol := TCP)).value)
  {
    var cmds := Commands(opts, Some(net), rule).value;
    assert CommandLines(cmds) == [CommandLine(cmds[0]), CommandLine(cmds[1])];
  }

  /** Each argument written as "flag value". */
  function Pairs(args: seq<Argument>): (r: seq<string>)
    ensures |r| == |args|
  {
    if args == [] then [] else [args[0].flag + " " + Render(args[0].value)] + Pairs(args[1..])
  }

  /** The command line of an iptables call: the "flag value" pairs joined by single spaces. */
  function CommandLine(args: seq<Argument>): (r: string)
    requires args != []
    ensures |args[0].flag| < |r| && r[..|args[0].flag| + 1] == args[0].flag + " "
  {
    var first := args[0].flag + " " + Render(args[0].value);
    assert Pairs(args)[0] == first;
    assert first[..|args[0].flag| + 1] == args[0].flag + " ";
    Join(Pairs(args), ' ')
  }

  /** The words iptables should receive: flag, value, flag, value, ... */
  function Words(args: seq<Argument>): (r: seq<string>)
    ensures |r| == 2 * |args|
  {
    if args == [] then [] else [args[0].flag, Render(args[0].value)] + Words(args[1..])
  }

  /** Word 2i is the flag of argument i, word 2i + 1 its value. */
  lemma {:induction false} WordAt(args: seq<Argument>, j: nat)
    requires j < 2 * |args|
    ensures Words(args)[j] == if j % 2 == 0 then args[j / 2].flag else Render(args[j / 2].value)
  {
    WordPair(args, j / 2);
  }

  /** Argument k contributes words 2k and 2k + 1. */
  lemma {:induction false} WordPair(args: seq<Argument>, k: nat)
    requires k < |args|
    ensures Words(args)[2 * k] == args[k].flag && Words(args)[2 * k + 1] == Render(args[k].value)
  {
    if k > 0 {
      WordPair(args[1..], k - 1);
      assert Words(args) == [args[0].flag, Render(args[0].value)] + Words(args[1..]);
      assert args[1..][k - 1] == args[k];
    }
  }

  /** Joining a piece in front of other pieces. */
  lemma {:induction false} JoinCons(a: string, rest: seq<string>, c: char)
    requires rest != []
    ensures Join([a] + rest, c) == a + [c] + Join(rest, c)
  {
    assert ([a] + rest)[1..] == rest;
  }

  /** A "flag value" pair in front joins like its two words in front. */
  lemma {:induction false} JoinPairInFront(f: string, v: string, pairs: seq<string>, words: seq<string>)
    requires pairs != [] && words != [] && Join(pairs, ' ') == Join(words, ' ')
    ensures Join([f + " " + v] + pairs, ' ') == Join([f, v] + words, ' ')
  {
    var joined := Join(words, ' ');
    JoinCons(f + " " + v, pairs, ' ');
    assert [f, v] + words == [f] + ([v] + words);
    JoinCons(f, [v] + words, ' ');
    JoinCons(v, words, ' ');
    assert (f + " " + v) + [' '] + joined == f + [' '] + (v + [' '] + joined);
  }

  /** One argument more in front: its pair before the rest, its two words before the rest. */
  lemma {:induction false} CommandLineStep(args: seq<Argument>, pairs: seq<string>, words: seq<string>)
    requires |args| > 1 && pairs == Pairs(args[1..]) && words == Words(args[1..])
    requires Join(pairs, ' ') == Join(words, ' ')
    ensures CommandLine(args) == Join(Words(args), ' ')
  {
    FrontArgument(args);
    JoinPairInFront(args[0].flag, Render(args[0].value), pairs, words);
  }

  /** The first argument contributes the first pair and the first two words. */
  lemma {:induction false} FrontArgument(args: seq<Argument>)
    requires args != []
    ensures Pairs(args) == [args[0].flag + " " + Render(args[0].value)] + Pairs(args[1..])
    ensures Words(args) == [args[0].flag, Render(args[0].value)] + Words(args[1..])
  {
  }

  /** Joining the pairs is joining the words. */
  lemma {:induction false} CommandLineIsWords(args: seq<Argument>)
    requires args != []
    ensures CommandLine(args) == Join(Words(args), ' ')
  {
    if |args| == 1 {
      var f := args[0].flag;
      var v := Render(args[0].value);
      assert Words(args) == [f] + [v];
      JoinCons(f, [v], ' ');
      assert Pairs(args) == [f + " " + v];
    } else {
      CommandLineIsWords(args[1..]);
      CommandLineStep(args, Pairs(args[1..]), Words(args[1..]));
    }
  }

  /** Neither the flag nor the rendered value contains a space. */
  predicate ArgSpaceFree(a: Argument)
  {
    ' ' !in a.flag && ' ' !in Render(a.value)
  }

  /** No flag or rendered value contains a space. */
  predicate SpaceFree(args: seq<Argument>)
  {
    forall i :: 0 <= i < |args| ==> ArgSpaceFree(args[i])
  }

  /** When no flag or value holds a space, iptables splits the command line back into exactly the intended words. */
  lemma {:induction false} CommandLineSplits(args: seq<Argument>)
    requires args != [] && SpaceFree(args)
    ensures Split(CommandLine(args), ' ') == Words(args)
  {
    CommandLineIsWords(args);
    var w := Words(args);
    forall j | 0 <= j < |w| ensures ' ' !in w[j] {
      assert ArgSpaceFree(args[j / 2]);
      WordAt(args, j);
    }
    SplitJoin(w, ' ');
  }

  lemma {:induction false} SpaceFreeAppend(a: seq<Argument>, b: seq<Argument>)
    requires SpaceFree(a) && SpaceFree(b)
    ensures SpaceFree(a + b)
  {
    forall i | 0 <= i < |a + b| ensures ArgSpaceFree((a + b)[i]) {
      if i < |a| { assert (a + b)[i] == a[i]; } else { assert (a + b)[i] == b[i - |a|]; }
    }
  }

  /** Ports and host addresses render without spaces. */
  lemma {:induction false} RenderedNumbersSpaceFree(v: ArgValue)
    requires !v.Word?
    ensures ' ' !in Render(v)
  {
    if v.Port? {
      var s := DecimalString(v.port);
      assert forall i :: 0 <= i < |s| ==> IsDigit(s[i]);
    }
  }

  lemma {:induction false} ForwardOptionalSpaceFree(network: IPAddress, rule: FirewallRule)
    ensures SpaceFree(ForwardOptional(network, rule))
  {
    var r := ForwardOptional(network, rule);
    forall i | 0 <= i < |r| ensures ArgSpaceFree(r[i]) {
      RenderedNumbersSpaceFree(r[i].value);
    }
  }

  /**
   * With chain names free of spaces, every call Add makes for a rule splits into exactly its
   * flags and values.
   */
  lemma {:induction false} RuleArgumentsSpaceFree(opts: Options, network: IPAddress, rule: FirewallRule)
    requires ' ' !in opts.forwardChainName && ' ' !in opts.dnatChainName
    requires RuleArguments(opts, network, rule).Ok?
    ensures SpaceFree(RuleArguments(opts, network, rule).value)
  {
    if rule.ruleType == Forward {
      ForwardSpaceFree(opts, network, rule);
    } else {
      DNatSpaceFree(opts, network, rule);
    }
  }

  lemma {:induction false} ForwardSpaceFree(opts: Options, network: IPAddress, rule: FirewallRule)
    requires ' ' !in opts.forwardChainName && rule.ruleType == Forward
    ensures SpaceFree(RuleArguments(opts, network, rule).value)
  {
    var head := [Argument("-t", Word(FilterTable)), Argument("-j", Word("ACCEPT")), Argument("-A", Word(opts.forwardChainName))];
    var proto := [ProtocolArgument(rule.protocol)];
    assert SpaceFree(head);
    assert SpaceFree(proto);
    ForwardOptionalSpaceFree(network, rule);
    SpaceFreeAppend(head, ForwardOptional(network, rule));
    SpaceFreeAppend(head + ForwardOptional(network, rule), proto);
  }

  /** The --to-destination value, host and port, holds no space. */
  lemma {:induction false} DestinationSpaceFree(network: IPAddress, rule: FirewallRule)
    ensures ' ' !in Render(FormHostAddress(network, rule.destinationMachineId)) + ":" + DecimalString(rule.destinationPort)
  {
    var host := Render(FormHostAddress(network, rule.destinationMachineId));
    RenderedNumbersSpaceFree(FormHostAddress(network, rule.destinationMachineId));
    RenderedNumbersSpaceFree(Port(rule.destinationPort));
    NotInConcat(host, ":", ' ');
    NotInConcat(host + ":", DecimalString(rule.destinationPort), ' ');
  }

  lemma {:induction false} DNatSpaceFree(opts: Options, network: IPAddress, rule: FirewallRule)
    requires ' ' !in opts.dnatChainName && rule.ruleType == DNat
    ensures SpaceFree(RuleArguments(opts, network, rule).value)
  {
    RenderedNumbersSpaceFree(Port(rule.sourcePort));
    var to := Render(FormHostAddress(network, rule.destinationMachineId)) + ":" + DecimalString(rule.destinationPort);
    DestinationSpaceFree(network, rule);
    DNatWordsSpaceFree(opts, rule.protocol);
    ListSpaceFree(Argument("-t", Word(NatTable)), Argument("-A", Word(opts.dnatChainName)), Argument("--dport", Port(rule.sourcePort)),
      Argument("--to-destination", Word(to)), Argument("-j", Word("DNAT")), ProtocolArgument(rule.protocol));
  }

  /** Six arguments, none holding a space, make a space-free list. */
  lemma {:induction false} ListSpaceFree(a0: Argument, a1: Argument, a2: Argument, a3: Argument, a4: Argument, a5: Argument)
    requires ArgSpaceFree(a0) && ArgSpaceFree(a1) && ArgSpaceFree(a2)
    requires ArgSpaceFree(a3) && ArgSpaceFree(a4) && ArgSpaceFree(a5)
    ensures SpaceFree([a0, a1, a2, a3, a4, a5])
  {
  }

  /** The fixed arguments of a DNat rule hold no space. */
  lemma {:induction false} DNatWordsSpaceFree(opts: Options, protocol: FirewallProtocol)
    requires ' ' !in opts.dnatChainName
    ensures ArgSpaceFree(Argument("-t", Word(NatTable))) && ArgSpaceFree(Argument("-A", Word(opts.dnatChainName)))
    ensures ArgSpaceFree(Argument("-j", Word("DNAT"))) && ArgSpaceFree(ProtocolArgument(protocol))
  {
    assert ' ' !in NatTable && ' ' !in "DNAT" && ' ' !in "tcp" && ' ' !in "udp";
  }

  /** The command lines of a sequence of calls. */
  function CommandLines(cmds: seq<seq<Argument>>): (r: seq<string>)
    requires forall i :: 0 <= i < |cmds| ==> cmds[i] != []
    ensures |r| == |cmds| && forall i :: 0 <= i < |cmds| ==> r[i] == CommandLine(cmds[i])
  {
    if cmds == [] then [] else [CommandLine(cmds[0])] + CommandLines(cmds[1..])
  }

  /** The argument list Add builds for a Forward rule, one argument after another. */
  method ForwardArguments(opts: Options, net: IPAddress, rule: FirewallRule) returns (arguments: seq<Argument>)
    requires rule.ruleType == Forward
    ensures RuleArguments(opts, net, rule) == Ok(arguments)
  {
    arguments := [];
    arguments := arguments + [Argument("-t", Word(FilterTable))];
    arguments := arguments + [Argument("-j", Word("ACCEPT"))];
    arguments := arguments + [Argument("-A", Word(opts.forwardChainName))];
    ghost var head := arguments;
    assert head == [Argument("-t", Word(FilterTable)), Argument("-j", Word("ACCEPT")), Argument("-A", Word(opts.forwardChainName))];
    ghost var sport := if rule.sourcePort != 0 then [Argument("--sport", Port(rule.sourcePort))] else [];
    ghost var dport := if rule.destinationPort != 0 then [Argument("--dport", Port(rule.destinationPort))] else [];
    ghost var src := if rule.sourceMachineId != AnyMachine then [Argument("-s", FormHostAddress(net, rule.sourceMachineId))] else [];
    ghost var dst := if rule.destinationMachineId != AnyMachine then [Argument("-d", FormHostAddress(net, rule.destinationMachineId))] else [];
    if rule.sourcePort != 0 {
      arguments := arguments + [Argument("--sport", Port(rule.sourcePort))];
    }
    assert arguments == head + sport;
    if rule.destinationPort != 0 {
      arguments := arguments + [Argument("--dport", Port(rule.destinationPort))];
    }
    assert arguments == head + sport + dport;
    if rule.sourceMachineId != AnyMachine {
      arguments := arguments + [Argument("-s", FormHostAddress(net, rule.sourceMachineId))];
    }
    assert arguments == head + sport + dport + src;
    if rule.destinationMachineId != AnyMachine {
      arguments := arguments + [Argument("-d", FormHostAddress(net, rule.destinationMachineId))];
    }
    assert arguments == head + sport + dport + src + dst;
    ConcatAssoc(head, sport, dport);
    ConcatAssoc(head, sport + dport, src);
    ConcatAssoc(head, sport + dport + src, dst);
    assert arguments == head + ForwardOptional(net, rule);
    arguments := arguments + [ProtocolArgument(rule.protocol)];
  }

  /** The argument list Add builds for a DNat rule, one argument after another. */
  method DNatArguments(opts: Options, net: IPAddress, rule: FirewallRule) returns (arguments: seq<Argument>)
    requires rule.ruleType == DNat
    ensures RuleArguments(opts, net, rule) == Ok(arguments)
  {
    arguments := [];
    arguments := arguments + [Argument("-t", Word(NatTable))];
    arguments := arguments + [Argument("-A", Word(opts.dnatChainName))];
    arguments := arguments + [Argument("--dport", Port(rule.sourcePort))];
    arguments := arguments + [Argument("--to-destination",
      Word(Render(FormHostAddress(net, rule.destinationMachineId)) + ":" + DecimalString(rule.destinationPort)))];
    arguments := arguments + [Argument("-j", Word("DNAT"))];
    arguments := arguments + [ProtocolArgument(rule.protocol)];
    assert arguments == [Argument("-t", Word(NatTable)), Argument("-A", Word(opts.dnatChainName)), Argument("--dport", Port(rule.sourcePort)),
      Argument("--to-destination", Word(Render(FormHostAddress(net, rule.destinationMachineId)) + ":" + DecimalString(rule.destinationPort))),
      Argument("-j", Word("DNAT")), ProtocolArgument(rule.protocol)];
  }

  class FirewallManager {
    const options: Options
    var networkAddress: Option<IPAddress>
    /** The command lines passed to iptables so far, in order. */
    var calls: seq<string>

    constructor(options: Options)
      ensures this.options == options && networkAddress == None && calls == []
    {
      this.options := options;
      networkAddress := None;
      calls := [];
    }

    /** UseSubNetwork: the address later rules are formed in. */
    method UseSubNetwork(address: IPAddress)
      modifies this`networkAddress
      ensures networkAddress == Some(address)
    {
      networkAddress := Some(address);
    }

    /** PerformIptablesCall: one call with the arguments joined into a command line. */
    method PerformIptablesCall(arguments: seq<Argument>)
      requires arguments != []
      modifies this`calls
      ensures calls == old(calls) + [CommandLine(arguments)]
    {
      calls := calls + [CommandLine(arguments)];
    }

    /** Add: the calls of Commands, in order, or nothing when it throws. */
    method Add(rule: FirewallRule) returns (r: Outcome<FirewallError>)
      modifies this`calls
      ensures r.Fail? <==> Commands(options, networkAddress, rule).Err?
      ensures r.Fail? ==> r.error == Commands(options, networkAddress, rule).error && calls == old(calls)
      ensures r.Pass? ==> calls == old(calls) + CommandLines(Commands(options, networkAddress, rule).value)
      decreases if rule.protocol == AnyProtocol then 1 else 0, 1
    {
      if networkAddress.None? {
        return Fail(NoNetworkAddress);
      }
      var net := networkAddress.value;
      if rule.protocol == NoProtocol {
        return Pass;
      }
      if rule.protocol == AnyProtocol {
        r := AddBoth(net, rule);
        return;
      }
      r := AddSingle(net, rule);
    }

    /** A rule for any protocol: the UDP rule, then, unless it failed, the TCP rule. */
    method AddBoth(net: IPAddress, rule: FirewallRule) returns (r: Outcome<FirewallError>)
      requires networkAddress == Some(net) && rule.protocol == AnyProtocol
      modifies this`calls
      ensures r.Fail? <==> Commands(options, networkAddress, rule).Err?
      ensures r.Fail? ==> r.error == Commands(options, networkAddress, rule).error && calls == old(calls)
      ensures r.Pass? ==> calls == old(calls) + CommandLines(Commands(options, networkAddress, rule).value)
      decreases 1, 0
    {
      AnyFailsLikeEach(options, net, rule);
      var udp := Add(rule.(protocol := UDP));
      if udp.Fail? {
        return udp;
      }
      var tcp := Add(rule.(protocol := TCP));
      AnyCommandLines(options, net, rule);
      return tcp;
    }

    /**
     * Add for a rule of one protocol (UDP, TCP or an undefined byte, which gets "-p udp"), once
     * the network address is known: one call, or a throw for an unknown type.
     */
    method AddSingle(net: IPAddress, rule: FirewallRule) returns (r: Outcome<FirewallError>)
      requires networkAddress == Some(net) && rule.protocol != NoProtocol && rule.protocol != AnyProtocol
      modifies this`calls
      ensures r.Fail? <==> Commands(options, networkAddress, rule).Err?
      ensures r.Fail? ==> r.error == Commands(options, networkAddress, rule).error && calls == old(calls)
      ensures r.Pass? ==> calls == old(calls) + CommandLines(Commands(options, networkAddress, rule).value)
    {
      var arguments: seq<Argument>;
      if rule.ruleType == Forward {
        arguments := ForwardArguments(options, net, rule);
      } else if rule.ruleType == DNat {
        arguments := DNatArguments(options, net, rule);
      } else {
        return Fail(UnknownRuleType(rule.ruleType.code));
      }
      PerformIptablesCall(arguments);
      r := Pass;
    }
  }

  /** A rule for both protocols issues the UDP call and then the TCP call. */
  method AnyIssuesUdpThenTcp(address: IPAddress, rule: FirewallRule) returns (m: FirewallManager)
    requires rule.protocol == AnyProtocol && rule.ruleType == Forward
    ensures m.calls == [CommandLine(RuleArguments(DefaultOptions, address, rule.(protocol := UDP)).value),
                        CommandLine(RuleArguments(DefaultOptions, address, rule.(protocol := TCP)).value)]
  {
    m := new FirewallManager(DefaultOptions);
    m.UseSubNetwork(address);
    var r := m.Add(rule);
  }

  /** Add throws before UseSubNetwork even for a rule that would issue nothing. */
  method AddBeforeSubNetworkFails(rule: FirewallRule) returns (r: Outcome<FirewallError>)
    requires rule.protocol == NoProtocol
    ensures r == Fail(NoNetworkAddress)
  {
    var m := new FirewallManager(DefaultOptions);
    r := m.Add(rule);
  }
}
