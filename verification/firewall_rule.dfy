/** FirewallRule: the record a guest machine's firewall configuration is made of. */
module FirewallRules {
  import opened Text
  import opened GuestMachines

  /** A byte outside the four named FirewallProtocol values. */
  type OtherProtocolCode = x: int | 4 <= x < 0x100 witness 4

  /**
   * FirewallProtocol, a flags byte: UDP = 1, TCP = 2, Any = 3 (both), None = 0. As for any
   * C# enum, a variable of the type can hold every other byte too (a cast, a deserialized
   * number); `OtherProtocol` carries such a byte.
   */
  datatype FirewallProtocol = NoProtocol | UDP | TCP | AnyProtocol | OtherProtocol(code: OtherProtocolCode)
  {
    /** The underlying byte. */
    function Code(): (b: uint8)
      ensures this == NoProtocol <==> b == 0
      ensures this == UDP <==> b == 1
      ensures this == TCP <==> b == 2
      ensures this == AnyProtocol <==> b == 3
      ensures this.OtherProtocol? <==> b >= 4
    {
      match this
      case NoProtocol => 0
      case UDP => 1
      case TCP => 2
      case AnyProtocol => 3
      case OtherProtocol(c) => c
    }
  }

  /** The FirewallProtocol value a byte stands for: every byte is one. */
  function ProtocolOf(b: uint8): (p: FirewallProtocol)
    ensures p.Code() == b
  {
    if b == 0 then NoProtocol
    else if b == 1 then UDP
    else if b == 2 then TCP
    else if b == 3 then AnyProtocol
    else OtherProtocol(b)
  }

  /** Distinct values have distinct bytes, so the byte identifies the value. */
  lemma {:induction false} ProtocolCodeRoundTrip(p: FirewallProtocol)
    ensures ProtocolOf(p.Code()) == p
  {
    match p
    case OtherProtocol(c) =>
    case _ =>
  }

  /** An int outside the two named RuleType values, Forward = 0 and DNat = 1. */
  type OtherRuleTypeCode = x: int | x != 0 && x != 1 witness 2

  /**
   * FirewallRule.RuleType: Forward or DNat; `Undefined` stands for any other value a
   * C# enum variable can hold after a cast.
   */
  datatype RuleType = Forward | DNat | Undefined(code: OtherRuleTypeCode)

  datatype FirewallRule = FirewallRule(
    sourceMachineId: GuestMachineId,
    destinationMachineId: GuestMachineId,
    sourcePort: uint16,
    destinationPort: uint16,
    protocol: FirewallProtocol,
    ruleType: RuleType)
  {
    /** Both endpoints with the context placeholder replaced; ports, protocol and type unchanged. */
    function UseContext(context: GuestMachineId): (r: FirewallRule)
      ensures r.sourceMachineId == sourceMachineId.UseContext(context)
      ensures r.destinationMachineId == destinationMachineId.UseContext(context)
      ensures r.sourcePort == sourcePort && r.destinationPort == destinationPort
      ensures r.protocol == protocol && r.ruleType == ruleType
    {
      this.(sourceMachineId := sourceMachineId.UseContext(context),
            destinationMachineId := destinationMachineId.UseContext(context))
    }

    /** True when no endpoint of the rule is the context placeholder. */
    predicate IsContextFree()
    {
      !sourceMachineId.IsContextBased() && !destinationMachineId.IsContextBased()
    }
  }

  /** Binding the context is idempotent, leaves no placeholder when the context is a real id, and leaves context-free rules alone. */
  lemma {:induction false} UseContextProperties(rule: FirewallRule, context: GuestMachineId)
    ensures rule.UseContext(context).UseContext(context) == rule.UseContext(context)
    ensures !context.IsContextBased() ==> rule.UseContext(context).IsContextFree()
    ensures rule.IsContextFree() ==> rule.UseContext(context) == rule
  {
  }
}
