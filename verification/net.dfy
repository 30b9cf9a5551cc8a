/** The System.Net address types the configuration carries, as plain values. */
module Net {
  import opened Wrappers
  import opened Text

  /** System.Net.IPAddress: four octets for IPv4, sixteen bytes for IPv6. */
  datatype IPAddress = IPv4(a: uint8, b: uint8, c: uint8, d: uint8) | IPv6(bytes: seq<uint8>)

  /** IPAddress.Any, the address 0.0.0.0. */
  const AnyAddress: IPAddress := IPv4(0, 0, 0, 0)

  /** Dotted-decimal text of an IPv4 address, as IPAddress.ToString writes it. */
  function DottedQuad(a: uint8, b: uint8, c: uint8, d: uint8): (r: string)
    ensures forall i :: 0 <= i < |r| ==> r[i] == '.' || IsDigit(r[i])
    ensures Split(r, '.') == [DecimalString(a), DecimalString(b), DecimalString(c), DecimalString(d)]
  {
    var parts := [DecimalString(a), DecimalString(b), DecimalString(c), DecimalString(d)];
    NoDotInDecimal(a); NoDotInDecimal(b); NoDotInDecimal(c); NoDotInDecimal(d);
    SplitJoin(parts, '.');
    JoinDigits(parts, '.');
    Join(parts, '.')
  }

  lemma {:induction false} NoDotInDecimal(n: nat)
    ensures '.' !in DecimalString(n)
  {
    var s := DecimalString(n);
    assert forall i :: 0 <= i < |s| ==> IsDigit(s[i]);
  }

  /** Each of the four dot-separated pieces of the text reads back as its octet. */
  lemma {:induction false} DottedQuadReadsBack(a: uint8, b: uint8, c: uint8, d: uint8)
    ensures |Split(DottedQuad(a, b, c, d), '.')| == 4
    ensures ParseDecimal(Split(DottedQuad(a, b, c, d), '.')[0]) == Some(a as nat)
    ensures ParseDecimal(Split(DottedQuad(a, b, c, d), '.')[1]) == Some(b as nat)
    ensures ParseDecimal(Split(DottedQuad(a, b, c, d), '.')[2]) == Some(c as nat)
    ensures ParseDecimal(Split(DottedQuad(a, b, c, d), '.')[3]) == Some(d as nat)
  {
    ParseDecimalString(a);
    ParseDecimalString(b);
    ParseDecimalString(c);
    ParseDecimalString(d);
  }

  /** System.Net.NetworkInformation.PhysicalAddress: a sequence of bytes. */
  datatype PhysicalAddress = PhysicalAddress(bytes: seq<uint8>)

  /** PhysicalAddress.None, the empty address. */
  const NoPhysicalAddress: PhysicalAddress := PhysicalAddress([])

  predicate IsHexDigit(c: char) { '0' <= c <= '9' || 'A' <= c <= 'F' || 'a' <= c <= 'f' }

  function HexValue(c: char): (d: nat)
    requires IsHexDigit(c)
    ensures d < 16
  {
    if '0' <= c <= '9' then c as int - '0' as int
    else if 'A' <= c <= 'F' then c as int - 'A' as int + 10
    else c as int - 'a' as int + 10
  }

  /** The upper-case hexadecimal digit of a value below 16. */
  function HexChar(d: nat): (c: char)
    requires d < 16
    ensures IsHexDigit(c) && HexValue(c) == d
  {
    if d < 10 then ('0' as int + d) as char else ('A' as int + d - 10) as char
  }

  /** Two hexadecimal digits, either case, read as a byte. */
  function ParseHexByte(s: string): (r: Option<uint8>)
    ensures r.Some? <==> |s| == 2 && IsHexDigit(s[0]) && IsHexDigit(s[1])
  {
    if |s| == 2 && IsHexDigit(s[0]) && IsHexDigit(s[1]) then Some(HexValue(s[0]) * 16 + HexValue(s[1])) else None
  }

  /** A byte as two upper-case hexadecimal digits. */
  function HexByte(b: uint8): (s: string)
    ensures |s| == 2 && IsHexDigit(s[0]) && IsHexDigit(s[1])
    ensures ParseHexByte(s) == Some(b)
  {
    [HexChar(b / 16), HexChar(b % 16)]
  }

  /** Every group read as a byte; None as soon as one is not two hexadecimal digits. */
  function ParseHexGroups(groups: seq<string>): (r: Option<seq<uint8>>)
    ensures r.Some? ==> |r.value| == |groups|
    ensures r.Some? <==> forall i :: 0 <= i < |groups| ==> ParseHexByte(groups[i]).Some?
    ensures r.Some? ==> forall i :: 0 <= i < |groups| ==> ParseHexByte(groups[i]) == Some(r.value[i])
  {
    if groups == [] then Some([])
    else match (ParseHexByte(groups[0]), ParseHexGroups(groups[1..]))
      case (Some(b), Some(rest)) => Some([b] + rest)
      case _ => None
  }

  /** Every group is two hexadecimal digits. */
  predicate AllHexBytes(groups: seq<string>)
  {
    forall i :: 0 <= i < |groups| ==> ParseHexByte(groups[i]).Some?
  }

  /** An even number of hexadecimal digits, read two at a time. */
  function ParseBareHex(s: string): (r: Option<seq<uint8>>)
    ensures r.Some? ==> 2 * |r.value| == |s|
  {
    if |s| < 2 then (if s == [] then Some([]) else None)
    else match (ParseHexByte(s[..2]), ParseBareHex(s[2..]))
      case (Some(b), Some(rest)) => Some([b] + rest)
      case _ => None
  }

  /**
   * PhysicalAddress.Parse: groups of two hexadecimal digits separated by the '-' or ':' found
   * third, or an even run of hexadecimal digits; None where Parse throws.
   */
  function ParsePhysicalAddress(s: string): (r: Option<PhysicalAddress>)
    ensures |s| >= 3 && (s[2] == ':' || s[2] == '-') ==> (r.Some? <==> AllHexBytes(Split(s, s[2])))
    ensures |s| >= 3 && (s[2] == ':' || s[2] == '-') && r.Some? ==>
      |r.value.bytes| == |Split(s, s[2])| &&
      forall i :: 0 <= i < |Split(s, s[2])| ==> ParseHexByte(Split(s, s[2])[i]) == Some(r.value.bytes[i])
    ensures !(|s| >= 3 && (s[2] == ':' || s[2] == '-')) && r.Some? ==> 2 * |r.value.bytes| == |s|
    ensures s == "" ==> r == Some(NoPhysicalAddress)
  {
    if |s| >= 3 && (s[2] == ':' || s[2] == '-') then
      var groups := Split(s, s[2]);
      var parsed := ParseHexGroups(groups);
      assert parsed.Some? <==> AllHexBytes(groups);
      match parsed
      case Some(bytes) => Some(PhysicalAddress(bytes))
      case None => None
    else
      match ParseBareHex(s)
      case Some(bytes) => Some(PhysicalAddress(bytes))
      case None => None
  }

  /** The groups of an address as a Proxmox config file writes it. */
  function HexGroups(bytes: seq<uint8>): (groups: seq<string>)
    ensures |groups| == |bytes|
    ensures forall i :: 0 <= i < |groups| ==> groups[i] == HexByte(bytes[i])
  {
    if bytes == [] then [] else [HexByte(bytes[0])] + HexGroups(bytes[1..])
  }

  /** An address as upper-case hexadecimal byte pairs joined by ':', the form Proxmox writes. */
  function ColonText(bytes: seq<uint8>): (s: string)
    ensures forall i :: 0 <= i < |s| ==> IsHexDigit(s[i]) || s[i] == ':'
    ensures |bytes| >= 2 ==> |s| >= 3 && s[2] == ':'
    ensures |bytes| == 1 ==> s == HexByte(bytes[0])
    ensures bytes == [] <==> s == []
  {
    if bytes == [] then ""
    else if |bytes| == 1 then HexByte(bytes[0])
    else HexByte(bytes[0]) + ":" + ColonText(bytes[1..])
  }

  lemma {:induction false} SplitColonText(bytes: seq<uint8>)
    requires |bytes| >= 1
    ensures Split(ColonText(bytes), ':') == HexGroups(bytes)
  {
    if |bytes| == 1 {
      SplitWithoutSeparator(HexByte(bytes[0]), ':');
    } else {
      SplitColonText(bytes[1..]);
      SplitAfterPiece(HexByte(bytes[0]), ':', ColonText(bytes[1..]));
    }
  }

  lemma {:induction false} ParseHexGroupsOf(bytes: seq<uint8>)
    ensures ParseHexGroups(HexGroups(bytes)) == Some(bytes)
  {
    var r := ParseHexGroups(HexGroups(bytes));
    assert r.Some?;
    assert |r.value| == |bytes| && forall i :: 0 <= i < |bytes| ==> r.value[i] == bytes[i];
    assert r.value == bytes;
  }

  /** PhysicalAddress.Parse reads back every address written in the colon form. */
  lemma {:induction false} ParseColonText(bytes: seq<uint8>)
    ensures ParsePhysicalAddress(ColonText(bytes)) == Some(PhysicalAddress(bytes))
  {
    if |bytes| >= 2 {
      SplitColonText(bytes);
      ParseHexGroupsOf(bytes);
    } else if |bytes| == 1 {
      var s := HexByte(bytes[0]);
      assert s[..2] == s && s[2..] == [];
      assert ParseHexByte(s[..2]) == Some(bytes[0]) && ParseBareHex(s[2..]) == Some([]);
      assert [bytes[0]] + [] == [bytes[0]];
      assert [bytes[0]] == bytes;
    }
  }
}
