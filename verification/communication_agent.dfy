/**
 * DefaultCommunicationAgent: the low-level IPC framing. Messages are built in one shared
 * byte buffer of 10241 bytes: the handshake carries the protocol version, an event
 * carries the object name's length, the name in ASCII and the BSON body.
 */
module CommunicationAgents {
  import opened Wrappers
  import opened Text

  const BufferSize: nat := 10241
  const ProtocolName: string := "GLNetTools.Default"
  const ProtocolVersion: uint8 := 0
  /** TimeSpan.FromSeconds(10), in 100-nanosecond ticks. */
  const TimeoutTicks: int := 100_000_000

  /** LLMessageType, an enum over byte. */
  datatype LLMessageType =
    | Handshake | DropConnection | Heartbeat
    | Event | DataRequest | DataReply | PerformOperationRequest | RemoteOperationResult
  {
    function Code(): (b: uint8)
      ensures b <= 2 <==> (this.Handshake? || this.DropConnection? || this.Heartbeat?)
    {
      match this
      case Handshake => 0
      case DropConnection => 1
      case Heartbeat => 2
      case Event => 11
      case DataRequest => 12
      case DataReply => 13
      case PerformOperationRequest => 14
      case RemoteOperationResult => 15
    }
  }

  /** Every message type has its own byte. */
  lemma {:induction false} CodesDistinct(a: LLMessageType, b: LLMessageType)
    ensures a.Code() == b.Code() <==> a == b
  {
  }

  datatype LowLevelMessage = LowLevelMessage(messageType: LLMessageType, bytes: seq<uint8>)

  /** The exceptions CreateEventUpdateMessage can throw. */
  datatype AgentError =
    | NameDoesNotFit   // Encoding.GetBytes: the name is longer than the buffer after byte 0
    | BadMessage       // the name is longer than one length byte can say
    | BufferFull       // the fixed-size stream cannot take the whole body

  /** Encoding.ASCII: one byte per character, '?' for anything outside ASCII. */
  function AsciiByte(c: char): (b: uint8)
    ensures (c as int) < 128 ==> b == c as int
    ensures (c as int) >= 128 ==> b == '?' as int
  {
    if (c as int) < 128 then c as int else '?' as int
  }

  function AsciiBytes(s: string): (r: seq<uint8>)
    ensures |r| == |s|
    ensures forall i :: 0 <= i < |s| ==> r[i] == AsciiByte(s[i])
  {
    seq(|s|, i requires 0 <= i < |s| => AsciiByte(s[i]))
  }

  /** `data` written over `before` from index `at` on; everything else as it was. */
  function Overwrite(before: seq<uint8>, at: nat, data: seq<uint8>): (r: seq<uint8>)
    requires at + |data| <= |before|
    ensures |r| == |before|
    ensures r[at..at + |data|] == data
    ensures r[..at] == before[..at] && r[at + |data|..] == before[at + |data|..]
  {
    before[..at] + data + before[at + |data|..]
  }

  /** The event frame as written into the buffer: length byte, ASCII name, BSON body. */
  function EventFrame(name: string, body: seq<uint8>): (r: seq<uint8>)
    ensures |r| == 1 + |name| + |body|
    ensures r[0] == |name| % 256
    ensures r[1..1 + |name|] == AsciiBytes(name) && r[1 + |name|..] == body
  {
    [|name| % 256] + AsciiBytes(name) + body
  }

  /** CheckHandshake: a Handshake message of exactly one byte equal to the protocol version. */
  function CheckHandshake(m: LowLevelMessage): (ok: bool)
    ensures ok ==> m == LowLevelMessage(Handshake, [ProtocolVersion])
    ensures m == LowLevelMessage(Handshake, [ProtocolVersion]) ==> ok
  {
    m.messageType == Handshake && |m.bytes| == 1 && m.bytes[0] == ProtocolVersion
  }

  /** CreateDropConnection: a DropConnection message with no payload. */
  function CreateDropConnection(): (m: LowLevelMessage)
    ensures m.messageType == DropConnection && m.bytes == []
    ensures !CheckHandshake(m)
  {
    LowLevelMessage(DropConnection, [])
  }

  /**
   * ShouldDisconnectByTimeout, with the clock reading passed in: at least ten seconds have
   * passed since the last message. Times are DateTime ticks.
   */
  function ShouldDisconnectByTimeout(lastMessage: int, now: int): (r: bool)
    ensures r ==> lastMessage < now
    ensures now < lastMessage + TimeoutTicks ==> !r
    ensures lastMessage + TimeoutTicks <= now ==> r
  {
    now - lastMessage >= TimeoutTicks
  }

  /** Once a peer is due for disconnection it stays due as time goes on. */
  lemma {:induction false} TimeoutMonotone(lastMessage: int, now: int, later: int)
    requires now <= later && ShouldDisconnectByTimeout(lastMessage, now)
    ensures ShouldDisconnectByTimeout(lastMessage, later)
  {
  }

  /** A message just under ten seconds old is kept; one exactly ten seconds old is dropped. */
  lemma {:induction false} TimeoutBoundary(lastMessage: int)
    ensures !ShouldDisconnectByTimeout(lastMessage, lastMessage + TimeoutTicks - 1)
    ensures ShouldDisconnectByTimeout(lastMessage, lastMessage + TimeoutTicks)
  {
  }

  /** Reading an event payload back: the name bytes the length byte announces, then the body. */
  function DecodeEvent(payload: seq<uint8>): (r: Option<(seq<uint8>, seq<uint8>)>)
    ensures r.Some? <==> |payload| >= 1 && |payload| >= 1 + payload[0] as int
    ensures r.Some? ==> payload == [|r.value.0|] + r.value.0 + r.value.1
  {
    if |payload| >= 1 && |payload| >= 1 + payload[0] as int then
      var name := payload[1..1 + payload[0] as int];
      var body := payload[1 + payload[0] as int..];
      assert payload == [payload[0]] + name + body;
      Some((name, body))
    else None
  }

  /**
   * The event payload as intended: the whole frame. Its name and body read back unchanged
   * for every name that fits the length byte.
   */
  function EventPayload(name: string, body: seq<uint8>): (r: seq<uint8>)
    requires |name| <= 255
    ensures DecodeEvent(r) == Some((AsciiBytes(name), body))
  {
    var r := EventFrame(name, body);
    assert r[1..1 + |name|] == AsciiBytes(name);
    r
  }

  /** The payload CreateEventUpdateMessage returns: the frame with its last byte cut off. */
  function EventPayloadAsWritten(name: string, body: seq<uint8>): (r: seq<uint8>)
    ensures |r| == |name| + |body|
    ensures r == EventFrame(name, body)[..|name| + |body|]
  {
    EventFrame(name, body)[..|name| + |body|]
  }

  /**
   * The payload as written loses the body's last byte (the terminating zero of a BSON
   * document): what reads back is the body without it, so no nonempty body survives.
   */
  lemma {:induction false} AsWrittenLosesLastByte(name: string, body: seq<uint8>)
    requires |name| <= 255 && body != []
    ensures DecodeEvent(EventPayloadAsWritten(name, body)) == Some((AsciiBytes(name), body[..|body| - 1]))
    ensures DecodeEvent(EventPayloadAsWritten(name, body)) != Some((AsciiBytes(name), body))
  {
    var r := EventPayloadAsWritten(name, body);
    var frame := EventFrame(name, body);
    assert r[0] == |name|;
    assert r[1..1 + |name|] == frame[1..1 + |name|];
    assert r[1 + |name|..] == frame[1 + |name|..|frame| - 1];
    assert frame[1 + |name|..|frame| - 1] == body[..|body| - 1];
  }

  /** An empty BSON document is five bytes, 05 00 00 00 00; as written the frame for "a" keeps four. */
  lemma {:induction false} EmptyDocumentExample()
    ensures EventPayload("a", [5, 0, 0, 0, 0]) == [1, 97, 5, 0, 0, 0, 0]
    ensures EventPayloadAsWritten("a", [5, 0, 0, 0, 0]) == [1, 97, 5, 0, 0, 0]
  {
    assert AsciiBytes("a") == [97];
  }

  /** Writing a longer run over the start of a shorter one leaves only the longer one. */
  lemma {:induction false} OverwriteExtends(b: seq<uint8>, x: seq<uint8>, y: seq<uint8>)
    requires |x| <= |y| <= |b|
    ensures Overwrite(Overwrite(b, 0, x), 0, y) == Overwrite(b, 0, y)
  {
    assert Overwrite(Overwrite(b, 0, x), 0, y)[|y|..] == b[|y|..];
  }

  class DefaultCommunicationAgent {
    const buffer: array<uint8>
    /** The position of the memory stream over the buffer. */
    var position: nat

    ghost predicate Valid()
      reads this
    {
      buffer.Length == BufferSize && position <= BufferSize
    }

    constructor()
      ensures Valid() && fresh(buffer) && position == 0
      ensures forall i :: 0 <= i < buffer.Length ==> buffer[i] == 0
    {
      buffer := new uint8[BufferSize](_ => 0);
      position := 0;
    }

    /** CreateHandshake: writes the version into byte 0 and returns a copy of that byte. */
    method CreateHandshake() returns (m: LowLevelMessage)
      requires Valid()
      modifies buffer
      ensures Valid()
      ensures buffer[..] == Overwrite(old(buffer[..]), 0, [ProtocolVersion])
      ensures m == LowLevelMessage(Handshake, [ProtocolVersion])
      ensures CheckHandshake(m)
    {
      buffer[0] := ProtocolVersion;
      m := LowLevelMessage(Handshake, buffer[0..1]);
    }

    /**
     * The encoder's output for a name longer than the span after byte 0: the characters that
     * fit are written before GetBytes throws, and byte 0 is not reached.
     */
    method WriteNamePrefix(fitting: string)
      requires Valid() && |fitting| <= BufferSize - 1
      modifies buffer
      ensures buffer[..] == Overwrite(old(buffer[..]), 1, AsciiBytes(fitting))
    {
      forall i | 0 <= i < |fitting| {
        buffer[1 + i] := AsciiByte(fitting[i]);
      }
    }

    /** Encoding.ASCII.GetBytes into the buffer after byte 0, then the length cast to a byte into byte 0. */
    method WriteName(objectName: string)
      requires Valid() && |objectName| <= BufferSize - 1
      modifies buffer
      ensures buffer[..] == Overwrite(old(buffer[..]), 0, [|objectName| % 256] + AsciiBytes(objectName))
    {
      forall i | 0 <= i < |objectName| {
        buffer[1 + i] := AsciiByte(objectName[i]);
      }
      buffer[0] := |objectName| % 256;
    }

    /** The serializer's output written after the name. */
    method WriteBody(objectName: string, body: seq<uint8>)
      requires Valid() && 1 + |objectName| + |body| <= BufferSize
      requires buffer[..1 + |objectName|] == [|objectName| % 256] + AsciiBytes(objectName)
      modifies buffer
      ensures buffer[..] == Overwrite(old(buffer[..]), 0, EventFrame(objectName, body))
    {
      var at := 1 + |objectName|;
      forall i | 0 <= i < |body| {
        buffer[at + i] := body[i];
      }
      assert buffer[..at] == old(buffer[..at]);
      assert buffer[..] == buffer[..at] + body + buffer[at + |body|..];
    }

    /**
     * CreateEventUpdateMessage, with the BSON serialization of the values given as `body`.
     * The name is encoded after byte 0 and its length, cast to a byte, stored in byte 0 before
     * the length is checked; the body follows the name; the payload ends one byte early.
     */
    method CreateEventUpdateMessage(objectName: string, body: seq<uint8>) returns (r: Result<LowLevelMessage, AgentError>)
      requires Valid()
      modifies buffer, this`position
      ensures Valid()
      ensures |objectName| > BufferSize - 1 ==>
        r == Err(NameDoesNotFit) && position == old(position) &&
        buffer[..] == Overwrite(old(buffer[..]), 1, AsciiBytes(objectName[..BufferSize - 1]))
      ensures 255 < |objectName| <= BufferSize - 1 ==>
        r == Err(BadMessage) && position == old(position) &&
        buffer[..] == Overwrite(old(buffer[..]), 0, [|objectName| % 256] + AsciiBytes(objectName))
      ensures |objectName| <= 255 && 1 + |objectName| + |body| > BufferSize ==>
        r == Err(BufferFull) && position == 1 + |objectName| &&
        buffer[..] == Overwrite(old(buffer[..]), 0, [|objectName| % 256] + AsciiBytes(objectName))
      ensures |objectName| <= 255 && 1 + |objectName| + |body| <= BufferSize ==>
        position == 1 + |objectName| + |body| &&
        buffer[..] == Overwrite(old(buffer[..]), 0, EventFrame(objectName, body)) &&
        r == Ok(LowLevelMessage(Event, EventPayloadAsWritten(objectName, body)))
    {
      var len := |objectName|;
      if len > BufferSize - 1 {
        WriteNamePrefix(objectName[..BufferSize - 1]);
        return Err(NameDoesNotFit);
      }
      WriteName(objectName);
      if len > 255 {
        return Err(BadMessage);
      }
      position := len + 1;
      if position + |body| > BufferSize {
        return Err(BufferFull);
      }
      var m := WriteEvent(objectName, body);
      OverwriteExtends(old(buffer[..]), [|objectName| % 256] + AsciiBytes(objectName), EventFrame(objectName, body));
      r := Ok(m);
    }

    /** The body after the name, the stream position after it, and the message cut at Position - 1. */
    method WriteEvent(objectName: string, body: seq<uint8>) returns (m: LowLevelMessage)
      requires Valid() && |objectName| <= 255 && 1 + |objectName| + |body| <= BufferSize
      requires buffer[..1 + |objectName|] == [|objectName| % 256] + AsciiBytes(objectName)
      requires position == 1 + |objectName|
      modifies buffer, this`position
      ensures Valid() && position == 1 + |objectName| + |body|
      ensures buffer[..] == Overwrite(old(buffer[..]), 0, EventFrame(objectName, body))
      ensures m == LowLevelMessage(Event, EventPayloadAsWritten(objectName, body))
    {
      WriteBody(objectName, body);
      ghost var frame := EventFrame(objectName, body);
      ghost var written := buffer[..];
      assert written[0..|frame|] == frame;
      position := position + |body|;
      var totalLen := position - 1;
      assert buffer[0..totalLen] == written[0..|frame|][..totalLen];
      m := LowLevelMessage(Event, buffer[0..totalLen]);
    }
  }
}
