/**
 * The firmware's CAN frame wrapper: an 11-bit identifier, an 8-byte payload
 * buffer that is zero past the copied bytes, and a length.
 *
 * Outgoing frames copy at most eight bytes of the caller's payload; received
 * frames copy at most eight bytes of the bus frame but remember the length
 * the frame header announced, unclamped.
 */
module CanFrames {
  import opened Bits

  const FrameBytes: nat := 8

  function Min(a: nat, b: nat): nat
  {
    if a < b then a else b
  }

  /** The first min(|payload|, 8) bytes of `payload`, then zeros up to eight bytes. */
  function Padded(payload: seq<U8>): (data: seq<U8>)
    ensures |data| == FrameBytes
    ensures forall i :: 0 <= i < FrameBytes ==> data[i] == if i < |payload| then payload[i] else 0
  {
    var n := Min(|payload|, FrameBytes);
    payload[..n] + seq(FrameBytes - n, _ => 0)
  }

  datatype CanFrame = CanFrame(id: U16, data: DataBuffer, len: nat)
  {
    /** The stored 8-byte buffer. */
    function Bytes(): (bytes: seq<U8>)
      ensures bytes == data
    {
      data
    }

    /** One byte of the buffer; indexing past the eighth byte panics in the firmware. */
    function Byte(index: nat): (b: U8)
      requires index < FrameBytes
      ensures b == Bytes()[index]
    {
      data[index]
    }

    function Id(): (raw: U16)
      ensures raw == id
    {
      id
    }

    function Len(): (n: nat)
      ensures n == len
    {
      len
    }
  }

  /** The frame an outgoing payload becomes. */
  function Outgoing(id: U16, payload: seq<U8>): CanFrame
  {
    CanFrame(id, Padded(payload), Min(|payload|, FrameBytes))
  }

  type StandardRaw = x: int | 0 <= x <= 0x7FF
  type ExtendedRaw = x: int | 0 <= x < 0x2000_0000

  /** An identifier as the CAN controller reports it: 11 or 29 bits. */
  datatype FrameId = Standard(raw: StandardRaw) | Extended(extendedRaw: ExtendedRaw)

  /** The identifier a received frame is filed under: an extended
      identifier's standard part is its top eleven bits. */
  function StandardPart(id: FrameId): (raw: StandardRaw)
  {
    match id
    case Standard(raw) => raw
    case Extended(raw) => raw / 0x4_0000
  }

  /** An 8-byte CAN data buffer, as a frame stores it and the controller delivers it. */
  type DataBuffer = s: seq<U8> | |s| == FrameBytes witness [0, 0, 0, 0, 0, 0, 0, 0]

  /** A frame as received from the bus: identifier, header length and data buffer. */
  datatype Envelope = Envelope(frameId: FrameId, headerLen: U8, frameData: DataBuffer)

  /** The frame a received envelope becomes. */
  function Received(env: Envelope): CanFrame
  {
    var n := Min(env.headerLen, FrameBytes);
    CanFrame(StandardPart(env.frameId), Padded(env.frameData[..n]), env.headerLen)
  }

  /** Builds an outgoing frame: zero an 8-byte buffer and copy the first
      min(|payload|, 8) bytes into it. The controller library's own frame is
      built from the same id and payload and unwrapped, which panics unless the
      id is a standard 11-bit id and the payload has at most eight bytes. */
  method NewFrame(id: U16, payload: seq<U8>) returns (frame: CanFrame)
    requires id <= 0x7FF
    requires |payload| <= FrameBytes
    ensures frame == Outgoing(id, payload)
  {
    var buffer := new U8[FrameBytes](_ => 0);
    var len := Min(|payload|, FrameBytes);
    for i := 0 to len
      invariant forall j :: 0 <= j < FrameBytes ==> buffer[j] == if j < i then payload[j] else 0
    {
      buffer[i] := payload[i];
    }
    frame := CanFrame(id, buffer[..], len);
    assert frame.data == Padded(payload);
  }

  /** Wraps a received frame: copy min(header length, 8) data bytes into a
      zeroed buffer, keep the (standard part of the) identifier and the
      header length as announced. */
  method FromEnvelope(env: Envelope) returns (frame: CanFrame)
    ensures frame == Received(env)
  {
    var buffer := new U8[FrameBytes](_ => 0);
    var len := Min(env.headerLen, FrameBytes);
    for i := 0 to len
      invariant forall j :: 0 <= j < FrameBytes ==> buffer[j] == if j < i then env.frameData[j] else 0
    {
      buffer[i] := env.frameData[i];
    }
    var id := match env.frameId
      case Standard(raw) => raw
      case Extended(raw) => raw / 0x4_0000;
    frame := CanFrame(id, buffer[..], env.headerLen);
    assert frame.data == Padded(env.frameData[..len]);
  }

  /** An outgoing frame keeps its id, stores the payload length clamped to 8,
      and reads back each payload byte, zero past the payload. */
  lemma OutgoingReadsBack(id: U16, payload: seq<U8>, index: nat)
    requires index < FrameBytes
    ensures Outgoing(id, payload).Id() == id
    ensures Outgoing(id, payload).Len() == Min(|payload|, FrameBytes)
    ensures |Outgoing(id, payload).Bytes()| == FrameBytes
    ensures Outgoing(id, payload).Byte(index) == if index < |payload| then payload[index] else 0
  {
  }

  /** Re-wrapping the bytes of an outgoing 8-byte frame gives the frame back. */
  lemma OutgoingOfBytes(id: U16, payload: seq<U8>)
    requires |payload| == FrameBytes
    ensures Outgoing(id, payload).Bytes() == payload
    ensures Outgoing(id, Outgoing(id, payload).Bytes()) == Outgoing(id, payload)
  {
    assert Padded(payload) == payload;
  }

  /** A received frame holds the first min(len, 8) data bytes, zero after,
      while its length is the header's, even above 8. */
  lemma ReceivedReadsBack(env: Envelope, index: nat)
    requires index < FrameBytes
    ensures Received(env).Len() == env.headerLen
    ensures Received(env).Byte(index) ==
      if index < env.headerLen then env.frameData[index] else 0
  {
  }
}
