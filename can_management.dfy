/**
 * The CAN side of the battery monitor: byte extraction, the two summary
 * frames (voltages, then temperatures and current) sent every cycle, the
 * four diagnostic ("tech") frames, the cycle counter that wraps at 12, and
 * the mapping of controller write failures to the errors the senders return.
 *
 * The record the senders read is an accessor interface whose definition is
 * not part of this model; its values enter as a Snapshot. The controller's
 * write outcomes and the diagnostic frame ids are parameters.
 */
module CanManagement {
  import opened Bits
  import opened Types
  import opened CanFrames

  /** Byte n of value, least significant first: (value >> 8n) & 0xFF. For a
      negative (signed) value the arithmetic shift is a floor division, as
      Dafny's / is for a positive divisor. */
  function GetByte(value: int, n: nat): (b: U8)
    ensures 0 <= value < Pow2(8 * n) ==> b == 0
  {
    var p := Pow2(8 * n);
    SmallQuotient(value, p);
    (value / p) % 0x100
  }

  /** A value below the divisor has quotient zero. */
  lemma SmallQuotient(v: int, p: nat)
    requires p > 0
    ensures 0 <= v < p ==> v / p == 0
  {
  }

  /** The slice form: the element at `index`, or 0 past the end. */
  function GetByteOf(bytes: seq<U8>, index: nat): (b: U8)
    ensures index < |bytes| ==> b == bytes[index]
    ensures |bytes| <= index ==> b == 0
  {
    if index < |bytes| then bytes[index] else 0
  }

  /** A little-endian u16 from its two bytes. */
  function Le16(lo: U8, hi: U8): U16
  {
    lo + 0x100 * hi
  }

  /** A little-endian 32-bit value from its four bytes. */
  function Le32(b0: U8, b1: U8, b2: U8, b3: U8): U32
  {
    b0 + 0x100 * b1 + 0x1_0000 * b2 + 0x100_0000 * b3
  }

  lemma Pow2Bytes()
    ensures Pow2(0) == 1 && Pow2(8) == 0x100 && Pow2(16) == 0x1_0000 && Pow2(24) == 0x100_0000
  {
    assert Pow2(8) == 0x100;
    assert Pow2(16) == 0x1_0000;
    assert Pow2(24) == 0x100_0000;
  }

  /** Bytes 0 and 1 of a u16 reassemble it, little-endian. */
  lemma GetByteRoundTrip16(value: U16)
    ensures GetByte(value, 0) == value % 0x100 && GetByte(value, 1) == value / 0x100
    ensures Le16(GetByte(value, 0), GetByte(value, 1)) == value
  {
    Pow2Bytes();
  }

  /** Bytes 0 to 3 of any integer reassemble its low 32 bits (its two's
      complement bits when negative). */
  lemma GetByteRoundTrip32(value: int)
    ensures Le32(GetByte(value, 0), GetByte(value, 1), GetByte(value, 2), GetByte(value, 3)) == value % 0x1_0000_0000
  {
    Pow2Bytes();
    var q1 := value / 0x100;
    var q2 := q1 / 0x100;
    var q3 := q2 / 0x100;
    DivideBy256Twice(value);
    DivideBy65536Then256(value);
    assert value == value % 0x100 + 0x100 * q1;
    assert q1 == q1 % 0x100 + 0x100 * q2;
    assert q2 == q2 % 0x100 + 0x100 * q3;
    assert q3 == q3 % 0x100 + 0x100 * (q3 / 0x100);
  }

  lemma DivideBy256Twice(v: int)
    ensures v / 0x100 / 0x100 == v / 0x1_0000
  {
  }

  lemma DivideBy65536Then256(v: int)
    ensures v / 0x1_0000 / 0x100 == v / 0x100_0000
  {
  }

  /** The values the senders read from the shared record. */
  datatype Snapshot = Snapshot(
    maxVolt: U16, minVolt: U16, avgVolt: U16, totVolt: U32,
    maxTemp: U16, minTemp: U16, current: int,
    cellVolts: seq<U16>, temps: seq<U16>)

  /** The record has twelve cells and four temperature channels. */
  predicate WellFormed(s: Snapshot)
  {
    |s.cellVolts| == 12 && |s.temps| == 4
  }

  /** The pack total sent in the voltage frame: total / 100 cast to u16, i.e. truncated to 16 bits. */
  function TotalField(totVolt: U32): U16
  {
    (totVolt / 100) % 0x1_0000
  }

  /** Four u16 values, two little-endian bytes each. */
  function PairsPayload(a: U16, b: U16, c: U16, d: U16): (payload: seq<U8>)
    ensures |payload| == 8
  {
    [GetByte(a, 0), GetByte(a, 1), GetByte(b, 0), GetByte(b, 1),
     GetByte(c, 0), GetByte(c, 1), GetByte(d, 0), GetByte(d, 1)]
  }

  /** The four u16 values of an 8-byte payload read as little-endian pairs. */
  function DecodePairs(payload: seq<U8>): (values: seq<U16>)
    requires |payload| == 8
    ensures |values| == 4
  {
    [Le16(payload[0], payload[1]), Le16(payload[2], payload[3]),
     Le16(payload[4], payload[5]), Le16(payload[6], payload[7])]
  }

  /** A pairs payload decodes to the values it was built from. */
  lemma PairsRoundTrip(a: U16, b: U16, c: U16, d: U16)
    ensures DecodePairs(PairsPayload(a, b, c, d)) == [a, b, c, d]
  {
    GetByteRoundTrip16(a);
    GetByteRoundTrip16(b);
    GetByteRoundTrip16(c);
    GetByteRoundTrip16(d);
  }

  /** The voltage frame: maximum, minimum, average and the pack total in units of 100. */
  function VoltagePayload(s: Snapshot): (payload: seq<U8>)
    ensures |payload| == 8
  {
    PairsPayload(s.maxVolt, s.minVolt, s.avgVolt, TotalField(s.totVolt))
  }

  /** Decoding the voltage frame recovers maximum, minimum, average and
      (total / 100) mod 2^16, in that order. */
  lemma VoltagePayloadDecodes(s: Snapshot)
    ensures DecodePairs(VoltagePayload(s)) == [s.maxVolt, s.minVolt, s.avgVolt, (s.totVolt / 100) % 0x1_0000]
  {
    PairsRoundTrip(s.maxVolt, s.minVolt, s.avgVolt, TotalField(s.totVolt));
  }

  /** The temperature frame: maximum and minimum temperature, two bytes each,
      then the four low bytes of the current, all little-endian. */
  function TemperaturePayload(s: Snapshot): (payload: seq<U8>)
    ensures |payload| == 8
  {
    [GetByte(s.maxTemp, 0), GetByte(s.maxTemp, 1), GetByte(s.minTemp, 0), GetByte(s.minTemp, 1),
     GetByte(s.current, 0), GetByte(s.current, 1), GetByte(s.current, 2), GetByte(s.current, 3)]
  }

  /** Decoding the temperature frame recovers both temperatures and the current's low 32 bits. */
  lemma TemperaturePayloadDecodes(s: Snapshot)
    ensures var p := TemperaturePayload(s);
      && Le16(p[0], p[1]) == s.maxTemp && Le16(p[2], p[3]) == s.minTemp
      && Le32(p[4], p[5], p[6], p[7]) == s.current % 0x1_0000_0000
  {
    GetByteRoundTrip16(s.maxTemp);
    GetByteRoundTrip16(s.minTemp);
    GetByteRoundTrip32(s.current);
  }

  /** The diagnostic frames: cells 0-3, 4-7, 8-11, then temperature channels 0-3. */
  function TechPayload(s: Snapshot, k: nat): (payload: seq<U8>)
    requires WellFormed(s) && k < 4
    ensures |payload| == 8
  {
    if k < 3 then
      PairsPayload(s.cellVolts[4 * k], s.cellVolts[4 * k + 1], s.cellVolts[4 * k + 2], s.cellVolts[4 * k + 3])
    else
      PairsPayload(s.temps[0], s.temps[1], s.temps[2], s.temps[3])
  }

  /** Reading the three cell frames back in order gives the twelve cells, and the last frame the four temperatures. */
  lemma TechPayloadsDecode(s: Snapshot)
    requires WellFormed(s)
    ensures DecodePairs(TechPayload(s, 0)) + DecodePairs(TechPayload(s, 1)) + DecodePairs(TechPayload(s, 2)) == s.cellVolts
    ensures DecodePairs(TechPayload(s, 3)) == s.temps
  {
    var c := s.cellVolts;
    PairsRoundTrip(c[0], c[1], c[2], c[3]);
    PairsRoundTrip(c[4], c[5], c[6], c[7]);
    PairsRoundTrip(c[8], c[9], c[10], c[11]);
    PairsRoundTrip(s.temps[0], s.temps[1], s.temps[2], s.temps[3]);
  }

  /*
   * The cycle counter: a usize (32 bits on the target) that the voltage
   * sender increments with a wrapping add and resets when it reaches 12.
   */

  function NextTemp(count: U32): (next: U32)
  {
    var n := (count + 1) % 0x1_0000_0000;
    if n == 12 then 0 else n
  }

  /** From any value below 12 the counter counts modulo 12. */
  lemma NextTempModulo(count: U32)
    requires count < 12
    ensures NextTemp(count) == (count + 1) % 12
    ensures NextTemp(count) < 12
  {
  }

  /** However many cycles run, a counter that starts below 12 stays below 12. */
  lemma {:induction false} IterateStaysBelow12(count: U32, steps: nat)
    requires count < 12
    ensures Iterate(count, steps) < 12
  {
    if steps > 0 {
      IterateStaysBelow12(count, steps - 1);
      NextTempModulo(Iterate(count, steps - 1));
    }
  }

  /** The counter after `steps` cycles. */
  function Iterate(count: U32, steps: nat): U32
  {
    if steps == 0 then count else NextTemp(Iterate(count, steps - 1))
  }

  class TempCounter {
    var count: U32

    constructor ()
      ensures count == 0
    {
      count := 0;
    }

    method Tick()
      modifies this
      ensures count == NextTemp(old(count))
      ensures old(count) < 12 ==> count < 12
    {
      count := (count + 1) % 0x1_0000_0000;
      if count == 12 {
        count := 0;
      }
    }
  }

  /*
   * Writes and their errors.
   */

  /** What the controller reports for one write. */
  datatype WriteOutcome = Written | TimedOut | Failed

  /** The errors the senders return. */
  datatype CanError = Timeout | WriteError

  datatype SendResult = Ok | Err(error: CanError)

  /** A timeout stays a timeout; every other failure becomes a write error. */
  function MapError(outcome: WriteOutcome): (error: CanError)
    requires outcome != Written
    ensures error == Timeout <==> outcome == TimedOut
  {
    if outcome == TimedOut then Timeout else WriteError
  }

  /** The result a sender returns for a write it stops at, or Ok. */
  function ResultOf(outcome: WriteOutcome): (result: SendResult)
    ensures result == Ok <==> outcome == Written
    ensures outcome != Written ==> result == Err(MapError(outcome))
  {
    if outcome == Written then Ok else Err(MapError(outcome))
  }

  /** The index of the first failed write of the four diagnostic frames, or 4. */
  function FirstFailure(outcomes: seq<WriteOutcome>): (k: nat)
    requires |outcomes| == 4
    ensures k <= 4
    ensures forall j :: 0 <= j < k ==> outcomes[j] == Written
    ensures k < 4 ==> outcomes[k] != Written
  {
    if outcomes[0] != Written then 0
    else if outcomes[1] != Written then 1
    else if outcomes[2] != Written then 2
    else if outcomes[3] != Written then 3
    else 4
  }

  /** The voltage frame, then (when it went out) the temperature frame; the
      counter ticks once. Returns the frames handed to the controller and
      the sender's result. */
  method CanOperation(counter: TempCounter, s: Snapshot, voltageWrite: WriteOutcome, temperatureWrite: WriteOutcome)
    returns (frames: seq<CanFrame>, result: SendResult)
    modifies counter
    ensures counter.count == NextTemp(old(counter.count))
    ensures voltageWrite != Written ==>
      frames == [Outgoing(CanMsg.VoltageId.AsRaw(), VoltagePayload(s))] && result == Err(MapError(voltageWrite))
    ensures voltageWrite == Written ==>
      && frames == [Outgoing(CanMsg.VoltageId.AsRaw(), VoltagePayload(s)),
                    Outgoing(CanMsg.TemperatureId.AsRaw(), TemperaturePayload(s))]
      && result == ResultOf(temperatureWrite)
  {
    var totV := (s.totVolt / 100) % 0x1_0000;
    var canFirst := [GetByte(s.maxVolt, 0), GetByte(s.maxVolt, 1), GetByte(s.minVolt, 0), GetByte(s.minVolt, 1),
                     GetByte(s.avgVolt, 0), GetByte(s.avgVolt, 1), GetByte(totV, 0), GetByte(totV, 1)];
    counter.Tick();
    var frame := NewFrame(CanMsg.VoltageId.AsRaw(), canFirst);
    frames := [frame];
    if voltageWrite == TimedOut {
      return frames, Err(Timeout);
    } else if voltageWrite != Written {
      return frames, Err(WriteError);
    }
    var canSecond := [GetByte(s.maxTemp, 0), GetByte(s.maxTemp, 1), GetByte(s.minTemp, 0), GetByte(s.minTemp, 1),
                      GetByte(s.current, 0), GetByte(s.current, 1), GetByte(s.current, 2), GetByte(s.current, 3)];
    frame := NewFrame(CanMsg.TemperatureId.AsRaw(), canSecond);
    frames := frames + [frame];
    if temperatureWrite == Written {
      result := Ok;
    } else if temperatureWrite == TimedOut {
      result := Err(Timeout);
    } else {
      result := Err(WriteError);
    }
  }

  /** The four diagnostic frames in order, stopping after the first failed
      write, whose error is returned. */
  method CanOperationTech(s: Snapshot, techIds: seq<U16>, outcomes: seq<WriteOutcome>)
    returns (frames: seq<CanFrame>, result: SendResult)
    requires WellFormed(s)
    requires |techIds| == 4 && forall k :: 0 <= k < 4 ==> techIds[k] <= MaxStandardId
    requires |outcomes| == 4
    ensures var n := FirstFailure(outcomes);
      && |frames| == (if n < 4 then n + 1 else 4)
      && (forall k :: 0 <= k < |frames| ==> frames[k] == Outgoing(techIds[k], TechPayload(s, k)))
      && result == (if n < 4 then Err(MapError(outcomes[n])) else Ok)
  {
    frames := [];
    var c := s.cellVolts;
    var frame := NewFrame(techIds[0], PairsPayload(c[0], c[1], c[2], c[3]));
    frames := frames + [frame];
    if outcomes[0] != Written {
      return frames, Err(MapError(outcomes[0]));
    }
    frame := NewFrame(techIds[1], PairsPayload(c[4], c[5], c[6], c[7]));
    frames := frames + [frame];
    if outcomes[1] != Written {
      return frames, Err(MapError(outcomes[1]));
    }
    frame := NewFrame(techIds[2], PairsPayload(c[8], c[9], c[10], c[11]));
    frames := frames + [frame];
    if outcomes[2] != Written {
      return frames, Err(MapError(outcomes[2]));
    }
    var t := s.temps;
    frame := NewFrame(techIds[3], PairsPayload(t[0], t[1], t[2], t[3]));
    frames := frames + [frame];
    if outcomes[3] != Written {
      return frames, Err(MapError(outcomes[3]));
    }
    result := Ok;
  }
}
