/**
 * The LTC6811 battery-monitor driver: the command frames it sends, the
 * six-byte configuration register it keeps and rewrites (voltage thresholds
 * and the twelve cell-discharge switches), the data frame that carries the
 * register to the chip, and the decoding of the cell-voltage and auxiliary
 * register groups it reads back.
 *
 * SPI traffic is modelled as values: each operation returns the frames it
 * writes, and the register groups the chip answers with are parameters.
 */
module Ltc {
  import opened Bits
  import opened Checksum
  import opened BmsState

  /** Whether the driver may switch cell-discharge transistors on. */
  datatype Mode = Normal | Balancing

  /*
   * Command frames: two opcode bytes followed by their two PEC bytes,
   * hard-coded.
   */

  /** Write configuration register group A. */
  const Wrcfga: seq<bv8> := [0x00, 0x01, 0x3D, 0x6E]
  /** Read configuration register group A. */
  const Rdcfga: seq<bv8> := [0x00, 0x02, 0x2B, 0x0A]
  /** Read cell voltage register groups A to D (cells 1-3, 4-6, 7-9, 10-12). */
  const Rdcva: seq<bv8> := [0x00, 0x04, 0x07, 0xC2]
  const Rdcvb: seq<bv8> := [0x00, 0x06, 0x9A, 0x94]
  const Rdcvc: seq<bv8> := [0x00, 0x08, 0x5E, 0x52]
  const Rdcvd: seq<bv8> := [0x00, 0x0A, 0xC3, 0x04]
  /** Read auxiliary register groups A and B (GPIO1-3 and GPIO4). */
  const Rdauxa: seq<bv8> := [0x00, 0x0C, 0xEF, 0xCC]
  const Rdauxb: seq<bv8> := [0x00, 0x0E, 0x72, 0x9A]
  /** Start the cell voltage conversion. */
  const Adcv: seq<bv8> := [0x02, 0x60, 0x7C, 0x20]
  /** Start the auxiliary (temperature) conversion, as declared: its PEC bytes
      are not the PEC of its opcode (see AdaxPecMismatch). */
  const Adax: seq<bv8> := [0x04, 0x30, 0xF1, 0xB2]

  /** A frame whose last two bytes are the PEC of the bytes before them. */
  predicate PecValid(frame: seq<bv8>)
  {
    |frame| >= 2 && frame[|frame| - 2..] == Pec(frame[..|frame| - 2])
  }

  /** The frame for a two-byte opcode: the opcode followed by its PEC. */
  function CommandFrame(opcode: seq<bv8>): (frame: seq<bv8>)
    requires |opcode| == 2
    ensures |frame| == 4 && frame[..2] == opcode
    ensures PecValid(frame)
  {
    assert (opcode + Pec(opcode))[..2] == opcode;
    opcode + Pec(opcode)
  }

  /** The driver sends every command frame unchanged: the PEC bytes are part of the constant. */
  function PrepareCommand(cmd: seq<bv8>): (frame: seq<bv8>)
    requires |cmd| == 4
    ensures frame == cmd
  {
    cmd
  }

  /** The PEC of a two-byte opcode is the PEC bytes of two table steps from the seed. */
  lemma PecOfPair(a: bv8, b: bv8)
    ensures Pec([a, b]) == PecBytes(Step(Step(Seed, a), b))
  {
    assert [a, b][..1] == [a];
    assert [a][..0] == [];
    assert Remainder([a]) == Step(Seed, a);
  }

  /*
   * Single table steps of the opcodes' PEC computations, one table lookup each.
   */

  lemma StepSeedBy00()
    ensures Step(Seed, 0x00) == 0x1000
  {
    assert Crc15Table[0x00] == 0x0000;
  }

  lemma StepSeedBy02()
    ensures Step(Seed, 0x02) == 0xdeab
  {
    assert Crc15Table[0x02] == 0xceab;
  }

  lemma StepSeedBy04()
    ensures Step(Seed, 0x04) == 0xc8cf
  {
    assert Crc15Table[0x04] == 0xd8cf;
  }

  lemma Step1000By01()
    ensures Step(0x1000, 0x01) == 0x9eb7
  {
    assert Crc15Table[0x21] == 0x9eb7;
  }

  lemma Step1000By02()
    ensures Step(0x1000, 0x02) == 0x9585
  {
    assert Crc15Table[0x22] == 0x9585;
  }

  lemma Step1000By04()
    ensures Step(0x1000, 0x04) == 0x83e1
  {
    assert Crc15Table[0x24] == 0x83e1;
  }

  lemma Step1000By06()
    ensures Step(0x1000, 0x06) == 0x4d4a
  {
    assert Crc15Table[0x26] == 0x4d4a;
  }

  lemma Step1000By08()
    ensures Step(0x1000, 0x08) == 0xaf29
  {
    assert Crc15Table[0x28] == 0xaf29;
  }

  lemma Step1000By0A()
    ensures Step(0x1000, 0x0A) == 0x6182
  {
    assert Crc15Table[0x2a] == 0x6182;
  }

  lemma Step1000By0C()
    ensures Step(0x1000, 0x0C) == 0x77e6
  {
    assert Crc15Table[0x2c] == 0x77e6;
  }

  lemma Step1000By0E()
    ensures Step(0x1000, 0x0E) == 0xb94d
  {
    assert Crc15Table[0x2e] == 0xb94d;
  }

  lemma StepDeabBy60()
    ensures Step(0xdeab, 0x60) == 0xbe10
  {
    assert Crc15Table[0xdd] == 0x1510;
  }

  lemma StepC8cfBy30()
    ensures Step(0xc8cf, 0x30) == 0xf3a4
  {
    assert Crc15Table[0xa1] == 0x3ca4;
  }

  /** The WRCFGA constant is its opcode followed by the opcode's PEC. */
  lemma WrcfgaPec()
    ensures Pec([0x00, 0x01]) == [0x3D, 0x6E]
    ensures Wrcfga == CommandFrame([0x00, 0x01])
  {
    PecOfPair(0x00, 0x01);
    StepSeedBy00();
    Step1000By01();
  }

  /** The RDCFGA constant is its opcode followed by the opcode's PEC. */
  lemma RdcfgaPec()
    ensures Pec([0x00, 0x02]) == [0x2B, 0x0A]
    ensures Rdcfga == CommandFrame([0x00, 0x02])
  {
    PecOfPair(0x00, 0x02);
    StepSeedBy00();
    Step1000By02();
  }

  /** The RDCVA constant is its opcode followed by the opcode's PEC. */
  lemma RdcvaPec()
    ensures Pec([0x00, 0x04]) == [0x07, 0xC2]
    ensures Rdcva == CommandFrame([0x00, 0x04])
  {
    PecOfPair(0x00, 0x04);
    StepSeedBy00();
    Step1000By04();
  }

  /** The RDCVB constant is its opcode followed by the opcode's PEC. */
  lemma RdcvbPec()
    ensures Pec([0x00, 0x06]) == [0x9A, 0x94]
    ensures Rdcvb == CommandFrame([0x00, 0x06])
  {
    PecOfPair(0x00, 0x06);
    StepSeedBy00();
    Step1000By06();
  }

  /** The RDCVC constant is its opcode followed by the opcode's PEC. */
  lemma RdcvcPec()
    ensures Pec([0x00, 0x08]) == [0x5E, 0x52]
    ensures Rdcvc == CommandFrame([0x00, 0x08])
  {
    PecOfPair(0x00, 0x08);
    StepSeedBy00();
    Step1000By08();
  }

  /** The RDCVD constant is its opcode followed by the opcode's PEC. */
  lemma RdcvdPec()
    ensures Pec([0x00, 0x0A]) == [0xC3, 0x04]
    ensures Rdcvd == CommandFrame([0x00, 0x0A])
  {
    PecOfPair(0x00, 0x0A);
    StepSeedBy00();
    Step1000By0A();
  }

  /** The RDAUXA constant is its opcode followed by the opcode's PEC. */
  lemma RdauxaPec()
    ensures Pec([0x00, 0x0C]) == [0xEF, 0xCC]
    ensures Rdauxa == CommandFrame([0x00, 0x0C])
  {
    PecOfPair(0x00, 0x0C);
    StepSeedBy00();
    Step1000By0C();
  }

  /** The RDAUXB constant is its opcode followed by the opcode's PEC. */
  lemma RdauxbPec()
    ensures Pec([0x00, 0x0E]) == [0x72, 0x9A]
    ensures Rdauxb == CommandFrame([0x00, 0x0E])
  {
    PecOfPair(0x00, 0x0E);
    StepSeedBy00();
    Step1000By0E();
  }

  /** The ADCV constant is its opcode followed by the opcode's PEC. */
  lemma AdcvPec()
    ensures Pec([0x02, 0x60]) == [0x7C, 0x20]
    ensures Adcv == CommandFrame([0x02, 0x60])
  {
    PecOfPair(0x02, 0x60);
    StepSeedBy02();
    StepDeabBy60();
  }

  /** Every hard-coded command except ADAX is the frame the PEC would build from its opcode. */
  lemma CommandPecsMatch()
    ensures PecValid(Wrcfga) && PecValid(Rdcfga)
    ensures PecValid(Rdcva) && PecValid(Rdcvb) && PecValid(Rdcvc) && PecValid(Rdcvd)
    ensures PecValid(Rdauxa) && PecValid(Rdauxb) && PecValid(Adcv)
  {
    WrcfgaPec();
    RdcfgaPec();
    RdcvaPec();
    RdcvbPec();
    RdcvcPec();
    RdcvdPec();
    RdauxaPec();
    RdauxbPec();
    AdcvPec();
  }

  /** The ADAX constant as declared fails its own PEC: the PEC of 04 30 is E7 48,
      not F1 B2, so the chip discards the command. */
  lemma AdaxPecMismatch()
    ensures Pec([0x04, 0x30]) == [0xE7, 0x48]
    ensures !PecValid(Adax)
  {
    PecOfPair(0x04, 0x30);
    StepSeedBy04();
    StepC8cfBy30();
    assert Adax[..2] == [0x04, 0x30];
    assert Adax[2..] == [0xF1, 0xB2];
  }

  /** The ADAX command frame with the PEC of its own opcode: the corrected
      constant. The driver below still sends `Adax` as declared. */
  const AdaxFrame: seq<bv8> := CommandFrame([0x04, 0x30])

  /** The corrected ADAX frame keeps the opcode and carries the PEC E7 48. */
  lemma AdaxFrameBytes()
    ensures AdaxFrame == [0x04, 0x30, 0xE7, 0x48]
    ensures AdaxFrame[..2] == Adax[..2] && PecValid(AdaxFrame)
  {
    AdaxPecMismatch();
  }

  /*
   * The configuration register: byte 0 selects the reference, the ADC mode
   * and the GPIO pull-downs; bytes 1 to 3 hold the 12-bit under- and
   * over-voltage comparison thresholds; bytes 4 and 5 the twelve discharge
   * switches, cells 1-8 in byte 4 and cells 9-12 in the low nibble of byte 5.
   */

  const ConfigSize: nat := 6

  /** Under- and over-voltage thresholds and the balancing tolerance. */
  const UvThreshold: U16 := 3000
  const OvThreshold: U16 := 4200
  const BalEpsilon: U16 := 50

  /** Reference powered up (REFON) and ADC mode option (ADCOPT) bits of byte 0. */
  const Refon: U8 := 0x04
  const Adcopt: U8 := 0x01
  /** GPIO pull-down settings, one per GPIO pin; they land in bits 3 to 7 of byte 0. */
  const Gpio1: U8 := 0x01
  const Gpio2: U8 := 0x01
  const Gpio3: U8 := 0x01
  const Gpio4: U8 := 0x01
  const Gpio5: U8 := 0x00
  /** Byte 0: the GPIO bits at 3 to 7, ADCOPT and REFON. The fields occupy
      distinct bits, so the source's | of them is their sum. */
  const Gpios: U8 := Gpio1 * 0x08 + Gpio2 * 0x10 + Gpio3 * 0x20 + Gpio4 * 0x40 + Gpio5 * 0x80
  const ConfigByte0: U8 := Gpios + Adcopt + Refon

  /** The register the driver starts from: only REFON set. */
  const InitialConfig: seq<U8> := [0x00, 0x00, Refon, 0x00, 0x00, 0x00]

  /** Byte 0 is 0x7D: REFON, ADCOPT and GPIO1-4 set, GPIO5 and bit 1 clear. */
  lemma ConfigByte0Value()
    ensures Gpios == 0x78 && ConfigByte0 == 0x7D
  {
  }

  /** Bytes 1 to 3 for thresholds uv and ov: the low eight bits of uv, then the
      low nibble of ov over the high nibble of uv, then ov's bits 4 to 11
      (truncated to a byte). The two nibbles of byte 2 do not overlap, so the
      source's | is a sum here. */
  function ThresholdBytes(uv: U16, ov: U16): (bytes: seq<U8>)
    ensures |bytes| == 3
  {
    [uv % 0x100, (ov % 0x10) * 0x10 + (uv / 0x100) % 0x10, (ov / 0x10) % 0x100]
  }

  /** The two 12-bit thresholds bytes 1 to 3 of the register encode. */
  function UnpackThresholds(bytes: seq<U8>): (thresholds: (nat, nat))
    requires |bytes| == 3
    ensures thresholds.0 < 0x1000 && thresholds.1 < 0x1000
  {
    var b0, b1, b2 := bytes[0] as int, bytes[1] as int, bytes[2] as int;
    (b0 + (b1 % 0x10) * 0x100, b1 / 0x10 + b2 * 0x10)
  }

  /** Any two 12-bit thresholds survive packing and unpacking. */
  lemma ThresholdsRoundTrip(uv: U16, ov: U16)
    requires uv < 0x1000 && ov < 0x1000
    ensures UnpackThresholds(ThresholdBytes(uv, ov)) == (uv, ov)
  {
    var b := ThresholdBytes(uv, ov);
    assert b[1] % 0x10 == (uv / 0x100) % 0x10 && b[1] / 0x10 == ov % 0x10;
    assert uv == uv % 0x100 + (uv / 0x100) * 0x100;
    assert ov == ov % 0x10 + (ov / 0x10) * 0x10;
  }

  /** And every three register bytes are the packing of the thresholds they hold. */
  lemma ThresholdBytesOfUnpack(bytes: seq<U8>)
    requires |bytes| == 3
    ensures ThresholdBytes(UnpackThresholds(bytes).0, UnpackThresholds(bytes).1) == bytes
  {
    var (uv, ov) := UnpackThresholds(bytes);
    assert uv % 0x100 == bytes[0] && uv / 0x100 == bytes[1] % 0x10;
    assert ov % 0x10 == bytes[1] / 0x10 && ov / 0x10 == bytes[2];
    assert bytes[1] == (bytes[1] / 0x10) * 0x10 + bytes[1] % 0x10;
  }

  /** The driver's thresholds in register units of 16: uv = 3000 / 16 - 1 = 186, ov = 4200 / 16 = 262. */
  const UvVal: U16 := UvThreshold / 16 - 1
  const OvVal: U16 := OvThreshold / 16

  /** They are packed as BA 60 10 and read back unchanged. */
  lemma ThresholdConstants()
    ensures UvVal == 186 && OvVal == 262
    ensures ThresholdBytes(UvVal, OvVal) == [0xBA, 0x60, 0x10]
    ensures UnpackThresholds([0xBA, 0x60, 0x10]) == (UvVal, OvVal)
  {
    ThresholdsRoundTrip(UvVal, OvVal);
  }

  /*
   * The discharge rule of init_cfg: cell minus minimum, both reinterpreted
   * as i16 and subtracted in 16-bit two's complement, above the tolerance.
   */

  /** `v as i16`: the same sixteen bits read as two's complement. */
  function AsI16(v: U16): (r: int)
    ensures -0x8000 <= r < 0x8000
    ensures r % 0x1_0000 == v
  {
    if v < 0x8000 then v else v - 0x1_0000
  }

  /** i16 subtraction as a release build computes it: wrapped into [-32768, 32767]. */
  function WrapI16(d: int): (r: int)
    ensures -0x8000 <= r < 0x8000
    ensures (r - d) % 0x1_0000 == 0
  {
    (d + 0x8000) % 0x1_0000 - 0x8000
  }

  predicate AboveMin(cell: U16, min: U16)
  {
    WrapI16(AsI16(cell) - AsI16(min)) > BalEpsilon as int
  }

  /** For a cell at or above the minimum, the rule is "more than 50 above, and
      less than 32768 above": the i16 difference of cells 32768 or more apart
      wraps negative and switches discharge off. */
  lemma AboveMinMeaning(cell: U16, min: U16)
    requires min <= cell
    ensures AboveMin(cell, min) <==> BalEpsilon as int < cell - min < 0x8000
  {
    var d := AsI16(cell) - AsI16(min);
    if cell - min < 0x8000 {
      assert d == cell - min || d == cell - min - 0x1_0000;
      assert WrapI16(d) == cell - min;
    } else {
      assert d == cell - min - 0x1_0000;
      assert WrapI16(d) == cell - min - 0x1_0000;
    }
  }

  /** One flag per cell: whether init_cfg switches its discharge on. */
  function DischargeFlags(cells: seq<U16>, min: U16): (flags: seq<bool>)
    ensures |flags| == |cells|
    ensures forall i :: 0 <= i < |cells| ==> flags[i] == AboveMin(cells[i], min)
  {
    seq(|cells|, i requires 0 <= i < |cells| => AboveMin(cells[i], min))
  }

  /** Bytes 4 and 5 as init_cfg writes them: the bitmap's low byte and bits 8 to
      11 when balancing with a known minimum and maximum, zero otherwise. */
  function DischargeBytes(mode: Mode, cells: seq<U16>, min: U16, max: U16): (bytes: seq<U8>)
    ensures |bytes| == 2
  {
    if mode == Balancing && min != 0 && max != 0 then
      var bitmap := Pack(DischargeFlags(cells, min));
      [bitmap % 0x100, (bitmap / 0x100) % 0x10]
    else
      [0, 0]
  }

  /** The whole register init_cfg writes. */
  function InitConfig(mode: Mode, cells: seq<U16>, min: U16, max: U16): (config: seq<U8>)
    ensures |config| == ConfigSize
  {
    [ConfigByte0] + ThresholdBytes(UvVal, OvVal) + DischargeBytes(mode, cells, min, max)
  }

  /** Bits 0 to 7 of a bitmap's low byte and bits 0 to 3 of (bitmap >> 8) & 0xF
      are its flags 0 to 7 and 8 to 11. */
  lemma {:induction false} BitmapBytes(flags: seq<bool>, i: nat)
    requires |flags| == NumCells && i < NumCells
    ensures i < 8 ==> (Bit(Pack(flags) % 0x100, i) <==> flags[i])
    ensures 8 <= i ==> (Bit((Pack(flags) / 0x100) % 0x10, i - 8) <==> flags[i])
  {
    var bitmap := Pack(flags);
    Pow2Values();
    PackBits(flags, i);
    var high := bitmap / Pow2(8);
    if i < 8 {
      LowAndHighBits(bitmap, 8, i, bitmap % Pow2(8), high);
    } else {
      LowAndHighBits(bitmap, 8, i - 8, bitmap % Pow2(8), high);
      LowAndHighBits(high, 4, i - 8, high % Pow2(4), high / Pow2(4));
    }
  }

  /** The discharge bit of cell i (bit i of byte 4 for the first eight cells,
      bit i - 8 of byte 5 for the rest) is set exactly when the driver is
      balancing with nonzero minimum and maximum and the cell passes the rule;
      the high nibble of byte 5 is always clear. */
  lemma InitConfigDischarge(mode: Mode, cells: seq<U16>, min: U16, max: U16, i: nat)
    requires |cells| == NumCells && i < NumCells
    ensures var config := InitConfig(mode, cells, min, max);
      var on := mode == Balancing && min != 0 && max != 0 && AboveMin(cells[i], min);
      && (i < 8 ==> (Bit(config[4], i) <==> on))
      && (8 <= i ==> (Bit(config[5], i - 8) <==> on))
      && config[5] < 0x10
  {
    var config := InitConfig(mode, cells, min, max);
    if mode == Balancing && min != 0 && max != 0 {
      BitmapBytes(DischargeFlags(cells, min), i);
    } else if i < 8 {
      HighBitsClear(0, 0, i);
    } else {
      HighBitsClear(0, 0, i - 8);
    }
  }

  /** init_cfg's byte 0 is 0x7D and its threshold bytes unpack to 186 and 262, whatever the cells. */
  lemma InitConfigFixedBytes(mode: Mode, cells: seq<U16>, min: U16, max: U16)
    ensures InitConfig(mode, cells, min, max)[0] == 0x7D
    ensures UnpackThresholds(InitConfig(mode, cells, min, max)[1..4]) == (186, 262)
  {
    ConfigByte0Value();
    ThresholdConstants();
    assert InitConfig(mode, cells, min, max)[1..4] == ThresholdBytes(UvVal, OvVal);
  }

  /*
   * The rule of _balance_cells: discharge a cell when the maximum minus the
   * cell, a u16 subtraction, exceeds the threshold.
   */

  /** The u16 difference wraps (a release build) when the cell is above `max`. */
  predicate BelowMax(cell: U16, max: U16, threshold: U16)
  {
    (max - cell) % 0x1_0000 > threshold
  }

  /** One flag per cell: whether _balance_cells switches its discharge on. */
  function BalanceFlags(cells: seq<U16>, max: U16, threshold: U16): (flags: seq<bool>)
    ensures |flags| == |cells|
    ensures forall i :: 0 <= i < |cells| ==> flags[i] == BelowMax(cells[i], max, threshold)
  {
    seq(|cells|, i requires 0 <= i < |cells| => BelowMax(cells[i], max, threshold))
  }

  /** Against a consistent battery record (every cell at most the maximum) the
      subtraction never wraps: a cell is discharged exactly when it is more
      than `threshold` below the maximum. */
  lemma BalanceFlagsOfRecord(cells: seq<U16>, threshold: U16)
    requires |cells| > 0
    ensures forall i :: 0 <= i < |cells| ==>
      (BalanceFlags(cells, MaxOf(cells), threshold)[i] <==> MaxOf(cells) - cells[i] > threshold)
  {
    MaxOfSpec(cells);
  }

  /** The register after _balance_cells with the given flags: byte 4 is the
      first eight flags, the low nibble of byte 5 the last four, and the other
      bytes and bits are as before. */
  function Balanced(config: seq<U8>, flags: seq<bool>): (result: seq<U8>)
    requires |config| == ConfigSize && |flags| == NumCells
    ensures |result| == ConfigSize
  {
    Pow2Values();
    PackBound(flags[..8]);
    PackBound(flags[8..]);
    config[..4] + [Pack(flags[..8]), (config[5] / 0x10) * 0x10 + Pack(flags[8..])]
  }

  /** Bit j of byte 4 after balancing is flag j; bit j of byte 5 is flag j + 8
      in the low nibble and unchanged in the high nibble; bytes 0 to 3 are
      unchanged. */
  lemma {:induction false} BalancedBits(config: seq<U8>, flags: seq<bool>, j: nat)
    requires |config| == ConfigSize && |flags| == NumCells && j < 8
    ensures Balanced(config, flags)[..4] == config[..4]
    ensures Bit(Balanced(config, flags)[4], j) <==> flags[j]
    ensures Bit(Balanced(config, flags)[5], j) <==> if j < 4 then flags[j + 8] else Bit(config[5], j)
  {
    Pow2Values();
    var low, high := Pack(flags[..8]), config[5] / 0x10;
    PackBits(flags[..8], j);
    PackBound(flags[8..]);
    assert Balanced(config, flags)[5] == Pack(flags[8..]) + Pow2(4) * high;
    BitOfConcat(Pack(flags[8..]), high, 4, j);
    if j < 4 {
      PackBits(flags[8..], j);
    } else {
      LowAndHighBits(config[5], 4, j - 4, config[5] % Pow2(4), high);
    }
  }

  /** A register whose bytes 0 to 3 are kept and whose bits 4 and 5 are those
      BalancedBits describes is the balanced register. */
  lemma BalancedFromBits(before: seq<U8>, after: seq<U8>, flags: seq<bool>)
    requires |before| == ConfigSize && |after| == ConfigSize && |flags| == NumCells
    requires after[..4] == before[..4]
    requires forall j :: 0 <= j < 8 ==> (Bit(after[4], j) <==> flags[j])
    requires forall j :: 0 <= j < 8 ==> (Bit(after[5], j) <==> if j < 4 then flags[j + 8] else Bit(before[5], j))
    ensures after == Balanced(before, flags)
  {
    var result := Balanced(before, flags);
    Pow2Values();
    forall j | 0 <= j < 8
      ensures Bit(after[4], j) == Bit(result[4], j) && Bit(after[5], j) == Bit(result[5], j)
    {
      BalancedBits(before, flags, j);
    }
    BitsDetermine(after[4], result[4], 8);
    BitsDetermine(after[5], result[5], 8);
    assert after == after[..4] + [after[4], after[5]];
  }

  /** Balancing twice with the same flags changes nothing the second time. */
  lemma BalancedIdempotent(config: seq<U8>, flags: seq<bool>)
    requires |config| == ConfigSize && |flags| == NumCells
    ensures Balanced(Balanced(config, flags), flags) == Balanced(config, flags)
  {
    var once := Balanced(config, flags);
    forall j | 0 <= j < 8
      ensures Bit(once[4], j) <==> flags[j]
      ensures Bit(once[5], j) <==> if j < 4 then flags[j + 8] else Bit(once[5], j)
    {
      BalancedBits(config, flags, j);
    }
    BalancedFromBits(once, once, flags);
  }

  /** As written, the rule discharges the low cells and spares the high ones:
      with one cell at 30000 and the rest at 40000, the 30000 cell is the only
      one whose discharge is switched on. */
  lemma BalanceFlagsDischargeLowest()
    ensures var cells := [30000 as U16] + seq(NumCells - 1, _ => 40000 as U16);
      var flags := BalanceFlags(cells, MaxOf(cells), 50);
      MaxOf(cells) == 40000 && flags[0] && forall i :: 1 <= i < NumCells ==> !flags[i]
  {
    var cells := [30000 as U16] + seq(NumCells - 1, _ => 40000 as U16);
    MaxOfSpec(cells);
    assert cells[1] == 40000;
  }

  /*
   * The rule the comment above the loop of _balance_cells describes: discharge
   * a cell when it exceeds the minimum by more than the threshold.
   */

  /** The u16 difference `cell - min`, wrapping as the subtraction it replaces. */
  predicate AboveMinBy(cell: U16, min: U16, threshold: U16)
  {
    (cell - min) % 0x1_0000 > threshold
  }

  /** One flag per cell under the corrected rule. */
  function CorrectedBalanceFlags(cells: seq<U16>, min: U16, threshold: U16): (flags: seq<bool>)
    ensures |flags| == |cells|
    ensures forall i :: 0 <= i < |cells| ==> flags[i] == AboveMinBy(cells[i], min, threshold)
  {
    seq(|cells|, i requires 0 <= i < |cells| => AboveMinBy(cells[i], min, threshold))
  }

  /** Balancing a record under the corrected rule: the discharge bit of cell i
      is set exactly when the cell is more than `threshold` above the lowest
      cell, so the lowest cell is never discharged and the highest one is
      whenever the spread exceeds the threshold. */
  lemma CorrectedBalancedBits(config: seq<U8>, cells: seq<U16>, threshold: U16, i: nat)
    requires |config| == ConfigSize && |cells| == NumCells && i < NumCells
    ensures var result := Balanced(config, CorrectedBalanceFlags(cells, MinOf(cells), threshold));
      (if i < 8 then Bit(result[4], i) else Bit(result[5], i - 8))
        <==> cells[i] - MinOf(cells) > threshold
    ensures cells[i] == MinOf(cells) ==> !CorrectedBalanceFlags(cells, MinOf(cells), threshold)[i]
    ensures cells[i] == MaxOf(cells) && MaxOf(cells) - MinOf(cells) > threshold ==>
      CorrectedBalanceFlags(cells, MinOf(cells), threshold)[i]
  {
    var flags := CorrectedBalanceFlags(cells, MinOf(cells), threshold);
    MinOfSpec(cells);
    if i < 8 {
      BalancedBits(config, flags, i);
    } else {
      BalancedBits(config, flags, i - 8);
    }
  }

  /*
   * Register groups read back from the chip: six data bytes and two PEC bytes.
   */

  type RegisterGroup = s: seq<bv8> | |s| == 8 witness [0, 0, 0, 0, 0, 0, 0, 0]

  /** Cell k of a cell-voltage group: bytes 2k (low) and 2k + 1 (high), little-endian. */
  function CellCode(group: RegisterGroup, k: nat): U16
    requires k < 3
  {
    Join(group[2 * k + 1], group[2 * k])
  }

  /** The twelve cell codes of groups A to D, three per group in order. */
  function DecodeCells(a: RegisterGroup, b: RegisterGroup, c: RegisterGroup, d: RegisterGroup): (cells: seq<U16>)
    ensures |cells| == NumCells
  {
    [CellCode(a, 0), CellCode(a, 1), CellCode(a, 2),
     CellCode(b, 0), CellCode(b, 1), CellCode(b, 2),
     CellCode(c, 0), CellCode(c, 1), CellCode(c, 2),
     CellCode(d, 0), CellCode(d, 1), CellCode(d, 2)]
  }

  /** Cell 3g + k comes from group g: its low byte is byte 2k of the group
      and its high byte the next one. */
  lemma DecodeCellsLayout(a: RegisterGroup, b: RegisterGroup, c: RegisterGroup, d: RegisterGroup, g: nat, k: nat)
    requires g < 4 && k < 3
    ensures var group := [a, b, c, d][g];
      && DecodeCells(a, b, c, d)[3 * g + k] % 0x100 == group[2 * k] as int
      && DecodeCells(a, b, c, d)[3 * g + k] / 0x100 == group[2 * k + 1] as int
  {
    var group := [a, b, c, d][g];
    assert DecodeCells(a, b, c, d)[3 * g + k] == CellCode(group, k);
    JoinParts(group[2 * k + 1], group[2 * k]);
  }

  /** Auxiliary code k of a group: bytes 2k (high) and 2k + 1 (low), big-endian. */
  function AuxCode(group: RegisterGroup, k: nat): U16
    requires k < 3
  {
    Join(group[2 * k], group[2 * k + 1])
  }

  /** The four GPIO codes: GPIO1-3 from group A, GPIO4 from group B. */
  function TempCodes(auxa: RegisterGroup, auxb: RegisterGroup): (codes: seq<U16>)
    ensures |codes| == 4
  {
    [AuxCode(auxa, 0), AuxCode(auxa, 1), AuxCode(auxa, 2), AuxCode(auxb, 0)]
  }

  /** GPIO code k takes its high byte first: the opposite byte order to the cell codes. */
  lemma TempCodesLayout(auxa: RegisterGroup, auxb: RegisterGroup, k: nat)
    requires k < 4
    ensures var group := if k < 3 then auxa else auxb;
      var m := k % 3;
      && TempCodes(auxa, auxb)[k] / 0x100 == group[2 * m] as int
      && TempCodes(auxa, auxb)[k] % 0x100 == group[2 * m + 1] as int
  {
    var group := if k < 3 then auxa else auxb;
    var m := k % 3;
    assert TempCodes(auxa, auxb)[k] == AuxCode(group, m);
    JoinParts(group[2 * m], group[2 * m + 1]);
  }

  /** The configuration register as the bytes that go on the wire. */
  function ToBytes(config: seq<U8>): (bytes: seq<bv8>)
    ensures |bytes| == |config|
  {
    seq(|config|, i requires 0 <= i < |config| => config[i] as bv8)
  }

  /** The data frame write_config sends for a register: the six bytes and their PEC. */
  function ConfigFrame(config: seq<U8>): (frame: seq<bv8>)
    requires |config| == ConfigSize
    ensures |frame| == 8 && frame[..6] == ToBytes(config)
    ensures PecValid(frame)
  {
    assert (ToBytes(config) + Pec(ToBytes(config)))[..6] == ToBytes(config);
    ToBytes(config) + Pec(ToBytes(config))
  }

  /** The driver: a handle on the shared battery record, the configuration
      register it last wrote and its mode. */
  class Ltc6811 {
    const bms: Bms
    var config: array<U8>
    var mode: Mode

    /** The register has six bytes and the record twelve cells. */
    ghost predicate Shaped()
      reads this, bms
    {
      config.Length == ConfigSize && bms.cellVolts.Length == NumCells
    }

    /** Starts in normal mode with only REFON set in the register. */
    constructor (bms: Bms)
      ensures this.bms == bms && fresh(config)
      ensures config[..] == InitialConfig && mode == Normal
    {
      this.bms := bms;
      config := new U8[ConfigSize](_ => 0);
      mode := Normal;
      new;
      config[2] := Refon;
    }

    method SetMode(mode: Mode)
      modifies this
      ensures this.mode == mode
      ensures config == old(config)
    {
      this.mode := mode;
    }

    /** The frames write_config sends: the WRCFGA command, then an 8-byte
        buffer holding the register and the register's PEC. */
    method WriteConfig() returns (cmd: seq<bv8>, data: seq<bv8>)
      requires config.Length == ConfigSize
      ensures cmd == Wrcfga
      ensures data == ConfigFrame(config[..])
    {
      cmd := PrepareCommand(Wrcfga);
      var bytes := ToBytes(config[..]);
      var buffer := new bv8[8](_ => 0);
      for i := 0 to ConfigSize
        invariant forall j :: 0 <= j < i ==> buffer[j] == bytes[j]
      {
        buffer[i] := config[i] as bv8;
      }
      var pec := CalculatePec(bytes);
      buffer[6] := pec[0];
      buffer[7] := pec[1];
      data := buffer[..];
      assert data == bytes + pec;
    }

    /** Rewrites the whole register: byte 0, the thresholds, and the discharge
        bitmap built one cell at a time, then writes it out. */
    method InitCfg() returns (cmd: seq<bv8>, data: seq<bv8>)
      requires Shaped()
      modifies config
      ensures config[..] == InitConfig(mode, bms.cellVolts[..], bms.minVolt, bms.maxVolt)
      ensures cmd == Wrcfga && data == ConfigFrame(config[..])
    {
      ghost var cells := bms.cellVolts[..];
      var uv := UvThreshold / 16 - 1;
      var ov := OvThreshold / 16;
      config[0] := Gpios + Adcopt + Refon;
      config[1] := uv % 0x100;
      config[2] := (ov % 0x10) * 0x10 + (uv / 0x100) % 0x10;
      config[3] := (ov / 0x10) % 0x100;
      assert bms.cellVolts[..] == cells;
      ghost var fixed := config[..4];
      ThresholdConstants();
      assert fixed == [ConfigByte0] + ThresholdBytes(UvVal, OvVal);
      var min, max := bms.minVolt, bms.maxVolt;
      ghost var discharge := DischargeBytes(mode, cells, min, max);
      if mode == Balancing && min != 0 && max != 0 {
        var bitmap := DischargeBitmap(min);
        config[4] := bitmap % 0x100;
        config[5] := (bitmap / 0x100) % 0x10;
      } else {
        config[4] := 0x00;
        config[5] := 0x00;
      }
      assert config[..] == fixed + discharge;
      cmd, data := WriteConfig();
    }

    /** init_cfg's bitmap loop: bit i set, as `bitmap |= 1 << i`, for every
        cell i that passes the discharge rule against `min`. */
    method DischargeBitmap(min: U16) returns (bitmap: nat)
      requires bms.cellVolts.Length == NumCells
      ensures bitmap == Pack(DischargeFlags(bms.cellVolts[..], min))
    {
      ghost var flags := DischargeFlags(bms.cellVolts[..], min);
      // A u16 in the source; it never has more than twelve bits.
      bitmap := 0;
      for i := 0 to NumCells
        invariant bitmap == Pack(flags[..i])
      {
        assert flags[..i + 1] == flags[..i] + [flags[i]];
        PackSnoc(flags[..i], flags[i]);
        if WrapI16(AsI16(bms.cellVolts[i]) - AsI16(min)) > BalEpsilon as int {
          bitmap := SetBit(bitmap, i);
        }
      }
      assert flags[..NumCells] == flags;
    }

    /** Sets or clears each cell's discharge bit in place by the rule of
        BelowMax against the record's maximum, then writes the register out. */
    method BalanceCells(threshold: U16) returns (cmd: seq<bv8>, data: seq<bv8>)
      requires Shaped()
      modifies config
      ensures config[..] == Balanced(old(config[..]), BalanceFlags(bms.cellVolts[..], bms.maxVolt, threshold))
      ensures cmd == Wrcfga && data == ConfigFrame(config[..])
    {
      var maxVolt := bms.maxVolt;
      ghost var before := config[..];
      ghost var flags := BalanceFlags(bms.cellVolts[..], maxVolt, threshold);
      Pow2Values();
      for i := 0 to NumCells
        invariant config[..4] == before[..4]
        invariant forall j :: 0 <= j < 8 ==>
          (Bit(config[4], j) <==> if j < i then flags[j] else Bit(before[4], j))
        invariant forall j :: 0 <= j < 8 ==>
          (Bit(config[5], j) <==> if j < 4 && j + 8 < i then flags[j + 8] else Bit(before[5], j))
      {
        var cellVolt := bms.cellVolts[i];
        if (maxVolt - cellVolt) % 0x1_0000 > threshold {
          if i < 8 {
            SetBitOnly(config[4], i);
            SetBitBound(config[4], i, 8);
            config[4] := SetBit(config[4], i);
          } else {
            SetBitOnly(config[5], i - 8);
            SetBitBound(config[5], i - 8, 8);
            config[5] := SetBit(config[5], i - 8);
          }
        } else {
          if i < 8 {
            ClearBitOnly(config[4], i);
            ClearBitBound(config[4], i);
            config[4] := ClearBit(config[4], i);
          } else {
            ClearBitOnly(config[5], i - 8);
            ClearBitBound(config[5], i - 8);
            config[5] := ClearBit(config[5], i - 8);
          }
        }
      }
      BalancedFromBits(before, config[..], flags);
      cmd, data := WriteConfig();
    }

    /** Starts a conversion, reads the four cell-voltage groups the chip
        answers with, decodes them and stores each cell into the record.
        The groups' PEC bytes are not checked. */
    method ReadCellVoltages(dataA: RegisterGroup, dataB: RegisterGroup, dataC: RegisterGroup, dataD: RegisterGroup)
      returns (commands: seq<seq<bv8>>)
      requires bms.cellVolts.Length == NumCells
      modifies bms, bms.cellVolts
      ensures bms.cellVolts == old(bms.cellVolts) && bms.temp == old(bms.temp)
      ensures bms.cellVolts[..] == DecodeCells(dataA, dataB, dataC, dataD)
      ensures bms.Valid()
      ensures commands == [Adcv, Rdcva, Rdcvb, Rdcvc, Rdcvd]
    {
      commands := [PrepareCommand(Adcv)];
      commands := commands + [PrepareCommand(Rdcva), PrepareCommand(Rdcvb)];
      commands := commands + [PrepareCommand(Rdcvc), PrepareCommand(Rdcvd)];
      var cells := DecodeCells(dataA, dataB, dataC, dataD);
      for i := 0 to NumCells
        invariant bms.cellVolts == old(bms.cellVolts) && bms.temp == old(bms.temp)
        invariant bms.cellVolts[..i] == cells[..i]
        invariant 0 < i ==> bms.Valid()
      {
        bms.UpdateCell(i, cells[i]);
      }
      assert bms.cellVolts[..] == bms.cellVolts[..NumCells];
      assert cells == cells[..NumCells];
    }

    /** Starts an auxiliary conversion and reads groups A and B: whether each
        group's PEC checks (a failure is only logged), the four GPIO codes,
        and the (index, value) pairs handed to the record's temperature
        update, which stores a single temperature and takes no index. */
    method ReadTemperatures(auxa: RegisterGroup, auxb: RegisterGroup)
      returns (commands: seq<seq<bv8>>, pecOkA: bool, pecOkB: bool, codes: seq<U16>, tempWrites: seq<(nat, U16)>)
      ensures commands == [Adax, Rdauxa, Rdauxb]
      ensures !PecValid(commands[0])
      ensures pecOkA == PecValid(auxa) && pecOkB == PecValid(auxb)
      ensures codes == TempCodes(auxa, auxb)
      ensures tempWrites == [(0, 10), (1, 10), (2, 10), (3, codes[3])]
    {
      commands := [PrepareCommand(Adax), PrepareCommand(Rdauxa), PrepareCommand(Rdauxb)];
      AdaxPecMismatch();
      var pecA := CalculatePec(auxa[0..6]);
      pecOkA := [auxa[6], auxa[7]] == pecA;
      assert auxa[6..] == [auxa[6], auxa[7]];
      var pecB := CalculatePec(auxb[0..6]);
      pecOkB := [auxb[6], auxb[7]] == pecB;
      assert auxb[6..] == [auxb[6], auxb[7]];
      codes := [Join(auxa[0], auxa[1]), Join(auxa[2], auxa[3]), Join(auxa[4], auxa[5]), Join(auxb[0], auxb[1])];
      tempWrites := [(0, 10), (1, 10), (2, 10), (3, codes[3])];
    }

    /** One refresh: reset the record, read the cells, read the temperatures. */
    method Update(dataA: RegisterGroup, dataB: RegisterGroup, dataC: RegisterGroup, dataD: RegisterGroup,
                  auxa: RegisterGroup, auxb: RegisterGroup)
      returns (commands: seq<seq<bv8>>, codes: seq<U16>, tempWrites: seq<(nat, U16)>)
      requires bms.cellVolts.Length == NumCells
      modifies bms, bms.cellVolts
      ensures bms.cellVolts == old(bms.cellVolts)
      ensures bms.cellVolts[..] == DecodeCells(dataA, dataB, dataC, dataD)
      ensures bms.Valid() && bms.temp == 0
      ensures commands == [Adcv, Rdcva, Rdcvb, Rdcvc, Rdcvd, Adax, Rdauxa, Rdauxb]
      ensures !PecValid(commands[5])
      ensures codes == TempCodes(auxa, auxb)
      ensures tempWrites == [(0, 10), (1, 10), (2, 10), (3, codes[3])]
    {
      bms.Reset();
      var cellCommands := ReadCellVoltages(dataA, dataB, dataC, dataD);
      var tempCommands, _, _, tempCodes, writes := ReadTemperatures(auxa, auxb);
      ghost var cellState := bms.cellVolts[..];
      assert cellState == DecodeCells(dataA, dataB, dataC, dataD);
      commands := cellCommands + tempCommands;
      assert commands == [Adcv, Rdcva, Rdcvb, Rdcvc, Rdcvd, Adax, Rdauxa, Rdauxb];
      codes := tempCodes;
      tempWrites := writes;
    }
  }
}
