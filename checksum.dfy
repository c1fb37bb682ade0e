/**
 * The LTC6811 packet error code (PEC): a 15-bit CRC over command and data
 * frames, computed with a 256-entry lookup table, seeded with 16 and shifted
 * left once at the end so that the last bit sent is always 0.
 *
 * Besides the table-driven algorithm the driver uses, the module defines one
 * byte of plain polynomial division (eight shifts of the 15-bit register,
 * polynomial 0x4599) and proves that every table entry is that division of
 * its index.
 */
module Checksum {

  /** The CRC15 lookup table, entry for entry as the driver declares it
      (written as sixteen rows so that each entry can be looked up cheaply). */
  const Crc15Table: seq<bv16> :=
    [0x0, 0xc599, 0xceab, 0xb32, 0xd8cf, 0x1d56, 0x1664, 0xd3fd, 0xf407, 0x319e, 0x3aac, 0xff35, 0x2cc8, 0xe951, 0xe263, 0x27fa]
  + [0xad97, 0x680e, 0x633c, 0xa6a5, 0x7558, 0xb0c1, 0xbbf3, 0x7e6a, 0x5990, 0x9c09, 0x973b, 0x52a2, 0x815f, 0x44c6, 0x4ff4, 0x8a6d]
  + [0x5b2e, 0x9eb7, 0x9585, 0x501c, 0x83e1, 0x4678, 0x4d4a, 0x88d3, 0xaf29, 0x6ab0, 0x6182, 0xa41b, 0x77e6, 0xb27f, 0xb94d, 0x7cd4]
  + [0xf6b9, 0x3320, 0x3812, 0xfd8b, 0x2e76, 0xebef, 0xe0dd, 0x2544, 0x2be, 0xc727, 0xcc15, 0x98c, 0xda71, 0x1fe8, 0x14da, 0xd143]
  + [0xf3c5, 0x365c, 0x3d6e, 0xf8f7, 0x2b0a, 0xee93, 0xe5a1, 0x2038, 0x7c2, 0xc25b, 0xc969, 0xcf0, 0xdf0d, 0x1a94, 0x11a6, 0xd43f]
  + [0x5e52, 0x9bcb, 0x90f9, 0x5560, 0x869d, 0x4304, 0x4836, 0x8daf, 0xaa55, 0x6fcc, 0x64fe, 0xa167, 0x729a, 0xb703, 0xbc31, 0x79a8]
  + [0xa8eb, 0x6d72, 0x6640, 0xa3d9, 0x7024, 0xb5bd, 0xbe8f, 0x7b16, 0x5cec, 0x9975, 0x9247, 0x57de, 0x8423, 0x41ba, 0x4a88, 0x8f11]
  + [0x57c, 0xc0e5, 0xcbd7, 0xe4e, 0xddb3, 0x182a, 0x1318, 0xd681, 0xf17b, 0x34e2, 0x3fd0, 0xfa49, 0x29b4, 0xec2d, 0xe71f, 0x2286]
  + [0xa213, 0x678a, 0x6cb8, 0xa921, 0x7adc, 0xbf45, 0xb477, 0x71ee, 0x5614, 0x938d, 0x98bf, 0x5d26, 0x8edb, 0x4b42, 0x4070, 0x85e9]
  + [0xf84, 0xca1d, 0xc12f, 0x4b6, 0xd74b, 0x12d2, 0x19e0, 0xdc79, 0xfb83, 0x3e1a, 0x3528, 0xf0b1, 0x234c, 0xe6d5, 0xede7, 0x287e]
  + [0xf93d, 0x3ca4, 0x3796, 0xf20f, 0x21f2, 0xe46b, 0xef59, 0x2ac0, 0xd3a, 0xc8a3, 0xc391, 0x608, 0xd5f5, 0x106c, 0x1b5e, 0xdec7]
  + [0x54aa, 0x9133, 0x9a01, 0x5f98, 0x8c65, 0x49fc, 0x42ce, 0x8757, 0xa0ad, 0x6534, 0x6e06, 0xab9f, 0x7862, 0xbdfb, 0xb6c9, 0x7350]
  + [0x51d6, 0x944f, 0x9f7d, 0x5ae4, 0x8919, 0x4c80, 0x47b2, 0x822b, 0xa5d1, 0x6048, 0x6b7a, 0xaee3, 0x7d1e, 0xb887, 0xb3b5, 0x762c]
  + [0xfc41, 0x39d8, 0x32ea, 0xf773, 0x248e, 0xe117, 0xea25, 0x2fbc, 0x846, 0xcddf, 0xc6ed, 0x374, 0xd089, 0x1510, 0x1e22, 0xdbbb]
  + [0xaf8, 0xcf61, 0xc453, 0x1ca, 0xd237, 0x17ae, 0x1c9c, 0xd905, 0xfeff, 0x3b66, 0x3054, 0xf5cd, 0x2630, 0xe3a9, 0xe89b, 0x2d02]
  + [0xa76f, 0x62f6, 0x69c4, 0xac5d, 0x7fa0, 0xba39, 0xb10b, 0x7492, 0x5368, 0x96f1, 0x9dc3, 0x585a, 0x8ba7, 0x4e3e, 0x450c, 0x8095]

  /** The initial remainder. */
  const Seed: bv16 := 16

  /** The CRC-15 generator polynomial x^15+x^14+x^10+x^8+x^7+x^4+x^3+1, without its x^15 term. */
  const Poly: bv16 := 0x4599

  /** The table index for the next byte: bits 14..7 of the remainder xor the byte. */
  function Address(remainder: bv16, b: bv8): bv8
  {
    (((remainder >> 7) ^ (b as bv16)) & 0xFF) as bv8
  }

  /** One table-driven step, on a 16-bit remainder that wraps like a Rust u16. */
  function Step(remainder: bv16, b: bv8): bv16
  {
    (remainder << 8) ^ Crc15Table[Address(remainder, b) as int]
  }

  /** The remainder after folding every byte of `data`, first byte first. */
  function Remainder(data: seq<bv8>): bv16
  {
    if |data| == 0 then Seed else Step(Remainder(data[..|data| - 1]), data[|data| - 1])
  }

  /** The two PEC bytes for a final remainder: shifted left once, most significant byte first.
      The low bit of the second byte is the shifted-in 0. */
  function PecBytes(remainder: bv16): (pec: seq<bv8>)
    ensures |pec| == 2
    ensures pec[1] & 1 == 0
  {
    var r := remainder << 1;
    [(r >> 8) as bv8, (r & 0xFF) as bv8]
  }

  /** The PEC of a frame. */
  function Pec(data: seq<bv8>): (pec: seq<bv8>)
    ensures |pec| == 2 && pec[1] & 1 == 0
  {
    PecBytes(Remainder(data))
  }

  /** The table-driven PEC computation, one byte per loop iteration. */
  method CalculatePec(data: seq<bv8>) returns (pec: seq<bv8>)
    ensures pec == Pec(data)
  {
    var remainder: bv16 := Seed;
    var i := 0;
    while i < |data|
      invariant 0 <= i <= |data|
      invariant remainder == Remainder(data[..i])
    {
      var address := Address(remainder, data[i]);
      assert data[..i + 1][..i] == data[..i];
      remainder := (remainder << 8) ^ Crc15Table[address as int];
      i := i + 1;
    }
    assert data[..i] == data;
    pec := PecBytes(remainder);
  }

  /** The PEC of an empty frame is the seed shifted once: 0x0020. */
  lemma PecOfEmpty()
    ensures Pec([]) == [0x00, 0x20]
  {
  }

  // ---------------------------------------------------------------------
  // Polynomial division, one bit per step: shift the 15-bit register left
  // and subtract (xor) the polynomial whenever bit 14 leaves it.

  /** One shift of the 15-bit CRC register. */
  function GenStep(g: bv16): bv16
  {
    ((g << 1) & 0x7FFF) ^ (if (g >> 14) & 1 == 1 then Poly else 0)
  }

  /** Eight shifts of the CRC register: one byte's worth of division. */
  function Gen8(g: bv16): bv16
  {
    GenStep(GenStep(GenStep(GenStep(GenStep(GenStep(GenStep(GenStep(g))))))))
  }

  lemma TableEntries0(k: bv8)
    requires 0x00 <= k <= 0x07
    ensures Crc15Table[k as int] & 0x7FFF == Gen8((k as bv16) << 7)
  {
    if k == 0x00 { }
    else if k == 0x01 { }
    else if k == 0x02 { }
    else if k == 0x03 { }
    else if k == 0x04 { }
    else if k == 0x05 { }
    else if k == 0x06 { }
    else { }
  }

  lemma TableEntries1(k: bv8)
    requires 0x08 <= k <= 0x0f
    ensures Crc15Table[k as int] & 0x7FFF == Gen8((k as bv16) << 7)
  {
    if k == 0x08 { }
    else if k == 0x09 { }
    else if k == 0x0a { }
    else if k == 0x0b { }
    else if k == 0x0c { }
    else if k == 0x0d { }
    else if k == 0x0e { }
    else { }
  }

  lemma TableEntries2(k: bv8)
    requires 0x10 <= k <= 0x17
    ensures Crc15Table[k as int] & 0x7FFF == Gen8((k as bv16) << 7)
  {
    if k == 0x10 { }
    else if k == 0x11 { }
    else if k == 0x12 { }
    else if k == 0x13 { }
    else if k == 0x14 { }
    else if k == 0x15 { }
    else if k == 0x16 { }
    else { }
  }

  lemma TableEntries3(k: bv8)
    requires 0x18 <= k <= 0x1f
    ensures Crc15Table[k as int] & 0x7FFF == Gen8((k as bv16) << 7)
  {
    if k == 0x18 { }
    else if k == 0x19 { }
    else if k == 0x1a { }
    else if k == 0x1b { }
    else if k == 0x1c { }
    else if k == 0x1d { }
    else if k == 0x1e { }
    else { }
  }

  lemma TableEntries4(k: bv8)
    requires 0x20 <= k <= 0x27
    ensures Crc15Table[k as int] & 0x7FFF == Gen8((k as bv16) << 7)
  {
    if k == 0x20 { }
    else if k == 0x21 { }
    else if k == 0x22 { }
    else if k == 0x23 { }
    else if k == 0x24 { }
    else if k == 0x25 { }
    else if k == 0x26 { }
    else { }
  }

  lemma TableEntries5(k: bv8)
    requires 0x28 <= k <= 0x2f
    ensures Crc15Table[k as int] & 0x7FFF == Gen8((k as bv16) << 7)
  {
    if k == 0x28 { }
    else if k == 0x29 { }
    else if k == 0x2a { }
    else if k == 0x2b { }
    else if k == 0x2c { }
    else if k == 0x2d { }
    else if k == 0x2e { }
    else { }
  }

  lemma TableEntries6(k: bv8)
    requires 0x30 <= k <= 0x37
    ensures Crc15Table[k as int] & 0x7FFF == Gen8((k as bv16) << 7)
  {
    if k == 0x30 { }
    else if k == 0x31 { }
    else if k == 0x32 { }
    else if k == 0x33 { }
    else if k == 0x34 { }
    else if k == 0x35 { }
    else if k == 0x36 { }
    else { }
  }

  lemma TableEntries7(k: bv8)
    requires 0x38 <= k <= 0x3f
    ensures Crc15Table[k as int] & 0x7FFF == Gen8((k as bv16) << 7)
  {
    if k == 0x38 { }
    else if k == 0x39 { }
    else if k == 0x3a { }
    else if k == 0x3b { }
    else if k == 0x3c { }
    else if k == 0x3d { }
    else if k == 0x3e { }
    else { }
  }

  lemma TableEntries8(k: bv8)
    requires 0x40 <= k <= 0x47
    ensures Crc15Table[k as int] & 0x7FFF == Gen8((k as bv16) << 7)
  {
    if k == 0x40 { }
    else if k == 0x41 { }
    else if k == 0x42 { }
    else if k == 0x43 { }
    else if k == 0x44 { }
    else if k == 0x45 { }
    else if k == 0x46 { }
    else { }
  }

  lemma TableEntries9(k: bv8)
    requires 0x48 <= k <= 0x4f
    ensures Crc15Table[k as int] & 0x7FFF == Gen8((k as bv16) << 7)
  {
    if k == 0x48 { }
    else if k == 0x49 { }
    else if k == 0x4a { }
    else if k == 0x4b { }
    else if k == 0x4c { }
    else if k == 0x4d { }
    else if k == 0x4e { }
    else { }
  }

  lemma TableEntries10(k: bv8)
    requires 0x50 <= k <= 0x57
    ensures Crc15Table[k as int] & 0x7FFF == Gen8((k as bv16) << 7)
  {
    if k == 0x50 { }
    else if k == 0x51 { }
    else if k == 0x52 { }
    else if k == 0x53 { }
    else if k == 0x54 { }
    else if k == 0x55 { }
    else if k == 0x56 { }
    else { }
  }

  lemma TableEntries11(k: bv8)
    requires 0x58 <= k <= 0x5f
    ensures Crc15Table[k as int] & 0x7FFF == Gen8((k as bv16) << 7)
  {
    if k == 0x58 { }
    else if k == 0x59 { }
    else if k == 0x5a { }
    else if k == 0x5b { }
    else if k == 0x5c { }
    else if k == 0x5d { }
    else if k == 0x5e { }
    else { }
  }

  lemma TableEntries12(k: bv8)
    requires 0x60 <= k <= 0x67
    ensures Crc15Table[k as int] & 0x7FFF == Gen8((k as bv16) << 7)
  {
    if k == 0x60 { }
    else if k == 0x61 { }
    else if k == 0x62 { }
    else if k == 0x63 { }
    else if k == 0x64 { }
    else if k == 0x65 { }
    else if k == 0x66 { }
    else { }
  }

  lemma TableEntries13(k: bv8)
    requires 0x68 <= k <= 0x6f
    ensures Crc15Table[k as int] & 0x7FFF == Gen8((k as bv16) << 7)
  {
    if k == 0x68 { }
    else if k == 0x69 { }
    else if k == 0x6a { }
    else if k == 0x6b { }
    else if k == 0x6c { }
    else if k == 0x6d { }
    else if k == 0x6e { }
    else { }
  }

  lemma TableEntries14(k: bv8)
    requires 0x70 <= k <= 0x77
    ensures Crc15Table[k as int] & 0x7FFF == Gen8((k as bv16) << 7)
  {
    if k == 0x70 { }
    else if k == 0x71 { }
    else if k == 0x72 { }
    else if k == 0x73 { }
    else if k == 0x74 { }
    else if k == 0x75 { }
    else if k == 0x76 { }
    else { }
  }

  lemma TableEntries15(k: bv8)
    requires 0x78 <= k <= 0x7f
    ensures Crc15Table[k as int] & 0x7FFF == Gen8((k as bv16) << 7)
  {
    if k == 0x78 { }
    else if k == 0x79 { }
    else if k == 0x7a { }
    else if k == 0x7b { }
    else if k == 0x7c { }
    else if k == 0x7d { }
    else if k == 0x7e { }
    else { }
  }

  lemma TableEntries16(k: bv8)
    requires 0x80 <= k <= 0x87
    ensures Crc15Table[k as int] & 0x7FFF == Gen8((k as bv16) << 7)
  {
    if k == 0x80 { }
    else if k == 0x81 { }
    else if k == 0x82 { }
    else if k == 0x83 { }
    else if k == 0x84 { }
    else if k == 0x85 { }
    else if k == 0x86 { }
    else { }
  }

  lemma TableEntries17(k: bv8)
    requires 0x88 <= k <= 0x8f
    ensures Crc15Table[k as int] & 0x7FFF == Gen8((k as bv16) << 7)
  {
    if k == 0x88 { }
    else if k == 0x89 { }
    else if k == 0x8a { }
    else if k == 0x8b { }
    else if k == 0x8c { }
    else if k == 0x8d { }
    else if k == 0x8e { }
    else { }
  }

  lemma TableEntries18(k: bv8)
    requires 0x90 <= k <= 0x97
    ensures Crc15Table[k as int] & 0x7FFF == Gen8((k as bv16) << 7)
  {
    if k == 0x90 { }
    else if k == 0x91 { }
    else if k == 0x92 { }
    else if k == 0x93 { }
    else if k == 0x94 { }
    else if k == 0x95 { }
    else if k == 0x96 { }
    else { }
  }

  lemma TableEntries19(k: bv8)
    requires 0x98 <= k <= 0x9f
    ensures Crc15Table[k as int] & 0x7FFF == Gen8((k as bv16) << 7)
  {
    if k == 0x98 { }
    else if k == 0x99 { }
    else if k == 0x9a { }
    else if k == 0x9b { }
    else if k == 0x9c { }
    else if k == 0x9d { }
    else if k == 0x9e { }
    else { }
  }

  lemma TableEntries20(k: bv8)
    requires 0xa0 <= k <= 0xa7
    ensures Crc15Table[k as int] & 0x7FFF == Gen8((k as bv16) << 7)
  {
    if k == 0xa0 { }
    else if k == 0xa1 { }
    else if k == 0xa2 { }
    else if k == 0xa3 { }
    else if k == 0xa4 { }
    else if k == 0xa5 { }
    else if k == 0xa6 { }
    else { }
  }

  lemma TableEntries21(k: bv8)
    requires 0xa8 <= k <= 0xaf
    ensures Crc15Table[k as int] & 0x7FFF == Gen8((k as bv16) << 7)
  {
    if k == 0xa8 { }
    else if k == 0xa9 { }
    else if k == 0xaa { }
    else if k == 0xab { }
    else if k == 0xac { }
    else if k == 0xad { }
    else if k == 0xae { }
    else { }
  }

  lemma TableEntries22(k: bv8)
    requires 0xb0 <= k <= 0xb7
    ensures Crc15Table[k as int] & 0x7FFF == Gen8((k as bv16) << 7)
  {
    if k == 0xb0 { }
    else if k == 0xb1 { }
    else if k == 0xb2 { }
    else if k == 0xb3 { }
    else if k == 0xb4 { }
    else if k == 0xb5 { }
    else if k == 0xb6 { }
    else { }
  }

  lemma TableEntries23(k: bv8)
    requires 0xb8 <= k <= 0xbf
    ensures Crc15Table[k as int] & 0x7FFF == Gen8((k as bv16) << 7)
  {
    if k == 0xb8 { }
    else if k == 0xb9 { }
    else if k == 0xba { }
    else if k == 0xbb { }
    else if k == 0xbc { }
    else if k == 0xbd { }
    else if k == 0xbe { }
    else { }
  }

  lemma TableEntries24(k: bv8)
    requires 0xc0 <= k <= 0xc7
    ensures Crc15Table[k as int] & 0x7FFF == Gen8((k as bv16) << 7)
  {
    if k == 0xc0 { }
    else if k == 0xc1 { }
    else if k == 0xc2 { }
    else if k == 0xc3 { }
    else if k == 0xc4 { }
    else if k == 0xc5 { }
    else if k == 0xc6 { }
    else { }
  }

  lemma TableEntries25(k: bv8)
    requires 0xc8 <= k <= 0xcf
    ensures Crc15Table[k as int] & 0x7FFF == Gen8((k as bv16) << 7)
  {
    if k == 0xc8 { }
    else if k == 0xc9 { }
    else if k == 0xca { }
    else if k == 0xcb { }
    else if k == 0xcc { }
    else if k == 0xcd { }
    else if k == 0xce { }
    else { }
  }

  lemma TableEntries26(k: bv8)
    requires 0xd0 <= k <= 0xd7
    ensures Crc15Table[k as int] & 0x7FFF == Gen8((k as bv16) << 7)
  {
    if k == 0xd0 { }
    else if k == 0xd1 { }
    else if k == 0xd2 { }
    else if k == 0xd3 { }
    else if k == 0xd4 { }
    else if k == 0xd5 { }
    else if k == 0xd6 { }
    else { }
  }

  lemma TableEntries27(k: bv8)
    requires 0xd8 <= k <= 0xdf
    ensures Crc15Table[k as int] & 0x7FFF == Gen8((k as bv16) << 7)
  {
    if k == 0xd8 { }
    else if k == 0xd9 { }
    else if k == 0xda { }
    else if k == 0xdb { }
    else if k == 0xdc { }
    else if k == 0xdd { }
    else if k == 0xde { }
    else { }
  }

  lemma TableEntries28(k: bv8)
    requires 0xe0 <= k <= 0xe7
    ensures Crc15Table[k as int] & 0x7FFF == Gen8((k as bv16) << 7)
  {
    if k == 0xe0 { }
    else if k == 0xe1 { }
    else if k == 0xe2 { }
    else if k == 0xe3 { }
    else if k == 0xe4 { }
    else if k == 0xe5 { }
    else if k == 0xe6 { }
    else { }
  }

  lemma TableEntries29(k: bv8)
    requires 0xe8 <= k <= 0xef
    ensures Crc15Table[k as int] & 0x7FFF == Gen8((k as bv16) << 7)
  {
    if k == 0xe8 { }
    else if k == 0xe9 { }
    else if k == 0xea { }
    else if k == 0xeb { }
    else if k == 0xec { }
    else if k == 0xed { }
    else if k == 0xee { }
    else { }
  }

  lemma TableEntries30(k: bv8)
    requires 0xf0 <= k <= 0xf7
    ensures Crc15Table[k as int] & 0x7FFF == Gen8((k as bv16) << 7)
  {
    if k == 0xf0 { }
    else if k == 0xf1 { }
    else if k == 0xf2 { }
    else if k == 0xf3 { }
    else if k == 0xf4 { }
    else if k == 0xf5 { }
    else if k == 0xf6 { }
    else { }
  }

  lemma TableEntries31(k: bv8)
    requires 0xf8 <= k <= 0xff
    ensures Crc15Table[k as int] & 0x7FFF == Gen8((k as bv16) << 7)
  {
    if k == 0xf8 { }
    else if k == 0xf9 { }
    else if k == 0xfa { }
    else if k == 0xfb { }
    else if k == 0xfc { }
    else if k == 0xfd { }
    else if k == 0xfe { }
    else { }
  }

  /** Every table entry, up to bit 15 (which the final shift discards), is
      one byte of polynomial division applied to its index placed in bits 14..7:
      the table is the CRC-15 table of polynomial 0x4599. */
  lemma TableIsGenerated(k: bv8)
    ensures Crc15Table[k as int] & 0x7FFF == Gen8((k as bv16) << 7)
  {
    if k <= 0x07 { TableEntries0(k); }
    else if k <= 0x0f { TableEntries1(k); }
    else if k <= 0x17 { TableEntries2(k); }
    else if k <= 0x1f { TableEntries3(k); }
    else if k <= 0x27 { TableEntries4(k); }
    else if k <= 0x2f { TableEntries5(k); }
    else if k <= 0x37 { TableEntries6(k); }
    else if k <= 0x3f { TableEntries7(k); }
    else if k <= 0x47 { TableEntries8(k); }
    else if k <= 0x4f { TableEntries9(k); }
    else if k <= 0x57 { TableEntries10(k); }
    else if k <= 0x5f { TableEntries11(k); }
    else if k <= 0x67 { TableEntries12(k); }
    else if k <= 0x6f { TableEntries13(k); }
    else if k <= 0x77 { TableEntries14(k); }
    else if k <= 0x7f { TableEntries15(k); }
    else if k <= 0x87 { TableEntries16(k); }
    else if k <= 0x8f { TableEntries17(k); }
    else if k <= 0x97 { TableEntries18(k); }
    else if k <= 0x9f { TableEntries19(k); }
    else if k <= 0xa7 { TableEntries20(k); }
    else if k <= 0xaf { TableEntries21(k); }
    else if k <= 0xb7 { TableEntries22(k); }
    else if k <= 0xbf { TableEntries23(k); }
    else if k <= 0xc7 { TableEntries24(k); }
    else if k <= 0xcf { TableEntries25(k); }
    else if k <= 0xd7 { TableEntries26(k); }
    else if k <= 0xdf { TableEntries27(k); }
    else if k <= 0xe7 { TableEntries28(k); }
    else if k <= 0xef { TableEntries29(k); }
    else if k <= 0xf7 { TableEntries30(k); }
    else { TableEntries31(k); }
  }
}
