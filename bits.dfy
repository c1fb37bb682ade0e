/**
 * Unsigned fixed-width integers and their bit operations, stated on
 * mathematical integers: bit k of n is (n >> k) & 1, setting it is
 * n | (1 << k), clearing it is n & !(1 << k).
 */
module Bits {

  type U8 = x: int | 0 <= x < 0x100
  type U16 = x: int | 0 <= x < 0x1_0000
  type U32 = x: int | 0 <= x < 0x1_0000_0000

  /** 2 to the power k: the value of 1 << k. */
  function Pow2(k: nat): (p: nat)
    ensures p >= 1
  {
    if k == 0 then 1 else 2 * Pow2(k - 1)
  }

  /** Bit k of n, i.e. (n >> k) & 1 == 1. */
  predicate Bit(n: nat, k: nat)
  {
    if k == 0 then n % 2 == 1 else Bit(n / 2, k - 1)
  }

  /** n | (1 << k). */
  function SetBit(n: nat, k: nat): nat
  {
    if k == 0 then n - n % 2 + 1 else 2 * SetBit(n / 2, k - 1) + n % 2
  }

  /** n & !(1 << k). */
  function ClearBit(n: nat, k: nat): nat
  {
    if k == 0 then n - n % 2 else 2 * ClearBit(n / 2, k - 1) + n % 2
  }

  /** The number whose bit j is flags[j]: flags[0] is the least significant bit. */
  function Pack(flags: seq<bool>): nat
  {
    if |flags| == 0 then 0 else (if flags[0] then 1 else 0) + 2 * Pack(flags[1..])
  }

  lemma {:induction false} SetBitBits(n: nat, k: nat, j: nat)
    ensures Bit(SetBit(n, k), j) == (j == k || Bit(n, j))
  {
    if k > 0 && j > 0 {
      SetBitBits(n / 2, k - 1, j - 1);
    }
  }

  lemma {:induction false} ClearBitBits(n: nat, k: nat, j: nat)
    ensures Bit(ClearBit(n, k), j) == (j != k && Bit(n, j))
  {
    if k > 0 && j > 0 {
      ClearBitBits(n / 2, k - 1, j - 1);
    }
  }

  lemma {:induction false} SetBitBound(n: nat, k: nat, m: nat)
    requires n < Pow2(m) && k < m
    ensures SetBit(n, k) < Pow2(m)
  {
    var half := Pow2(m - 1);
    assert Pow2(m) == 2 * half;
    if k > 0 {
      assert n / 2 < half;
      SetBitBound(n / 2, k - 1, m - 1);
    } else {
      assert n / 2 < half;
      assert n - n % 2 == 2 * (n / 2);
    }
  }

  lemma {:induction false} ClearBitBound(n: nat, k: nat)
    ensures ClearBit(n, k) <= n
  {
    if k > 0 {
      ClearBitBound(n / 2, k - 1);
    }
  }

  /** A number below 2^m has no bit at m or above. */
  lemma {:induction false} HighBitsClear(n: nat, m: nat, j: nat)
    requires n < Pow2(m) && m <= j
    ensures !Bit(n, j)
  {
    if j > 0 {
      if m == 0 {
        HighBitsClear(n / 2, 0, j - 1);
      } else {
        HighBitsClear(n / 2, m - 1, j - 1);
      }
    }
  }

  /** Two numbers below 2^m with the same m low bits are equal. */
  lemma {:induction false} BitsDetermine(a: nat, b: nat, m: nat)
    requires a < Pow2(m) && b < Pow2(m)
    requires forall j :: 0 <= j < m ==> Bit(a, j) == Bit(b, j)
    ensures a == b
  {
    if m > 0 {
      assert Bit(a, 0) == Bit(b, 0);
      forall j | 0 <= j < m - 1
        ensures Bit(a / 2, j) == Bit(b / 2, j)
      {
        assert Bit(a, j + 1) == Bit(b, j + 1);
      }
      BitsDetermine(a / 2, b / 2, m - 1);
    }
  }

  lemma {:induction false} PackBits(flags: seq<bool>, j: nat)
    ensures Bit(Pack(flags), j) == (j < |flags| && flags[j])
  {
    if |flags| > 0 && j > 0 {
      PackBits(flags[1..], j - 1);
    } else if |flags| == 0 && j > 0 {
      HighBitsClear(0, 0, j);
    }
  }

  lemma {:induction false} PackBound(flags: seq<bool>)
    ensures Pack(flags) < Pow2(|flags|)
  {
    if |flags| > 0 {
      PackBound(flags[1..]);
    }
  }

  /** The bits of a + 2^m * b, with a below 2^m: a's bits, then b's. */
  lemma {:induction false} BitOfConcat(a: nat, b: nat, m: nat, j: nat)
    requires a < Pow2(m)
    ensures Bit(a + Pow2(m) * b, j) == if j < m then Bit(a, j) else Bit(b, j - m)
  {
    if m > 0 {
      var t := Pow2(m - 1) * b;
      assert Pow2(m) * b == 2 * t;
      assert (a + 2 * t) % 2 == a % 2;
      assert (a + 2 * t) / 2 == a / 2 + t;
      if j > 0 {
        BitOfConcat(a / 2, b, m - 1, j - 1);
      }
    }
  }

  /** Bit j of n % 2^m is bit j of n below m, and 0 from m on; bit j of n / 2^m is bit j + m of n. */
  lemma LowAndHighBits(n: nat, m: nat, j: nat, low: nat, high: nat)
    requires low == n % Pow2(m) && high == n / Pow2(m)
    ensures Bit(low, j) == (j < m && Bit(n, j))
    ensures Bit(high, j) == Bit(n, j + m)
  {
    assert n == low + Pow2(m) * high;
    BitOfConcat(low, high, m, j);
    BitOfConcat(low, high, m, j + m);
    if m <= j {
      HighBitsClear(low, m, j);
    }
  }

  /** Appending a flag to the top sets or leaves bit |flags|: how a bitmap is built one bit at a time. */
  lemma PackSnoc(flags: seq<bool>, b: bool)
    ensures Pack(flags + [b]) == if b then SetBit(Pack(flags), |flags|) else Pack(flags)
  {
    var n := |flags|;
    var whole := flags + [b];
    var built := if b then SetBit(Pack(flags), n) else Pack(flags);
    PackBound(whole);
    PackBound(flags);
    if b {
      SetBitBound(Pack(flags), n, n + 1);
    }
    forall j | 0 <= j < n + 1
      ensures Bit(Pack(whole), j) == Bit(built, j)
    {
      PackBits(whole, j);
      PackBits(flags, j);
      if b {
        SetBitBits(Pack(flags), n, j);
      }
    }
    BitsDetermine(Pack(whole), built, n + 1);
  }

  /** Setting bit k changes no other bit (the quantified form of SetBitBits). */
  lemma SetBitOnly(n: nat, k: nat)
    ensures forall j: nat :: Bit(SetBit(n, k), j) == (j == k || Bit(n, j))
  {
    forall j: nat
      ensures Bit(SetBit(n, k), j) == (j == k || Bit(n, j))
    {
      SetBitBits(n, k, j);
    }
  }

  /** Clearing bit k changes no other bit (the quantified form of ClearBitBits). */
  lemma ClearBitOnly(n: nat, k: nat)
    ensures forall j: nat :: Bit(ClearBit(n, k), j) == (j != k && Bit(n, j))
  {
    forall j: nat
      ensures Bit(ClearBit(n, k), j) == (j != k && Bit(n, j))
    {
      ClearBitBits(n, k, j);
    }
  }

  lemma Pow2Values()
    ensures Pow2(4) == 0x10 && Pow2(8) == 0x100
  {
    assert Pow2(4) == 0x10;
    assert Pow2(8) == 0x100;
  }

  /** The u16 with high byte `hi` and low byte `lo`: ((hi as u16) << 8) | lo as u16. */
  function Join(hi: bv8, lo: bv8): U16
  {
    (hi as int) * 0x100 + lo as int
  }

  /** A joined u16 splits back into its two bytes. */
  lemma JoinParts(hi: bv8, lo: bv8)
    ensures Join(hi, lo) / 0x100 == hi as int
    ensures Join(hi, lo) % 0x100 == lo as int
  {
    ByteDivMod(hi as int, lo as int);
  }

  lemma ByteDivMod(h: nat, l: nat)
    requires l < 0x100
    ensures (h * 0x100 + l) / 0x100 == h && (h * 0x100 + l) % 0x100 == l
  {
  }
}
