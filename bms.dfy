/**
 * The battery state record: twelve cell voltages and the aggregates the
 * firmware keeps next to them (total, maximum, minimum, rounded average),
 * plus one temperature reading.
 *
 * Every cell update rewrites the cell in place and then recomputes all
 * aggregates from scratch in one pass over the cells, so the aggregates are
 * always a function of the cell array (the invariant Valid below).
 */
module BmsState {
  import opened Bits

  const NumCells: nat := 12

  /** The sum of the cells, folded from the front. */
  function Sum(cells: seq<U16>): nat
  {
    if |cells| == 0 then 0 else Sum(cells[..|cells| - 1]) + cells[|cells| - 1]
  }

  /** The running maximum of the recomputation loop: starts at 0, takes a cell when it is larger. */
  function MaxOf(cells: seq<U16>): U16
  {
    if |cells| == 0 then 0
    else
      var m := MaxOf(cells[..|cells| - 1]);
      var v := cells[|cells| - 1];
      if v > m then v else m
  }

  /** The running minimum of the recomputation loop: starts at 65535, takes a cell when it is smaller. */
  function MinOf(cells: seq<U16>): U16
  {
    if |cells| == 0 then 0xFFFF
    else
      var m := MinOf(cells[..|cells| - 1]);
      var v := cells[|cells| - 1];
      if v < m then v else m
  }

  /** The average of twelve cells whose sum is `total`, rounded to the nearest integer, halves up. */
  function RoundedAverage(total: nat): nat
  {
    (total + 6) / 12
  }

  class Bms {
    var cellVolts: array<U16>
    var totVolt: U32
    var maxVolt: U16
    var minVolt: U16
    var avgVolt: U16
    var temp: U16

    /** The aggregates agree with the cells. */
    ghost predicate Valid()
      reads this, cellVolts
    {
      && cellVolts.Length == NumCells
      && totVolt == Sum(cellVolts[..])
      && maxVolt == MaxOf(cellVolts[..])
      && minVolt == MinOf(cellVolts[..])
      && avgVolt == RoundedAverage(totVolt)
    }

    /** The all-zero record. */
    ghost predicate IsZero()
      reads this, cellVolts
    {
      && cellVolts[..] == seq(NumCells, _ => 0)
      && totVolt == 0 && maxVolt == 0 && minVolt == 0 && avgVolt == 0 && temp == 0
    }

    constructor ()
      ensures Valid() && IsZero()
      ensures fresh(cellVolts)
    {
      cellVolts := new U16[NumCells](_ => 0);
      maxVolt := 0;
      minVolt := 0;
      avgVolt := 0;
      totVolt := 0;
      temp := 0;
      new;
      ZeroAggregates(cellVolts[..]);
    }

    /** Overwrites the whole record with the state the constructor builds. */
    method Reset()
      requires cellVolts.Length == NumCells
      modifies this, cellVolts
      ensures cellVolts == old(cellVolts)
      ensures Valid() && IsZero()
    {
      forall i | 0 <= i < cellVolts.Length {
        cellVolts[i] := 0;
      }
      maxVolt := 0;
      minVolt := 0;
      avgVolt := 0;
      totVolt := 0;
      temp := 0;
      ZeroAggregates(cellVolts[..]);
    }

    method UpdateTemp(t: U16)
      modifies this
      ensures temp == t
      ensures cellVolts == old(cellVolts)
      ensures totVolt == old(totVolt) && maxVolt == old(maxVolt)
      ensures minVolt == old(minVolt) && avgVolt == old(avgVolt)
      ensures old(Valid()) ==> Valid()
    {
      temp := t;
    }

    /** Writes one cell and recomputes the aggregates. Indexing past the
        twelfth cell panics in the firmware, hence the precondition. */
    method UpdateCell(i: nat, value: U16)
      requires cellVolts.Length == NumCells
      requires i < NumCells
      modifies this, cellVolts
      ensures cellVolts == old(cellVolts)
      ensures cellVolts[..] == old(cellVolts[..])[i := value]
      ensures temp == old(temp)
      ensures Valid()
    {
      cellVolts[i] := value;
      Update();
    }

    /** One pass over the cells: total by a 32-bit wrapping add, running maximum
        and minimum, then the rounded average. */
    method Update()
      requires cellVolts.Length == NumCells
      modifies this
      ensures cellVolts == old(cellVolts) && temp == old(temp)
      ensures Valid()
    {
      totVolt := 0;
      maxVolt := 0;
      minVolt := 0xFFFF;
      var k := 0;
      while k < NumCells
        invariant 0 <= k <= NumCells
        invariant cellVolts == old(cellVolts) && temp == old(temp)
        invariant totVolt == Sum(cellVolts[..k])
        invariant maxVolt == MaxOf(cellVolts[..k])
        invariant minVolt == MinOf(cellVolts[..k])
      {
        var volt := cellVolts[k];
        assert cellVolts[..k + 1][..k] == cellVolts[..k];
        SumBound(cellVolts[..k]);
        totVolt := (totVolt + volt) % 0x1_0000_0000;
        maxVolt := if volt > maxVolt then volt else maxVolt;
        minVolt := if volt < minVolt then volt else minVolt;
        k := k + 1;
      }
      assert cellVolts[..k] == cellVolts[..];
      SumBound(cellVolts[..]);
      avgVolt := (totVolt + 6) / 12;
    }

    function AvgVolt(): (avg: U16)
      reads this, cellVolts
      requires Valid()
      ensures avg == RoundedAverage(Sum(cellVolts[..]))
    {
      avgVolt
    }

    function TotVolt(): (total: U32)
      reads this, cellVolts
      requires Valid()
      ensures total == Sum(cellVolts[..])
    {
      totVolt
    }

    function MinVolt(): (min: U16)
      reads this, cellVolts
      requires Valid()
      ensures forall j :: 0 <= j < NumCells ==> min <= cellVolts[j]
      ensures exists j :: 0 <= j < NumCells && min == cellVolts[j]
    {
      MinOfSpec(cellVolts[..]);
      minVolt
    }

    function MaxVolt(): (max: U16)
      reads this, cellVolts
      requires Valid()
      ensures forall j :: 0 <= j < NumCells ==> cellVolts[j] <= max
      ensures exists j :: 0 <= j < NumCells && max == cellVolts[j]
    {
      MaxOfSpec(cellVolts[..]);
      maxVolt
    }

    function Temp(): (t: U16)
      reads this
      ensures t == temp
    {
      temp
    }
  }

  /** The aggregates of twelve zero cells are all zero. */
  lemma ZeroAggregates(cells: seq<U16>)
    requires cells == seq(NumCells, _ => 0)
    ensures Sum(cells) == 0 && MaxOf(cells) == 0 && MinOf(cells) == 0
  {
    ZeroPrefix(cells, NumCells);
    assert cells[..NumCells] == cells;
  }

  lemma {:induction false} ZeroPrefix(cells: seq<U16>, n: nat)
    requires n <= |cells|
    requires forall j :: 0 <= j < |cells| ==> cells[j] == 0
    ensures Sum(cells[..n]) == 0 && MaxOf(cells[..n]) == 0
    ensures n > 0 ==> MinOf(cells[..n]) == 0
  {
    if n > 0 {
      assert cells[..n][..n - 1] == cells[..n - 1];
      assert cells[..n][n - 1] == cells[n - 1] == 0;
      ZeroPrefix(cells, n - 1);
    }
  }

  /** Each cell is at most 65535, so twelve of them fit a u32 many times over:
      the firmware's wrapping add never wraps. */
  lemma {:induction false} SumBound(cells: seq<U16>)
    ensures Sum(cells) <= 0xFFFF * |cells|
  {
    if |cells| > 0 {
      SumBound(cells[..|cells| - 1]);
    }
  }

  /** The running maximum of a non-empty sequence bounds every element and is one of them. */
  lemma {:induction false} MaxOfSpec(cells: seq<U16>)
    requires |cells| > 0
    ensures forall j :: 0 <= j < |cells| ==> cells[j] <= MaxOf(cells)
    ensures exists j :: 0 <= j < |cells| && cells[j] == MaxOf(cells)
  {
    var n := |cells| - 1;
    if n == 0 {
      assert cells[0] == MaxOf(cells);
    } else {
      var init := cells[..n];
      MaxOfSpec(init);
      if cells[n] > MaxOf(init) {
        assert cells[n] == MaxOf(cells);
      } else {
        var j :| 0 <= j < n && init[j] == MaxOf(init);
        assert cells[j] == MaxOf(cells);
      }
      forall j | 0 <= j < |cells|
        ensures cells[j] <= MaxOf(cells)
      {
        if j < n {
          assert cells[j] == init[j];
        }
      }
    }
  }

  /** The running minimum of a non-empty sequence bounds every element from below and is one of them. */
  lemma {:induction false} MinOfSpec(cells: seq<U16>)
    requires |cells| > 0
    ensures forall j :: 0 <= j < |cells| ==> MinOf(cells) <= cells[j]
    ensures exists j :: 0 <= j < |cells| && cells[j] == MinOf(cells)
  {
    var n := |cells| - 1;
    if n == 0 {
      assert cells[0] == MinOf(cells);
    } else {
      var init := cells[..n];
      MinOfSpec(init);
      if cells[n] < MinOf(init) {
        assert cells[n] == MinOf(cells);
      } else {
        var j :| 0 <= j < n && init[j] == MinOf(init);
        assert cells[j] == MinOf(cells);
      }
      forall j | 0 <= j < |cells|
        ensures MinOf(cells) <= cells[j]
      {
        if j < n {
          assert cells[j] == init[j];
        }
      }
    }
  }

  /** The sum is at least |cells| times the minimum. */
  lemma {:induction false} SumAtLeast(cells: seq<U16>)
    requires |cells| > 0
    ensures |cells| * MinOf(cells) <= Sum(cells)
  {
    var n := |cells| - 1;
    if n > 0 {
      var init := cells[..n];
      var lo, x := MinOf(cells), cells[n];
      SumAtLeast(init);
      assert lo <= MinOf(init) && lo <= x;
      MulMonotone(n, lo, MinOf(init));
      assert (n + 1) * lo == n * lo + lo;
    }
  }

  /** The sum is at most |cells| times the maximum. */
  lemma {:induction false} SumAtMost(cells: seq<U16>)
    requires |cells| > 0
    ensures Sum(cells) <= |cells| * MaxOf(cells)
  {
    var n := |cells| - 1;
    if n > 0 {
      var init := cells[..n];
      var hi, x := MaxOf(cells), cells[n];
      SumAtMost(init);
      assert MaxOf(init) <= hi && x <= hi;
      MulMonotone(n, MaxOf(init), hi);
      assert (n + 1) * hi == n * hi + hi;
    }
  }

  lemma MulMonotone(n: nat, a: nat, b: nat)
    requires a <= b
    ensures n * a <= n * b
  {
  }

  /** The rounded average is the integer nearest to total / 12, halves rounded up. */
  lemma RoundedAverageIsNearest(total: nat)
    ensures 12 * RoundedAverage(total) <= total + 6 < 12 * RoundedAverage(total) + 12
  {
  }

  /** The average of twelve cells lies between their minimum and their maximum. */
  lemma AverageBetweenMinAndMax(cells: seq<U16>)
    requires |cells| == NumCells
    ensures MinOf(cells) <= RoundedAverage(Sum(cells)) <= MaxOf(cells)
  {
    SumAtLeast(cells);
    SumAtMost(cells);
  }
}
