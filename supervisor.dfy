/**
 * The decisions taken by the firmware's supervising tasks: the safety
 * interlock, which closes (drives its pin high) only while every cell voltage
 * and the temperature are inside their limits, and the CAN reader, which puts
 * the monitor back into normal mode whenever any frame arrives.
 */
module Supervisor {
  import opened Bits
  import opened Types
  import opened BmsState
  import opened CanFrames
  import opened Ltc

  /** A cell reading inside the inclusive voltage window. */
  predicate CellInRange(v: U16)
  {
    Voltages.MinVoltage.AsRaw() <= v <= Voltages.MaxVoltage.AsRaw()
  }

  /** A temperature inside the inclusive temperature window. */
  predicate TempInRange(t: U16)
  {
    Temperatures.MinTemp.AsRaw() <= t <= Temperatures.MaxTemp.AsRaw()
  }

  /** The interlock may close: every cell and the temperature are in range. */
  predicate InLimits(cells: seq<U16>, temp: U16)
  {
    (forall i :: 0 <= i < |cells| ==> CellInRange(cells[i])) && TempInRange(temp)
  }

  /** The reasons the interlock opens, stated as violations of the limits. */
  predicate Violation(cells: seq<U16>, temp: U16)
  {
    || (exists i :: 0 <= i < |cells| && (cells[i] < 32000 || cells[i] > 42800))
    || temp < 10
    || temp > 60
  }

  /** The interlock is open exactly when some limit is violated. */
  lemma InLimitsIffNoViolation(cells: seq<U16>, temp: U16)
    ensures InLimits(cells, temp) <==> !Violation(cells, temp)
  {
  }

  /** A reading equal to a limit counts as in range, and one a step beyond it does not. */
  lemma LimitsInclusive()
    ensures CellInRange(32000) && CellInRange(42800)
    ensures !CellInRange(31999) && !CellInRange(42801)
    ensures TempInRange(10) && TempInRange(60)
    ensures !TempInRange(9) && !TempInRange(61)
  {
  }

  /** An out-of-range temperature opens the interlock whatever the cells read. */
  lemma TemperatureOverrides(cells: seq<U16>, temp: U16)
    requires !TempInRange(temp)
    ensures !InLimits(cells, temp)
  {
  }

  /** The scan of the cells, stopping at the first one outside the window,
      then the temperature test. */
  method ErrCheckClose(bms: Bms) returns (close: bool)
    ensures close <==> InLimits(bms.cellVolts[..], bms.temp)
  {
    close := true;
    var k := 0;
    while k < bms.cellVolts.Length
      invariant 0 <= k <= bms.cellVolts.Length
      invariant close
      invariant forall i :: 0 <= i < k ==> CellInRange(bms.cellVolts[i])
    {
      var cell := bms.cellVolts[k];
      if cell < Voltages.MinVoltage.AsRaw() || cell > Voltages.MaxVoltage.AsRaw() {
        close := false;
        break;
      }
      k := k + 1;
    }
    if bms.temp < Temperatures.MinTemp.AsRaw() || bms.temp > Temperatures.MaxTemp.AsRaw() {
      close := false;
    }
  }

  /** The output driving the interlock line. */
  class Pin {
    var high: bool

    constructor ()
      ensures !high
    {
      high := false;
    }

    method SetHigh()
      modifies this
      ensures high
    {
      high := true;
    }

    method SetLow()
      modifies this
      ensures !high
    {
      high := false;
    }
  }

  /** One pass of the interlock task: decide, then drive the pin. */
  method CheckErrCheck(bms: Bms, pin: Pin)
    modifies pin
    ensures pin.high <==> InLimits(bms.cellVolts[..], bms.temp)
  {
    var close := ErrCheckClose(bms);
    if close {
      pin.SetHigh();
    } else {
      pin.SetLow();
    }
  }

  /** What a CAN read returns: a frame, or an error (nothing arrived). */
  datatype ReadOutcome = Frame(frame: CanFrame) | NoMessage

  /** One pass of the CAN reader. Any frame, whatever it carries, returns the
      monitor to normal mode and restarts the silence timer; an error changes
      neither. The current time is a parameter. */
  method ReadCan(ltc: Ltc6811, outcome: ReadOutcome, now: nat, lastHeard: nat)
    returns (heard: nat)
    modifies ltc
    ensures outcome.Frame? ==> ltc.mode == Normal && heard == now
    ensures outcome.NoMessage? ==> ltc.mode == old(ltc.mode) && heard == lastHeard
    ensures ltc.config == old(ltc.config)
  {
    match outcome
    case Frame(_) =>
      heard := now;
      ltc.SetMode(Normal);
    case NoMessage =>
      heard := lastHeard;
  }
}
