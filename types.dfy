/**
 * The fixed numbers of the battery monitor: the CAN identifiers of its two
 * summary frames and the voltage and temperature limits of the interlock.
 * Each is a u16-backed enumeration whose raw value is its discriminant.
 */
module Types {
  import opened Bits

  /** The largest 11-bit (standard) CAN identifier. */
  const MaxStandardId: nat := 0x7FF

  datatype CanMsg = VoltageId | TemperatureId
  {
    /** The discriminant; both identifiers are standard 11-bit CAN ids. */
    function AsRaw(): (raw: U16)
      ensures raw <= MaxStandardId
    {
      match this
      case VoltageId => 0x57
      case TemperatureId => 0x58
    }
  }

  /** Cell voltage limits, in units of 100 microvolts. */
  datatype Voltages = MaxVoltage | MinVoltage
  {
    function AsRaw(): (raw: U16)
      ensures raw == if this == MaxVoltage then 42800 else 32000
    {
      match this
      case MaxVoltage => 42800
      case MinVoltage => 32000
    }
  }

  /** Temperature limits. */
  datatype Temperatures = MaxTemp | MinTemp
  {
    function AsRaw(): (raw: U16)
      ensures raw == if this == MaxTemp then 60 else 10
    {
      match this
      case MaxTemp => 60
      case MinTemp => 10
    }
  }

  /** The two summary frames travel under 0x57 and 0x58, and no two message kinds share an id. */
  lemma CanMsgIds()
    ensures CanMsg.VoltageId.AsRaw() == 0x57 && CanMsg.TemperatureId.AsRaw() == 0x58
    ensures forall a: CanMsg, b: CanMsg :: a.AsRaw() == b.AsRaw() ==> a == b
  {
  }

  /** The voltage window is non-empty: 32000 below 42800; the two limits are distinct values. */
  lemma VoltageLimits()
    ensures Voltages.MinVoltage.AsRaw() == 32000 && Voltages.MaxVoltage.AsRaw() == 42800
    ensures Voltages.MinVoltage.AsRaw() < Voltages.MaxVoltage.AsRaw()
    ensures forall a: Voltages, b: Voltages :: a.AsRaw() == b.AsRaw() ==> a == b
  {
  }

  /** The temperature window is non-empty: 10 below 60; the two limits are distinct values. */
  lemma TemperatureLimits()
    ensures Temperatures.MinTemp.AsRaw() == 10 && Temperatures.MaxTemp.AsRaw() == 60
    ensures Temperatures.MinTemp.AsRaw() < Temperatures.MaxTemp.AsRaw()
    ensures forall a: Temperatures, b: Temperatures :: a.AsRaw() == b.AsRaw() ==> a == b
  {
  }
}
