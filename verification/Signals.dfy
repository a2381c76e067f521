/** Signal slots of a cached sample and where each family keeps its calibration level and
    compensation (src/devices/common/sample_helpers.cpp, src/devices). */
module Signals {
  import opened Statuses
  import opened Probe

  datatype Slot = Slot(available: bool, hasValue: bool, value: real, reason: string)

  const EMPTY_SLOT := Slot(true, false, 0.0, "")

  function ValueSlot(value: real): Slot { Slot(true, true, value, "") }
  function UnavailableSlot(reason: string): Slot { Slot(false, false, 0.0, reason) }

  function SignalCount(f: Family): nat {
    match f
    case Ph => 3
    case Do => 6
    case Ec => 4
    case Hum => 3
    case Orp => 1
    case Rtd => 1
  }

  function LevelSignal(f: Family): Option<nat> {
    match f case Ph => Some(1) case Do => Some(2) case _ => None
  }

  function TemperatureSignal(f: Family): Option<nat> {
    match f case Ph => Some(2) case Do => Some(3) case _ => None
  }

  function SalinitySignal(f: Family): Option<nat> { if f.Do? then Some(4) else None }

  function PressureSignal(f: Family): Option<nat> { if f.Do? then Some(5) else None }

  predicate Calibrates(f: Family) { LevelSignal(f).Some? }

  predicate Compensates(f: Family) { TemperatureSignal(f).Some? }

  /** The signals of a family's own sample, before those read on demand. */
  function OwnSignals(f: Family): nat {
    match f
    case Do => 2  // mg/L and percent saturation
    case Ec => 4
    case Hum => 3
    case _ => 1
  }

  /** The level comes right after a family's own signals, then the compensation temperature,
      salinity and pressure, and nothing else. */
  lemma SignalLayout(f: Family)
    ensures LevelSignal(f).Some? ==> LevelSignal(f).value == OwnSignals(f)
    ensures TemperatureSignal(f).Some? ==>
      LevelSignal(f).Some? && TemperatureSignal(f).value == LevelSignal(f).value + 1
    ensures SalinitySignal(f).Some? ==>
      TemperatureSignal(f).Some? && SalinitySignal(f).value == TemperatureSignal(f).value + 1
    ensures PressureSignal(f).Some? ==>
      SalinitySignal(f).Some? && PressureSignal(f).value == SalinitySignal(f).value + 1
    ensures SignalCount(f) ==
      if PressureSignal(f).Some? then PressureSignal(f).value + 1
      else if TemperatureSignal(f).Some? then TemperatureSignal(f).value + 1
      else OwnSignals(f)
  {
  }
}
