/** Compensation values: their bounds, how they are rounded on the way to the probe and
    back, and when the provider takes a value to be still held
    (src/devices/common/compensation.hpp, src/core/runtime_state.cpp). */
module Compensation {
  import opened Statuses

  /** An empty field is one not set, or not known. */
  datatype Comp = Comp(t: Option<real>, s: Option<real>, p: Option<real>)

  const NOTHING := Comp(None, None, None)

  const MIN_TEMPERATURE := 0.0
  const MAX_TEMPERATURE := 100.0
  const MIN_SALINITY := 0.0
  const MAX_SALINITY := 100000.0
  const MIN_PRESSURE := 10.0
  const MAX_PRESSURE := 300.0

  const DO_DEFAULT_TEMPERATURE := 20.0
  const DO_DEFAULT_SALINITY := 0.0
  const DO_DEFAULT_PRESSURE := 101.3
  const PH_DEFAULT_TEMPERATURE := 25.0

  const DO_DEFAULTS := Comp(Some(DO_DEFAULT_TEMPERATURE), Some(DO_DEFAULT_SALINITY), Some(DO_DEFAULT_PRESSURE))

  // ---- Sending: T and P carry two decimals, S one ------------------------------

  function SentTemperature(x: real): real { (x * 100.0 + 0.5).Floor as real / 100.0 }
  function SentSalinity(x: real): real { (x * 10.0 + 0.5).Floor as real / 10.0 }
  function SentPressure(x: real): real { (x * 100.0 + 0.5).Floor as real / 100.0 }

  // ---- Reading back: within half of the last digit shown ------------------------

  const TEMPERATURE_READBACK := 0.05
  const SALINITY_READBACK := 0.5
  const PRESSURE_READBACK := 0.05

  // ---- Deciding whether a value is still held -----------------------------------

  const TEMPERATURE_TOLERANCE := 0.06
  const SALINITY_TOLERANCE := 1.0
  const PRESSURE_TOLERANCE := 0.06

  function Abs(x: real): real { if x < 0.0 then -x else x }

  predicate Holds(wanted: Option<real>, read: Option<real>, tolerance: real) {
    wanted.None? || (read.Some? && Abs(wanted.value - read.value) <= tolerance)
  }

  predicate HoldsAll(wanted: Comp, read: Comp) {
    && Holds(wanted.t, read.t, TEMPERATURE_TOLERANCE)
    && Holds(wanted.s, read.s, SALINITY_TOLERANCE)
    && Holds(wanted.p, read.p, PRESSURE_TOLERANCE)
  }

  /** A value sent and read back is always recognised: for every real value, whatever
      the rounding on the way in and whatever digit the probe rounds to on the way out. */
  lemma SentValuesAreRecognised(x: real, back: real)
    ensures Abs(back - SentTemperature(x)) <= TEMPERATURE_READBACK ==> Abs(x - back) <= TEMPERATURE_TOLERANCE
    ensures Abs(back - SentSalinity(x)) <= SALINITY_READBACK ==> Abs(x - back) <= SALINITY_TOLERANCE
    ensures Abs(back - SentPressure(x)) <= PRESSURE_READBACK ==> Abs(x - back) <= PRESSURE_TOLERANCE
  {
  }

  /** The margin over the read-back digit is needed: at a tolerance of 0.05 a held value
      would be taken for lost, and sent again at every check. */
  lemma ReadbackDigitAloneIsTooTight() returns (x: real, back: real)
    ensures MIN_TEMPERATURE <= x <= MAX_TEMPERATURE
    ensures Abs(back - SentTemperature(x)) <= TEMPERATURE_READBACK && Abs(x - back) > 0.05
  {
    x, back := 25.045, 25.1;
    assert SentTemperature(x) == 25.05;
  }

  /** The values a DO calibration needs survive the formatting exactly. */
  lemma DefaultsSentExactly()
    ensures SentTemperature(DO_DEFAULT_TEMPERATURE) == DO_DEFAULT_TEMPERATURE
    ensures SentSalinity(DO_DEFAULT_SALINITY) == DO_DEFAULT_SALINITY
    ensures SentPressure(DO_DEFAULT_PRESSURE) == DO_DEFAULT_PRESSURE
  {
  }
}
