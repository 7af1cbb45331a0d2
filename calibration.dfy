/** The conversions from ADC volts to stack current and stack voltage shared
    by h100Controller.py (`__getCurrent`, `__getVoltage`) and controller.py
    (`amps1`, `volts1`): the current sensor gives 4.2882799485 mV per unit
    on a line with offset 0.6009 and slope 1.6046, the voltage divider
    60.9559671563 mV per volt.  Both take the magnitude of the reading. */
module Calibration {

  function RAbs(x: real): (r: real)
    ensures r >= 0.0 && (r == x || r == -x)
  {
    if x < 0.0 then -x else x
  }

  const CurrentGain: real := 4.2882799485
  const CurrentOffset: real := 0.6009
  const CurrentSlope: real := 1.6046
  const VoltageGain: real := 60.9559671563

  /** Stack current in amps from the current channel's reading in volts. */
  function Current(raw: real): (r: real)
    ensures r >= CurrentOffset / CurrentSlope
  {
    (RAbs(raw * 1000.0 / CurrentGain) + CurrentOffset) / CurrentSlope
  }

  /** Stack voltage in volts from the voltage channel's reading in volts. */
  function Voltage(raw: real): (r: real)
    ensures r >= 0.0
  {
    RAbs(raw * 1000.0 / VoltageGain)
  }

  /** The conversions only see the magnitude of the reading, and the current
      grows with it: the current is invertible on the magnitude. */
  lemma CurrentInverse(raw: real)
    ensures Current(-raw) == Current(raw)
    ensures RAbs(raw) == (Current(raw) * CurrentSlope - CurrentOffset) * CurrentGain / 1000.0
  {
    assert RAbs(raw * 1000.0 / CurrentGain) == RAbs(raw) * 1000.0 / CurrentGain;
  }

  lemma CurrentMonotone(a: real, b: real)
    requires RAbs(a) <= RAbs(b)
    ensures Current(a) <= Current(b)
  {
    assert RAbs(a * 1000.0 / CurrentGain) == RAbs(a) * 1000.0 / CurrentGain;
    assert RAbs(b * 1000.0 / CurrentGain) == RAbs(b) * 1000.0 / CurrentGain;
  }

  lemma VoltageInverse(raw: real)
    ensures Voltage(-raw) == Voltage(raw)
    ensures RAbs(raw) == Voltage(raw) * VoltageGain / 1000.0
  {
    assert RAbs(raw * 1000.0 / VoltageGain) == RAbs(raw) * 1000.0 / VoltageGain;
  }
}
