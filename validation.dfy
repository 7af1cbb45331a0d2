/** The validation run of validation.py: the loadbank follows a current
    profile while the AdcPi2 readings are compared with the loadbank's own.
    The loadbank and its scheduler are outside the model; the answers of
    its `findNow()` are given as a finite run, and the commands sent to it
    are recorded. */
module Validation {
  import Calibration

  /** `__getCurrent`: the stack current calibration with 0.01 A taken off. */
  function Current(raw: real): (r: real)
    ensures r == Calibration.Current(raw) - 0.01
  {
    ((Calibration.RAbs(raw * 1000.0 / Calibration.CurrentGain) + Calibration.CurrentOffset) / Calibration.CurrentSlope) - 0.01
  }

  /** `__getVoltage`: the stack voltage calibration with 0.025 V added. */
  function Voltage(raw: real): (r: real)
    ensures r == Calibration.Voltage(raw) + 0.025
  {
    Calibration.RAbs(raw * 1000.0 / Calibration.VoltageGain) + 0.025
  }

  /** The trimmed readings keep the shape of the controller's: they only
      see the magnitude of the reading, the current is invertible on it,
      and neither falls below its trimmed floor. */
  lemma TrimmedReadings(raw: real)
    ensures Current(-raw) == Current(raw) && Voltage(-raw) == Voltage(raw)
    ensures Calibration.RAbs(raw) == ((Current(raw) + 0.01) * Calibration.CurrentSlope - Calibration.CurrentOffset) * Calibration.CurrentGain / 1000.0
    ensures Current(raw) >= Calibration.CurrentOffset / Calibration.CurrentSlope - 0.01 && Voltage(raw) >= 0.025
  {
    Calibration.CurrentInverse(raw);
    Calibration.VoltageInverse(raw);
  }

  /** A command to the loadbank. */
  datatype Command = LoadSwitch(on: bool) | ConstantCurrent(amps: real)

  /** The last value sent, or -1 (`setpointLast`'s start) when none was. */
  function LastSent(sent: seq<real>): real {
    if |sent| == 0 then -1.0 else sent[|sent| - 1]
  }

  /** The setpoints sent for a run of `findNow()` answers: an answer is sent
      when it is not negative and differs from the last one sent. */
  function Sent(answers: seq<real>): seq<real>
    decreases |answers|
  {
    if |answers| == 0 then []
    else
      var before := Sent(answers[..|answers| - 1]);
      var x := answers[|answers| - 1];
      if x != LastSent(before) && x >= 0.0 then before + [x] else before
  }

  /** Every setpoint sent is a current the loadbank can take, and no two
      in a row are the same. */
  lemma {:induction false} SentWellFormed(answers: seq<real>)
    ensures forall i :: 0 <= i < |Sent(answers)| ==> Sent(answers)[i] >= 0.0
    ensures forall i :: 0 <= i < |Sent(answers)| - 1 ==> Sent(answers)[i] != Sent(answers)[i + 1]
    decreases |answers|
  {
    if |answers| > 0 {
      SentWellFormed(answers[..|answers| - 1]);
    }
  }

  /** Each answer that changes the setpoint is sent: the last answer, when
      not negative, is the last setpoint sent. */
  lemma LastAnswerSent(answers: seq<real>)
    requires |answers| > 0 && answers[|answers| - 1] >= 0.0
    ensures LastSent(Sent(answers)) == answers[|answers| - 1]
  {
  }

  function Commands(sent: seq<real>): (cs: seq<Command>)
    ensures |cs| == |sent| && forall i :: 0 <= i < |sent| ==> cs[i] == ConstantCurrent(sent[i])
  {
    seq(|sent|, i requires 0 <= i < |sent| => ConstantCurrent(sent[i]))
  }

  /** The script after `input()`: the load is switched on, the profile is
      followed until `findNow()` answers a negative (or the answers run
      out), and a finished test sets the current to 0 and turns the load
      off.  `used` is the number of answers read. */
  method Run(answers: seq<real>) returns (commands: seq<Command>, used: nat, finished: bool)
    ensures used <= |answers| && forall j :: 0 <= j < used - 1 ==> answers[j] >= 0.0
    ensures finished <==> used > 0 && answers[used - 1] < 0.0
    ensures !finished ==> used == |answers|
    ensures commands == [LoadSwitch(true)] + Commands(Sent(answers[..used]))
                        + (if finished then [ConstantCurrent(0.0), LoadSwitch(false)] else [])
  {
    var setpoint := 0.0;
    var setpointLast := -1.0;
    commands := [LoadSwitch(true)];
    used := 0;
    while setpoint >= 0.0 && used < |answers|
      invariant used <= |answers| && forall j :: 0 <= j < used - 1 ==> answers[j] >= 0.0
      invariant setpoint < 0.0 <==> used > 0 && answers[used - 1] < 0.0
      invariant setpointLast == LastSent(Sent(answers[..used]))
      invariant commands == [LoadSwitch(true)] + Commands(Sent(answers[..used]))
      decreases |answers| - used
    {
      setpoint := answers[used];
      assert answers[..used + 1][..used] == answers[..used];
      used := used + 1;
      if setpoint != setpointLast && setpoint >= 0.0 {
        setpointLast := setpoint;
        commands := commands + [ConstantCurrent(setpoint)];
      }
    }
    finished := setpoint < 0.0;
    if finished {
      commands := commands + [ConstantCurrent(0.0), LoadSwitch(false)];
    }
  }
}
