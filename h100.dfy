/** The class-based controller `H100` of h100Controller.py.  Each `run()` is
    one tick: it resets the state to off, handles the buttons, applies the
    over-temperature interlock, refreshes the sensors, lets the purge
    controller (if any) set the purge frequency, and passes through the state
    blocks in order.  As written the tick starts from off every time, so the
    stack never gets past startup, and the off button always crashes on
    `self.state.value`.  Every `time()` of one tick reads the same `now`; the
    ADC channels and the four temperatures are inputs of the tick. */
module H100Controller {
  import opened Py
  import opened Switching
  import opened FuelCell
  import Calibration
  import PurgeControl

  /** The class's controllables. */
  const StartTime: real := 3.0
  const StopTime: real := 10.0
  const PurgeTime: real := 0.5
  const InitialPurgeFreq: real := 30.0
  const CutoffTemp: real := 30.0

  /** `max(xs)`. */
  function MaxOf(xs: seq<real>): (m: real)
    requires |xs| > 0
    ensures forall i :: 0 <= i < |xs| ==> xs[i] <= m
    ensures exists i :: 0 <= i < |xs| && xs[i] == m
  {
    if |xs| == 1 then xs[0]
    else
      var rest := MaxOf(xs[1..]);
      assert forall i :: 1 <= i < |xs| ==> xs[i] == xs[1..][i - 1];
      if xs[0] >= rest then xs[0] else rest
  }

  /** The button block on the state s: off, then on, then reset.  The off
      branch compares `self.state.value`, an attribute a string does not
      have, unless the state is startup (the `or` short-circuits). */
  function Buttons(s: State, offPressed: bool, onPressed: bool, resetPressed: bool): (r: Outcome<State>)
    ensures r.Raised? <==> offPressed && s != Startup
    ensures r.Raised? ==> r.exc == AttributeError
    ensures offPressed && r.Ok? ==> r.value == Shutdown
    ensures !offPressed && onPressed ==> r == Ok(if s == Off then Startup else s)
    ensures !offPressed && !onPressed && resetPressed ==> r == Ok(if s == Error then Off else s)
    ensures !offPressed && !onPressed && !resetPressed ==> r == Ok(s)
  {
    if offPressed then
      if s == Startup then Ok(Shutdown) else Raised(AttributeError)
    else if onPressed then
      if s == Off then Ok(Startup) else Ok(s)
    else if resetPressed then
      if s == Error then Ok(Off) else Ok(s)
    else Ok(s)
  }

  /** Lines 82-100 of one tick: the state is set to off, then the buttons
      and the over-temperature check on the stored temperatures (`hot`). */
  function TickStart(offPressed: bool, onPressed: bool, resetPressed: bool, hot: bool): Outcome<State> {
    match Buttons(Off, offPressed, onPressed, resetPressed)
    case Raised(e) => Raised(e)
    case Ok(s) => if hot then Ok(Error) else Ok(s)
  }

  /** The state blocks in order, entered in state s with `elapsed` seconds
      since the last change: the routines that run and the final state.  A
      startup that has lasted long enough becomes on and the on routine runs
      in the same pass; a finished shutdown becomes off after the off block
      was passed, so only the shutdown routine runs. */
  function Dispatch(s: State, elapsed: real): (r: (seq<State>, State))
    ensures |r.0| >= 1 && r.0[0] == s
    ensures |r.0| == 2 <==> s == Startup && elapsed > StartTime
    ensures |r.0| == 2 ==> r.0 == [Startup, On] && r.1 == On
    ensures |r.0| == 1 ==> r.1 == (if s == Shutdown && elapsed > StopTime then Off else s)
  {
    match s
    case Off => ([Off], Off)
    case Startup => if elapsed > StartTime then ([Startup, On], On) else ([Startup], Startup)
    case On => ([On], On)
    case Shutdown => ([Shutdown], if elapsed > StopTime then Off else Shutdown)
    case Error => ([Error], Error)
  }

  /** As written, a tick never reaches the on or shutdown state and never
      runs their routines: the tick starts from off, and a startup entered in
      this tick has lasted 0 seconds. */
  lemma NeverPastStartup(offPressed: bool, onPressed: bool, resetPressed: bool, hot: bool)
    requires TickStart(offPressed, onPressed, resetPressed, hot).Ok?
    ensures var d := Dispatch(TickStart(offPressed, onPressed, resetPressed, hot).value, 0.0);
      d.1 in {Off, Startup, Error} && On !in d.0 && Shutdown !in d.0
  {
  }

  /** The off button crashes the tick whatever else holds; reset is never
      honoured, since the state entering the buttons is always off. */
  lemma ButtonOutcomes(onPressed: bool, resetPressed: bool, hot: bool)
    ensures TickStart(true, onPressed, resetPressed, hot) == Raised(AttributeError)
    ensures TickStart(false, onPressed, resetPressed, hot) ==
      Ok(if hot then Error else if onPressed then Startup else Off)
  {
  }

  /** The purge controller's input: the stack voltage less the target on the
      polarisation curve, `-1.2·amps + 21`. */
  function VoltageError(volts: real, amps: real): real {
    volts - (-1.2 * amps + 21.0)
  }

  /** The power figure stored beside the two readings. */
  function Power(volts: real, amps: real): real {
    volts * amps
  }

  class H100 {
    const fan: Switch
    const h2: Switch
    const purge: Switch
    const amps: array<real>
    const volts: array<real>
    const power: array<real>
    var temp: seq<real>
    var state: State
    var purgeFreq: real
    /** `purgeCtrl`; null stands for the default 0, no controller. */
    const purgeCtrl: PurgeControl.Purge?

    predicate Valid()
      reads this
    {
      && fan != h2 && fan != purge && h2 != purge
      && amps.Length == 8 && volts.Length == 8 && power.Length == 4
      && amps != volts && amps != power && volts != power
      && |temp| == 4
    }

    function Outs(): Outputs
      reads fan, h2, purge
    {
      Outputs(fan.Snapshot(), h2.Snapshot(), purge.Snapshot())
    }

    function Times(): Timing
      reads this
    {
      Timing(StartTime, StopTime, purgeFreq, PurgeTime)
    }

    /** `H100(purgeControl)`: the class defaults with the given controller;
        fan, h2 and purge are PiFace outputs 0, 1 and 2. */
    constructor (purgeControl: PurgeControl.Purge?)
      ensures Valid() && fresh(fan) && fresh(h2) && fresh(purge)
      ensures fresh(amps) && fresh(volts) && fresh(power)
      ensures fan.pin == 0 && h2.pin == 1 && purge.pin == 2
      ensures Outs() == Outputs(Initial, Initial, Initial)
      ensures state == Off && purgeFreq == InitialPurgeFreq && purgeCtrl == purgeControl
      ensures temp == [0.0, 0.0, 0.0, 0.0]
      ensures amps[..] == seq(8, _ => 0.0) && volts[..] == seq(8, _ => 0.0) && power[..] == seq(4, _ => 0.0)
    {
      fan := new Switch(0);
      h2 := new Switch(1);
      purge := new Switch(2);
      amps := new real[8](_ => 0.0);
      volts := new real[8](_ => 0.0);
      power := new real[4](_ => 0.0);
      temp := [0.0, 0.0, 0.0, 0.0];
      state := Off;
      purgeFreq := InitialPurgeFreq;
      purgeCtrl := purgeControl;
    }

    /** `stateOff`. */
    method StateOff()
      requires Valid()
      modifies fan, h2, purge
      ensures Outs() == Routine(Off, old(Outs()), Times(), 0.0, false)
    {
      var _ := h2.SwitchTo(false);
      var _ := fan.SwitchTo(false);
      var _ := purge.SwitchTo(false);
    }

    /** `stateStartup`. */
    method StateStartup(now: real)
      requires Valid()
      modifies fan, h2, purge
      ensures Outs() == Routine(Startup, old(Outs()), Times(), now, false)
    {
      var _ := h2.Timed(0.0, StartTime, now);
      var _ := fan.Timed(0.0, StartTime, now);
      var _ := purge.Timed(0.0, StartTime, now);
    }

    /** `stateOn`. */
    method StateOn(now: real)
      requires Valid()
      modifies fan, h2, purge
      ensures Outs() == Routine(On, old(Outs()), Times(), now, false)
    {
      var _ := h2.SwitchTo(true);
      var _ := fan.SwitchTo(true);
      var _ := purge.Timed(purgeFreq, PurgeTime, now);
    }

    /** `stateShutdown`. */
    method StateShutdown(now: real)
      requires Valid()
      modifies fan, h2, purge
      ensures Outs() == Routine(Shutdown, old(Outs()), Times(), now, false)
    {
      var _ := h2.SwitchTo(false);
      var _ := fan.Timed(0.0, StopTime, now);
      var _ := purge.Timed(0.0, StopTime, now);
    }

    /** `stateError`: the fan runs while the stored temperatures exceed the
        cutoff. */
    method StateError()
      requires Valid()
      modifies fan, h2, purge
      ensures Outs() == Routine(Error, old(Outs()), Times(), 0.0, MaxOf(temp) > CutoffTemp)
    {
      var _ := h2.SwitchTo(false);
      var _ := purge.SwitchTo(false);
      if MaxOf(temp) > CutoffTemp {
        var _ := fan.SwitchTo(true);
      } else {
        var _ := fan.SwitchTo(false);
      }
    }

    /** Lines 106-109 of `run()`: current, voltage and power into slot 0 of
        their lists, and the temperature list replaced. */
    method Sense(adc0: real, adc1: real, readings: seq<real>)
      requires Valid() && |readings| == 4
      modifies this`temp, amps, volts, power
      ensures Valid()
      ensures amps[..] == old(amps[..])[0 := Calibration.Current(adc0)]
      ensures volts[..] == old(volts[..])[0 := Calibration.Voltage(adc1)]
      ensures power[..] == old(power[..])[0 := Power(Calibration.Voltage(adc1), Calibration.Current(adc0))]
      ensures temp == readings
    {
      var a, v := Calibration.Current(adc0), Calibration.Voltage(adc1);
      amps[0] := a;
      volts[0] := v;
      power[0] := Power(volts[0], amps[0]);
      assert forall i :: 1 <= i < 4 ==> power[i] == old(power[i]);
      temp := readings;
    }

    /** Lines 111-115 of `run()`: the purge controller, if there is one, is
        called with the voltage error of the fresh readings and its answer
        becomes the purge frequency. */
    method PurgeStep(now: real) returns (r: Outcome<()>)
      requires Valid()
      modifies this`purgeFreq, purgeCtrl
      ensures r.Raised? <==> purgeCtrl != null && now - purgeCtrl.timeLast == 0.0
      ensures r.Raised? ==> r.exc == ZeroDivisionError && purgeFreq == old(purgeFreq)
      ensures purgeCtrl != null && r.Raised? ==>
        purgeCtrl.integral == old(purgeCtrl.integral) && purgeCtrl.errorLast == old(purgeCtrl.errorLast)
      ensures purgeCtrl == null ==> purgeFreq == old(purgeFreq)
      ensures purgeCtrl != null && r.Ok? ==>
        var e, dt := VoltageError(volts[0], amps[0]), now - purgeCtrl.timeLast;
        && purgeFreq == PurgeControl.Response(purgeCtrl.kp, purgeCtrl.ki, purgeCtrl.kd, purgeCtrl.zero,
                                              old(purgeCtrl.integral), old(purgeCtrl.errorLast), e, dt)
        && purgeCtrl.integral == PurgeControl.NextIntegral(old(purgeCtrl.integral), e, dt)
        && purgeCtrl.errorLast == e
    {
      if purgeCtrl != null {
        var p := purgeCtrl.Call(VoltageError(volts[0], amps[0]), now);
        if p.Raised? {
          return Raised(p.exc);
        }
        purgeFreq := p.value;
      }
      return Ok(());
    }

    /** Lines 118-131 of `run()`: the state blocks in order, `timeChange`
        being the time of the last state change. */
    method Machine(now: real, timeChange: real)
      requires Valid()
      modifies this`state, fan, h2, purge
      ensures Valid()
      ensures state == Dispatch(old(state), now - timeChange).1
      ensures Outs() == RunRoutines(Dispatch(old(state), now - timeChange).0, old(Outs()), Times(), now, MaxOf(temp) > CutoffTemp)
    {
      if state == Off {
        StateOff();
      }
      if state == Startup {
        StateStartup(now);
        if now - timeChange > StartTime {
          state := On;
        }
      }
      if state == On {
        StateOn(now);
      }
      if state == Shutdown {
        StateShutdown(now);
        if now - timeChange > StopTime {
          state := Off;
        }
      }
      if state == Error {
        StateError();
      }
    }

    /** Lines 82-100 of `run()`: the state reset to off, the buttons, and the
        over-temperature check on the stored temperatures.  Every `time()`
        here reads the tick's `now`, so `timeChange` stays `now`. */
    method ButtonStep(offPressed: bool, onPressed: bool, resetPressed: bool) returns (r: Outcome<()>)
      requires Valid()
      modifies this`state
      ensures var t := TickStart(offPressed, onPressed, resetPressed, MaxOf(temp) > CutoffTemp);
        && (r.Raised? <==> t.Raised?)
        && (r.Raised? ==> r.exc == t.exc && state == Off)
        && (r.Ok? ==> state == t.value)
    {
      state := Off;
      var b := Buttons(state, offPressed, onPressed, resetPressed);
      if b.Raised? {
        return Raised(b.exc);
      }
      if b.value != state {
        state := b.value;
      }
      if MaxOf(temp) > CutoffTemp {
        state := Error;
      }
      return Ok(());
    }

    /** `run()` at time `now`, with the off/on/reset buttons, the ADC readings
        of channels 0 (current) and 1 (voltage) and the four fresh
        temperatures. */
    method Run(offPressed: bool, onPressed: bool, resetPressed: bool,
               adc0: real, adc1: real, readings: seq<real>, now: real) returns (r: Outcome<()>)
      requires Valid() && |readings| == 4
      modifies this`state, this`temp, this`purgeFreq, fan, h2, purge, amps, volts, power
      modifies purgeCtrl
      ensures Valid()
      ensures r.Raised? <==> offPressed || (purgeCtrl != null && now - purgeCtrl.timeLast == 0.0)
      ensures offPressed ==>
        && r == Raised(AttributeError) && state == Off && temp == old(temp) && purgeFreq == old(purgeFreq)
        && Outs() == old(Outs())
        && amps[..] == old(amps[..]) && volts[..] == old(volts[..]) && power[..] == old(power[..])
      ensures purgeCtrl != null && r.Raised? ==>
        purgeCtrl.integral == old(purgeCtrl.integral) && purgeCtrl.errorLast == old(purgeCtrl.errorLast)
      ensures !offPressed ==>
        var a := Calibration.Current(adc0);
        var v := Calibration.Voltage(adc1);
        var pre := TickStart(false, onPressed, resetPressed, MaxOf(old(temp)) > CutoffTemp).value;
        && amps[..] == old(amps[..])[0 := a] && volts[..] == old(volts[..])[0 := v]
        && power[..] == old(power[..])[0 := Power(v, a)]
        && temp == readings
        && (purgeCtrl == null ==> purgeFreq == old(purgeFreq))
        && (purgeCtrl != null && r.Ok? ==>
              && purgeFreq == PurgeControl.Response(purgeCtrl.kp, purgeCtrl.ki, purgeCtrl.kd, purgeCtrl.zero,
                                                    old(purgeCtrl.integral), old(purgeCtrl.errorLast),
                                                    VoltageError(v, a), now - purgeCtrl.timeLast)
              && purgeCtrl.integral == PurgeControl.NextIntegral(old(purgeCtrl.integral), VoltageError(v, a), now - purgeCtrl.timeLast)
              && purgeCtrl.errorLast == VoltageError(v, a))
        && (r.Raised? ==> r.exc == ZeroDivisionError && state == pre && Outs() == old(Outs()))
        && (r.Ok? ==>
              && state == Dispatch(pre, 0.0).1
              && Outs() == RunRoutines(Dispatch(pre, 0.0).0, old(Outs()), Times(), now, MaxOf(readings) > CutoffTemp))
    {
      var timeChange := now;
      var b := ButtonStep(offPressed, onPressed, resetPressed);
      if b.Raised? {
        return b;
      }

      // Sensors
      Sense(adc0, adc1, readings);

      // Purge control
      var p := PurgeStep(now);
      if p.Raised? {
        return p;
      }

      // State machine
      Machine(now, timeChange);
      return Ok(());
    }

    /** `shutdown()`: unless already off, the shutdown routine is repeated
        until `stopTime` seconds have passed since `start`, then the off
        routine runs and the state becomes off.  `clock` holds the successive
        readings of `time()` by the loop; the clock reaches the stop time at
        some reading. */
    method ShutdownOnExit(start: real, clock: seq<real>)
      requires Valid()
      requires exists k :: 0 <= k < |clock| && clock[k] - start >= StopTime
      modifies this`state, fan, h2, purge
      ensures Valid() && state == Off
      ensures old(state) == Off ==> Outs() == old(Outs())
      ensures old(state) != Off ==> !fan.state && !h2.state && !purge.state
    {
      if state != Off {
        ghost var k :| 0 <= k < |clock| && clock[k] - start >= StopTime;
        var i := 0;
        while clock[i] - start < StopTime
          invariant 0 <= i <= k
          invariant Valid()
          decreases k - i
        {
          StateShutdown(clock[i]);
          i := i + 1;
        }
        StateOff();
        state := Off;
      }
    }
  }
}
