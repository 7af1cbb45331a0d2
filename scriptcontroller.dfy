/** One pass of the `while (True)` loop of the script controller.py.  The
    globals `state`, `timeChange` and `timeStart` live on between passes and
    are fields here; the pass reads the four temperatures and the two ADC
    channels, applies the stop button and the electrical and temperature
    interlocks, then runs the state blocks in order, so a state entered in
    one block has its own block run in the same pass.  The PiFace buttons
    are inputs of the pass (the same level each time the pass looks), every
    `time()` reads `now`, and the error block's second temperature reading
    is a separate input. */
module ScriptController {
  import opened Switching
  import opened FuelCell
  import Calibration

  /** The command-line settings the loop uses. */
  datatype Config = Config(purgeFreq: real, purgeTime: real, startTime: real, stopTime: real, cutoff: real)

  /** The argparse defaults. */
  const Defaults := Config(18.0, 0.5, 4.0, 10.0, 26.0)

  function TimingOf(c: Config): Timing {
    Timing(c.startTime, c.stopTime, c.purgeFreq, c.purgeTime)
  }

  /** The inputs of one pass. */
  datatype Inputs = Inputs(
    temps: seq<real>,        // blue, earth, red, yellow at the top of the pass
    adc0: real, adc1: real,  // current and voltage channels
    onPressed: bool, offPressed: bool, resetPressed: bool,
    recheck: seq<real>)      // the four temperatures read again in the error block

  predicate WellFormed(i: Inputs) {
    |i.temps| == 4 && |i.recheck| == 4
  }

  /** Any of the four temperatures at or above the cutoff. */
  predicate AnyHot(ts: seq<real>, cutoff: real) {
    exists k :: 0 <= k < |ts| && ts[k] >= cutoff
  }

  /** The globals the loop carries from pass to pass. */
  datatype Globals = Globals(state: State, timeChange: real, timeStart: real)

  /** Out-of-range stack voltage or current. */
  predicate ElectricFault(volts: real, amps: real) {
    volts >= 27.0 || volts < 12.0 || amps >= 10.0
  }

  /** Lines 184-217: the stop button, then the electrical interlock (which
      only acts once 10 s have passed since `timeStart`), then the
      temperature interlock. */
  function Interlocks(g: Globals, i: Inputs, c: Config, now: real): (r: Globals)
    requires WellFormed(i)
    ensures r.timeStart == g.timeStart
    ensures AnyHot(i.temps, c.cutoff) ==> r.state == Error
    ensures ElectricFault(Calibration.Voltage(i.adc1), Calibration.Current(i.adc0)) && now - g.timeStart > 10.0
            ==> r.state == Error
    ensures r.state != Error ==>
      r.state == (if !i.onPressed && i.offPressed && g.state in {Startup, On} then Shutdown else g.state)
  {
    var amps := Calibration.Current(i.adc0);
    var volts := Calibration.Voltage(i.adc1);
    var g1 := if !i.onPressed && i.offPressed && (g.state == Startup || g.state == On)
              then Globals(Shutdown, now, g.timeStart) else g;
    var g2 := if ElectricFault(volts, amps) && now - g1.timeStart > 10.0 then g1.(state := Error) else g1;
    if i.temps[0] >= c.cutoff || i.temps[1] >= c.cutoff || i.temps[2] >= c.cutoff || i.temps[3] >= c.cutoff
    then g2.(state := Error) else g2
  }

  /** The globals after the state blocks and the routines they ran, in order. */
  datatype Pass = Pass(g: Globals, ran: seq<State>)

  function OffBlock(p: Pass, i: Inputs, now: real): Pass {
    if p.g.state != Off then p
    else if i.onPressed && !i.offPressed then Pass(Globals(Startup, now, now), p.ran + [Off])
    else Pass(p.g, p.ran + [Off])
  }

  function StartupBlock(p: Pass, c: Config, now: real): Pass {
    if p.g.state != Startup then p
    else Pass(if now - p.g.timeChange > c.startTime then p.g.(state := On) else p.g, p.ran + [Startup])
  }

  function OnBlock(p: Pass): Pass {
    if p.g.state != On then p else Pass(p.g, p.ran + [On])
  }

  function ShutdownBlock(p: Pass, c: Config, now: real): Pass {
    if p.g.state != Shutdown then p
    else Pass(if now - p.g.timeChange > c.stopTime then p.g.(state := Off) else p.g, p.ran + [Shutdown])
  }

  function ErrorBlock(p: Pass, i: Inputs, c: Config): Pass
    requires WellFormed(i)
  {
    if p.g.state != Error then p
    else if !AnyHot(i.recheck, c.cutoff) && i.resetPressed then Pass(p.g.(state := Off), p.ran + [Error])
    else Pass(p.g, p.ran + [Error])
  }

  /** Lines 224-277: the five blocks one after the other. */
  function Blocks(g: Globals, i: Inputs, c: Config, now: real): (r: Pass)
    requires WellFormed(i)
    ensures 1 <= |r.ran| <= 3
  {
    ErrorBlock(ShutdownBlock(OnBlock(StartupBlock(OffBlock(Pass(g, []), i, now), c, now)), c, now), i, c)
  }

  /** The whole pass on the globals. */
  function Step(g: Globals, i: Inputs, c: Config, now: real): Pass
    requires WellFormed(i)
  {
    Blocks(Interlocks(g, i, c, now), i, c, now)
  }

  /** A hot sensor at the top of the pass always runs the error block; the
      pass leaves the error state only through the reset button, and only
      when the second reading finds every sensor below the cutoff. */
  lemma HotForcesError(g: Globals, i: Inputs, c: Config, now: real)
    requires WellFormed(i) && AnyHot(i.temps, c.cutoff)
    ensures Step(g, i, c, now).ran == [Error]
    ensures Step(g, i, c, now).g.state == (if i.resetPressed && !AnyHot(i.recheck, c.cutoff) then Off else Error)
  {
  }

  /** For the first 10 s after `timeStart`, the electrical readings do not
      matter to the pass. */
  lemma ElectricGrace(g: Globals, i: Inputs, j: Inputs, c: Config, now: real)
    requires WellFormed(i) && now - g.timeStart <= 10.0
    requires j == i.(adc0 := 0.0, adc1 := 0.0)
    ensures Interlocks(g, i, c, now) == Interlocks(g, j, c, now)
  {
  }

  /** Pressing on (with off released) in the off state starts up in the same
      pass: the off routine, then the startup routine, with both time stamps
      set to now; the startup does not end in that pass. */
  lemma StartInSamePass(g: Globals, i: Inputs, c: Config, now: real)
    requires WellFormed(i) && g.state == Off && i.onPressed && !i.offPressed
    requires !AnyHot(i.temps, c.cutoff) && c.startTime >= 0.0
    requires !(ElectricFault(Calibration.Voltage(i.adc1), Calibration.Current(i.adc0)) && now - g.timeStart > 10.0)
    ensures Step(g, i, c, now) == Pass(Globals(Startup, now, now), [Off, Startup])
  {
    assert !(i.temps[0] >= c.cutoff || i.temps[1] >= c.cutoff || i.temps[2] >= c.cutoff || i.temps[3] >= c.cutoff);
  }

  /** The stop combination during startup or on runs the shutdown routine in
      the same pass (hydrogen off at once); the state becomes off only once
      `stopTime` has passed since the stop. */
  lemma StopRunsShutdown(g: Globals, i: Inputs, c: Config, now: real)
    requires WellFormed(i) && g.state in {Startup, On} && !i.onPressed && i.offPressed
    requires !AnyHot(i.temps, c.cutoff) && c.stopTime >= 0.0
    requires !(ElectricFault(Calibration.Voltage(i.adc1), Calibration.Current(i.adc0)) && now - g.timeStart > 10.0)
    ensures Step(g, i, c, now) == Pass(Globals(Shutdown, now, g.timeStart), [Shutdown])
  {
    assert !(i.temps[0] >= c.cutoff || i.temps[1] >= c.cutoff || i.temps[2] >= c.cutoff || i.temps[3] >= c.cutoff);
  }

  /** The controller's globals and its three outputs. */
  class Controller {
    const cfg: Config
    const purge: Switch
    const h2: Switch
    const fan: Switch
    var state: State
    var timeChange: real
    var timeStart: real

    predicate Valid()
      reads this
    {
      fan != h2 && fan != purge && h2 != purge
    }

    function Outs(): Outputs
      reads fan, h2, purge
    {
      Outputs(fan.Snapshot(), h2.Snapshot(), purge.Snapshot())
    }

    function Globs(): Globals
      reads this
    {
      Globals(state, timeChange, timeStart)
    }

    /** The module-level set-up: state off, `timeStart = time()` at `now`
        (`timeChange` is first bound when startup is entered; 0 here), and
        the purge, h2 and fan switches on their pins. */
    constructor (c: Config, purgePin: int, h2Pin: int, fanPin: int, now: real)
      ensures Valid() && cfg == c && Globs() == Globals(Off, 0.0, now)
      ensures fresh(purge) && fresh(h2) && fresh(fan)
      ensures purge.pin == purgePin && h2.pin == h2Pin && fan.pin == fanPin
      ensures Outs() == Outputs(Initial, Initial, Initial)
    {
      cfg := c;
      purge := new Switch(purgePin);
      h2 := new Switch(h2Pin);
      fan := new Switch(fanPin);
      state := Off;
      timeChange := 0.0;
      timeStart := now;
    }

    /** The globals and outputs are those of pass p, started from o0. */
    ghost predicate Tracks(p: Pass, o0: Outputs, now: real, hot: bool)
      reads this, fan, h2, purge
    {
      Globs() == p.g && Outs() == RunRoutines(p.ran, o0, TimingOf(cfg), now, hot)
    }

    /** Lines 180-217: readings, stop button and interlocks. */
    method CheckInterlocks(i: Inputs, now: real)
      requires WellFormed(i)
      modifies this`state, this`timeChange
      ensures Globs() == Interlocks(old(Globs()), i, cfg, now)
    {
      var tmpBlue, tmpEarth, tmpRed, tmpYellow := i.temps[0], i.temps[1], i.temps[2], i.temps[3];
      var amps1 := Calibration.Current(i.adc0);
      var volts1 := Calibration.Voltage(i.adc1);

      // Stop button
      if i.onPressed == false && i.offPressed == true {
        if state == Startup || state == On {
          state := Shutdown;
          timeChange := now;
        }
      }
      // Electric
      if (volts1 >= 27.0 || volts1 < 12.0 || amps1 >= 10.0) && now - timeStart > 10.0 {
        state := Error;
      }
      // Temperature
      if tmpBlue >= cfg.cutoff || tmpEarth >= cfg.cutoff || tmpRed >= cfg.cutoff || tmpYellow >= cfg.cutoff {
        state := Error;
      }
    }

    /** The off block, lines 224-233. */
    method DoOff(i: Inputs, now: real, ghost p: Pass, ghost o0: Outputs, ghost hot: bool)
      requires Valid() && Tracks(p, o0, now, hot)
      modifies this`state, this`timeChange, this`timeStart, fan, h2, purge
      ensures Tracks(OffBlock(p, i, now), o0, now, hot)
    {
      RunRoutinesSnoc(p.ran, Off, o0, TimingOf(cfg), now, hot);
      if state == Off {
        Apply(Off, fan, h2, purge, TimingOf(cfg), now, false);
        if i.onPressed == true && i.offPressed == false {
          state := Startup;
          timeChange := now;
          timeStart := now;
        }
      }
    }

    /** The startup block, lines 234-244. */
    method DoStartup(now: real, ghost p: Pass, ghost o0: Outputs, ghost hot: bool)
      requires Valid() && Tracks(p, o0, now, hot)
      modifies this`state, fan, h2, purge
      ensures Tracks(StartupBlock(p, cfg, now), o0, now, hot)
    {
      RunRoutinesSnoc(p.ran, Startup, o0, TimingOf(cfg), now, hot);
      if state == Startup {
        Apply(Startup, fan, h2, purge, TimingOf(cfg), now, false);
        if now - timeChange > cfg.startTime {
          state := On;
        }
      }
    }

    /** The on block, lines 245-253. */
    method DoOn(now: real, ghost p: Pass, ghost o0: Outputs, ghost hot: bool)
      requires Valid() && Tracks(p, o0, now, hot)
      modifies fan, h2, purge
      ensures Tracks(OnBlock(p), o0, now, hot)
    {
      RunRoutinesSnoc(p.ran, On, o0, TimingOf(cfg), now, hot);
      if state == On {
        Apply(On, fan, h2, purge, TimingOf(cfg), now, false);
      }
    }

    /** The shutdown block, lines 254-264. */
    method DoShutdown(now: real, ghost p: Pass, ghost o0: Outputs, ghost hot: bool)
      requires Valid() && Tracks(p, o0, now, hot)
      modifies this`state, fan, h2, purge
      ensures Tracks(ShutdownBlock(p, cfg, now), o0, now, hot)
    {
      RunRoutinesSnoc(p.ran, Shutdown, o0, TimingOf(cfg), now, hot);
      if state == Shutdown {
        Apply(Shutdown, fan, h2, purge, TimingOf(cfg), now, false);
        if now - timeChange > cfg.stopTime {
          state := Off;
        }
      }
    }

    /** The error block, lines 265-275, with the second temperature reading. */
    method DoError(i: Inputs, now: real, ghost p: Pass, ghost o0: Outputs)
      requires Valid() && WellFormed(i) && Tracks(p, o0, now, AnyHot(i.recheck, cfg.cutoff))
      modifies this`state, fan, h2, purge
      ensures Tracks(ErrorBlock(p, i, cfg), o0, now, AnyHot(i.recheck, cfg.cutoff))
    {
      RunRoutinesSnoc(p.ran, Error, o0, TimingOf(cfg), now, AnyHot(i.recheck, cfg.cutoff));
      if state == Error {
        var hot := i.recheck[0] >= cfg.cutoff || i.recheck[1] >= cfg.cutoff
                   || i.recheck[2] >= cfg.cutoff || i.recheck[3] >= cfg.cutoff;
        assert hot == AnyHot(i.recheck, cfg.cutoff);
        Apply(Error, fan, h2, purge, TimingOf(cfg), now, hot);
        if !hot && i.resetPressed == true {
          state := Off;
        }
      }
    }

    /** One pass of the loop at time `now`.  The `try` blocks around startup,
        on and shutdown never see an exception: the switch methods catch
        their own write errors. */
    method Iterate(i: Inputs, now: real)
      requires Valid() && WellFormed(i)
      modifies this, fan, h2, purge
      ensures Valid()
      ensures Globs() == Step(old(Globs()), i, cfg, now).g
      ensures Outs() == RunRoutines(Step(old(Globs()), i, cfg, now).ran, old(Outs()), TimingOf(cfg), now,
                                    AnyHot(i.recheck, cfg.cutoff))
    {
      ghost var hot := AnyHot(i.recheck, cfg.cutoff);
      ghost var o0 := Outs();
      CheckInterlocks(i, now);
      ghost var p := Pass(Globs(), []);
      DoOff(i, now, p, o0, hot);
      p := OffBlock(p, i, now);
      DoStartup(now, p, o0, hot);
      p := StartupBlock(p, cfg, now);
      DoOn(now, p, o0, hot);
      p := OnBlock(p);
      DoShutdown(now, p, o0, hot);
      p := ShutdownBlock(p, cfg, now);
      DoError(i, now, p, o0);
    }
  }
}
