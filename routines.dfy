/** The fuel-cell state machine shared by h100Controller.py (`H100`) and the
    script controller.py: five states, and for each state a routine that
    drives the three outputs (fan, hydrogen valve and purge valve).  On the
    three `Switch` outputs a routine either sets a level (`switch`) or runs
    the timer (`timed`), so its effect is a function of the outputs before
    it. */
module FuelCell {
  import opened Switching

  datatype State = Startup | On | Shutdown | Off | Error

  /** The remembered state of the three outputs. */
  datatype Outputs = Outputs(fan: SwitchState, h2: SwitchState, purge: SwitchState)

  /** The durations the routines use. */
  datatype Timing = Timing(startTime: real, stopTime: real, purgeFreq: real, purgeTime: real)

  /** `switch(level)`: the level changes, the time stamp does not. */
  function SetTo(s: SwitchState, level: bool): (r: SwitchState)
    ensures r.on == level && r.lastTime == s.lastTime
  {
    SwitchState(level, s.lastTime)
  }

  /** `timed(freq, duration)`, its result dropped. */
  function TimedTo(s: SwitchState, freq: real, duration: real, now: real): SwitchState {
    TimedStep(s, freq, duration, now).0
  }

  /** The routine of state st at time now; `hot` is the error routine's
      temperature verdict. */
  function Routine(st: State, o: Outputs, t: Timing, now: real, hot: bool): (r: Outputs)
    ensures st == Off ==> !r.fan.on && !r.h2.on && !r.purge.on
    ensures st == On ==> r.fan.on && r.h2.on
    ensures st == Shutdown ==> !r.h2.on
    ensures st == Error ==> !r.h2.on && !r.purge.on && r.fan.on == hot
  {
    match st
    case Off => Outputs(SetTo(o.fan, false), SetTo(o.h2, false), SetTo(o.purge, false))
    case Startup =>
      Outputs(TimedTo(o.fan, 0.0, t.startTime, now), TimedTo(o.h2, 0.0, t.startTime, now),
              TimedTo(o.purge, 0.0, t.startTime, now))
    case On => Outputs(SetTo(o.fan, true), SetTo(o.h2, true), TimedTo(o.purge, t.purgeFreq, t.purgeTime, now))
    case Shutdown =>
      Outputs(TimedTo(o.fan, 0.0, t.stopTime, now), SetTo(o.h2, false), TimedTo(o.purge, 0.0, t.stopTime, now))
    case Error => Outputs(SetTo(o.fan, hot), SetTo(o.h2, false), SetTo(o.purge, false))
  }

  /** The routines of one pass through the state blocks, in order. */
  function RunRoutines(rs: seq<State>, o: Outputs, t: Timing, now: real, hot: bool): Outputs
    decreases |rs|
  {
    if |rs| == 0 then o else RunRoutines(rs[1..], Routine(rs[0], o, t, now, hot), t, now, hot)
  }

  /** Running one more routine after a list of them. */
  lemma {:induction false} RunRoutinesSnoc(rs: seq<State>, st: State, o: Outputs, t: Timing, now: real, hot: bool)
    ensures RunRoutines(rs + [st], o, t, now, hot) == Routine(st, RunRoutines(rs, o, t, now, hot), t, now, hot)
    decreases |rs|
  {
    if |rs| > 0 {
      assert (rs + [st])[1..] == rs[1..] + [st];
      RunRoutinesSnoc(rs[1..], st, Routine(rs[0], o, t, now, hot), t, now, hot);
    }
  }

  /** A switch off at the start of startup, timed with a zero off-time,
      turns on at once when its stamp is not in the future: startup turns
      all three outputs on in its first pass. */
  lemma StartupSwitchesOn(o: Outputs, t: Timing, now: real, hot: bool)
    requires !o.fan.on && !o.h2.on && !o.purge.on
    requires o.fan.lastTime <= now && o.h2.lastTime <= now && o.purge.lastTime <= now
    ensures var r := Routine(Startup, o, t, now, hot);
      r.fan == SwitchState(true, now) && r.h2 == SwitchState(true, now) && r.purge == SwitchState(true, now)
  {
    FreqZeroTurnsOn(o.fan, t.startTime, now);
    FreqZeroTurnsOn(o.h2, t.startTime, now);
    FreqZeroTurnsOn(o.purge, t.startTime, now);
  }

  /** A routine carried out on three distinct outputs. */
  method Apply(st: State, fan: Switch, h2: Switch, purge: Switch, t: Timing, now: real, hot: bool)
    requires fan != h2 && fan != purge && h2 != purge
    modifies fan, h2, purge
    ensures Outputs(fan.Snapshot(), h2.Snapshot(), purge.Snapshot())
         == Routine(st, old(Outputs(fan.Snapshot(), h2.Snapshot(), purge.Snapshot())), t, now, hot)
  {
    match st {
      case Off =>
        var _ := h2.SwitchTo(false);
        var _ := fan.SwitchTo(false);
        var _ := purge.SwitchTo(false);
      case Startup =>
        var _ := h2.Timed(0.0, t.startTime, now);
        var _ := fan.Timed(0.0, t.startTime, now);
        var _ := purge.Timed(0.0, t.startTime, now);
      case On =>
        var _ := h2.SwitchTo(true);
        var _ := fan.SwitchTo(true);
        var _ := purge.Timed(t.purgeFreq, t.purgeTime, now);
      case Shutdown =>
        var _ := h2.SwitchTo(false);
        var _ := fan.Timed(0.0, t.stopTime, now);
        var _ := purge.Timed(0.0, t.stopTime, now);
      case Error =>
        var _ := h2.SwitchTo(false);
        var _ := purge.SwitchTo(false);
        var _ := fan.SwitchTo(hot);
    }
  }
}
