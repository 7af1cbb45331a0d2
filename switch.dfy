/** The software-timed PiFace output `Switch` of switch.py and switch/switch.py
    (the two files hold the same class).  A switch remembers whether it is on
    and when it last toggled; `timed(freq, duration)` keeps it on for
    `duration` seconds and off for `freq` seconds.  The wall clock is the
    parameter `now`; the PiFace pin write is recorded in a ghost trace and its
    failure, which the source only prints, has no effect on the state. */
module Switching {
  import opened Py

  /** The two fields the timer logic uses. */
  datatype SwitchState = SwitchState(on: bool, lastTime: real)

  /** The state of a freshly built switch: off, last toggled at time 0. */
  const Initial := SwitchState(false, 0.0)

  /** `timed(freq, duration)` at time `now`: the new state and what the call
      returns (`write()`'s result, or Python's None when nothing fires).  The
      call toggles exactly when an on switch has been on for `duration` or an
      off switch has been off for `freq`, and then stamps `now`. */
  function TimedStep(s: SwitchState, freq: real, duration: real, now: real): (r: (SwitchState, Option<bool>))
    ensures r.1.Some? <==> (s.on && now - s.lastTime >= duration) || (!s.on && now - s.lastTime >= freq)
    ensures r.1.Some? ==> r.0 == SwitchState(!s.on, now) && r.1.value == r.0.on
    ensures r.1.None? ==> r.0 == s
  {
    if now - s.lastTime >= duration && s.on then (SwitchState(false, now), Some(false))
    else if now - s.lastTime >= freq && !s.on then (SwitchState(true, now), Some(true))
    else (s, None)
  }

  /** The toggles a sequence of `timed` calls makes, one entry per call. */
  function RunTimed(s: SwitchState, freq: real, duration: real, times: seq<real>): (r: (SwitchState, seq<Option<bool>>))
    ensures |r.1| == |times|
    decreases |times|
  {
    if |times| == 0 then (s, [])
    else
      var step := TimedStep(s, freq, duration, times[0]);
      var rest := RunTimed(step.0, freq, duration, times[1..]);
      (rest.0, [step.1] + rest.1)
  }

  /** The clock never runs backwards along the calls. */
  predicate Monotone(times: seq<real>) {
    forall i, j :: 0 <= i < j < |times| ==> times[i] <= times[j]
  }

  /** With a zero off-time, an off switch turns on at the very next call. */
  lemma FreqZeroTurnsOn(s: SwitchState, duration: real, now: real)
    requires !s.on && now >= s.lastTime
    ensures TimedStep(s, 0.0, duration, now) == (SwitchState(true, now), Some(true))
  {
  }

  /** Along calls made at non-decreasing times, `lastTime` never passes the
      clock: after the run it is at most the last call's time, and it only
      ever moves forward. */
  lemma {:induction false} RunKeepsClockOrder(s: SwitchState, freq: real, duration: real, times: seq<real>)
    requires Monotone(times) && |times| > 0 && s.lastTime <= times[0]
    ensures s.lastTime <= RunTimed(s, freq, duration, times).0.lastTime <= times[|times| - 1]
    decreases |times|
  {
    var step := TimedStep(s, freq, duration, times[0]);
    if |times| > 1 {
      assert times[1..][0] == times[1];
      assert Monotone(times[1..]) by {
        forall i, j | 0 <= i < j < |times[1..]|
          ensures times[1..][i] <= times[1..][j]
        {
          assert times[1..][i] == times[i + 1] && times[1..][j] == times[j + 1];
        }
      }
      RunKeepsClockOrder(step.0, freq, duration, times[1..]);
      assert times[1..][|times[1..]| - 1] == times[|times| - 1];
    }
  }

  /** Two toggles in a row are separated by the time the switch had to wait:
      at least `duration` after turning on, at least `freq` after turning off
      (for calls at non-decreasing times). */
  lemma {:induction false} TogglesAreSpaced(s: SwitchState, freq: real, duration: real, t1: real, t2: real)
    requires t1 <= t2 && TimedStep(s, freq, duration, t1).1.Some?
    ensures
      var s1 := TimedStep(s, freq, duration, t1).0;
      TimedStep(s1, freq, duration, t2).1.Some? ==>
        t2 - t1 >= (if s1.on then duration else freq)
  {
  }

  /** A PiFace output driven by the timer. */
  class Switch {
    const pin: int
    var state: bool
    var lastTime: real
    /** Every `(pin, level)` written to the PiFace, oldest first. */
    ghost var writes: seq<(int, bool)>

    function Snapshot(): SwitchState
      reads this
    {
      SwitchState(state, lastTime)
    }

    /** `Switch(pin)`: the class defaults state False and lastTime 0. */
    constructor (pin: int)
      ensures this.pin == pin && Snapshot() == Initial && writes == []
    {
      this.pin := pin;
      state := false;
      lastTime := 0.0;
      writes := [];
    }

    /** `write()`: the pin is driven to the state; a failed write is only
        printed, and the state is returned either way. */
    method Write() returns (r: bool)
      modifies this`writes
      ensures r == state
      ensures writes == old(writes) + [(pin, state)]
    {
      writes := writes + [(pin, state)];
      r := state;
    }

    /** `switch(state)`: set and write the level; lastTime is not touched. */
    method SwitchTo(s: bool) returns (r: bool)
      modifies this`state, this`writes
      ensures state == s && r == s && lastTime == old(lastTime)
      ensures writes == old(writes) + [(pin, s)]
    {
      state := s;
      r := Write();
    }

    /** `timed(freq, duration)` at time `now`: at most one toggle, written to
        the pin when it happens; nothing changes and nothing is written
        otherwise. */
    method Timed(freq: real, duration: real, now: real) returns (r: Option<bool>)
      modifies this`state, this`lastTime, this`writes
      ensures (Snapshot(), r) == TimedStep(old(Snapshot()), freq, duration, now)
      ensures r.Some? ==> writes == old(writes) + [(pin, state)]
      ensures r.None? ==> writes == old(writes)
    {
      if now - lastTime >= duration && state == true {
        lastTime := now;
        state := false;
        var w := Write();
        return Some(w);
      }
      if now - lastTime >= freq && state == false {
        lastTime := now;
        state := true;
        var w := Write();
        return Some(w);
      }
      return None;
    }
  }
}
