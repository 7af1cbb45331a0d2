/** The purge-frequency PID controller `Purge` of purge/purge.py.  It is
    called with the stack's voltage error and returns a purge frequency.  The
    constructor assigns `timeLast = time()` to a local, so the field keeps its
    class default 0 and every call integrates over `now - 0`.  The integral is
    clamped to [0.9e, 1.1e] after each update. */
module PurgeControl {
  import opened Py

  /** `clamp = lambda n, minn, maxn: max(min(maxn, n), minn)`. */
  function Clamp(n: real, lo: real, hi: real): (r: real)
    ensures lo <= hi ==> lo <= r <= hi
    ensures lo <= n <= hi ==> r == n
    ensures r == lo || r == hi || r == n
    ensures hi < lo ==> r == lo
  {
    var m := if hi <= n then hi else n;
    if m >= lo then m else lo
  }

  /** The integral after a call with error e: the old integral plus e·dt,
      clamped between 0.9e and 1.1e. */
  function NextIntegral(integral: real, e: real, dt: real): real {
    Clamp(integral + e * dt, e * 0.9, e * 1.1)
  }

  /** Whatever came before, the new integral lies within ten percent of the
      error when the error is not negative, and is exactly 0.9e when the
      error is negative (the clamp's bounds are then reversed). */
  lemma IntegralBand(integral: real, e: real, dt: real)
    ensures e >= 0.0 ==> 0.9 * e <= NextIntegral(integral, e, dt) <= 1.1 * e
    ensures e < 0.0 ==> NextIntegral(integral, e, dt) == 0.9 * e
  {
  }

  /** The integral term cannot wind up: after any call it depends only on the
      current error once the accumulated value leaves the band. */
  lemma NoWindUp(i1: real, i2: real, e: real, dt: real)
    requires e >= 0.0 && i1 + e * dt >= 1.1 * e && i2 + e * dt >= 1.1 * e
    ensures NextIntegral(i1, e, dt) == NextIntegral(i2, e, dt) == 1.1 * e
  {
  }

  /** What a call returns: the PID sum over the updated integral and the
      derivative (e - errorLast)/dt, on top of the zero offset. */
  function Response(kp: real, ki: real, kd: real, zero: real, integral: real, errorLast: real, e: real, dt: real): real
    requires dt != 0.0
  {
    zero + kp * e + ki * NextIntegral(integral, e, dt) + kd * ((e - errorLast) / dt)
  }

  class Purge {
    const kp: real
    const ki: real
    const kd: real
    const zero: real
    var errorLast: real
    var integral: real
    /** Never assigned outside the class default. */
    const timeLast: real

    /** `Purge(p, i, d, zero=0)`. */
    constructor (p: real, i: real, d: real, zero: real)
      ensures kp == p && ki == i && kd == d && this.zero == zero
      ensures errorLast == 0.0 && integral == 0.0 && timeLast == 0.0
    {
      kp, ki, kd, this.zero := p, i, d, zero;
      errorLast, integral := 0.0, 0.0;
      timeLast := 0.0;
    }

    /** `__call__(error)` at time `now`.  The integral is updated and clamped,
        the derivative taken over dt = now - timeLast, and errorLast set; the
        result is the PID sum.  With dt = 0 the division raises
        ZeroDivisionError after the integral was (by zero) updated. */
    method Call(error: real, now: real) returns (r: Outcome<real>)
      modifies this`errorLast, this`integral
      ensures var dt := now - timeLast;
        && (r.Raised? <==> dt == 0.0)
        && (r.Raised? ==> r.exc == ZeroDivisionError && integral == old(integral) && errorLast == old(errorLast))
        && (r.Ok? ==>
              && integral == NextIntegral(old(integral), error, dt)
              && errorLast == error
              && r.value == Response(kp, ki, kd, zero, old(integral), old(errorLast), error, dt))
    {
      var dt := now - timeLast;
      integral := integral + error * dt;
      if dt == 0.0 {
        return Raised(ZeroDivisionError);
      }
      var derivative := (error - errorLast) / dt;
      errorLast := error;
      integral := Clamp(integral, error * 0.9, error * 1.1);
      r := Ok(zero + kp * error + ki * integral + kd * derivative);
    }

    /** `doReset`: the error memory and the integral go back to 0. */
    method DoReset()
      modifies this`errorLast, this`integral
      ensures errorLast == 0.0 && integral == 0.0
    {
      errorLast := 0.0;
      integral := 0.0;
    }
  }
}
