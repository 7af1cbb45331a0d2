/** The electronic speed controller of esc/esc.py: an I2C device that takes
    a throttle of 0..100 in one byte.  The `throttle` setter validates the
    request and keeps the value last written with success.  The request is
    given as what `int(value)` made of the assigned value (None when `int()`
    raised), and each bus write as whether it was acknowledged. */
module SpeedController {
  import opened Py

  /** The address `esc()` uses when none is given. */
  const DefaultAddress: int := 0x2c

  /** The setpoint a request asks for, if the setter accepts it: -1 (`request
      is -1`, which holds for the integer -1 as CPython shares small
      integers) means 0, 0..100 are taken as they are, and everything else,
      including what `int()` refused, is dropped. */
  function Setpoint(request: Option<int>): (r: Option<int>)
    ensures r.Some? <==> request.Some? && -1 <= request.value <= 100
    ensures r.Some? ==> 0 <= r.value <= 100
    ensures r.Some? && request.value >= 0 ==> r.value == request.value
  {
    match request
    case None => None
    case Some(q) => if q == -1 then Some(0) else if 0 <= q <= 100 then Some(q) else None
  }

  /** The throttle after one assignment: the accepted setpoint when its write
      was acknowledged, the old throttle otherwise. */
  function NextThrottle(throttle: int, request: Option<int>, acked: bool): int {
    var s := Setpoint(request);
    if s.Some? && acked then s.value else throttle
  }

  /** The throttles a run of assignments leaves, from an initial one. */
  function Settle(throttle: int, requests: seq<(Option<int>, bool)>): int
    decreases |requests|
  {
    if |requests| == 0 then throttle
    else Settle(NextThrottle(throttle, requests[0].0, requests[0].1), requests[1..])
  }

  /** Whatever is assigned, a throttle in 0..100 stays in 0..100. */
  lemma {:induction false} SettleInRange(throttle: int, requests: seq<(Option<int>, bool)>)
    requires 0 <= throttle <= 100
    ensures 0 <= Settle(throttle, requests) <= 100
    decreases |requests|
  {
    if |requests| > 0 {
      SettleInRange(NextThrottle(throttle, requests[0].0, requests[0].1), requests[1..]);
    }
  }

  /** After a run, the throttle is the setpoint of the last acknowledged,
      accepted assignment; with none it is where it started. */
  lemma {:induction false} SettleIsLastAcknowledged(throttle: int, requests: seq<(Option<int>, bool)>, k: nat)
    requires k < |requests| && requests[k].1 && Setpoint(requests[k].0).Some?
    requires forall j :: k < j < |requests| ==> !requests[j].1 || Setpoint(requests[j].0).None?
    ensures Settle(throttle, requests) == Setpoint(requests[k].0).value
    decreases |requests|
  {
    if k > 0 {
      SettleIsLastAcknowledged(NextThrottle(throttle, requests[0].0, requests[0].1), requests[1..], k - 1);
    } else {
      SettleUnchanged(NextThrottle(throttle, requests[0].0, requests[0].1), requests[1..]);
    }
  }

  /** Assignments that are all dropped or all fail on the bus leave the
      throttle alone. */
  lemma {:induction false} SettleUnchanged(throttle: int, requests: seq<(Option<int>, bool)>)
    requires forall j :: 0 <= j < |requests| ==> !requests[j].1 || Setpoint(requests[j].0).None?
    ensures Settle(throttle, requests) == throttle
    decreases |requests|
  {
    if |requests| > 0 {
      SettleUnchanged(throttle, requests[1..]);
    }
  }

  class Esc {
    const address: int
    /** `__throttle`. */
    var throttle: int
    /** The bus writes made so far, as (address, value). */
    var sent: seq<(int, int)>

    ghost predicate Valid()
      reads this
    {
      0 <= throttle <= 100 && forall i :: 0 <= i < |sent| ==> 0 <= sent[i].1 <= 100
    }

    /** `esc(address)`: throttle 0, nothing written yet. */
    constructor (address: int)
      ensures Valid() && this.address == address && throttle == 0 && sent == []
    {
      this.address := address;
      throttle, sent := 0, [];
    }

    /** The `throttle` assignment: an accepted setpoint is written to the
        device, and becomes the throttle only when the write succeeds (a
        failed write prints a message); a dropped request writes nothing. */
    /** One assignment of request to the throttle: the new throttle, and
        the setpoint written to the bus when the request is accepted. */
    twostate predicate Assigned(request: Option<int>, acked: bool)
      reads this
    {
      && throttle == NextThrottle(old(throttle), request, acked)
      && sent == old(sent) + (if Setpoint(request).Some? then [(address, Setpoint(request).value)] else [])
    }

    method SetThrottle(request: Option<int>, acked: bool)
      requires Valid()
      modifies this`throttle, this`sent
      ensures Valid() && Assigned(request, acked)
      ensures throttle == NextThrottle(old(throttle), request, acked)
      ensures Setpoint(request).None? ==> sent == old(sent)
      ensures Setpoint(request).Some? ==> sent == old(sent) + [(address, Setpoint(request).value)]
    {
      var setpoint: int;
      match request {
        case None =>
          return;
        case Some(q) =>
          if q == -1 {
            setpoint := 0;
          } else if q <= 100 && q >= 0 {
            setpoint := q;
          } else {
            return;
          }
      }
      sent := sent + [(address, setpoint)];
      if acked {
        throttle := setpoint;
      }
    }

    /** The `throttle` getter. */
    function Throttle(): (t: int)
      requires Valid()
      reads this
      ensures 0 <= t <= 100
    {
      throttle
    }
  }
}
