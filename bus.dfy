/** The addressed sensor bus as seen by the decoders: each transaction either
    returns bytes or fails with an I/O error, and a conversion-ready poll is a
    loop over the replies the bus gives. */
module Bus {
  import opened Py

  type Byte = x: int | 0 <= x < 256

  /** The result of one bus read transaction. */
  datatype Reply = Data(bytes: seq<Byte>) | IoFailure

  /** What a polling loop does with one reply: read again, decode it, or
      leave the loop through an exception. */
  datatype Probe = Busy | Ready | Raises(exc: Exc)

  /** Where a poll over a finite run of replies stops. */
  datatype Poll = ReadyAt(index: nat) | RaisedAt(index: nat, exc: Exc) | Exhausted

  /** Byte b has its top bit (the MCP3424 "not ready" flag) set: Python `b & 128`. */
  predicate TopBit(b: Byte) { b >= 128 }

  ghost predicate AllBusy(replies: seq<Reply>, classify: Reply -> Probe) {
    forall j :: 0 <= j < |replies| ==> classify(replies[j]) == Busy
  }

  ghost predicate PollMeets(replies: seq<Reply>, classify: Reply -> Probe, p: Poll) {
    && (p.ReadyAt? ==>
         p.index < |replies| && classify(replies[p.index]) == Ready && AllBusy(replies[..p.index], classify))
    && (p.RaisedAt? ==>
         p.index < |replies| && classify(replies[p.index]) == Raises(p.exc) && AllBusy(replies[..p.index], classify))
    && (p.Exhausted? ==> AllBusy(replies, classify))
  }

  function Later(p: Poll): Poll {
    match p
    case ReadyAt(i) => ReadyAt(i + 1)
    case RaisedAt(i, e) => RaisedAt(i + 1, e)
    case Exhausted => Exhausted
  }

  /** Where a `while (status & 128)` loop over these replies stops: busy
      replies are skipped, and the first one that is ready or raises ends it. */
  function FirstDecisive(replies: seq<Reply>, classify: Reply -> Probe): (p: Poll)
    ensures PollMeets(replies, classify, p)
  {
    if |replies| == 0 then Exhausted
    else
      match classify(replies[0])
      case Ready => ReadyAt(0)
      case Raises(e) => RaisedAt(0, e)
      case Busy =>
        var rest := FirstDecisive(replies[1..], classify);
        assert forall k :: 0 < k <= |replies| ==> replies[..k] == [replies[0]] + replies[1..][..k - 1];
        assert replies == [replies[0]] + replies[1..];
        Later(rest)
  }

  /** If reply k is the first one that is not busy, the poll stops there,
      whatever the bus would have answered afterwards. */
  lemma {:induction false} FirstDecisiveAt(replies: seq<Reply>, classify: Reply -> Probe, k: nat)
    requires k < |replies| && AllBusy(replies[..k], classify) && classify(replies[k]) != Busy
    ensures FirstDecisive(replies, classify) ==
      if classify(replies[k]) == Ready then ReadyAt(k) else RaisedAt(k, classify(replies[k]).exc)
  {
    if k > 0 {
      assert classify(replies[..k][0]) == Busy;
      assert replies[1..][..k - 1] == replies[..k][1..];
      FirstDecisiveAt(replies[1..], classify, k - 1);
    }
  }

  /** A loop that has only seen busy replies has not stopped early: with more
      replies it behaves as if it started at the first unseen one. */
  lemma {:induction false} FirstDecisiveAllBusy(replies: seq<Reply>, classify: Reply -> Probe)
    requires AllBusy(replies, classify)
    ensures FirstDecisive(replies, classify) == Exhausted
  {
    if |replies| > 0 {
      assert classify(replies[0]) == Busy;
      FirstDecisiveAllBusy(replies[1..], classify);
    }
  }

  /** Two classifications that agree on every reply stop the poll at the same place. */
  lemma {:induction false} FirstDecisiveAgree(replies: seq<Reply>, c1: Reply -> Probe, c2: Reply -> Probe)
    requires forall i :: 0 <= i < |replies| ==> c1(replies[i]) == c2(replies[i])
    ensures FirstDecisive(replies, c1) == FirstDecisive(replies, c2)
  {
    if |replies| > 0 {
      assert c1(replies[0]) == c2(replies[0]);
      assert forall i :: 0 <= i < |replies[1..]| ==> replies[1..][i] == replies[i + 1];
      FirstDecisiveAgree(replies[1..], c1, c2);
    }
  }

  /** The polling loop itself: it takes the replies in order. */
  method PollReady(replies: seq<Reply>, classify: Reply -> Probe) returns (p: Poll)
    ensures p == FirstDecisive(replies, classify)
  {
    var i := 0;
    while i < |replies|
      invariant 0 <= i <= |replies|
      invariant AllBusy(replies[..i], classify)
    {
      var c := classify(replies[i]);
      if c == Ready {
        FirstDecisiveAt(replies, classify, i);
        return ReadyAt(i);
      } else if c.Raises? {
        FirstDecisiveAt(replies, classify, i);
        return RaisedAt(i, c.exc);
      }
      assert replies[..i + 1] == replies[..i] + [replies[i]];
      i := i + 1;
    }
    assert replies[..i] == replies;
    FirstDecisiveAllBusy(replies, classify);
    return Exhausted;
  }

  /** What an ADC read hands back to its caller.  `ErrorCode` is the `-1` the
      Python code returns from its exception handlers; `Crash` is an exception
      that escapes; `NoReadyFrame` means every reply in the finite run was
      still busy (the Python loop would keep polling). */
  datatype Reading = Volts(value: real) | ErrorCode | Crash(exc: Exc) | NoReadyFrame

  /** The number the Python caller sees for a reading that returned. */
  function PyValue(r: Reading): real
    requires r.Volts? || r.ErrorCode?
  {
    if r.Volts? then r.value else -1.0
  }
}
