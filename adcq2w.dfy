/** The quick2wire reader script adc/adcQ2w.py: `getadcreading(address,
    config)` writes the configuration byte, then reads four-byte frames
    until the status byte's bit 7 is clear, and returns the signed 18-bit
    count divided by 64. */
module AdcQ2w {
  import opened Py
  import opened Bits
  import opened Bus
  import Mcp3424

  const Divisor := 64

  /** One reply: `h, m, l, s = ...[0]` raises ValueError unless the frame has
      exactly four bytes; the loop goes on while `s & 128`. */
  function Classify(rep: Reply): Probe {
    match rep
    case IoFailure => Raises(IOError)
    case Data(bs) => if |bs| != 4 then Raises(ValueError) else if TopBit(bs[3]) then Busy else Ready
  }

  /** `getadcreading`: a failed configuration write or read escapes, the first
      ready frame is decoded and divided by 64 (Python 3 true division). */
  function ReadValue(writeOk: bool, replies: seq<Reply>): Reading {
    if !writeOk then Crash(IOError)
    else
      match FirstDecisive(replies, Classify)
      case Exhausted => NoReadyFrame
      case RaisedAt(_, e) => Crash(e)
      case ReadyAt(k) =>
        var bs := replies[k].bytes;
        Volts(Mcp3424.SignedCount(bs[0], Mcp3424.RawCount(bs, 4).value) as real / Divisor as real)
  }

  /** The polling loop of `getadcreading`. */
  method GetAdcReading(writeOk: bool, replies: seq<Reply>) returns (r: Reading)
    ensures r == ReadValue(writeOk, replies)
  {
    if !writeOk {
      return Crash(IOError);
    }
    var p := PollReady(replies, Classify);
    match p {
      case Exhausted => r := NoReadyFrame;
      case RaisedAt(_, e) => r := Crash(e);
      case ReadyAt(k) =>
        var bs := replies[k].bytes;
        var h, m, l := bs[0], bs[1], bs[2];
        var t := Or(Or(Shl(And(h, 0x01), 16), Shl(m, 8)), l);
        if h > 128 {
          t := Not(0x020000 - t);
        }
        r := Volts(t as real / Divisor as real);
    }
  }

  /** A ready frame reads as its signed count over 64: a value in
      [-2049.015625, 2048), since the count lies in [-0x20001, 0x20000). */
  lemma ReadyFrameRange(bs: seq<Byte>)
    requires |bs| == 4 && !TopBit(bs[3])
    ensures ReadValue(true, [Data(bs)]).Volts?
    ensures -(0x20001 as real) / 64.0 <= ReadValue(true, [Data(bs)]).value < 0x20000 as real / 64.0
  {
    assert FirstDecisive([Data(bs)], Classify) == ReadyAt(0);
    Mcp3424.AssembleFour(bs);
    var t := Mcp3424.RawCount(bs, 4).value;
    Mcp3424.SignStep(bs[0], t);
  }

  /** A frame of the wrong length ends the read with ValueError, even when
      an earlier busy frame was fine. */
  lemma WrongLengthRaises(replies: seq<Reply>, k: nat)
    requires k < |replies| && AllBusy(replies[..k], Classify)
    requires replies[k].Data? && |replies[k].bytes| != 4
    ensures ReadValue(true, replies) == Crash(ValueError)
  {
    FirstDecisiveAt(replies, Classify, k);
  }
}
