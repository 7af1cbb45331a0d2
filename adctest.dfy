/** The stand-alone ADC Pi reader script adcTest.py: it picks the I2C bus from
    the board revision, then reads the eight channels of the two MCP3424
    chips at 18 bits, one `getadcreading(address, config)` at a time.  The
    script has no exception handlers, so a failed transaction or a short
    frame escapes. */
module AdcTest {
  import opened Py
  import opened Bits
  import opened Bus
  import CpuInfo
  import Mcp3424

  /** `varMultiplier = (2.4705882 / varDivisior) / 1000` with `varDivisior = 64`. */
  const Divisor := 64
  const Multiplier: real := (2.4705882 / Divisor as real) / 1000.0

  /** The module-level Revision scan; without a Revision line `i2c_bus` is
      never bound and `SMBus(i2c_bus)` raises NameError. */
  method SelectBus(lines: seq<string>) returns (r: Outcome<nat>)
    ensures r.Raised? <==> CpuInfo.RevisionBus(lines).None?
    ensures r.Raised? ==> r.exc == NameError
    ensures r.Ok? ==> CpuInfo.RevisionBus(lines) == Some(r.value) && r.value <= 1
  {
    var bus := CpuInfo.ScanRevision(lines);
    if bus.None? {
      return Raised(NameError);
    }
    return Ok(bus.value);
  }

  /** One reply: `h, m, l, s` are indexed (IndexError on a short frame) and
      the loop goes on while `s & 128`. */
  function Classify(rep: Reply): Probe {
    match rep
    case IoFailure => Raises(IOError)
    case Data(bs) => if |bs| < 4 then Raises(IndexError) else if TopBit(bs[3]) then Busy else Ready
  }

  /** `getadcreading`: the first ready frame, assembled and sign-stepped as
      the driver does, times the multiplier. */
  function ReadValue(replies: seq<Reply>): Bus.Reading {
    match FirstDecisive(replies, Classify)
    case Exhausted => NoReadyFrame
    case RaisedAt(_, e) => Crash(e)
    case ReadyAt(k) =>
      var bs := replies[k].bytes;
      Volts(Mcp3424.Scaled(Mcp3424.SignedCount(bs[0], Mcp3424.RawCount(bs, 4).value), Multiplier))
  }

  /** The polling loop of `getadcreading`. */
  method GetAdcReading(replies: seq<Reply>) returns (r: Bus.Reading)
    ensures r == ReadValue(replies)
  {
    var p := PollReady(replies, Classify);
    match p {
      case Exhausted => r := NoReadyFrame;
      case RaisedAt(_, e) => r := Crash(e);
      case ReadyAt(k) =>
        var bs := replies[k].bytes;
        var h, m, l := bs[0], bs[1], bs[2];
        var t := Or(Or(Shl(And(h, 0x01), 16), Shl(m, 8)), l);
        if h > 128 {
          t := Not(0x020000 - t);
        }
        r := Volts(Mcp3424.Scaled(t, Multiplier));
    }
  }

  /** On well-formed four-byte frames the script reads exactly what the
      MCP3424 driver reads at 18 bits with the same multiplier; they differ
      only in that the driver turns an I/O error into -1. */
  lemma AgreesWithDriver(replies: seq<Reply>)
    requires forall i :: 0 <= i < |replies| ==> replies[i].Data? && |replies[i].bytes| == 4
    ensures ReadValue(replies) == Mcp3424.AdcReading(Multiplier, 18, replies)
  {
    forall i | 0 <= i < |replies|
      ensures Classify(replies[i]) == Mcp3424.ClassifyReply(replies[i])
    {
    }
    FirstDecisiveAgree(replies, Classify, Mcp3424.ClassifyReply);
  }

  /** Without a handler, an I/O error before the first ready frame escapes
      the script instead of reading -1. */
  lemma IoErrorEscapes(replies: seq<Reply>, k: nat)
    requires k < |replies| && AllBusy(replies[..k], Classify) && replies[k] == IoFailure
    ensures ReadValue(replies) == Crash(IOError)
  {
    FirstDecisiveAt(replies, Classify, k);
  }
}
