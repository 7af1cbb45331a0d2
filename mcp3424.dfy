/** The MCP3424 four-channel delta-sigma ADC driver (class `MCP3424`) and the
    two-chip AdcPi2 board built from it (class `AdcPi2`), as in adc/adcpi.py. */
module Mcp3424 {
  import opened Py
  import opened Bits
  import opened Bus

  /** The resolutions the constructor accepts; any other raises ValueError. */
  predicate SupportedResolution(res: int) {
    res == 12 || res == 14 || res == 16 || res == 18
  }

  /** `int(max(0, res / 2 - 8) + 3)` with Python 3 true division. */
  function FrameLength(res: int): (n: int)
    ensures SupportedResolution(res) ==> n == (if res == 18 then 4 else 3)
  {
    var x := res as real / 2.0 - 8.0;
    ((if x > 0.0 then x else 0.0) + 3.0).Floor
  }

  /** The channel-select bytes of the four channels before the resolution bits are added. */
  function BaseConfig(channel: nat): int
    requires channel < 4
  {
    [0x90, 0xB0, 0xD0, 0xF0][channel]
  }

  /** The resolution field of the configuration byte, `int((res - 12) / 2)`. */
  function ResolutionBits(res: int): int
    requires SupportedResolution(res)
  {
    (res - 12) / 2
  }

  /** `(2.495 / (1 << (res - 12))) / 1000`: volts per count at this resolution. */
  function Multiplier(res: int): (m: real)
    requires SupportedResolution(res)
    ensures res == 12 ==> m == 2.495 / 1000.0
    ensures res == 14 ==> m == 2.495 / 4.0 / 1000.0
    ensures res == 16 ==> m == 2.495 / 16.0 / 1000.0
    ensures res == 18 ==> m == 2.495 / 64.0 / 1000.0
  {
    assert Pow2(2) == 4 && Pow2(4) == 16 && Pow2(6) == 64;
    (2.495 / (Shl(1, res - 12) as real)) / 1000.0
  }

  /** The configuration byte of channel k at a supported resolution, in closed form. */
  function ConfigByte(channel: nat, res: int): int
    requires channel < 4 && SupportedResolution(res)
  {
    0x90 + 0x20 * channel + 4 * ResolutionBits(res)
  }

  /** `config | int((res - 12) / 2) << 2` adds the resolution field without
      disturbing the channel bits. */
  lemma OrResolution(channel: nat, res: int)
    requires channel < 4 && SupportedResolution(res)
    ensures Or(BaseConfig(channel), Shl(ResolutionBits(res), 2)) == ConfigByte(channel, res)
  {
    assert Pow2(2) == 4 && Pow2(4) == 16;
    var hi := BaseConfig(channel) / 16;
    assert BaseConfig(channel) == Shl(hi, 4);
    OrDisjoint(hi, 4, Shl(ResolutionBits(res), 2));
  }

  /** The 18-bit and 12-bit configuration tables. */
  lemma ConfigTables()
    ensures [ConfigByte(0, 18), ConfigByte(1, 18), ConfigByte(2, 18), ConfigByte(3, 18)] == [0x9C, 0xBC, 0xDC, 0xFC]
    ensures [ConfigByte(0, 12), ConfigByte(1, 12), ConfigByte(2, 12), ConfigByte(3, 12)] == [0x90, 0xB0, 0xD0, 0xF0]
  {
  }

  /** The channel order of the scripts that read the two chips of an AdcPi2
      board in turn (adcTest.py and adc/adcQ2w.py): each chip's four
      channels at 18 bits and gain 1. */
  const BoardScan: seq<(int, int)> :=
    [(0x68, 0x9C), (0x68, 0xBC), (0x68, 0xDC), (0x68, 0xFC),
     (0x69, 0x9C), (0x69, 0xBC), (0x69, 0xDC), (0x69, 0xFC)]

  /** The scan's configuration bytes are the driver's 18-bit, gain-1 bytes,
      channel by channel on each chip. */
  lemma BoardScanMatchesDriver()
    ensures |BoardScan| == 8
    ensures forall i :: 0 <= i < 8 ==> BoardScan[i].1 == ConfigByte(i % 4, 18)
    ensures forall i :: 0 <= i < 8 ==> BoardScan[i].0 == if i < 4 then 0x68 else 0x69
  {
    ConfigTables();
  }

  /** What one reply of the polling transaction means: an I/O error is
      caught, an empty reply makes `adcreading[-1]` raise, and otherwise
      the last byte's top bit says "conversion not ready". */
  function ClassifyReply(rep: Reply): Probe {
    match rep
    case IoFailure => Raises(IOError)
    case Data(bs) =>
      if |bs| == 0 then Raises(IndexError)
      else if TopBit(bs[|bs| - 1]) then Busy else Ready
  }

  /** The count assembled from a ready frame; None when the frame is too
      short for the indexing (an IndexError). */
  function RawCount(bs: seq<Byte>, numBytes: int): Option<int> {
    if numBytes == 4 then
      if |bs| < 3 then None
      else Some(Or(Or(Shl(And(bs[0], 0x01), 16), Shl(bs[1], 8)), bs[2]))
    else
      if |bs| < 2 then None
      else Some(Or(Shl(bs[0], 8), bs[1]))
  }

  /** The sign step `if adcreading[0] > 128: t = ~(0x020000 - t)`. */
  function SignedCount(b0: Byte, t: int): int {
    if b0 > 128 then Not(0x020000 - t) else t
  }

  /** The signed count of a ready frame, None when the frame is too short. */
  function FrameCount(res: int, bs: seq<Byte>): Option<int> {
    match RawCount(bs, FrameLength(res))
    case None => None
    case Some(t) => Some(SignedCount(bs[0], t))
  }

  /** A signed count in volts. */
  function Scaled(c: int, multiplier: real): real {
    c as real * multiplier
  }

  /** The value decoded from a ready frame. */
  function DecodeFrame(multiplier: real, res: int, bs: seq<Byte>): Reading {
    match FrameCount(res, bs)
    case None => Crash(IndexError)
    case Some(c) => Volts(Scaled(c, multiplier))
  }

  /** The value `__getadcreading` returns for this run of replies. */
  function AdcReading(multiplier: real, res: int, replies: seq<Reply>): Reading {
    match FirstDecisive(replies, ClassifyReply)
    case Exhausted => NoReadyFrame
    case RaisedAt(_, e) => if e == IOError then ErrorCode else Crash(e)
    case ReadyAt(k) => DecodeFrame(multiplier, res, replies[k].bytes)
  }

  lemma ByteLemma(b: Byte)
    ensures And(b, 0x01) == b % 2
  {
    AndLowMask(b, 1);
  }

  /** A four-byte frame assembles `((b0 & 1) << 16) | (b1 << 8) | b2`: bit 0
      of the first byte and the two following bytes, a 17-bit count. */
  lemma AssembleFour(bs: seq<Byte>)
    requires |bs| >= 3
    ensures RawCount(bs, 4) == Some((bs[0] as int % 2) * 0x10000 + bs[1] as int * 0x100 + bs[2] as int)
    ensures 0 <= RawCount(bs, 4).value < 0x20000
  {
    Pow2Table();
    var b0: int, b1: int, b2: int := bs[0], bs[1], bs[2];
    var lo := And(b0, 0x01);
    ByteLemma(bs[0]);
    assert lo == b0 % 2;
    var mid := Shl(b1, 8);
    assert mid == b1 * 256;
    OrDisjoint(lo, 16, mid);
    var hi := Or(Shl(lo, 16), mid);
    assert hi == lo * 65536 + b1 * 256;
    assert hi == Shl(lo * 256 + b1, 8);
    OrDisjoint(lo * 256 + b1, 8, b2);
  }

  /** A three-byte frame assembles `(b0 << 8) | b1`, with no mask on b0. */
  lemma AssembleThree(bs: seq<Byte>)
    requires |bs| >= 2
    ensures RawCount(bs, 3) == Some(bs[0] as int * 0x100 + bs[1] as int)
  {
    assert Pow2(8) == 256;
    OrDisjoint(bs[0], 8, bs[1]);
  }

  /** The sign step is `t - 0x20000 - 1` exactly when b0 > 128 (so 128
      itself counts as positive), at every resolution. */
  lemma SignStep(b0: Byte, t: int)
    ensures b0 > 128 ==> SignedCount(b0, t) == t - 0x20000 - 1
    ensures b0 <= 128 ==> SignedCount(b0, t) == t
    ensures 0 <= t < 0x20000 ==> -0x20001 <= SignedCount(b0, t) < 0x20000
    ensures 0 <= t < 0x20000 && b0 > 128 ==> SignedCount(b0, t) < 0
  {
  }

  /** Only the first frame whose status bit is clear is decoded: if frames
      before k are busy and frame k is ready, the result depends on frame k
      alone. */
  lemma {:induction false} OnlyFirstReadyDecoded(multiplier: real, res: int, replies: seq<Reply>, k: nat)
    requires k < |replies| && AllBusy(replies[..k], ClassifyReply) && ClassifyReply(replies[k]) == Ready
    ensures AdcReading(multiplier, res, replies) == AdcReading(multiplier, res, [replies[k]])
  {
    FirstDecisiveAt(replies, ClassifyReply, k);
    FirstDecisiveAt([replies[k]], ClassifyReply, 0);
  }

  /** A single ready frame is decoded on its own. */
  lemma SingleReadyFrame(bs: seq<Byte>, m: real, res: int)
    requires |bs| > 0 && !TopBit(bs[|bs| - 1])
    ensures AdcReading(m, res, [Data(bs)]) == DecodeFrame(m, res, bs)
  {
    assert FirstDecisive([Data(bs)], ClassifyReply) == ReadyAt(0);
  }

  /** An 18-bit frame decodes to the 17-bit count of its first three bytes,
      with the sign step applied. */
  lemma EighteenBitCount(bs: seq<Byte>, t: int)
    requires |bs| == 4
    requires t == (bs[0] as int % 2) * 0x10000 + bs[1] as int * 0x100 + bs[2] as int
    ensures FrameCount(18, bs) == Some(SignedCount(bs[0], t))
  {
    AssembleFour(bs);
  }

  /** The 18-bit frame `[0x01, 0x23, 0x45, status]` assembles the count 0x012345. */
  lemma EighteenBitPositive(bs: seq<Byte>)
    requires |bs| == 4 && bs[..3] == [0x01, 0x23, 0x45]
    ensures FrameCount(18, bs) == Some(0x012345)
  {
    assert bs[0] == 0x01 && bs[1] == 0x23 && bs[2] == 0x45;
    EighteenBitCount(bs, 0x012345);
  }

  /** The 18-bit frame `[0x81, 0, 0, status]` (sign bit set) comes out negative. */
  lemma EighteenBitNegative(bs: seq<Byte>)
    requires |bs| == 4 && bs[..3] == [0x81, 0x00, 0x00]
    ensures FrameCount(18, bs) == Some(-0x010001)
  {
    assert bs[0] == 0x81 && bs[1] == 0x00 && bs[2] == 0x00;
    EighteenBitCount(bs, 0x010000);
  }

  /** A run made only of I/O errors and busy frames reads as -1 once an I/O
      error arrives before any ready frame. */
  lemma IoErrorIsMinusOne(multiplier: real, res: int, replies: seq<Reply>, k: nat)
    requires k < |replies| && AllBusy(replies[..k], ClassifyReply) && replies[k] == IoFailure
    ensures AdcReading(multiplier, res, replies) == ErrorCode
    ensures PyValue(AdcReading(multiplier, res, replies)) == -1.0
  {
    FirstDecisiveAt(replies, ClassifyReply, k);
  }

  /** The `__getadcreading` polling loop. */
  method GetAdcReading(multiplier: real, res: int, replies: seq<Reply>) returns (r: Reading)
    ensures r == AdcReading(multiplier, res, replies)
  {
    var numBytes := FrameLength(res);
    var p := PollReady(replies, ClassifyReply);
    match p {
      case Exhausted => r := NoReadyFrame;
      case RaisedAt(_, e) => r := if e == IOError then ErrorCode else Crash(e);
      case ReadyAt(k) =>
        var bs := replies[k].bytes;
        var t: int;
        assert FrameLength(res) == numBytes;
        if numBytes == 4 {
          if |bs| < 3 { return Crash(IndexError); }
          t := Or(Or(Shl(And(bs[0], 0x01), 16), Shl(bs[1], 8)), bs[2]);
        } else {
          if |bs| < 2 { return Crash(IndexError); }
          t := Or(Shl(bs[0], 8), bs[1]);
        }
        if bs[0] > 128 {
          t := Not(0x020000 - t);
        }
        r := Volts(Scaled(t, multiplier));
    }
  }

  class Mcp3424 {
    const address: int
    const res: int
    const multiplier: real
    /** `config[k]` is the second element of the k-th `[address, config]` pair. */
    const config: array<int>

    ghost predicate Valid()
      reads this
    {
      config.Length == 4 && SupportedResolution(res) && multiplier == Multiplier(res)
    }

    constructor Init(address: int, res: int)
      requires SupportedResolution(res)
      ensures Valid() && fresh(config)
      ensures this.address == address && this.res == res
      ensures forall k :: 0 <= k < 4 ==> config[k] == ConfigByte(k, res)
    {
      this.address := address;
      this.res := res;
      this.multiplier := Multiplier(res);
      var c := ConfigTable(res);
      this.config := c;
    }

    /** The loop of `__init__` over the four `[address, config]` pairs: the
        resolution field is ORed into each channel's configuration. */
    static method ConfigTable(res: int) returns (c: array<int>)
      requires SupportedResolution(res)
      ensures fresh(c) && c.Length == 4
      ensures forall k :: 0 <= k < 4 ==> c[k] == ConfigByte(k, res)
    {
      c := new int[4] [0x90, 0xB0, 0xD0, 0xF0];
      var x := 0;
      while x < 4
        invariant 0 <= x <= 4
        invariant forall k :: 0 <= k < x ==> c[k] == ConfigByte(k, res)
        invariant forall k :: x <= k < 4 ==> c[k] == BaseConfig(k)
      {
        var base := c[x];
        assert base == BaseConfig(x);
        OrResolution(x, res);
        c[x] := Or(base, Shl(ResolutionBits(res), 2));
        x := x + 1;
      }
    }

    /** `MCP3424(address, resolution)`: a ValueError (null here) unless the
        resolution is 12, 14, 16 or 18. */
    static method Create(address: int, res: int) returns (adc: Mcp3424?)
      ensures adc == null <==> !SupportedResolution(res)
      ensures adc != null ==>
        && fresh(adc) && fresh(adc.config) && adc.Valid()
        && adc.address == address && adc.res == res
        && forall k :: 0 <= k < 4 ==> adc.config[k] == ConfigByte(k, res)
    {
      if !SupportedResolution(res) {
        return null;
      }
      adc := new Mcp3424.Init(address, res);
    }

    /** `get(channel, gain)`: gain 8 ORs 0b11 into the stored configuration of
        that channel for good; then the channel is polled. */
    method Get(channel: int, gain: int, replies: seq<Reply>) returns (r: Reading)
      requires Valid()
      modifies config
      ensures Valid()
      ensures ListIndex(channel, 4).None? ==> r == Crash(IndexError) && config[..] == old(config[..])
      ensures ListIndex(channel, 4).Some? ==>
        var k := ListIndex(channel, 4).value;
        && config[..] == old(config[..])[k := if gain == 8 then Or(old(config[k]), 0x03) else old(config[k])]
        && r == AdcReading(multiplier, res, replies)
    {
      var k := ListIndex(channel, 4);
      if k.None? {
        return Crash(IndexError);
      }
      if gain == 8 {
        config[k.value] := Or(config[k.value], 0x03);
      }
      r := GetAdcReading(multiplier, res, replies);
    }
  }

  /** Gain 8 sets the two low configuration bits: once set, a second call
      with gain 8 changes nothing. */
  lemma GainEightBits(c: int)
    ensures Or(c, 0x03) == c - c % 4 + 3
    ensures Or(Or(c, 0x03), 0x03) == Or(c, 0x03)
  {
    assert Pow2(2) == 4;
    OrLowMask(c, 2);
    OrLowMask(c - c % 4 + 3, 2);
  }

  class AdcPi2 {
    const adc1: Mcp3424
    const adc2: Mcp3424

    ghost predicate Valid()
      reads this, adc1, adc2
    {
      adc1.Valid() && adc2.Valid() && adc1.config != adc2.config &&
      adc1.address == 0x68 && adc2.address == 0x69 && adc1.res == adc2.res
    }

    constructor Init(a1: Mcp3424, a2: Mcp3424)
      requires a1.Valid() && a2.Valid() && a1.config != a2.config
      requires a1.address == 0x68 && a2.address == 0x69 && a1.res == a2.res
      ensures Valid() && adc1 == a1 && adc2 == a2
    {
      adc1, adc2 := a1, a2;
    }

    /** `AdcPi2(res)`: both chips are built; an unsupported resolution raises
        ValueError (null here). */
    static method Create(res: int) returns (board: AdcPi2?)
      ensures board == null <==> !SupportedResolution(res)
      ensures board != null ==> fresh(board) && board.Valid() && board.adc1.res == res
    {
      var a1 := Mcp3424.Create(0x68, res);
      if a1 == null { return null; }
      var a2 := Mcp3424.Create(0x69, res);
      board := new AdcPi2.Init(a1, a2);
    }

    /** `AdcPi2.get(channel)`: channels 0..3 read the first chip; channels 4..7
        are passed unchanged to the second chip, whose configuration list has
        only four entries, so they raise IndexError; other channels give -1. */
    method Get(channel: int, replies: seq<Reply>) returns (r: Reading)
      requires Valid()
      modifies adc1.config, adc2.config
      ensures Valid()
      ensures adc1.config[..] == old(adc1.config[..]) && adc2.config[..] == old(adc2.config[..])
      ensures 0 <= channel < 4 ==> r == AdcReading(adc1.multiplier, adc1.res, replies)
      ensures 4 <= channel < 8 ==> r == Crash(IndexError)
      ensures !(0 <= channel < 8) ==> r == ErrorCode
    {
      if 0 <= channel < 4 {
        r := adc1.Get(channel, 1, replies);
      } else if 4 <= channel < 8 {
        r := adc2.Get(channel, 1, replies);
      } else {
        r := ErrorCode;
      }
    }

    /** The evident intent of `AdcPi2.get`: board channel c in 4..7 is input
        c - 4 of the second chip, so each of the eight channels reads chip
        c / 4 at input c % 4. */
    method GetCorrected(channel: int, replies: seq<Reply>) returns (r: Reading)
      requires Valid()
      modifies adc1.config, adc2.config
      ensures Valid()
      ensures adc1.config[..] == old(adc1.config[..]) && adc2.config[..] == old(adc2.config[..])
      ensures 0 <= channel < 8 ==> r == AdcReading(adc1.multiplier, adc1.res, replies)
      ensures !(0 <= channel < 8) ==> r == ErrorCode
    {
      if 0 <= channel < 4 {
        r := adc1.Get(channel, 1, replies);
      } else if 4 <= channel < 8 {
        r := adc2.Get(channel - 4, 1, replies);
      } else {
        r := ErrorCode;
      }
    }
  }
}
