/** The original AdcPi (V1) reader, class `AdcPiV1`, which exists twice with
    the same code: adcpi.py and adc/adcpi2.py.  One channel object holds an
    address, a configuration byte, a gain and a calibration factor;
    `get` writes the configuration byte, polls the chip until the ready
    bit is clear and decodes the frame at the chosen resolution.  Every
    exception inside `get` is caught and turned into -1. */
module AdcPiV1 {
  import opened Py
  import opened Bits
  import opened Bus
  import Mcp3424

  /** The default configuration, `0b10010000`. */
  const DefaultConfig := 0x90

  /** `int(math.log(gain, 2))` for a positive integer gain: the floor of its base-2 logarithm. */
  function Log2Floor(g: int): (r: nat)
    requires g >= 1
    ensures Pow2(r) <= g < 2 * Pow2(r)
  {
    if g == 1 then 0 else 1 + Log2Floor(g / 2)
  }

  /** One configured channel.  `address` is None when the channel number is
      outside 1..8: the constructor then never assigns it. */
  datatype Channel = Channel(address: Option<int>, config: int, gain: int, resolution: int, calibration: real)

  /** The constructor's address choice. */
  function AddressOf(channel: int): Option<int> {
    if 1 <= channel <= 4 then Some(0x68)
    else if 5 <= channel <= 8 then Some(0x69)
    else None
  }

  /** `config | ((channel-1) << 5) | (((resolution/2)-6) << 2) | int(math.log(gain, 2))`,
      with Python 2 floor division and Python's left-to-right `|`. */
  function ConfigExpr(channel: int, resolution: int, gain: int): int
    requires gain >= 1
  {
    Or(Or(Or(DefaultConfig, Shl(channel - 1, 5)), Shl(resolution / 2 - 6, 2)), Log2Floor(gain))
  }

  /** `AdcPiV1(bus, channel, resolution, gain, calibration)`: `math.log`
      raises ValueError for a gain that is not positive. */
  function New(channel: int, resolution: int, gain: int, calibration: real): (r: Outcome<Channel>)
    ensures r.Raised? <==> gain < 1
    ensures r.Raised? ==> r.exc == ValueError
    ensures r.Ok? ==> r.value.gain == gain && r.value.resolution == resolution && r.value.calibration == calibration
    ensures r.Ok? ==> r.value.address == AddressOf(channel)
  {
    if gain < 1 then Raised(ValueError)
    else Ok(Channel(AddressOf(channel), ConfigExpr(channel, resolution, gain), gain, resolution, calibration))
  }

  /** The two channel-select bits land on top of bits already in the default
      byte: channels c and c + 4 select the same input. */
  lemma ChannelField(c: int)
    requires 0 <= c < 8
    ensures Or(DefaultConfig, Shl(c, 5)) == 0x90 + 0x20 * (c % 4)
    ensures Or(DefaultConfig, Shl(c, 5)) % 16 == 0
  {
    Pow2Table();
    assert Pow2(5) == 32;
    OrSplit(DefaultConfig, Shl(c, 5), 5);
    DivModUnique(DefaultConfig, 32, 4, 16);
    DivModUnique(Shl(c, 5), 32, c, 0);
    OrZero(16);
    OrFour(c);
    ChannelSum(c % 4, Or(DefaultConfig, Shl(c, 5)));
  }

  /** `4 | c` for c below 8 keeps only c's low two bits beside the 4. */
  lemma OrFour(c: int)
    requires 0 <= c < 8
    ensures Or(4, c) == 4 + c % 4
  {
    Pow2Table();
    OrSplit(4, c, 2);
    DivModUnique(4, 4, 1, 0);
    DivModUnique(c, 4, c / 4, c % 4);
    assert c / 4 == 0 || c / 4 == 1;
    assert Or(1, 0) == 1 && Or(1, 1) == 1;
    ZeroOr(c % 4);
  }

  lemma ChannelSum(q: int, v: int)
    requires v == Shl(4 + q, 5) + 16 && Pow2(5) == 32
    ensures v == 0x90 + 0x20 * q && v % 16 == 0
  {
  }

  /** At a supported resolution, a channel 1..8 and a gain of 1, 2, 4 or 8 the
      fields do not overlap and the byte is a sum of its fields. */
  lemma ConfigClosedForm(channel: int, resolution: int, gain: int)
    requires 1 <= channel <= 8
    requires resolution == 12 || resolution == 14 || resolution == 16 || resolution == 18
    requires gain == 1 || gain == 2 || gain == 4 || gain == 8
    ensures ConfigExpr(channel, resolution, gain) ==
      0x90 + 0x20 * ((channel - 1) % 4) + 4 * (resolution / 2 - 6) + Log2Floor(gain)
    ensures 0 <= Log2Floor(gain) <= 3
  {
    var r := resolution / 2 - 6;
    GainLog(gain);
    var chan := Or(DefaultConfig, Shl(channel - 1, 5));
    ChannelField(channel - 1);
    ResolutionField(chan, r);
    GainField(Or(chan, Shl(r, 2)), Log2Floor(gain));
  }

  lemma GainLog(gain: int)
    requires gain == 1 || gain == 2 || gain == 4 || gain == 8
    ensures Log2Floor(gain) <= 3
  {
    assert Log2Floor(1) == 0 && Log2Floor(2) == 1 && Log2Floor(4) == 2 && Log2Floor(8) == 3;
  }

  /** The resolution field sits above the gain bits of a byte whose low nibble is clear. */
  lemma ResolutionField(x: int, r: int)
    requires x % 16 == 0 && 0 <= r < 4
    ensures Or(x, Shl(r, 2)) == x + 4 * r && Or(x, Shl(r, 2)) % 4 == 0
  {
    Pow2Table();
    var hi := x / 16;
    assert Shl(hi, 4) == x;
    assert Shl(r, 2) == 4 * r;
    OrDisjoint(hi, 4, Shl(r, 2));
    DivModUnique(x + 4 * r, 4, 4 * hi + r, 0);
  }

  /** The gain field fills the two low bits. */
  lemma GainField(x: int, g: int)
    requires x % 4 == 0 && 0 <= g < 4
    ensures Or(x, g) == x + g
  {
    Pow2Table();
    assert Shl(x / 4, 2) == x;
    OrDisjoint(x / 4, 2, g);
  }

  /** Channels c and c + 4 get the same configuration byte; only the address tells them apart. */
  lemma ConfigShared(c: int, resolution: int, gain: int)
    requires 1 <= c <= 4 && gain >= 1
    ensures ConfigExpr(c, resolution, gain) == ConfigExpr(c + 4, resolution, gain)
    ensures AddressOf(c) == Some(0x68) && AddressOf(c + 4) == Some(0x69)
  {
    ChannelField(c - 1);
    ChannelField(c + 3);
    assert (c + 3) % 4 == (c - 1) % 4;
    var field := Or(DefaultConfig, Shl(c - 1, 5));
    assert Or(DefaultConfig, Shl(c + 3, 5)) == field;
    assert Shl(c + 4 - 1, 5) == Shl(c + 3, 5);
  }

  /** The 18-bit, gain-1 configuration bytes of channels 1..4 are 0x9C,
      0xBC, 0xDC and 0xFC. */
  lemma EighteenBitConfigs(c: int)
    requires 1 <= c <= 4
    ensures ConfigExpr(c, 18, 1) == 0x9C + 0x20 * (c - 1)
  {
    ConfigClosedForm(c, 18, 1);
    EighteenBitSum(c);
  }

  lemma EighteenBitSum(c: int)
    requires 1 <= c <= 4
    ensures 0x90 + 0x20 * ((c - 1) % 4) + 4 * (18 / 2 - 6) + Log2Floor(1) == 0x9C + 0x20 * (c - 1)
  {
  }

  /** How many bytes of each frame `get` indexes: `h, m, l, s` at 18 bits,
      `h, m, l` otherwise. */
  function FrameBytes(resolution: int): nat {
    if resolution == 18 then 4 else 3
  }

  /** One reply of the polling loop: a failed transaction or a frame too
      short for the indexing raises (and is caught), otherwise bit 7 of the
      status byte (the fourth at 18 bits, the third otherwise) says busy. */
  function ClassifyFrame(resolution: int, rep: Reply): Probe {
    match rep
    case IoFailure => Raises(IOError)
    case Data(bs) =>
      if |bs| < FrameBytes(resolution) then Raises(IndexError)
      else if TopBit(bs[FrameBytes(resolution) - 1]) then Busy else Ready
  }

  /** The poll's view of a reply at one resolution. */
  function Classifier(resolution: int): Reply -> Probe {
    rep => ClassifyFrame(resolution, rep)
  }

  /** A frame the poll accepted has the three bytes the decode indexes. */
  lemma ReadyFrame(resolution: int, rep: Reply)
    requires Classifier(resolution)(rep) == Ready
    ensures rep.Data? && |rep.bytes| >= 3
  {
  }

  /** The magnitude width N of each supported resolution. */
  function MagnitudeBits(resolution: int): nat {
    if resolution == 18 then 17 else if resolution == 16 then 15 else if resolution == 14 then 13 else 11
  }

  /** The mask applied to the top byte: 0b1, 0b1111111, 0b11111, 0b111. */
  function TopMask(resolution: int): int {
    if resolution == 18 then 0x01 else if resolution == 16 then 0x7F else if resolution == 14 then 0x1F else 0x07
  }

  /** The volts per count before calibration. */
  function Lsb(resolution: int): real {
    if resolution == 18 then 0.000015625 else if resolution == 16 then 0.0000625
    else if resolution == 14 then 0.000250 else 0.001
  }

  /** The bit concatenation of one resolution branch. */
  function Magnitude(resolution: int, h: Byte, m: Byte, l: Byte): int {
    if resolution == 18 then Or(Or(Shl(And(h, TopMask(resolution)), 16), Shl(m, 8)), l)
    else Or(Shl(And(h, TopMask(resolution)), 8), m)
  }

  /** `if (h > 128): t = ~(2^N - t)`. */
  function SignStep(resolution: int, h: Byte, t: int): int {
    if h > 128 then Not(Pow2(MagnitudeBits(resolution)) - t) else t
  }

  /** A count in volts: the LSB size and the calibration factor, divided by
      the gain. */
  function Scale(ch: Channel, t: int): real
    requires ch.gain >= 1
  {
    t as real * Lsb(ch.resolution) * ch.calibration / ch.gain as real
  }

  /** The frame decode and scaling; an unsupported resolution leaves `t`
      unassigned, so `return t/self.gain` raises (and is caught). */
  function DecodeFrame(ch: Channel, bs: seq<Byte>): Reading
    requires |bs| >= 3 && ch.gain >= 1
  {
    if !Mcp3424.SupportedResolution(ch.resolution) then ErrorCode
    else
      var t := SignStep(ch.resolution, bs[0], Magnitude(ch.resolution, bs[0], bs[1], bs[2]));
      Volts(Scale(ch, t))
  }

  /** What `get` returns after the configuration write, given the replies of
      the read transactions in order. */
  function Get(ch: Channel, writeOk: bool, replies: seq<Reply>): Reading
    requires ch.gain >= 1
  {
    if ch.address.None? || !writeOk then ErrorCode
    else
      match FirstDecisive(replies, Classifier(ch.resolution))
      case Exhausted => NoReadyFrame
      case RaisedAt(_, _) => ErrorCode
      case ReadyAt(k) => DecodeFrame(ch, replies[k].bytes)
  }

  /** `get`: its result always returns to the caller as a number (or the
      poll is still waiting): every exception is caught. */
  method GetReading(ch: Channel, writeOk: bool, replies: seq<Reply>) returns (r: Reading)
    requires ch.gain >= 1
    ensures r == Get(ch, writeOk, replies)
    ensures !r.Crash?
  {
    if ch.address.None? || !writeOk {
      return ErrorCode;
    }
    var p := PollReady(replies, Classifier(ch.resolution));
    match p {
      case Exhausted => r := NoReadyFrame;
      case RaisedAt(_, _) => r := ErrorCode;
      case ReadyAt(k) =>
        ReadyFrame(ch.resolution, replies[k]);
        var bs := replies[k].bytes;
        var h, m, l := bs[0], bs[1], bs[2];
        if !Mcp3424.SupportedResolution(ch.resolution) {
          return ErrorCode;
        }
        var t := Magnitude(ch.resolution, h, m, l);
        if h > 128 {
          t := Not(Pow2(MagnitudeBits(ch.resolution)) - t);
        }
        r := Volts(Scale(ch, t));
    }
  }

  /** The masked magnitude is the low bits of the top byte followed by the
      next byte (two at 18 bits): a count in [0, 2^N). */
  lemma MagnitudeClosedForm(resolution: int, h: Byte, m: Byte, l: Byte)
    requires Mcp3424.SupportedResolution(resolution)
    ensures resolution == 18 ==> Magnitude(resolution, h, m, l) == (h as int % 2) * 0x10000 + m as int * 0x100 + l as int
    ensures resolution != 18 ==>
      Magnitude(resolution, h, m, l) == (h as int % Pow2(MagnitudeBits(resolution) - 8)) * 0x100 + m as int
    ensures 0 <= Magnitude(resolution, h, m, l) < Pow2(MagnitudeBits(resolution))
  {
    Pow2Table();
    var n := MagnitudeBits(resolution);
    if resolution == 18 {
      AndLowMask(h, 1);
      var top := h as int % 2;
      OrDisjoint(top, 16, Shl(m, 8));
      assert top * 0x10000 + m as int * 0x100 == Shl(top * 0x100 + m as int, 8);
      OrDisjoint(top * 0x100 + m as int, 8, l);
    } else {
      assert Pow2(5) == 32 && Pow2(3) == 8 && Pow2(7) == 128;
      assert Pow2(11) == 2048 && Pow2(13) == 8192 && Pow2(15) == 32768;
      assert TopMask(resolution) == Pow2(n - 8) - 1;
      AndLowMask(h, n - 8);
      var top := h as int % Pow2(n - 8);
      OrDisjoint(top, 8, m);
      Pow2Add(n - 8, 8);
    }
  }

  /** The sign step: `h > 128` (not `>= 128`) subtracts 2^N + 1, leaving the
      value in [-2^N - 1, 0). */
  lemma SignStepValue(resolution: int, h: Byte, t: int)
    ensures h > 128 ==> SignStep(resolution, h, t) == t - Pow2(MagnitudeBits(resolution)) - 1
    ensures h <= 128 ==> SignStep(resolution, h, t) == t
    ensures h > 128 && 0 <= t < Pow2(MagnitudeBits(resolution)) ==>
      -(Pow2(MagnitudeBits(resolution)) as int) - 1 <= SignStep(resolution, h, t) < 0
  {
  }

  /** The first ready frame decides; frames that raise end `get` with -1. */
  lemma {:induction false} FirstReadyDecides(ch: Channel, replies: seq<Reply>, k: nat)
    requires ch.gain >= 1 && ch.address.Some?
    requires k < |replies| && AllBusy(replies[..k], Classifier(ch.resolution))
    requires ClassifyFrame(ch.resolution, replies[k]) != Busy
    ensures ClassifyFrame(ch.resolution, replies[k]) == Ready ==>
      Get(ch, true, replies) == DecodeFrame(ch, replies[k].bytes)
    ensures ClassifyFrame(ch.resolution, replies[k]) != Ready ==> Get(ch, true, replies) == ErrorCode
  {
    FirstDecisiveAt(replies, Classifier(ch.resolution), k);
  }

  /** A channel the constructor gave no address reads -1 whatever the bus says. */
  lemma NoAddressReadsMinusOne(channel: int, resolution: int, gain: int, calibration: real, writeOk: bool, replies: seq<Reply>)
    requires gain >= 1 && !(1 <= channel <= 8)
    ensures New(channel, resolution, gain, calibration).Ok?
    ensures Get(New(channel, resolution, gain, calibration).value, writeOk, replies) == ErrorCode
  {
  }
}
