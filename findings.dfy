/** Corrected forms of the ADC decoders and of the AdcPi2 channel routing,
    each with the property the drivers evidently intend, next to lemmas that
    show where the drivers as written miss it.

    The MCP342x chips send their output code in two's complement, sign bits
    repeated up to the byte boundary: three data bytes at 18 bits, two
    otherwise, followed by the configuration (status) byte. */
module Findings {
  import opened Bits
  import opened Py
  import opened Bus
  import Mcp3424
  import AdcPiV1

  /** Half the code range: 2^(res-1). */
  function Half(res: int): int {
    if res == 18 then 0x20000 else if res == 16 then 0x8000 else if res == 14 then 0x2000 else 0x800
  }

  /** The output codes a chip produces at a resolution. */
  predicate InCodeRange(res: int, v: int) {
    -Half(res) <= v < Half(res)
  }

  /** The data bytes the chip sends for code v. */
  function ChipBytes(res: int, v: int): (bs: seq<Byte>)
    ensures |bs| == (if res == 18 then 3 else 2)
  {
    if res == 18 then
      var u := v % 0x1000000;
      [u / 0x10000, (u / 0x100) % 0x100, u % 0x100]
    else
      var u := v % 0x10000;
      [u / 0x100, u % 0x100]
  }

  /** The bytes of a negative code start with a byte of at least 128, those
      of a non-negative one with a byte below 128. */
  lemma ChipBytesSign(res: int, v: int)
    requires Mcp3424.SupportedResolution(res) && InCodeRange(res, v)
    ensures v < 0 <==> ChipBytes(res, v)[0] >= 128
  {
  }

  // ----- MCP3424 (adc/adcpi.py) -----

  /** The corrected count: the assembled bits minus 2^17 (four-byte frame)
      or 2^16 (three-byte frame) when the sign bit of the first byte is set. */
  function CorrectedCount(res: int, bs: seq<Byte>): (r: Option<int>)
    requires Mcp3424.SupportedResolution(res)
    ensures r.None? <==> |bs| < (if res == 18 then 3 else 2)
    ensures r.Some? && res == 18 ==> -0x20000 <= r.value < 0x20000
    ensures r.Some? && res != 18 ==> -0x8000 <= r.value < 0x8000
  {
    match Mcp3424.RawCount(bs, Mcp3424.FrameLength(res))
    case None => None
    case Some(t) =>
      if res == 18 then
        Mcp3424.AssembleFour(bs);
        Some(if bs[0] >= 128 then t - 0x20000 else t)
      else
        Mcp3424.AssembleThree(bs);
        Some(if bs[0] >= 128 then t - 0x10000 else t)
  }

  /** A 24-bit word as three bytes. */
  lemma ThreeBytes(u: int)
    requires 0 <= u < 0x1000000
    ensures u == (u / 0x10000) * 0x10000 + ((u / 0x100) % 0x100) * 0x100 + u % 0x100
  {
    var q := u / 0x100;
    assert u == q * 0x100 + u % 0x100;
    assert q == (q / 0x100) * 0x100 + q % 0x100;
    assert q / 0x100 == u / 0x10000;
  }

  /** A 16-bit word as two bytes. */
  lemma TwoBytes(u: int)
    requires 0 <= u < 0x10000
    ensures u == (u / 0x100) * 0x100 + u % 0x100
  {
  }

  /** The three data bytes of an 18-bit code spell its 24-bit two's
      complement; the first byte is 0 or 1 for a non-negative code and 254
      or 255 for a negative one. */
  lemma EighteenBitDigits(v: int)
    requires InCodeRange(18, v)
    ensures var bs := ChipBytes(18, v);
      v + (if v < 0 then 0x1000000 else 0) == bs[0] as int * 0x10000 + bs[1] as int * 0x100 + bs[2] as int
    ensures v >= 0 ==> ChipBytes(18, v)[0] <= 1
    ensures v < 0 ==> ChipBytes(18, v)[0] >= 254
  {
    var u := v % 0x1000000;
    assert u == v + (if v < 0 then 0x1000000 else 0);
    ThreeBytes(u);
  }

  /** The two data bytes of a 12-, 14- or 16-bit code spell its 16-bit two's
      complement; the first byte is below Half/256 for a non-negative code
      and at least 256 - Half/256 for a negative one. */
  lemma TwoByteDigits(res: int, v: int)
    requires Mcp3424.SupportedResolution(res) && res != 18 && InCodeRange(res, v)
    ensures var bs := ChipBytes(res, v);
      v + (if v < 0 then 0x10000 else 0) == bs[0] as int * 0x100 + bs[1] as int
    ensures v >= 0 ==> ChipBytes(res, v)[0] < Half(res) / 0x100
    ensures v < 0 ==> ChipBytes(res, v)[0] >= 0x100 - Half(res) / 0x100
  {
    var u := v % 0x10000;
    assert u == v + (if v < 0 then 0x10000 else 0);
    TwoBytes(u);
  }

  /** The eighteen-bit round trip: bit 0 of the first byte and the two bytes
      after it are the low 17 bits of the code. */
  lemma EighteenBitRoundTrip(v: int, status: Byte)
    requires InCodeRange(18, v)
    ensures CorrectedCount(18, ChipBytes(18, v) + [status]) == Some(v)
  {
    var bs := ChipBytes(18, v) + [status];
    EighteenBitDigits(v);
    assert bs[..3] == ChipBytes(18, v);
    Mcp3424.AssembleFour(bs);
    SeventeenBits(v, bs[0], bs[1], bs[2]);
  }

  /** The count the four-byte path assembles from the bytes of code v, less
      2^17 when the first byte is 128 or more, is v. */
  lemma SeventeenBits(v: int, h: Byte, m: Byte, l: Byte)
    requires v + (if v < 0 then 0x1000000 else 0) == h as int * 0x10000 + m as int * 0x100 + l as int
    requires v >= 0 ==> h <= 1
    requires v < 0 ==> h >= 254
    ensures (h as int % 2) * 0x10000 + m as int * 0x100 + l as int - (if h >= 128 then 0x20000 else 0) == v
  {
    assert h as int % 2 == (if v < 0 then h - 254 else h);
  }

  /** The two-byte round trip at 12, 14 and 16 bits. */
  lemma TwoByteRoundTrip(res: int, v: int, status: Byte)
    requires Mcp3424.SupportedResolution(res) && res != 18 && InCodeRange(res, v)
    ensures CorrectedCount(res, ChipBytes(res, v) + [status]) == Some(v)
  {
    var bs := ChipBytes(res, v) + [status];
    Mcp3424.AssembleThree(bs);
    TwoByteDigits(res, v);
    assert bs[..2] == ChipBytes(res, v);
  }

  /** Every code the chip can send decodes back to itself. */
  lemma CorrectedCountRoundTrip(res: int, v: int, status: Byte)
    requires Mcp3424.SupportedResolution(res) && InCodeRange(res, v)
    ensures CorrectedCount(res, ChipBytes(res, v) + [status]) == Some(v)
  {
    if res == 18 {
      EighteenBitRoundTrip(v, status);
    } else {
      TwoByteRoundTrip(res, v, status);
    }
  }

  /** The bytes of the codes the misreadings below are about. */
  lemma SampleCodes()
    ensures ChipBytes(18, -1) == [0xFF, 0xFF, 0xFF] && ChipBytes(16, -1) == [0xFF, 0xFF]
    ensures ChipBytes(16, -0x8000) == [0x80, 0x00]
  {
    assert -1 % 0x1000000 == 0xFFFFFF;
    assert -1 % 0x10000 == 0xFFFF;
    assert -0x8000 % 0x10000 == 0x8000;
  }

  /** As written, the 18-bit code -1 reads as -2: the inversion subtracts
      one too many. */
  lemma Mcp3424MinusOneMisread(status: Byte)
    ensures Mcp3424.FrameCount(18, ChipBytes(18, -1) + [status]) == Some(-2)
  {
    SampleCodes();
    var a := ChipBytes(18, -1) + [status];
    assert a[0] == 0xFF && a[1] == 0xFF && a[2] == 0xFF;
    Mcp3424.AssembleFour(a);
  }

  /** As written, the 16-bit code -1 reads as -65538: the three-byte path
      subtracts 2^17 + 1 from an unmasked 16-bit count. */
  lemma Mcp3424SixteenBitMisread(status: Byte)
    ensures Mcp3424.FrameCount(16, ChipBytes(16, -1) + [status]) == Some(-0x10002)
  {
    SampleCodes();
    var b := ChipBytes(16, -1) + [status];
    assert b[0] == 0xFF && b[1] == 0xFF;
    Mcp3424.AssembleThree(b);
  }

  /** As written, the most negative 16-bit code -32768 (first byte exactly
      128) fails the `> 128` test and reads as +32768. */
  lemma Mcp3424MostNegativeMisread(status: Byte)
    ensures Mcp3424.FrameCount(16, ChipBytes(16, -0x8000) + [status]) == Some(0x8000)
  {
    SampleCodes();
    var b := ChipBytes(16, -0x8000) + [status];
    assert b[0] == 0x80 && b[1] == 0x00;
    Mcp3424.AssembleThree(b);
  }

  // ----- AdcPi V1 (adcpi.py, adc/adcpi2.py) -----

  /** Three frame bytes: the data bytes followed by the status byte(s). */
  function V1Frame(res: int, v: int, status: Byte): (bs: seq<Byte>)
    ensures |bs| >= 3
  {
    ChipBytes(res, v) + [status]
  }

  /** The corrected sign step: `h >= 128` and a plain subtraction of 2^N. */
  function CorrectedSignStep(resolution: int, h: Byte, t: int): (r: int)
    ensures h >= 128 ==> r == t - Pow2(AdcPiV1.MagnitudeBits(resolution))
    ensures h < 128 ==> r == t
  {
    if h >= 128 then t - Pow2(AdcPiV1.MagnitudeBits(resolution)) else t
  }

  /** The corrected count of a ready V1 frame. */
  function CorrectedV1Count(resolution: int, bs: seq<Byte>): int
    requires |bs| >= 3
  {
    CorrectedSignStep(resolution, bs[0], AdcPiV1.Magnitude(resolution, bs[0], bs[1], bs[2]))
  }

  lemma Pow2Magnitudes()
    ensures Pow2(3) == 8 && Pow2(5) == 32 && Pow2(7) == 128
    ensures Pow2(11) == 0x800 && Pow2(13) == 0x2000 && Pow2(15) == 0x8000 && Pow2(17) == 0x20000
  {
    Pow2Table();
    assert Pow2(3) == 8 && Pow2(5) == 32;
    assert Pow2(7) == 128 && Pow2(11) == 0x800;
    assert Pow2(13) == 0x2000;
  }

  /** Every code the chip can send decodes back to itself. */
  lemma CorrectedV1RoundTrip(resolution: int, v: int, status: Byte)
    requires Mcp3424.SupportedResolution(resolution) && InCodeRange(resolution, v)
    ensures CorrectedV1Count(resolution, V1Frame(resolution, v, status)) == v
  {
    if resolution == 18 {
      V1EighteenBitRoundTrip(v, status);
    } else {
      V1TwoByteRoundTrip(resolution, v, status);
    }
  }

  lemma V1EighteenBitRoundTrip(v: int, status: Byte)
    requires InCodeRange(18, v)
    ensures CorrectedV1Count(18, V1Frame(18, v, status)) == v
  {
    var bs := V1Frame(18, v, status);
    Pow2Magnitudes();
    AdcPiV1.MagnitudeClosedForm(18, bs[0], bs[1], bs[2]);
    EighteenBitDigits(v);
    assert bs[..3] == ChipBytes(18, v);
    SeventeenBits(v, bs[0], bs[1], bs[2]);
  }

  lemma V1TwoByteRoundTrip(resolution: int, v: int, status: Byte)
    requires Mcp3424.SupportedResolution(resolution) && resolution != 18 && InCodeRange(resolution, v)
    ensures CorrectedV1Count(resolution, V1Frame(resolution, v, status)) == v
  {
    var bs := V1Frame(resolution, v, status);
    Pow2Magnitudes();
    AdcPiV1.MagnitudeClosedForm(resolution, bs[0], bs[1], bs[2]);
    TwoByteDigits(resolution, v);
    assert bs[..2] == ChipBytes(resolution, v);
    V1TopByte(resolution, v, bs[0], bs[1]);
  }

  /** At 12, 14 and 16 bits the mask keeps the low N - 8 bits of the top
      byte: all of a non-negative code's top byte, and its top byte less
      256 - 2^(N-8) for a negative code; subtracting 2^N from the masked
      count of a negative code then gives the code back. */
  lemma V1TopByte(resolution: int, v: int, h: Byte, m: Byte)
    requires Mcp3424.SupportedResolution(resolution) && resolution != 18 && InCodeRange(resolution, v)
    requires v + (if v < 0 then 0x10000 else 0) == h as int * 0x100 + m as int
    requires v >= 0 ==> h < Half(resolution) / 0x100
    requires v < 0 ==> h >= 0x100 - Half(resolution) / 0x100
    requires Pow2(7) == 128 && Pow2(5) == 32 && Pow2(3) == 8
    requires Pow2(11) == 0x800 && Pow2(13) == 0x2000 && Pow2(15) == 0x8000
    ensures var n := AdcPiV1.MagnitudeBits(resolution);
      CorrectedSignStep(resolution, h, (h as int % Pow2(n - 8)) * 0x100 + m as int) == v
  {
    if resolution == 16 {
      assert h as int % 128 == (if v < 0 then h - 128 else h);
    } else if resolution == 14 {
      assert h as int % 32 == (if v < 0 then h - 224 else h);
    } else {
      assert h as int % 8 == (if v < 0 then h - 248 else h);
    }
  }

  /** As written, `~(2^N - t)` with the `> 128` test reads the 16-bit code
      -1 as -2 and the code -32768 as 0. */
  lemma V1Misread(status: Byte)
    ensures var bs := V1Frame(16, -1, status);
      AdcPiV1.SignStep(16, bs[0], AdcPiV1.Magnitude(16, bs[0], bs[1], bs[2])) == -2
    ensures var bs := V1Frame(16, -0x8000, status);
      AdcPiV1.SignStep(16, bs[0], AdcPiV1.Magnitude(16, bs[0], bs[1], bs[2])) == 0
  {
    Pow2Magnitudes();
    SampleCodes();
    var a := V1Frame(16, -1, status);
    assert a[0] == 0xFF && a[1] == 0xFF;
    AdcPiV1.MagnitudeClosedForm(16, a[0], a[1], a[2]);
    var b := V1Frame(16, -0x8000, status);
    assert b[0] == 0x80 && b[1] == 0x00;
    AdcPiV1.MagnitudeClosedForm(16, b[0], b[1], b[2]);
  }
}
