/** The TMP102 temperature sensor reader `I2cTemp`, in temperature/tmp102.py
    (where `__call__` reads) and tmp102/tmp102.py (where `get` reads and
    `__call__` returns `get()`).  The sensor's 16-bit temperature register
    holds a 12-bit count of 1/16 degC in its top bits, most significant byte
    first; SMBus `read_word_data` delivers the word low byte first, so the
    reader swaps the bytes back before shifting. */
module Tmp102 {
  import opened Bits

  type Word = x: int | 0 <= x < 0x10000

  /** The result of `read_word_data(address, register)`. */
  datatype WordReply = Got(word: Word) | Failed

  /** The bus as seen by the reader: the reply to a word read of a register at an address. */
  type Bus = (int, int) -> WordReply

  /** A reader object: only the address is kept. */
  datatype I2cTemp = I2cTemp(address: int)

  /** The highest reading, 4095 sixteenths of a degree. */
  const MaxReading: real := 4095.0 * 0.0625

  /** `msb = tmp & 0x00ff`, `lsb = (tmp & 0xff00) >> 8`,
      `temp = (((msb * 256) + lsb) >> 4) * 0.0625`. */
  function DecodeWord(tmp: Word): real {
    var msb := And(tmp, 0x00FF);
    var lsb := Shr(And(tmp, 0xFF00), 8);
    Shr(msb * 256 + lsb, 4) as real * 0.0625
  }

  /** The byte swap of a 16-bit word. */
  function Swap(w: Word): Word {
    (w % 256) * 256 + w / 256
  }

  lemma SwapInvolution(w: Word)
    ensures Swap(Swap(w)) == w
  {
    DivModUnique(Swap(w), 256, w % 256, w / 256);
  }

  /** `tmp & 0x00ff` is the low byte. */
  lemma LowByteMask(tmp: Word)
    ensures And(tmp, 0x00FF) == tmp % 256
  {
    Pow2Table();
    AndLowMask(tmp, 8);
  }

  /** `(tmp & 0xff00) >> 8` is the high byte. */
  lemma HighByteMask(tmp: Word)
    ensures Shr(And(tmp, 0xFF00), 8) == tmp / 256
  {
    var hi, lo := tmp / 256, tmp % 256;
    assert Pow2(8) == 256 by { Pow2Table(); }
    assert hi < 256 && hi % 256 == hi by {
      DivModUnique(tmp, 256, hi, lo);
      DivModUnique(hi, 256, 0, hi);
    }
    assert And(hi, 0xFF) == hi by { AndLowMask(hi, 8); }
    assert And(lo, 0) == 0 by { AndZero(lo); }
    assert And(tmp, 0xFF00) == hi * 256 by {
      AndSplit(tmp, 0xFF00, 8);
    }
    assert Shr(hi * 256, 8) == hi by {
      DivModUnique(hi * 256, 256, hi, 0);
    }
  }

  /** The masks pick the two bytes: the decode is the byte-swapped word
      shifted right by four, in sixteenths of a degree. */
  lemma DecodeIsSwapShift(tmp: Word)
    ensures DecodeWord(tmp) == (Swap(tmp) / 16) as real * 0.0625
  {
    LowByteMask(tmp);
    HighByteMask(tmp);
    Pow2Table();
  }

  /** A successful read lies in [0, 4095/16]: with no sign handling, it is
      never negative. */
  lemma DecodeRange(tmp: Word)
    ensures 0.0 <= DecodeWord(tmp) <= MaxReading
  {
    DecodeIsSwapShift(tmp);
  }

  /** Reading back what the sensor holds: a register with count c (c below
      4096) in its top twelve bits, delivered byte-swapped by the bus, decodes
      to c sixteenths of a degree whatever the low four bits are. */
  lemma DecodeRegister(c: nat, low: nat)
    requires c < 4096 && low < 16
    ensures DecodeWord(Swap(c * 16 + low)) == c as real * 0.0625
  {
    var reg: Word := c * 16 + low;
    DecodeIsSwapShift(Swap(reg));
    SwapInvolution(reg);
    DivModUnique(reg, 16, c, low);
  }

  /** `__call__` in temperature/tmp102.py and `get` in tmp102/tmp102.py: a
      word read of register 0 at the stored address, -1 on any exception. */
  function Get(t: I2cTemp, bus: Bus): (r: real)
    ensures bus(t.address, 0).Failed? ==> r == -1.0
    ensures bus(t.address, 0).Got? ==> 0.0 <= r <= MaxReading
  {
    DecodeRange(if bus(t.address, 0).Got? then bus(t.address, 0).word else 0);
    match bus(t.address, 0)
    case Failed => -1.0
    case Got(tmp) => DecodeWord(tmp)
  }

  /** The -1 of a failed read can never be mistaken for a temperature. */
  lemma MinusOneMeansFailure(t: I2cTemp, bus: Bus)
    ensures Get(t, bus) == -1.0 <==> bus(t.address, 0).Failed?
  {
  }

  /** Only register 0 at the stored address is read: buses that agree
      there give the same reading. */
  lemma ReadsOnlyRegisterZero(t: I2cTemp, bus1: Bus, bus2: Bus)
    requires bus1(t.address, 0) == bus2(t.address, 0)
    ensures Get(t, bus1) == Get(t, bus2)
  {
  }

  /** `__call__` of tmp102/tmp102.py returns exactly `get()`. */
  function Call(t: I2cTemp, bus: Bus): (r: real)
    ensures r == -1.0 <==> bus(t.address, 0).Failed?
    ensures r != -1.0 ==> r == DecodeWord(bus(t.address, 0).word)
  {
    Get(t, bus)
  }
}
