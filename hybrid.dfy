/** The hybrid power board of hybrid/hybrid.py: an I2C port expander
    (`HybridIo`) whose two-byte output register carries the 12 V rail
    switches (port 1) and the battery charger's control lines (port 0), the
    charger's current potentiometer (`Charge_Controller`), two MCP3424 ADCs
    (`Adc`) and the board object (`Hybrid`) that ramps the charge current.
    Bus transactions are inputs: a write either succeeds or raises IOError,
    a register read either delivers bytes or raises IOError, and the ADC
    readings of one update (in volts, -1 on an I/O error) are given. */
module HybridBoard {
  import opened Py
  import opened Bits

  /** A Python value as far as `is 1`, `is 0`, `is True` and `is False` can
      tell: CPython caches small integers, so `x is 1` holds for the int 1
      and not for `True`. */
  datatype PyVal = PyInt(i: int) | PyBool(b: bool) | PyOther

  /** An int as Python sees it in an index or a shift: bools are ints. */
  function AsInt(v: PyVal): (r: Option<int>)
    ensures v.PyInt? ==> r == Some(v.i)
    ensures v.PyOther? <==> r.None?
  {
    match v
    case PyInt(i) => Some(i)
    case PyBool(b) => Some(if b then 1 else 0)
    case PyOther => None
  }

  /** `__bit_register`: a list (or the bytes a read delivers) of the two port
      bytes, or a bare integer once the low-setting branch has replaced it. */
  datatype Register = Ports(bytes: seq<int>) | Scalar(value: int)

  const Address := 0x20
  const InitialRegister := Ports([0x44, 0x00])
  /** Output is 0, input is 1. */
  const DirectionRegister: seq<int> := [0x3B, 0x00]

  /** `_get_bit(register, bit)`: `bool((register >> bit) & 1)`. */
  function GetBit(register: int, bit: nat): (r: bool)
    ensures r == BitSet(register, bit)
  {
    TestBit(register, bit);
    And(Shr(register, bit), 1) != 0
  }

  /** `self.bit_register[port]`. */
  function ReadPort(reg: Register, port: int): (r: Outcome<int>)
    ensures reg.Scalar? ==> r == Raised(TypeError)
    ensures reg.Ports? && 0 <= port < |reg.bytes| ==> r == Ok(reg.bytes[port])
  {
    match reg
    case Scalar(_) => Raised(TypeError)
    case Ports(bs) =>
      match ListIndex(port, |bs|)
      case None => Raised(IndexError)
      case Some(k) => Ok(bs[k])
  }

  /** The named lines of the register. */
  datatype Line = Power1 | Power2 | Power3 | Power4 | Power5
                | Cells | Chem | Lobat | Icl | Acp | Shdn | Fault | Chg

  /** Where each line lives: the rail switches power1..power5 are bits 0..4
      of port 1, the charger lines CELLS..CHG bits 0..7 of port 0. */
  function Location(l: Line): (r: (nat, nat))
    ensures r.0 <= 1 && r.1 <= 7
  {
    match l
    case Power1 => (1, 0)
    case Power2 => (1, 1)
    case Power3 => (1, 2)
    case Power4 => (1, 3)
    case Power5 => (1, 4)
    case Cells => (0, 0)
    case Chem => (0, 1)
    case Lobat => (0, 2)
    case Icl => (0, 3)
    case Acp => (0, 4)
    case Shdn => (0, 5)
    case Fault => (0, 6)
    case Chg => (0, 7)
  }

  /** No two lines share a bit. */
  lemma LocationsDistinct(l: Line, m: Line)
    ensures Location(l) == Location(m) ==> l == m
  {
  }

  /** The lines with a property setter; the others are inputs. */
  predicate Settable(l: Line) {
    l in {Power1, Power2, Power3, Power4, Power5, Cells, Chem, Shdn}
  }

  /** The property getter of a line. */
  function ReadLine(reg: Register, l: Line): (r: Outcome<bool>)
    ensures reg.Scalar? ==> r == Raised(TypeError)
    ensures reg.Ports? && |reg.bytes| == 2 ==> r == Ok(BitSet(reg.bytes[Location(l).0], Location(l).1))
  {
    match ReadPort(reg, Location(l).0)
    case Raised(e) => Raised(e)
    case Ok(b) => Ok(GetBit(b, Location(l).1))
  }

  /** What the `bit_register` setter does to the register, and whether it
      goes on to `change_output`. */
  datatype SetResult = SetResult(reg: Register, write: bool)

  /** The `bit_register` setter on `data`, as written: a value that does not
      unpack into three raises ValueError; `state is 1` ORs the bit into the
      port byte; `state is 0` on a set bit replaces the whole register by
      the port byte with the bit toggled, and on a clear bit returns without
      a write; any other state (True and False among them) is only printed,
      and the register is written out unchanged. */
  function SetBits(reg: Register, data: seq<PyVal>): (r: Outcome<SetResult>)
    ensures |data| != 3 ==> r == Raised(ValueError)
    ensures r.Ok? && r.value.reg != reg ==> data[2] in {PyInt(0), PyInt(1)}
  {
    if |data| != 3 then Raised(ValueError)
    else
      var port, bit, state := data[0], data[1], data[2];
      if state == PyInt(1) || state == PyInt(0) then
        if reg.Scalar? || AsInt(port).None? then Raised(TypeError)
        else
          var k := ListIndex(AsInt(port).value, |reg.bytes|);
          if k.None? then Raised(IndexError)
          else if AsInt(bit).None? then Raised(TypeError)
          else if AsInt(bit).value < 0 then Raised(ValueError)
          else
            var byte, b := reg.bytes[k.value], AsInt(bit).value;
            if state == PyInt(1) then
              Ok(SetResult(Ports(reg.bytes[k.value := Or(byte, Shl(1, b))]), true))
            else if GetBit(byte, b) then
              Ok(SetResult(Scalar(Xor(byte, Shl(1, b))), true))
            else
              Ok(SetResult(reg, false))
      else
        Ok(SetResult(reg, true))
  }

  /** Setting a line high ORs its bit in: that bit reads back set, every
      other bit of the port is unchanged and so is the other port. */
  lemma SetHigh(bs: seq<int>, l: Line)
    requires |bs| == 2
    ensures var p, b := Location(l).0, Location(l).1;
      && SetBits(Ports(bs), [PyInt(p), PyInt(b), PyInt(1)]).Ok?
      && var n := SetBits(Ports(bs), [PyInt(p), PyInt(b), PyInt(1)]).value;
      && n.write && n.reg.Ports? && |n.reg.bytes| == 2
      && n.reg.bytes[1 - p] == bs[1 - p]
      && forall c: nat :: BitSet(n.reg.bytes[p], c) == (c == b || BitSet(bs[p], c))
  {
    var p, b := Location(l).0, Location(l).1;
    OrBit(bs[p], b);
    forall c: nat
      ensures BitSet(Or(bs[p], Shl(1, b)), c) == (c == b || BitSet(bs[p], c))
    {
      if !BitSet(bs[p], b) {
        AddBit(bs[p], b, c);
      }
    }
  }

  /** The defect: setting a set line low leaves the register a bare
      integer.  Once the bus opens, the setter's own `change_output` fails
      with TypeError building its write (if the bus does not open, the
      IOError handler returns -1 first, and the setter ends normally); every
      later line getter and setter fails with TypeError. */
  lemma ClearLeavesScalar(bs: seq<int>, l: Line, m: Line)
    requires |bs| == 2 && BitSet(bs[Location(l).0], Location(l).1)
    ensures var p, b := Location(l).0, Location(l).1;
      && SetBits(Ports(bs), [PyInt(p), PyInt(b), PyInt(0)]) == Ok(SetResult(Scalar(bs[p] - Pow2(b)), true))
      && WriteOutcome(Scalar(bs[p] - Pow2(b)), true, true) == Raised(TypeError)
      && WriteOutcome(Scalar(bs[p] - Pow2(b)), true, false) == Ok(())
      && ReadLine(Scalar(bs[p] - Pow2(b)), m) == Raised(TypeError)
      && SetBits(Scalar(bs[p] - Pow2(b)), [PyInt(Location(m).0), PyInt(Location(m).1), PyInt(1)]) == Raised(TypeError)
  {
    var p, b := Location(l).0, Location(l).1;
    XorSetBit(bs[p], b);
    assert SetBits(Ports(bs), [PyInt(p), PyInt(b), PyInt(0)]) == Ok(SetResult(Scalar(bs[p] - Pow2(b)), true));
    ScalarRegisterFails(bs[p] - Pow2(b), m);
  }

  /** A register that is one integer can be neither indexed nor set. */
  lemma ScalarRegisterFails(n: int, m: Line)
    ensures WriteOutcome(Scalar(n), true, true) == Raised(TypeError)
    ensures WriteOutcome(Scalar(n), true, false) == Ok(())
    ensures ReadLine(Scalar(n), m) == Raised(TypeError)
    ensures SetBits(Scalar(n), [PyInt(Location(m).0), PyInt(Location(m).1), PyInt(1)]) == Raised(TypeError)
  {
  }

  /** Setting a clear line low changes nothing and writes nothing. */
  lemma ClearOfClearIsNoop(bs: seq<int>, l: Line)
    requires |bs| == 2 && !BitSet(bs[Location(l).0], Location(l).1)
    ensures SetBits(Ports(bs), [PyInt(Location(l).0), PyInt(Location(l).1), PyInt(0)]) == Ok(SetResult(Ports(bs), false))
  {
  }

  /** A bool state is neither `is 1` nor `is 0`: the register is written out
      unchanged. */
  lemma BoolStateChangesNothing(reg: Register, l: Line, s: bool)
    ensures SetBits(reg, [PyInt(Location(l).0), PyInt(Location(l).1), PyBool(s)]) == Ok(SetResult(reg, true))
  {
  }

  /** A port byte with bit b driven to level s: ORed in for high, toggled
      out in place for low when it is set, left alone otherwise. */
  function Drive(byte: int, b: nat, s: bool): int {
    if s then Or(byte, Shl(1, b))
    else if GetBit(byte, b) then Xor(byte, Shl(1, b))
    else byte
  }

  /** Driving a bit sets it to the level asked for and leaves every other
      bit of the byte as it was. */
  lemma DriveBits(byte: int, b: nat, s: bool, c: nat)
    ensures BitSet(Drive(byte, b, s), c) == if c == b then s else BitSet(byte, c)
  {
    if s {
      OrBit(byte, b);
      if !BitSet(byte, b) {
        AddBit(byte, b, c);
      }
    } else if BitSet(byte, b) {
      XorSetBit(byte, b);
      RemoveBit(byte, b, c);
    }
  }

  /** The setter as evidently intended: a state equal to 1 (True included)
      sets the bit, equal to 0 (False included) clears it in the port byte
      with the same toggle, anything else is refused as before. */
  function SetBitsFixed(reg: Register, l: Line, state: PyVal): (r: Outcome<SetResult>)
    ensures reg.Ports? && |reg.bytes| == 2 && AsInt(state) in {Some(0), Some(1)} ==>
      r == Ok(SetResult(Ports(reg.bytes[Location(l).0 := Drive(reg.bytes[Location(l).0], Location(l).1, AsInt(state) == Some(1))]),
                        AsInt(state) == Some(1) || BitSet(reg.bytes[Location(l).0], Location(l).1)))
  {
    var p, b := Location(l).0, Location(l).1;
    if AsInt(state) != Some(1) && AsInt(state) != Some(0) then Ok(SetResult(reg, true))
    else match ReadPort(reg, p)
      case Raised(e) => Raised(e)
      case Ok(byte) =>
        var on := AsInt(state) == Some(1);
        Ok(SetResult(Ports(reg.bytes[p := Drive(byte, b, on)]), on || GetBit(byte, b)))
  }

  /** With the fix, a line reads back what was written to it, and the
      register stays a two-byte register. */
  lemma FixedReadsBack(bs: seq<int>, l: Line, s: bool)
    requires |bs| == 2
    ensures var r := SetBitsFixed(Ports(bs), l, PyBool(s));
      && r.Ok? && r.value.reg.Ports? && |r.value.reg.bytes| == 2
      && ReadLine(r.value.reg, l) == Ok(s)
  {
    var p, b := Location(l).0, Location(l).1;
    DriveBits(bs[p], b, s, b);
  }

  /** Driving one bit of a two-byte register leaves every other bit of it. */
  lemma DriveKeeps(bs: seq<int>, p: nat, b: nat, s: bool, q: nat, c: nat)
    requires |bs| == 2 && p < 2 && q < 2 && (p, b) != (q, c)
    ensures BitSet(bs[p := Drive(bs[p], b, s)][q], c) == BitSet(bs[q], c)
  {
    if p == q {
      DriveBits(bs[p], b, s, c);
    }
  }

  /** With the fix, every other line keeps its value. */
  lemma FixedKeepsOthers(bs: seq<int>, l: Line, s: bool, m: Line)
    requires |bs| == 2 && m != l
    ensures var r := SetBitsFixed(Ports(bs), l, PyBool(s));
      r.Ok? && ReadLine(r.value.reg, m) == ReadLine(Ports(bs), m)
  {
    LocationsDistinct(l, m);
    var p, b := Location(l).0, Location(l).1;
    var q, c := Location(m).0, Location(m).1;
    var after := bs[p := Drive(bs[p], b, s)];
    FixedWrite(bs, l, s);
    DriveKeeps(bs, p, b, s, q, c);
    assert ReadLine(Ports(after), m) == Ok(BitSet(after[q], c));
  }

  /** The fixed setter on a two-byte register and a bool drives the line's
      bit. */
  lemma FixedWrite(bs: seq<int>, l: Line, s: bool)
    requires |bs| == 2
    ensures var p, b := Location(l).0, Location(l).1;
      SetBitsFixed(Ports(bs), l, PyBool(s)).Ok?
      && SetBitsFixed(Ports(bs), l, PyBool(s)).value.reg == Ports(bs[p := Drive(bs[p], b, s)])
  {
    assert AsInt(PyBool(s)) == Some(if s then 1 else 0);
  }

  /** The I/O expander. */
  class HybridIo {
    var reg: Register
    /** The register contents passed to each `change_output` write. */
    ghost var written: seq<Register>

    /** `HybridIo()`: the direction registers are written first; if that
        raises IOError the constructor returns before `change_output`. */
    constructor (directionOk: bool, outputOk: bool)
      ensures reg == InitialRegister
      ensures written == if directionOk then [InitialRegister] else []
    {
      reg := InitialRegister;
      written := [];
      new;
      if directionOk {
        var _ := ChangeOutput(true, outputOk);
      }
    }

    /** What `update` and `change_output` return: the register, or -1 on
        IOError. */
    function Result(ok: bool): (r: IoResult)
      reads this
      ensures ok <==> r.Reg?
      ensures r.Reg? ==> r.reg == reg
    {
      if ok then Reg(reg) else MinusOne
    }

    /** `change_output()`: the bus is opened (`opens`), then the write
        `[2, reg[0], reg]` is built and sent (`acks`).  A bus that does not
        open raises IOError first, and the handler returns -1.  Once it is
        open, building the write fails with the error of `reg[0]`
        (TypeError once the register is a bare integer), which the IOError
        handler does not catch. */
    method ChangeOutput(opens: bool, acks: bool) returns (r: Outcome<IoResult>)
      modifies this`written
      ensures !opens ==> r == Ok(MinusOne) && written == old(written)
      ensures opens && ReadPort(reg, 0).Raised? ==> r == Raised(ReadPort(reg, 0).exc) && written == old(written)
      ensures opens && ReadPort(reg, 0).Ok? ==> r == Ok(Result(acks)) && written == old(written) + [reg]
    {
      if !opens {
        return Ok(MinusOne);
      }
      var first := ReadPort(reg, 0);
      if first.Raised? {
        return Raised(first.exc);
      }
      written := written + [reg];
      r := Ok(Result(acks));
    }

    /** `update()`: the register becomes the two bytes read, or stays and -1
        is returned. */
    method Update(reply: Option<seq<int>>) returns (r: IoResult)
      requires reply.Some? ==> |reply.value| == 2
      modifies this`reg
      ensures reg == (if reply.Some? then Ports(reply.value) else old(reg))
      ensures r == Result(reply.Some?)
    {
      if reply.Some? {
        reg := Ports(reply.value);
        return Reg(reg);
      }
      return MinusOne;
    }

    /** The `bit_register` setter; `change_output` is called when the
        setter gets that far, and its errors propagate. */
    method SetBitRegister(data: seq<PyVal>, opens: bool, acks: bool) returns (r: Outcome<()>)
      modifies this
      ensures var s := SetBits(old(reg), data);
        && (s.Raised? ==> r == Raised(s.exc) && reg == old(reg) && written == old(written))
        && (s.Ok? ==> reg == s.value.reg && r == WriteOutcome(s.value.reg, s.value.write, opens))
        && (s.Ok? ==> written == old(written) + Sent(s.value.reg, s.value.write, opens))
    {
      var s := SetBits(reg, data);
      if s.Raised? {
        return Raised(s.exc);
      }
      reg := s.value.reg;
      if s.value.write {
        var c := ChangeOutput(opens, acks);
        if c.Raised? {
          return Raised(c.exc);
        }
      }
      return Ok(());
    }

    /** A line's property setter: `bit_register = (port, bit, state)`. */
    method SetLine(l: Line, state: PyVal, opens: bool, acks: bool) returns (r: Outcome<()>)
      requires Settable(l)
      modifies this
      ensures var s := SetBits(old(reg), [PyInt(Location(l).0), PyInt(Location(l).1), state]);
        && (s.Raised? ==> r == Raised(s.exc) && reg == old(reg) && written == old(written))
        && (s.Ok? ==> reg == s.value.reg && r == WriteOutcome(s.value.reg, s.value.write, opens))
        && (s.Ok? ==> written == old(written) + Sent(s.value.reg, s.value.write, opens))
    {
      r := SetBitRegister([PyInt(Location(l).0), PyInt(Location(l).1), state], opens, acks);
    }
  }

  /** How the setter ends once the register holds reg: without a write it
      returns; with one it returns when the bus does not open (the -1 of
      `change_output` is ignored) and otherwise fails when `reg[0]` does. */
  function WriteOutcome(reg: Register, write: bool, opens: bool): (r: Outcome<()>)
    ensures r.Raised? <==> write && opens && ReadPort(reg, 0).Raised?
    ensures r.Raised? ==> r.exc == ReadPort(reg, 0).exc
    ensures reg.Ports? && |reg.bytes| == 2 ==> r == Ok(())
  {
    if write && opens && ReadPort(reg, 0).Raised? then Raised(ReadPort(reg, 0).exc) else Ok(())
  }

  /** The register contents the setter hands to the bus: one write when it
      gets to `change_output`, the bus opens and `reg[0]` can be read. */
  function Sent(reg: Register, write: bool, opens: bool): (w: seq<Register>)
    ensures |w| <= 1 && (|w| == 1 <==> write && WriteOutcome(reg, write, opens).Ok? && opens)
    ensures |w| == 1 ==> w[0] == reg
  {
    if write && opens && ReadPort(reg, 0).Ok? then [reg] else []
  }

  datatype IoResult = Reg(reg: Register) | MinusOne

  /** Python truthiness of what `HybridIo.update` returns: a non-empty byte
      string, or -1. */
  predicate Truthy(r: IoResult) {
    match r
    case MinusOne => true
    case Reg(Ports(bs)) => |bs| > 0
    case Reg(Scalar(v)) => v != 0
  }

  /** The charger's current potentiometer at bus address 0. */
  class ChargeController {
    var current: real
    /** The commands sent, `int(cur)` for each accepted request. */
    ghost var commands: seq<int>

    predicate Valid()
      reads this
    {
      0.0 <= current <= 4.0
    }

    /** `Charge_Controller()`: the current starts at 0 and 0 is then set
        through the setter (one command 0, whether or not it is acknowledged). */
    constructor (writeOk: bool)
      ensures Valid() && current == 0.0 && commands == [0]
    {
      current := 0.0;
      commands := [];
      new;
      var _ := SetCurrent(0.0, writeOk);
    }

    /** The `current` setter: ValueError outside [0, 4]; otherwise the command
        `int(cur)` is written and the current stored only when the write
        reports success (returns the command, which is not negative). */
    method SetCurrent(cur: real, writeOk: bool) returns (r: Outcome<()>)
      modifies this
      ensures r.Raised? <==> cur > 4.0 || cur < 0.0
      ensures r.Raised? ==> r.exc == ValueError && current == old(current) && commands == old(commands)
      ensures r.Ok? ==>
        && commands == old(commands) + [cur.Floor]
        && current == (if writeOk then cur else old(current))
      ensures old(Valid()) ==> Valid()
    {
      if cur > 4.0 || cur < 0.0 {
        return Raised(ValueError);
      }
      var command := cur.Floor;
      commands := commands + [command];
      var ret := if writeOk then command else -1;
      if ret >= 0 {
        current := cur;
      }
      return Ok(());
    }
  }

  /** The potential divider on the second ADC's voltage inputs. */
  const VoltageScale: real := 10.0 / 43.0

  /** A second-ADC voltage: scaled when it is a reading, left alone when it
      is the -1 of a failed read (or any other negative value). */
  function Scaled(v: real): (r: real)
    ensures v < 0.0 ==> r == v
    ensures v >= 0.0 ==> r >= 0.0 && v == r * 4.3
  {
    if v >= 0.0 then v * VoltageScale else v
  }

  /** The two ADCs' eight values after an update. */
  datatype AdcValues = AdcValues(
    chargeCurrent: real, outputCurrent: real, fcCurrent: real, t1: real,
    batteryVoltage: real, outputVoltage: real, fcVoltage: real, t2: real)

  /** `Adc.update` on the readings of channels 0-3 of the first chip (at
      0xD0) and then channels 0-3 of the second (at 0xD4). */
  function AdcUpdate(readings: seq<real>): (v: AdcValues)
    requires |readings| == 8
    ensures v.chargeCurrent == readings[0] && v.outputCurrent == readings[1]
    ensures v.fcCurrent == readings[2] && v.t1 == readings[3]
    ensures v.batteryVoltage == Scaled(readings[4]) && v.outputVoltage == Scaled(readings[5])
    ensures v.fcVoltage == Scaled(readings[6]) && v.t2 == Scaled(readings[7])
  {
    AdcValues(readings[0], readings[1], readings[2], readings[3],
              Scaled(readings[4]), Scaled(readings[5]), Scaled(readings[6]), Scaled(readings[7]))
  }

  /** `fc_current_total`: the current to the motor plus the charge current,
      -1 if either is negative. */
  function FcCurrentTotal(a: AdcValues): (r: real)
    ensures r >= 0.0 <==> a.fcCurrent >= 0.0 && a.chargeCurrent >= 0.0
    ensures r < 0.0 ==> r == -1.0
  {
    if a.fcCurrent < 0.0 || a.chargeCurrent < 0.0 then -1.0 else a.fcCurrent + a.chargeCurrent
  }

  /** `battery_current`: the output current less the fuel cell's total, -1
      if either is negative. */
  function BatteryCurrent(a: AdcValues): (r: real)
    ensures a.outputCurrent < 0.0 || FcCurrentTotal(a) < 0.0 ==> r == -1.0
    ensures a.outputCurrent >= 0.0 && FcCurrentTotal(a) >= 0.0 ==> r + FcCurrentTotal(a) == a.outputCurrent
  {
    if a.outputCurrent < 0.0 || FcCurrentTotal(a) < 0.0 then -1.0 else a.outputCurrent - FcCurrentTotal(a)
  }

  /** The -1 of `battery_current` is not a reliable error mark: with no
      output current and 1 A from the fuel cell, the battery takes 1 A and
      the valid result is the same -1. */
  lemma BatterySentinelAmbiguous()
    ensures var a := AdcValues(0.0, 0.0, 1.0, 0.0, 0.0, 0.0, 0.0, 0.0);
      BatteryCurrent(a) == -1.0 && a.outputCurrent >= 0.0 && FcCurrentTotal(a) >= 0.0
  {
  }

  /** The charger ramp of `Hybrid.update`: with the charger on and a valid
      total, the headroom `max(0, 8.5 - total)` of at least 4 A with the
      charge current below 4 A asks for 0.2 A more; None when nothing is
      asked. */
  function RampRequest(chargerOn: bool, total: real, current: real): (r: Option<real>)
    ensures r.Some? <==> chargerOn && total >= 0.0 && total <= 4.5 && current < 4.0
    ensures r.Some? ==> r.value == current + 0.2
  {
    if chargerOn && total >= 0.0 then
      var overhead := if 8.5 - total < 0.0 then 0.0 else 8.5 - total;
      if overhead >= 4.0 && current < 4.0 then Some(current + 0.2) else None
    else None
  }

  /** Ramping from a whole number of 0.2 A steps never overshoots: the
      request is again a whole number of steps and at most 4 A, so the
      setter accepts it. */
  lemma RampStaysOnGrid(chargerOn: bool, total: real, k: nat)
    requires RampRequest(chargerOn, total, 0.2 * k as real).Some?
    ensures RampRequest(chargerOn, total, 0.2 * k as real).value == 0.2 * (k + 1) as real
    ensures RampRequest(chargerOn, total, 0.2 * k as real).value <= 4.0
  {
    assert k < 20;
  }

  /** A current just below 4 A that is off the grid is ramped past 4 A: the
      setter then raises ValueError out of `update`. */
  lemma RampCanOvershoot()
    ensures RampRequest(true, 0.0, 3.9) == Some(4.1)
  {
  }

  /** The board. */
  class Hybrid {
    const io: HybridIo
    var adc: AdcValues
    const charger: ChargeController
    var chargerState: bool

    predicate Valid()
      reads this, charger
    {
      charger.Valid()
    }

    /** `Hybrid()`: the expander, the ADCs (updated once) and the charger, with
        the charger off. */
    constructor (directionOk: bool, outputOk: bool, readings: seq<real>, potOk: bool)
      requires |readings| == 8
      ensures Valid() && fresh(io) && fresh(charger)
      ensures io.reg == InitialRegister && adc == AdcUpdate(readings)
      ensures charger.current == 0.0 && !chargerState
    {
      io := new HybridIo(directionOk, outputOk);
      adc := AdcUpdate(readings);
      charger := new ChargeController(potOk);
      chargerState := false;
    }

    /** `update()`: refresh the register and the ADCs, then ramp the charger.
        Returns 1 when the charger branch was taken, -1 otherwise; the early
        `return -1` on a falsy register result cannot fire, since both a
        two-byte read and -1 are truthy. */
    method Update(reply: Option<seq<int>>, readings: seq<real>, potOk: bool) returns (r: Outcome<int>)
      requires Valid() && |readings| == 8 && (reply.Some? ==> |reply.value| == 2)
      modifies io, this, charger
      ensures Valid()
      ensures io.reg == (if reply.Some? then Ports(reply.value) else old(io.reg)) && io.written == old(io.written)
      ensures adc == AdcUpdate(readings) && chargerState == old(chargerState)
      ensures var req := RampRequest(chargerState, FcCurrentTotal(adc), old(charger.current));
        charger.commands == old(charger.commands) + (if req.Some? && req.value <= 4.0 then [req.value.Floor] else [])
      ensures var req := RampRequest(chargerState, FcCurrentTotal(adc), old(charger.current));
        && (r.Raised? <==> req.Some? && req.value > 4.0)
        && (r.Raised? ==> r.exc == ValueError && charger.current == old(charger.current))
        && (r.Ok? ==> r.value == (if chargerState && FcCurrentTotal(adc) >= 0.0 then 1 else -1))
        && (r.Ok? && req.Some? ==> charger.current == (if potOk then req.value else old(charger.current)))
        && (req.None? ==> charger.current == old(charger.current))
    {
      var got := io.Update(reply);
      if !Truthy(got) {
        return Ok(-1);
      }
      adc := AdcUpdate(readings);
      if chargerState && FcCurrentTotal(adc) >= 0.0 {
        var overhead := 8.5 - FcCurrentTotal(adc);
        if overhead < 0.0 {
          overhead := 0.0;
        }
        if overhead >= 4.0 && charger.current < 4.0 {
          var s := charger.SetCurrent(charger.current + 0.2, potOk);
          if s.Raised? {
            return Raised(s.exc);
          }
        }
        return Ok(1);
      }
      return Ok(-1);
    }

    /** The `charger_state` setter: on only for `True` itself. */
    method SetChargerState(state: PyVal)
      modifies this
      ensures chargerState == (state == PyBool(true))
    {
      chargerState := state == PyBool(true);
    }

    /** `cells`: 3 when CELLS is clear, 4 when set. */
    function GetCells(): (r: Outcome<int>)
      reads this, io
      ensures r.Ok? ==> r.value in {3, 4}
      ensures r.Ok? <==> ReadLine(io.reg, Cells).Ok?
      ensures r.Ok? ==> (r.value == 4 <==> ReadLine(io.reg, Cells).value)
    {
      match ReadLine(io.reg, Cells)
      case Raised(e) => Raised(e)
      case Ok(b) => if !b then Ok(3) else Ok(4)
    }

    /** `charged_voltage`: 4.1 V when CHEM is clear, 4.2 V when set. */
    function GetChargedVoltage(): (r: Outcome<real>)
      reads this, io
      ensures r.Ok? <==> ReadLine(io.reg, Chem).Ok?
      ensures r.Ok? ==> (r.value == 4.2 <==> ReadLine(io.reg, Chem).value) && r.value in {4.1, 4.2}
    {
      match ReadLine(io.reg, Chem)
      case Raised(e) => Raised(e)
      case Ok(b) => if !b then Ok(4.1) else Ok(4.2)
    }

    /** `shutdown`: the charger is shut down when SHDN is clear. */
    function GetShutdown(): (r: Outcome<bool>)
      reads this, io
      ensures r.Ok? <==> ReadLine(io.reg, Shdn).Ok?
      ensures r.Ok? ==> r.value == !ReadLine(io.reg, Shdn).value
    {
      match ReadLine(io.reg, Shdn)
      case Raised(e) => Raised(e)
      case Ok(b) => Ok(!b)
    }

    /** `charger_info`: LOBAT, ICL, ACP, FAULT and CHG in that order. */
    function ChargerInfo(): (r: Outcome<seq<bool>>)
      reads this, io
      ensures io.reg.Scalar? ==> r == Raised(TypeError)
      ensures io.reg.Ports? && |io.reg.bytes| == 2 ==>
        && r.Ok? && |r.value| == 5
        && ReadLine(io.reg, Lobat) == Ok(r.value[0]) && ReadLine(io.reg, Icl) == Ok(r.value[1])
        && ReadLine(io.reg, Acp) == Ok(r.value[2]) && ReadLine(io.reg, Fault) == Ok(r.value[3])
        && ReadLine(io.reg, Chg) == Ok(r.value[4])
    {
      var lobat, icl, acp := ReadLine(io.reg, Lobat), ReadLine(io.reg, Icl), ReadLine(io.reg, Acp);
      var fault, chg := ReadLine(io.reg, Fault), ReadLine(io.reg, Chg);
      if lobat.Raised? then Raised(lobat.exc)
      else if icl.Raised? then Raised(icl.exc)
      else if acp.Raised? then Raised(acp.exc)
      else if fault.Raised? then Raised(fault.exc)
      else if chg.Raised? then Raised(chg.exc)
      else Ok([lobat.value, icl.value, acp.value, fault.value, chg.value])
    }

    /** The `cells` setter: 3 and 4 pass the bools False and True to CELLS,
        which the register setter does not accept, so the register is
        only written out again; other values are only printed. */
    method SetCells(cells: PyVal, opens: bool, acks: bool) returns (r: Outcome<()>)
      modifies io
      ensures io.reg == old(io.reg)
      ensures r == WriteOutcome(io.reg, cells == PyInt(3) || cells == PyInt(4), opens)
      ensures io.written == old(io.written) + Sent(io.reg, cells == PyInt(3) || cells == PyInt(4), opens)
    {
      if cells == PyInt(3) {
        BoolStateChangesNothing(io.reg, Cells, false);
        r := io.SetLine(Cells, PyBool(false), opens, acks);
      } else if cells == PyInt(4) {
        BoolStateChangesNothing(io.reg, Cells, true);
        r := io.SetLine(Cells, PyBool(true), opens, acks);
      } else {
        r := Ok(());
      }
    }

    /** The `charged_voltage` setter tests the name `cells`, which is not
        defined in its scope: it always raises NameError. */
    method SetChargedVoltage(voltage: real) returns (r: Outcome<()>)
      ensures r == Raised(NameError)
    {
      r := Raised(NameError);
    }

    /** The `shutdown` setter: like `cells`, it passes bools to SHDN and so
        never changes the register. */
    method SetShutdown(state: PyVal, opens: bool, acks: bool) returns (r: Outcome<()>)
      modifies io
      ensures io.reg == old(io.reg)
      ensures r == WriteOutcome(io.reg, state == PyBool(false) || state == PyBool(true), opens)
      ensures io.written == old(io.written) + Sent(io.reg, state == PyBool(false) || state == PyBool(true), opens)
    {
      if state == PyBool(false) {
        BoolStateChangesNothing(io.reg, Shdn, true);
        r := io.SetLine(Shdn, PyBool(true), opens, acks);
      } else if state == PyBool(true) {
        BoolStateChangesNothing(io.reg, Shdn, false);
        r := io.SetLine(Shdn, PyBool(false), opens, acks);
      } else {
        r := Ok(());
      }
    }

    /** `h2_on`/`fan_on`/`purge_on` (power1..power3 set to 1) and the `_off`
        forms (set to 0). */
    method SetRail(l: Line, on: bool, opens: bool, acks: bool) returns (r: Outcome<()>)
      requires l in {Power1, Power2, Power3}
      modifies io
      ensures var s := SetBits(old(io.reg), [PyInt(1), PyInt(Location(l).1), PyInt(if on then 1 else 0)]);
        && (s.Raised? ==> r == Raised(s.exc) && io.reg == old(io.reg) && io.written == old(io.written))
        && (s.Ok? ==> io.reg == s.value.reg && r == WriteOutcome(io.reg, s.value.write, opens))
        && (s.Ok? ==> io.written == old(io.written) + Sent(io.reg, s.value.write, opens))
    {
      r := io.SetLine(l, PyInt(if on then 1 else 0), opens, acks);
    }
  }

  /** Turning the hydrogen rail on and then off again from the initial
      register leaves the expander unusable: the register is the integer 0
      and reading power1 raises TypeError. */
  lemma H2OnOffBreaksRegister()
    ensures SetBits(InitialRegister, [PyInt(1), PyInt(0), PyInt(1)]) == Ok(SetResult(Ports([0x44, 0x01]), true))
    ensures SetBits(Ports([0x44, 0x01]), [PyInt(1), PyInt(0), PyInt(0)]) == Ok(SetResult(Scalar(0), true))
    ensures ReadLine(Scalar(0), Power1) == Raised(TypeError)
  {
    Pow2Table();
    OrBit(0, 0);
    assert Or(0, Shl(1, 0)) == 1;
    assert [0x44, 0x00][1 := 1] == [0x44, 0x01];
    assert BitSet(1, 0);
    XorSetBit(1, 0);
  }
}
