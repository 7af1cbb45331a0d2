/** The main loop of main.py: the voltage-hold controller that trims the
    loadbank current, the routing of profile setpoints to the loadbank or
    the motor, and the typed commands.  The fuel-cell controller object,
    the loadbank and the readers of stdin are outside the model: what the
    loop writes to them is recorded, and what it reads from them (the
    loadbank's voltage and current setting, `float()` of a typed number) is
    given as input. */
module MainLoop {
  import opened Py
  import opened Profiles
  import opened SpeedController

  /** The width of the dead band around the voltage to hold, and the current
      step taken outside it. */
  const Band: real := 0.01
  const Step: real := 0.001

  function NonNegative(x: real): (r: real)
    ensures r >= 0.0 && (x >= 0.0 ==> r == x)
  {
    if x < 0.0 then 0.0 else x
  }

  /** The current the voltage-hold controller writes, as written: one step
      down below the band, one step up above it, and 0 inside it, never
      negative. */
  function HoldCurrentAsWritten(voltage: real, auto: real, constant: real): (r: real)
    ensures r >= 0.0
    ensures voltage < auto - Band ==> r == NonNegative(constant - Step)
    ensures voltage > auto + Band ==> r == NonNegative(constant + Step)
    ensures auto - Band <= voltage <= auto + Band ==> r == 0.0
  {
    var controller := if voltage < auto - Band then constant - Step
                      else if voltage > auto + Band then constant + Step
                      else 0.0;
    NonNegative(controller)
  }

  /** Reaching the band throws the load off: the controller that has just
      brought the voltage to the setpoint drops a 1 A load to nothing. */
  lemma InBandDropsLoad()
    ensures HoldCurrentAsWritten(0.6, 0.6, 1.0) == 0.0
  {
  }

  /** The voltage hold as intended: inside the band the current is kept. */
  function HoldCurrent(voltage: real, auto: real, constant: real): (r: real)
    ensures r >= 0.0
  {
    var controller := if voltage < auto - Band then constant - Step
                      else if voltage > auto + Band then constant + Step
                      else constant;
    NonNegative(controller)
  }

  /** The intended controller moves a non-negative current by at most one
      step per pass, lowers it when the voltage is low, raises it when the
      voltage is high and leaves it alone in the band. */
  lemma HoldCurrentSteps(voltage: real, auto: real, constant: real)
    requires constant >= 0.0
    ensures var r := HoldCurrent(voltage, auto, constant);
      && -Step <= r - constant <= Step
      && (voltage < auto - Band ==> r <= constant)
      && (voltage > auto + Band ==> r == constant + Step)
      && (auto - Band <= voltage <= auto + Band ==> r == constant)
  {
  }

  // ---------------------------------------------------------------------
  // Splitting a typed request

  /** `s.split(sep)`: the pieces between the separators, empty ones
      included. */
  function Split(s: string, sep: char): (r: seq<string>)
    ensures |r| >= 1
    decreases |s|
  {
    if |s| == 0 then [""]
    else
      var rest := Split(s[1..], sep);
      if s[0] == sep then [""] + rest else [[s[0]] + rest[0]] + rest[1..]
  }

  /** `sep.join(ps)`. */
  function Join(ps: seq<string>, sep: char): string
    requires |ps| >= 1
    decreases |ps|
  {
    if |ps| == 1 then ps[0] else ps[0] + [sep] + Join(ps[1..], sep)
  }

  /** Splitting a request that starts with something other than the
      separator puts that character at the head of the first piece. */
  lemma SplitCons(s: string, sep: char)
    requires |s| > 0 && s[0] != sep
    ensures var r := Split(s, sep); var rest := Split(s[1..], sep);
      |r| == |rest| && r[0] == [s[0]] + rest[0] && r[1..] == rest[1..]
  {
  }

  /** Joining the pieces gives the request back. */
  lemma {:induction false} JoinSplit(s: string, sep: char)
    ensures Join(Split(s, sep), sep) == s
    decreases |s|
  {
    if |s| > 0 {
      JoinSplit(s[1..], sep);
      var rest := Split(s[1..], sep);
      var r := Split(s, sep);
      if s[0] == sep {
        assert r == [""] + rest;
        assert r[1..] == rest;
      } else {
        SplitCons(s, sep);
        if |rest| > 1 {
          assert Join(r, sep) == r[0] + [sep] + Join(r[1..], sep);
          assert Join(rest, sep) == rest[0] + [sep] + Join(rest[1..], sep);
        }
        assert s == [s[0]] + s[1..];
      }
    }
  }

  /** No piece holds the separator. */
  lemma {:induction false} SplitPiecesClean(s: string, sep: char)
    ensures forall i :: 0 <= i < |Split(s, sep)| ==> sep !in Split(s, sep)[i]
    decreases |s|
  {
    if |s| > 0 {
      SplitPiecesClean(s[1..], sep);
      var rest := Split(s[1..], sep);
      var r := Split(s, sep);
      if s[0] == sep {
        assert r == [""] + rest;
        assert forall i :: 1 <= i < |r| ==> r[i] == rest[i - 1];
      } else {
        SplitCons(s, sep);
        assert forall i :: 1 <= i < |r| ==> r[i] == rest[i];
      }
    }
  }

  /** There is one piece more than there are separators. */
  lemma {:induction false} SplitCount(s: string, sep: char)
    ensures |Split(s, sep)| == multiset(s)[sep] + 1
    decreases |s|
  {
    if |s| > 0 {
      SplitCount(s[1..], sep);
      assert s == [s[0]] + s[1..];
      assert multiset(s) == multiset{s[0]} + multiset(s[1..]);
      if s[0] != sep {
        SplitCons(s, sep);
      }
    }
  }

  /** `for x in range(len(request)): request[x] = request[x].strip()`. */
  method StripTokens(a: array<string>)
    modifies a
    ensures forall i :: 0 <= i < a.Length ==> a[i] == Strip(old(a[i]))
  {
    var x := 0;
    while x < a.Length
      invariant 0 <= x <= a.Length
      invariant forall i :: 0 <= i < x ==> a[i] == Strip(old(a[i]))
      invariant forall i :: x <= i < a.Length ==> a[i] == old(a[i])
    {
      a[x] := Strip(a[x]);
      x := x + 1;
    }
  }

  /** The tokens of a typed request: split on single spaces, each stripped. */
  method Tokens(request: string) returns (tokens: seq<string>)
    ensures |tokens| == |Split(request, ' ')|
    ensures forall i :: 0 <= i < |tokens| ==> tokens[i] == Strip(Split(request, ' ')[i])
  {
    var pieces := Split(request, ' ');
    var a := new string[|pieces|](i requires 0 <= i < |pieces| => pieces[i]);
    StripTokens(a);
    tokens := a[..];
  }

  // ---------------------------------------------------------------------
  // Matching commands by prefix

  predicate StartsWith(s: string, p: string) {
    |p| <= |s| && s[..|p|] == p
  }

  /** The index of the first prefix the token starts with: a chain of
      `elif token.startswith(...)`. */
  function FirstMatch(token: string, prefixes: seq<string>): (r: Option<nat>)
    ensures r.Some? ==> r.value < |prefixes| && StartsWith(token, prefixes[r.value])
    ensures r.Some? ==> forall j :: 0 <= j < r.value ==> !StartsWith(token, prefixes[j])
    ensures r.None? ==> forall j :: 0 <= j < |prefixes| ==> !StartsWith(token, prefixes[j])
    decreases |prefixes|
  {
    if |prefixes| == 0 then None
    else if StartsWith(token, prefixes[0]) then Some(0)
    else
      match FirstMatch(token, prefixes[1..])
      case None => None
      case Some(i) => Some(i + 1)
  }

  /** Neither of two prefixes starts the other. */
  predicate Apart(p: string, q: string) {
    !StartsWith(p, q) && !StartsWith(q, p)
  }

  predicate PairwiseApart(ps: seq<string>) {
    forall i, j :: 0 <= i < |ps| && 0 <= j < |ps| && i != j ==> Apart(ps[i], ps[j])
  }

  /** One token cannot start with two prefixes that are apart. */
  lemma ApartExclusive(token: string, p: string, q: string)
    requires Apart(p, q) && StartsWith(token, p)
    ensures !StartsWith(token, q)
  {
  }

  /** With prefixes that are pairwise apart, the order of the chain does not
      matter: it picks a prefix exactly when the token starts with it. */
  lemma {:induction false} FirstMatchExact(token: string, prefixes: seq<string>, i: nat)
    requires PairwiseApart(prefixes) && i < |prefixes|
    ensures FirstMatch(token, prefixes) == Some(i) <==> StartsWith(token, prefixes[i])
  {
    if StartsWith(token, prefixes[i]) {
      var r := FirstMatch(token, prefixes);
      if r.Some? && r.value != i {
        ApartExclusive(token, prefixes[i], prefixes[r.value]);
      }
    }
  }

  /** The one-token requests for data, in the order they are tried. */
  datatype Query = TimeQ | ThrottleQ | FuelCellQ | ElectricQ | VoltageQ | CurrentQ
                 | EnergyQ | TemperatureQ | PurgeQ | FlyQ

  const Queries: seq<Query> :=
    [TimeQ, ThrottleQ, FuelCellQ, ElectricQ, VoltageQ, CurrentQ, EnergyQ, TemperatureQ, PurgeQ, FlyQ]
  const QueryPrefixes: seq<string> :=
    ["time?", "throttle?", "fc?", "elec?", "v?", "i?", "energy?", "temp?", "purg?", "fly?"]

  /** The two-token commands, in the order they are tried. */
  datatype Order = ChangeState | Fly | AllOff | SetCurrent | SetVoltage | Load | Throttle

  const Orders: seq<Order> := [ChangeState, Fly, AllOff, SetCurrent, SetVoltage, Load, Throttle]
  const OrderPrefixes: seq<string> := ["fc", "fly", "off", "i", "v", "load", "throttle"]

  lemma PrefixesApart()
    ensures PairwiseApart(QueryPrefixes) && PairwiseApart(OrderPrefixes)
  {
    forall i, j | 0 <= i < |QueryPrefixes| && 0 <= j < |QueryPrefixes| && i != j
      ensures Apart(QueryPrefixes[i], QueryPrefixes[j])
    {
      assert QueryPrefixes[i][0] != QueryPrefixes[j][0] || QueryPrefixes[i][1] != QueryPrefixes[j][1];
    }
    forall i, j | 0 <= i < |OrderPrefixes| && 0 <= j < |OrderPrefixes| && i != j
      ensures Apart(OrderPrefixes[i], OrderPrefixes[j])
    {
      assert OrderPrefixes[i][0] != OrderPrefixes[j][0] || OrderPrefixes[i][1] != OrderPrefixes[j][1];
    }
  }

  /** What a request asks for: data (one token), a change (two tokens, with
      the second as its argument), or nothing. */
  datatype Request = Nothing | Ask(query: Query) | Command(order: Order, arg: string)

  function Parse(tokens: seq<string>): (r: Request)
    ensures r.Ask? ==> |tokens| == 1
    ensures r.Command? ==> |tokens| == 2 && r.arg == tokens[1]
    ensures |tokens| != 1 && |tokens| != 2 ==> r == Nothing
  {
    if |tokens| == 1 then
      match FirstMatch(tokens[0], QueryPrefixes)
      case Some(i) => Ask(Queries[i])
      case None => Nothing
    else if |tokens| == 2 then
      match FirstMatch(tokens[0], OrderPrefixes)
      case Some(i) => Command(Orders[i], tokens[1])
      case None => Nothing
    else Nothing
  }

  /** Each request and each command is listed once. */
  lemma NamesDistinct(i: nat, j: nat)
    requires i != j
    ensures i < |Queries| && j < |Queries| ==> Queries[i] != Queries[j]
    ensures i < |Orders| && j < |Orders| ==> Orders[i] != Orders[j]
  {
  }

  /** A data request is recognised exactly when its token starts with that
      request's prefix. */
  lemma {:induction false} AskByPrefix(token: string, k: nat)
    requires k < |Queries|
    ensures Parse([token]) == Ask(Queries[k]) <==> StartsWith(token, QueryPrefixes[k])
  {
    PrefixesApart();
    FirstMatchExact(token, QueryPrefixes, k);
    var m := FirstMatch(token, QueryPrefixes);
    if m.Some? && m.value != k {
      NamesDistinct(m.value, k);
    }
  }

  /** A command is recognised exactly when its first token starts with the
      command's prefix, and its argument is the second token. */
  lemma {:induction false} CommandByPrefix(token: string, arg: string, k: nat)
    requires k < |Orders|
    ensures Parse([token, arg]) == Command(Orders[k], arg) <==> StartsWith(token, OrderPrefixes[k])
  {
    PrefixesApart();
    FirstMatchExact(token, OrderPrefixes, k);
    var m := FirstMatch(token, OrderPrefixes);
    if m.Some? && m.value != k {
      NamesDistinct(m.value, k);
    }
  }

  // ---------------------------------------------------------------------
  // Numbers

  predicate IsDigit(c: char) { '0' <= c <= '9' }

  predicate AllDigits(s: string) {
    |s| > 0 && forall i :: 0 <= i < |s| ==> IsDigit(s[i])
  }

  function DigitValue(c: char): nat
    requires IsDigit(c)
  {
    c as int - '0' as int
  }

  /** The value of a run of decimal digits. */
  function DigitsValue(s: string): nat
    requires forall i :: 0 <= i < |s| ==> IsDigit(s[i])
    decreases |s|
  {
    if |s| == 0 then 0 else DigitsValue(s[..|s| - 1]) * 10 + DigitValue(s[|s| - 1])
  }

  /** `int(s)` on a stripped string: an optional sign and decimal digits,
      None where `int()` raises ValueError. */
  function ParseInt(s: string): Option<int> {
    if |s| > 0 && (s[0] == '-' || s[0] == '+') then
      if AllDigits(s[1..]) then Some(if s[0] == '-' then -(DigitsValue(s[1..]) as int) else DigitsValue(s[1..]) as int)
      else None
    else if AllDigits(s) then Some(DigitsValue(s))
    else None
  }

  /** `str(n)` for an integer. */
  function ShowNat(n: nat): (r: string)
    ensures AllDigits(r)
    decreases n
  {
    if n < 10 then [('0' as int + n) as char] else ShowNat(n / 10) + [('0' as int + n % 10) as char]
  }

  function ShowInt(n: int): string {
    if n < 0 then "-" + ShowNat(-n) else ShowNat(n)
  }

  lemma {:induction false} DigitsOfShowNat(n: nat)
    ensures DigitsValue(ShowNat(n)) == n
    decreases n
  {
    if n >= 10 {
      DigitsOfShowNat(n / 10);
      var s := ShowNat(n);
      assert s[..|s| - 1] == ShowNat(n / 10);
    }
  }

  /** `int(str(n)) == n`. */
  lemma ParseShowInt(n: int)
    ensures ParseInt(ShowInt(n)) == Some(n)
  {
    if n < 0 {
      DigitsOfShowNat(-n);
      assert ShowInt(n)[1..] == ShowNat(-n);
    } else {
      DigitsOfShowNat(n);
    }
  }

  /** `int(x)` for a float: its integer part, rounded toward zero. */
  function Trunc(x: real): (r: int)
    ensures x >= 0.0 ==> 0 <= r && r as real <= x < r as real + 1.0
    ensures x < 0.0 ==> r <= 0 && r as real - 1.0 < x <= r as real
  {
    if x >= 0.0 then x.Floor else -((-x).Floor)
  }

  // ---------------------------------------------------------------------
  // The loop

  /** The last value written to the loadbank's `current_constant`: a
      number, or the text typed after `i`. */
  datatype Setting = Unset | Number(x: real) | Text(s: string)

  /** What a request prints: one of the data reports, the flying status,
      the refusal of `v` without voltage hold, the ESC calibration, or
      nothing. */
  datatype Answer = Silent | Report(query: Query) | Flying(flying: bool) | DontUnderstand | Calibrate

  /** The parts of the session a request can change: the voltage to hold,
      the load switch, the loadbank's current setting, the fuel-cell state,
      the motor and the profile. */
  datatype Part = AutoPart | LoadPart | ConstantPart | StatePart | MotorPart | ProfilePart

  class Session {
    /** `args.auto`, the voltage to hold (0 for none). */
    var auto: real
    var flag: bool
    /** A loadbank answered at start-up, so profiles drive it. */
    const loadbank: bool
    /** `load.load`. */
    var loadOn: bool
    var constant: Setting
    /** The last state given to the fuel-cell controller. */
    var fcState: Option<string>
    const motor: Esc
    /** The profile from `--profile`, or null for none. */
    const profile: Scheduler?

    ghost predicate Valid()
      reads this, motor, profile
    {
      motor.Valid() && (profile != null ==> profile.Valid())
    }

    /** Every part of the session outside parts is as it was. */
    twostate predicate OnlyChanges(parts: set<Part>)
      reads this, motor, profile
    {
      && (AutoPart !in parts ==> auto == old(auto))
      && (LoadPart !in parts ==> loadOn == old(loadOn))
      && (ConstantPart !in parts ==> constant == old(constant))
      && (StatePart !in parts ==> fcState == old(fcState))
      && (MotorPart !in parts ==> motor.throttle == old(motor.throttle) && motor.sent == old(motor.sent))
      && (ProfilePart !in parts && profile != null ==> unchanged(profile))
    }

    /** What a two-token command answers and does: the new value of each
        part it sets, and every other part unchanged. */
    twostate predicate Applied(order: Order, arg: string, number: Option<real>, acked: bool, now: real, new r: Outcome<Answer>)
      reads this, motor, profile
    {
      match order
      case ChangeState => r == Ok(Silent) && fcState == Some(arg) && OnlyChanges({StatePart})
      case AllOff =>
        if loadbank then
          r == Ok(Silent) && constant == Number(0.0) && !loadOn && fcState == Some("off")
          && OnlyChanges({ConstantPart, LoadPart, StatePart})
        else r == Raised(AttributeError) && OnlyChanges({})
      case SetCurrent =>
        if loadbank then r == Ok(Silent) && constant == Text(arg) && OnlyChanges({ConstantPart})
        else r == Raised(AttributeError) && OnlyChanges({})
      case SetVoltage =>
        if old(auto) <= 0.0 then r == Ok(DontUnderstand) && OnlyChanges({})
        else if number.None? then r == Raised(ValueError) && OnlyChanges({})
        else r == Ok(Silent) && auto == number.value && OnlyChanges({AutoPart})
      case Load =>
        if loadbank then r == Ok(Silent) && loadOn == StartsWith(arg, "on") && OnlyChanges({LoadPart})
        else r == Raised(AttributeError) && OnlyChanges({})
      case Throttle =>
        if StartsWith(arg, "calibration") then r == Ok(Calibrate) && OnlyChanges({})
        else r == Ok(Silent) && motor.Assigned(ParseInt(arg), acked) && OnlyChanges({MotorPart})
      case Fly =>
        if profile == null then r == Raised(AttributeError) && OnlyChanges({})
        else if ParseInt(arg).None? then r == Raised(ValueError) && OnlyChanges({})
        else
          && r == Ok(Silent) && (profile.running != 0 <==> ParseInt(arg).value != 0)
          && profile.RunningSet(ParseInt(arg).value, now) && OnlyChanges({ProfilePart})
    }

    /** The start of the script: the ESC is built and its throttle zeroed. */
    constructor (loadbank: bool, auto: real, profile: Scheduler?, acked: bool)
      requires profile != null ==> profile.Valid()
      ensures Valid() && fresh(motor)
      ensures this.loadbank == loadbank && this.auto == auto && this.profile == profile
      ensures !flag && !loadOn && constant == Unset && fcState == None
      ensures motor.address == DefaultAddress && motor.throttle == 0
      ensures motor.sent == [(DefaultAddress, 0)]
    {
      this.loadbank := loadbank;
      this.auto := auto;
      this.profile := profile;
      flag, loadOn, constant, fcState := false, false, Unset, None;
      var m := new Esc(DefaultAddress);
      motor := m;
      new;
      motor.SetThrottle(Some(0), acked);
    }

    /** The voltage-hold block at the top of the loop, with the loadbank's
        voltage and its current setting read back as a number.  The first
        pass turns the fuel cell and the load on with 0.01 A; later passes
        with the load on write the controller's current.  Without a
        loadbank `load` is not an object and the first access raises. */
    method AutoStep(voltage: real, reading: real) returns (r: Outcome<()>)
      requires Valid()
      modifies this`flag, this`loadOn, this`constant, this`fcState
      ensures Valid()
      ensures auto == 0.0 ==>
        r == Ok(()) && flag == old(flag) && loadOn == old(loadOn) && constant == old(constant) && fcState == old(fcState)
      ensures auto != 0.0 && !old(flag) ==> fcState == Some("on")
      ensures auto != 0.0 && !old(flag) && loadbank ==> r == Ok(()) && flag && loadOn && constant == Number(0.01)
      ensures auto != 0.0 && !old(flag) && !loadbank ==>
        r == Raised(AttributeError) && flag == old(flag) && loadOn == old(loadOn) && constant == old(constant)
      ensures auto != 0.0 && old(flag) ==> flag && fcState == old(fcState) && loadOn == old(loadOn)
      ensures auto != 0.0 && old(flag) && !loadbank ==> r == Raised(AttributeError) && constant == old(constant)
      ensures auto != 0.0 && old(flag) && loadbank ==>
        r == Ok(()) && constant == (if loadOn then Number(HoldCurrent(voltage, auto, reading)) else old(constant))
    {
      if auto == 0.0 {
        return Ok(());
      }
      if !flag {
        fcState := Some("on");
        if !loadbank {
          return Raised(AttributeError);
        }
        constant := Number(0.01);
        loadOn := true;
        flag := true;
        return Ok(());
      }
      if !loadbank {
        return Raised(AttributeError);
      }
      if loadOn {
        constant := Number(HoldCurrent(voltage, auto, reading));
      }
      r := Ok(());
    }

    /** The profile block: the scheduler's setpoint goes to the loadbank
        when there is one (a setpoint >= 0 turns the load on and becomes
        the voltage to hold, a negative one turns it off) and otherwise to
        the motor's throttle as `int(setpoint)`. */
    method ProfileStep(now: real, acked: bool) returns (r: Outcome<()>)
      requires Valid()
      modifies this`auto, this`loadOn, motor, profile
      ensures Valid()
      ensures profile == null ==> r == Ok(()) && auto == old(auto) && loadOn == old(loadOn) && motor.throttle == old(motor.throttle)
      ensures profile != null && old(profile.running) != 0 && r.Ok? ==>
        var f := Find(profile.file, old(profile.pos), old(profile.current), now - old(profile.start));
        && f.result.Ok?
        && var sp := RunResult(old(profile.setpoint), f.result).0.value;
        if loadbank then
          motor.throttle == old(motor.throttle) && loadOn == (sp >= 0.0) && auto == (if sp >= 0.0 then sp else old(auto))
        else
          auto == old(auto) && loadOn == old(loadOn) && motor.throttle == NextThrottle(old(motor.throttle), Some(Trunc(sp)), acked)
      ensures profile != null && old(profile.running) == 0 && !loadbank ==>
        r == Ok(()) && motor.throttle == (if acked then 0 else old(motor.throttle))
      ensures profile == null ==> OnlyChanges({})
      ensures profile != null ==> profile.Stepped(now)
      ensures profile != null ==>
        var out := old(profile.Output(now));
        && (out.Raised? ==> r == Raised(out.exc) && OnlyChanges({ProfilePart}))
        && (out.Ok? && loadbank ==>
              && r == Ok(()) && loadOn == (out.value >= 0.0) && auto == (if out.value >= 0.0 then out.value else old(auto))
              && OnlyChanges({AutoPart, LoadPart, ProfilePart}))
        && (out.Ok? && !loadbank ==>
              r == Ok(()) && motor.Assigned(Some(Trunc(out.value)), acked) && OnlyChanges({MotorPart, ProfilePart}))
    {
      if profile == null {
        return Ok(());
      }
      var setpoint := profile.Run(now);
      if setpoint.Raised? {
        return Raised(setpoint.exc);
      }
      if loadbank {
        if setpoint.value >= 0.0 {
          loadOn := true;
          auto := setpoint.value;
        } else {
          loadOn := false;
        }
      } else {
        motor.SetThrottle(Some(Trunc(setpoint.value)), acked);
      }
      r := Ok(());
    }

    /** A typed request, with `float()` of its second token as `number`
        and the ESC's acknowledgement of a throttle write as `acked`. */
    method Handle(request: string, number: Option<real>, acked: bool, now: real) returns (r: Outcome<Answer>)
      requires Valid()
      modifies this`auto, this`loadOn, this`constant, this`fcState, motor, profile
      ensures Valid()
      ensures request == "" ==> r == Ok(Silent) && OnlyChanges({})
      ensures request != "" ==> var req := Parse(StrippedTokens(request));
        && (req == Nothing ==> r == Ok(Silent) && OnlyChanges({}))
        && (req.Ask? && req.query != FlyQ ==> r == Ok(Report(req.query)) && OnlyChanges({}))
        && (req == Ask(FlyQ) ==> r == Ok(Flying(profile != null && profile.running != 0)) && OnlyChanges({}))
        && (req.Command? ==> Applied(req.order, req.arg, number, acked, now, r))
    {
      if request == "" {
        return Ok(Silent);
      }
      var tokens := Tokens(request);
      assert tokens == StrippedTokens(request);
      var req := Parse(tokens);
      match req {
        case Nothing =>
          r := Ok(Silent);
        case Ask(q) =>
          if q == FlyQ {
            r := Ok(Flying(profile != null && profile.running != 0));
          } else {
            r := Ok(Report(q));
          }
        case Command(order, arg) =>
          r := Apply(order, arg, number, acked, now);
      }
    }

    /** The two-token commands. */
    method Apply(order: Order, arg: string, number: Option<real>, acked: bool, now: real) returns (r: Outcome<Answer>)
      requires Valid()
      modifies this`auto, this`loadOn, this`constant, this`fcState, motor, profile
      ensures Valid()
      ensures Applied(order, arg, number, acked, now, r)
    {
      match order {
        case ChangeState =>
          fcState := Some(arg);
          r := Ok(Silent);
        case Fly =>
          if profile == null {
            return Raised(AttributeError);
          }
          var state := ParseInt(arg);
          if state.None? {
            return Raised(ValueError);
          }
          profile.SetRunning(state.value, now);
          r := Ok(Silent);
        case AllOff =>
          if !loadbank {
            return Raised(AttributeError);
          }
          constant := Number(0.0);
          loadOn := false;
          fcState := Some("off");
          r := Ok(Silent);
        case SetCurrent =>
          if !loadbank {
            return Raised(AttributeError);
          }
          constant := Text(arg);
          r := Ok(Silent);
        case SetVoltage =>
          if auto > 0.0 {
            if number.None? {
              return Raised(ValueError);
            }
            auto := number.value;
            r := Ok(Silent);
          } else {
            r := Ok(DontUnderstand);
          }
        case Load =>
          if !loadbank {
            return Raised(AttributeError);
          }
          loadOn := StartsWith(arg, "on");
          r := Ok(Silent);
        case Throttle =>
          if StartsWith(arg, "calibration") {
            return Ok(Calibrate);
          }
          motor.SetThrottle(ParseInt(arg), acked);
          r := Ok(Silent);
      }
    }
  }

  /** The tokens `Tokens` makes of a request. */
  function StrippedTokens(request: string): (ts: seq<string>)
    ensures |ts| == |Split(request, ' ')|
  {
    seq(|Split(request, ' ')|, i requires 0 <= i < |Split(request, ' ')| => Strip(Split(request, ' ')[i]))
  }
}
