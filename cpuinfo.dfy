/** The I2C bus number chosen from the board revision in /proc/cpuinfo, as
    `I2c.getI2cBus` does in i2cGet/I2c.py (and adcTest.py at module level).
    Each line is matched against `(.*?)\s*:\s*(.*)`; the first line whose
    name is `Revision` decides, and revisions ending in 0002 or 0003 (the
    first Raspberry Pi boards) use bus 0, every other one bus 1.  Lines are
    given without their terminating newline. */
module CpuInfo {
  import opened Py

  /** No character of s before index hi is a colon. */
  predicate NoColonBefore(s: string, hi: int) {
    forall i :: 0 <= i < hi && i < |s| ==> s[i] != ':'
  }

  /** The index of the first ':' in s, if any. */
  function FirstColon(s: string): (r: Option<nat>)
    ensures r.Some? ==> r.value < |s| && s[r.value] == ':'
  {
    if |s| == 0 then None
    else if s[0] == ':' then Some(0)
    else
      var rest := FirstColon(s[1..]);
      if rest.None? then None else Some(rest.value + 1)
  }

  /** FirstColon finds the first colon, and finds none only when there is
      none. */
  lemma {:induction false} FirstColonIsFirst(s: string)
    ensures FirstColon(s).Some? ==> NoColonBefore(s, FirstColon(s).value)
    ensures FirstColon(s).None? <==> NoColonBefore(s, |s|)
    decreases |s|
  {
    if |s| > 0 && s[0] != ':' {
      FirstColonIsFirst(s[1..]);
      assert forall i :: 1 <= i < |s| ==> s[i] == s[1..][i - 1];
    }
  }

  /** A `name : value` line, split as the regular expression splits it. */
  datatype Field = Field(name: string, value: string)

  /** The first group of the match for a line whose first colon is at c. */
  function NameBefore(line: string, c: nat): string
    requires c < |line|
  {
    RStripSpace(line[..c])
  }

  /** The second group of the match for a line whose first colon is at c. */
  function ValueAfter(line: string, c: nat): string
    requires c < |line|
  {
    LStripSpace(line[c + 1..])
  }

  /** `re.match('(.*?)\s*:\s*(.*)', line)`: the lazy group stops at the first
      colon less the blanks before it, and the second group is what follows
      the blanks after it.  A line without a colon does not match. */
  function MatchLine(line: string): (r: Option<Field>)
    ensures r.Some? <==> FirstColon(line).Some?
  {
    var c := FirstColon(line);
    if c.None? then None
    else Some(Field(NameBefore(line, c.value), ValueAfter(line, c.value)))
  }

  /** A line fails to match exactly when it has no colon. */
  lemma NoMatchWithoutColon(line: string)
    ensures MatchLine(line).None? <==> NoColonBefore(line, |line|)
  {
    FirstColonIsFirst(line);
  }

  /** The name is a prefix of the line that ends before the first colon, with
      only blanks between it and the colon, and does not end in a blank. */
  lemma NameShape(line: string)
    requires FirstColon(line).Some?
    ensures
      var c := FirstColon(line).value;
      var name := NameBefore(line, c);
      && |name| <= c && line[..|name|] == name && NoColonBefore(name, |name|) && BlankBetween(line, |name|, c)
      && (|name| == 0 || !IsSpace(name[|name| - 1]))
  {
    var c := FirstColon(line).value;
    FirstColonIsFirst(line);
    RStripShape(line[..c]);
    var name := NameBefore(line, c);
    assert forall i :: |name| <= i < c ==> line[i] == line[..c][i];
  }

  /** The value is a suffix of the line with only blanks between the colon
      and it, and does not start with a blank. */
  lemma ValueShape(line: string)
    requires FirstColon(line).Some?
    ensures
      var c := FirstColon(line).value;
      var value := ValueAfter(line, c);
      && |value| <= |line| - c - 1 && line[|line| - |value|..] == value
      && BlankBetween(line, c + 1, |line| - |value|)
      && (|value| == 0 || !IsSpace(value[0]))
  {
    var c := FirstColon(line).value;
    var after := line[c + 1..];
    var value := LStripSpace(after);
    LStripShape(after);
    assert value == ValueAfter(line, c);
    var cut := |line| - |value|;
    forall i | c + 1 <= i < cut
      ensures IsSpace(line[i])
    {
      assert line[i] == after[i - c - 1];
    }
    assert line[cut..] == after[|after| - |value|..];
  }

  /** `value[-4:]`: the last four characters, or all of a shorter string. */
  function LastFour(s: string): (r: string)
    ensures |r| == if |s| < 4 then |s| else 4
    ensures s == s[..|s| - |r|] + r
  {
    if |s| < 4 then s else s[|s| - 4..]
  }

  /** The bus a revision value selects. */
  function BusFor(value: string): (bus: nat)
    ensures bus == 0 <==> LastFour(value) == "0002" || LastFour(value) == "0003"
    ensures bus <= 1
  {
    if LastFour(value) == "0002" || LastFour(value) == "0003" then 0 else 1
  }

  /** The match of each line, in order. */
  function Matches(lines: seq<string>): (ms: seq<Option<Field>>)
    ensures |ms| == |lines|
    ensures forall i :: 0 <= i < |lines| ==> ms[i] == MatchLine(lines[i])
  {
    if |lines| == 0 then []
    else
      assert forall i :: 1 <= i < |lines| ==> lines[1..][i - 1] == lines[i];
      [MatchLine(lines[0])] + Matches(lines[1..])
  }

  /** The line matched and its name group is `Revision`. */
  predicate IsRevision(m: Option<Field>) {
    m.Some? && m.value.name == "Revision"
  }

  /** The index of the first Revision match. */
  function FirstRevision(ms: seq<Option<Field>>): (r: Option<nat>)
    ensures r.None? <==> forall i :: 0 <= i < |ms| ==> !IsRevision(ms[i])
    ensures r.Some? ==>
      && r.value < |ms| && IsRevision(ms[r.value])
      && forall i :: 0 <= i < r.value ==> !IsRevision(ms[i])
  {
    if |ms| == 0 then None
    else if IsRevision(ms[0]) then Some(0)
    else
      var rest := FirstRevision(ms[1..]);
      assert forall i :: 1 <= i < |ms| ==> ms[i] == ms[1..][i - 1];
      if rest.Some? then Some(rest.value + 1) else None
  }

  /** An index holding a Revision match with none before it is the first. */
  lemma FirstRevisionAt(ms: seq<Option<Field>>, k: nat)
    requires k < |ms| && IsRevision(ms[k])
    requires forall j :: 0 <= j < k ==> !IsRevision(ms[j])
    ensures FirstRevision(ms) == Some(k)
  {
    var r := FirstRevision(ms);
    assert r.Some?;
    assert !(r.value < k);
    assert !(k < r.value);
  }

  /** The bus the scan assigns, None when no line is a Revision line (the
      variable is then never bound). */
  function RevisionBus(lines: seq<string>): Option<nat> {
    var ms := Matches(lines);
    match FirstRevision(ms)
    case None => None
    case Some(k) => Some(BusFor(ms[k].value.value))
  }

  /** Matching is line by line, so the matches of two blocks of lines are
      the matches of each. */
  lemma MatchesAppend(lines: seq<string>, more: seq<string>)
    ensures Matches(lines + more) == Matches(lines) + Matches(more)
  {
    var all := lines + more;
    forall i | 0 <= i < |all|
      ensures Matches(all)[i] == (Matches(lines) + Matches(more))[i]
    {
      if i < |lines| {
        assert all[i] == lines[i];
      } else {
        assert all[i] == more[i - |lines|];
      }
    }
  }

  /** Lines that come after the first Revision line play no part. */
  lemma LaterLinesIgnored(lines: seq<string>, more: seq<string>)
    requires FirstRevision(Matches(lines)).Some?
    ensures FirstRevision(Matches(lines + more)) == FirstRevision(Matches(lines))
    ensures RevisionBus(lines + more) == RevisionBus(lines)
  {
    MatchesAppend(lines, more);
    FirstRevisionAppend(Matches(lines), Matches(more));
  }

  /** Appending matches after a Revision match leaves the first one and its
      value in place. */
  lemma FirstRevisionAppend(ms: seq<Option<Field>>, later: seq<Option<Field>>)
    requires FirstRevision(ms).Some?
    ensures FirstRevision(ms + later) == FirstRevision(ms)
    ensures (ms + later)[FirstRevision(ms).value] == ms[FirstRevision(ms).value]
  {
    var all := ms + later;
    var k := FirstRevision(ms).value;
    assert all[k] == ms[k];
    assert forall j :: 0 <= j < k ==> all[j] == ms[j];
    FirstRevisionAt(all, k);
  }

  /** The for loop over the lines with its `break`. */
  method ScanRevision(lines: seq<string>) returns (bus: Option<nat>)
    ensures bus == RevisionBus(lines)
  {
    ghost var ms := Matches(lines);
    bus := None;
    var i := 0;
    while i < |lines|
      invariant 0 <= i <= |lines|
      invariant forall j :: 0 <= j < i ==> !IsRevision(ms[j])
      invariant bus.None?
    {
      var m := MatchLine(lines[i]);
      assert m == ms[i];
      if IsRevision(m) {
        var value := m.value.value;
        if LastFour(value) == "0002" || LastFour(value) == "0003" {
          bus := Some(0);
        } else {
          bus := Some(1);
        }
        FirstRevisionAt(ms, i);
        break;
      }
      i := i + 1;
    }
  }

  /** `I2c.getI2cBus`: `return SMBus(i2c_bus)` raises UnboundLocalError when
      no Revision line was found; opening the bus itself is not modelled. */
  method GetI2cBus(lines: seq<string>) returns (r: Outcome<nat>)
    ensures r.Raised? <==> forall i :: 0 <= i < |lines| ==> !IsRevision(MatchLine(lines[i]))
    ensures r.Raised? ==> r.exc == UnboundLocalError
    ensures r.Ok? ==>
      && r.value <= 1
      && var k := FirstRevision(Matches(lines)).value;
         && IsRevision(MatchLine(lines[k]))
         && (forall j :: 0 <= j < k ==> !IsRevision(MatchLine(lines[j])))
         && (r.value == 0 <==> LastFour(ValueAfter(lines[k], FirstColon(lines[k]).value)) in {"0002", "0003"})
  {
    var bus := ScanRevision(lines);
    ghost var ms := Matches(lines);
    if bus.None? {
      assert forall i :: 0 <= i < |lines| ==> ms[i] == MatchLine(lines[i]);
      return Raised(UnboundLocalError);
    }
    assert forall i :: 0 <= i < |lines| ==> ms[i] == MatchLine(lines[i]);
    return Ok(bus.value);
  }
}
