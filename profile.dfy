/** The setpoint profiles of scheduler/scheduler.py (`Scheduler`) and
    profiler/profiler.py (`Profiler`).  Both read a text file of
    `time setpoint` records with a forward cursor: the line last read stays
    the current one while its time is ahead of the elapsed time, and once it
    has expired the following lines are read until one has not.  The end of
    the file, a blank line or a line whose columns do not all parse as
    numbers ends the test with -1.

    A line is modelled by what `list(map(float, line.split()))` makes of it,
    and the file by its lines; the cursor is the index of the next line, so
    `readline()` at the end of the file gives the empty line again. */
module Profiles {
  import opened Py

  /** A line as the profile sees it: its columns as numbers, or a line one
      of whose columns `float()` rejects with ValueError. */
  datatype Row = Values(cols: seq<real>) | Garbled

  /** What `readline()` returns at the end of the file (and what the current
      line is before the first read): the empty string, which has no
      columns. */
  const EndOfFile: Row := Values([])

  /** The record's time is before the elapsed time, so the scan reads on.
      Only such a row lets `while x[0] < psuedo_time` go round again. */
  predicate Expired(row: Row, elapsed: real) {
    row.Values? && |row.cols| >= 1 && row.cols[0] < elapsed
  }

  /** What the scan yields for the row that stopped it: -1 (end of test) for
      a line without columns or one that did not parse, the setpoint for a
      record, and IndexError, which nothing catches, for a line with a time
      but no setpoint. */
  function Stopped(row: Row): (r: Outcome<real>)
    ensures r == Ok(-1.0) <==> row == Garbled || row == EndOfFile || (|row.cols| >= 2 && row.cols[1] == -1.0)
    ensures r.Raised? <==> row.Values? && |row.cols| == 1
  {
    match row
    case Garbled => Ok(-1.0)
    case Values(c) => if |c| == 0 then Ok(-1.0) else if |c| == 1 then Raised(IndexError) else Ok(c[1])
  }

  /** Where a lookup leaves the profile: its result, the cursor and the
      current line. */
  datatype Lookup = Lookup(result: Outcome<real>, pos: nat, row: Row)

  /** The forward scan of `_find_now` from cursor pos: lines are read until
      one has not expired; the cursor ends just after it (or stays at the
      end of the file). */
  function Scan(file: seq<Row>, pos: nat, elapsed: real): (r: Lookup)
    requires pos <= |file|
    ensures pos <= r.pos <= |file|
    ensures !Expired(r.row, elapsed) && r.result == Stopped(r.row)
    decreases |file| - pos
  {
    if pos == |file| then Lookup(Stopped(EndOfFile), pos, EndOfFile)
    else if Expired(file[pos], elapsed) then Scan(file, pos + 1, elapsed)
    else Lookup(Stopped(file[pos]), pos + 1, file[pos])
  }

  /** The scan stops at the first line from the cursor on that has not
      expired, and yields what that line yields; with no such line it ends
      at the end of the file with -1. */
  lemma {:induction false} ScanStopsAtFirst(file: seq<Row>, pos: nat, k: nat, elapsed: real)
    requires pos <= k <= |file|
    requires forall j :: pos <= j < k ==> Expired(file[j], elapsed)
    requires k < |file| ==> !Expired(file[k], elapsed)
    ensures Scan(file, pos, elapsed) ==
      if k < |file| then Lookup(Stopped(file[k]), k + 1, file[k]) else Lookup(Ok(-1.0), |file|, EndOfFile)
    decreases k - pos
  {
    if pos < k {
      ScanStopsAtFirst(file, pos + 1, k, elapsed);
    }
  }

  /** Every scan has such a first line, so the lemma above describes every
      scan. */
  lemma {:induction false} FirstUnexpired(file: seq<Row>, pos: nat, elapsed: real) returns (k: nat)
    requires pos <= |file|
    ensures pos <= k <= |file|
    ensures forall j :: pos <= j < k ==> Expired(file[j], elapsed)
    ensures k < |file| ==> !Expired(file[k], elapsed)
    decreases |file| - pos
  {
    if pos == |file| || !Expired(file[pos], elapsed) {
      k := pos;
    } else {
      k := FirstUnexpired(file, pos + 1, elapsed);
    }
  }

  /** `_find_now` with `elapsed` seconds since the start: an unexpired
      current record gives its setpoint without reading; otherwise the
      scan.  A current line that did not parse raises ValueError (only
      IndexError is caught around the first test). */
  function Find(file: seq<Row>, pos: nat, current: Row, elapsed: real): (r: Lookup)
    requires pos <= |file|
    ensures pos <= r.pos <= |file|
    ensures current.Values? && |current.cols| >= 2 && current.cols[0] > elapsed ==>
      r == Lookup(Ok(current.cols[1]), pos, current)
    ensures current == Garbled ==> r == Lookup(Raised(ValueError), pos, current)
    ensures current.Values? && !(|current.cols| >= 2 && current.cols[0] > elapsed) ==>
      r == Scan(file, pos, elapsed)
  {
    match current
    case Garbled => Lookup(Raised(ValueError), pos, current)
    case Values(c) =>
      if |c| >= 2 && c[0] > elapsed then Lookup(Ok(c[1]), pos, current) else Scan(file, pos, elapsed)
  }

  /** A lookup that yields a non-negative setpoint found it on the line it
      leaves current: the setpoint is that line's second column and the
      line has not expired. */
  lemma FoundOnCurrentLine(file: seq<Row>, pos: nat, current: Row, elapsed: real)
    requires pos <= |file|
    ensures var r := Find(file, pos, current, elapsed);
      r.result.Ok? && r.result.value >= 0.0 ==>
        r.row.Values? && |r.row.cols| >= 2 && r.row.cols[1] == r.result.value && r.row.cols[0] >= elapsed
  {
  }

  /** `_run` on the lookup of the current tick: a negative (end of test)
      answer is reported as -1 and leaves the stored setpoint; a
      non-negative one becomes the stored setpoint and is returned. */
  function RunResult(stored: real, found: Outcome<real>): (r: (Outcome<real>, real))
    ensures found.Raised? ==> r == (found, stored)
    ensures found.Ok? && found.value >= 0.0 ==> r == (found, found.value)
    ensures found.Ok? && found.value < 0.0 ==> r == (Ok(-1.0), stored)
  {
    match found
    case Raised(e) => (Raised(e), stored)
    case Ok(v) => if v >= 0.0 then (Ok(v), v) else (Ok(-1.0), stored)
  }

  /** The stored setpoint only ever takes non-negative values. */
  lemma StoredStaysNonNegative(stored: real, found: Outcome<real>)
    requires stored >= 0.0
    ensures RunResult(stored, found).1 >= 0.0
    ensures RunResult(stored, found).0.Ok? ==> RunResult(stored, found).0.value >= 0.0 || RunResult(stored, found).0 == Ok(-1.0)
  {
  }

  class Scheduler {
    /** The lines of the profile file. */
    const file: seq<Row>
    /** The cursor of the open file. */
    var pos: nat
    /** `__this_line`. */
    var current: Row
    var start: real
    var running: int
    var setpoint: real

    ghost predicate Valid()
      reads this
    {
      pos <= |file| && setpoint >= 0.0 && (running == 0 || running == 1)
    }

    /** `Scheduler(filename)` at time now, for a file with these lines. */
    constructor (file: seq<Row>, now: real)
      ensures Valid() && this.file == file
      ensures pos == 0 && current == EndOfFile && start == now && running == 0 && setpoint == 0.0
    {
      this.file := file;
      pos, current, start, running, setpoint := 0, EndOfFile, now, 0, 0.0;
    }

    /** `_get_line()`: the next line becomes the current one. */
    method GetLine() returns (row: Row)
      requires Valid()
      modifies this`pos, this`current
      ensures Valid()
      ensures old(pos) < |file| ==> row == file[old(pos)] && pos == old(pos) + 1
      ensures old(pos) == |file| ==> row == EndOfFile && pos == old(pos)
      ensures current == row
    {
      if pos < |file| {
        row := file[pos];
        pos := pos + 1;
      } else {
        row := EndOfFile;
      }
      current := row;
    }

    /** `_find_now` at time now. */
    method FindNow(now: real) returns (r: Outcome<real>)
      requires Valid()
      modifies this`pos, this`current
      ensures Valid()
      ensures Lookup(r, pos, current) == Find(file, old(pos), old(current), now - start)
    {
      var elapsed := now - start;
      if current.Garbled? {
        return Raised(ValueError);
      }
      if |current.cols| >= 2 && current.cols[0] > elapsed {
        return Ok(current.cols[1]);
      }
      ghost var from := pos;
      ghost var past := pos == |file|;
      var x := GetLine();
      while Expired(x, elapsed)
        invariant Valid() && from <= pos && x == current
        invariant past ==> pos == |file| && x == EndOfFile
        invariant !past ==> from < pos && file[pos - 1] == x
        invariant forall j :: from <= j < (if past then pos else pos - 1) ==> Expired(file[j], elapsed)
        decreases |file| - pos, if Expired(x, elapsed) then 1 else 0
      {
        past := pos == |file|;
        x := GetLine();
      }
      ghost var k := if past then |file| else pos - 1;
      ScanStopsAtFirst(file, from, k, elapsed);
      r := Stopped(x);
    }

    /** `_start`: the file is opened again from its first line (the current
        line is kept), the clock restarts and the setpoint is zeroed. */
    method Start(now: real)
      requires Valid()
      modifies this`pos, this`start, this`setpoint, this`running
      ensures Valid()
      ensures pos == 0 && start == now && setpoint == 0.0 && running == 1
    {
      pos := 0;
      start := now;
      setpoint := 0.0;
      running := 1;
    }

    /** `_stop`: the file is closed. */
    method Stop()
      requires Valid()
      modifies this`running
      ensures Valid() && running == 0
    {
      running := 0;
    }

    /** The `running` setter with `int(state)` already taken: it starts a
        stopped profile and stops a running one, and asking for what is the
        case already changes nothing. */
    /** The transition of the `running` setter given `int(state)`. */
    twostate predicate RunningSet(state: int, now: real)
      reads this
    {
      && current == old(current)
      && if (state != 0) == (old(running) != 0) then
           pos == old(pos) && start == old(start) && setpoint == old(setpoint) && running == old(running)
         else if state != 0 then
           pos == 0 && start == now && setpoint == 0.0 && running == 1
         else
           running == 0 && pos == old(pos) && start == old(start) && setpoint == old(setpoint)
    }

    method SetRunning(state: int, now: real)
      requires Valid()
      modifies this`pos, this`start, this`setpoint, this`running
      ensures Valid() && RunningSet(state, now)
      ensures (state != 0) == (old(running) != 0) ==>
        pos == old(pos) && start == old(start) && setpoint == old(setpoint) && running == old(running)
      ensures state != 0 && old(running) == 0 ==> pos == 0 && start == now && setpoint == 0.0 && running == 1
      ensures state == 0 && old(running) != 0 ==>
        running == 0 && pos == old(pos) && start == old(start) && setpoint == old(setpoint)
    {
      if state != 0 && running == 0 {
        Start(now);
      } else if state == 0 && running != 0 {
        Stop();
      }
    }

    /** `_run`: -1 when stopped; otherwise the lookup, whose non-negative
        answers become the stored setpoint. */
    method RunOnce(now: real) returns (r: Outcome<real>)
      requires Valid()
      modifies this`pos, this`current, this`setpoint
      ensures Valid()
      ensures running == 0 ==>
        r == Ok(-1.0) && pos == old(pos) && current == old(current) && setpoint == old(setpoint)
      ensures running != 0 ==>
        var f := Find(file, old(pos), old(current), now - start);
        pos == f.pos && current == f.row && (r, setpoint) == RunResult(old(setpoint), f.result)
    {
      if running == 0 {
        return Ok(-1.0);
      }
      if setpoint < 0.0 {
        return Ok(-1.0);
      }
      var found := FindNow(now);
      if found.Raised? {
        return found;
      }
      if found.value >= 0.0 {
        if found.value != setpoint {
          setpoint := found.value;
        }
        return Ok(setpoint);
      }
      return Ok(-1.0);
    }

    /** What `run` at time now answers in the present state. */
    ghost function Output(now: real): Outcome<real>
      requires Valid()
      reads this
    {
      if running == 0 then Ok(-1.0) else RunResult(setpoint, Find(file, pos, current, now - start).result).0
    }

    /** The transition of `run` at time now: a stopped profile keeps its
        state; a running one moves its cursor as the lookup did, stores a
        non-negative answer and stops on the end of the test. */
    twostate predicate Stepped(now: real)
      requires old(Valid())
      reads this
    {
      && start == old(start)
      && if old(running) == 0 then
           pos == old(pos) && current == old(current) && setpoint == old(setpoint) && running == 0
         else
           var f := Find(file, old(pos), old(current), now - old(start));
           var o := RunResult(old(setpoint), f.result);
           pos == f.pos && current == f.row && setpoint == o.1 && running == (if o.0 == Ok(-1.0) then 0 else 1)
    }

    /** `run`: `_run`, and a running profile that answered -1 is stopped.
        The test `running is -1` holds exactly for the integer -1 that
        `_run` returns for the end of the test. */
    method Run(now: real) returns (r: Outcome<real>)
      requires Valid()
      modifies this`pos, this`current, this`setpoint, this`running
      ensures Valid()
      ensures old(running) == 0 ==>
        r == Ok(-1.0) && running == 0 && setpoint == old(setpoint) && pos == old(pos) && current == old(current)
      ensures old(running) != 0 ==>
        var f := Find(file, old(pos), old(current), now - start);
        && pos == f.pos && current == f.row && (r, setpoint) == RunResult(old(setpoint), f.result)
        && running == (if r == Ok(-1.0) then 0 else 1)
      ensures r == old(Output(now)) && Stepped(now)
    {
      r := RunOnce(now);
      if running != 0 && r == Ok(-1.0) {
        Stop();
      }
    }
  }

  class Profiler {
    const file: seq<Row>
    var pos: nat
    var current: Row
    var start: real
    var running: int
    var setpoint: real

    ghost predicate Valid()
      reads this
    {
      pos <= |file| && setpoint >= 0.0 && (running == 0 || running == 1)
    }

    /** `Profiler(filename)` at time now, for a file with these lines. */
    constructor (file: seq<Row>, now: real)
      ensures Valid() && this.file == file
      ensures pos == 0 && current == EndOfFile && start == now && running == 0 && setpoint == 0.0
    {
      this.file := file;
      pos, current, start, running, setpoint := 0, EndOfFile, now, 0, 0.0;
    }

    /** `_get_line`: given -1 the cursor first goes back by
        the length of the current line, to the start of that line when it
        was the line just read. */
    method GetLine(back: bool) returns (row: Row)
      requires Valid()
      requires back ==> 1 <= pos && file[pos - 1] == current
      modifies this`pos, this`current
      ensures Valid()
      ensures var p := if back then old(pos) - 1 else old(pos);
        && (p < |file| ==> row == file[p] && pos == p + 1)
        && (p == |file| ==> row == EndOfFile && pos == p)
      ensures current == row
    {
      if back {
        pos := pos - 1;
      }
      if pos < |file| {
        row := file[pos];
        pos := pos + 1;
      } else {
        row := EndOfFile;
      }
      current := row;
    }

    /** `_find_now` at time now: as the scheduler's, except that the line
        that stopped the scan is read a second time (`_get_line(-1)`) and
        its setpoint taken from that second read. */
    method FindNow(now: real) returns (r: Outcome<real>)
      requires Valid()
      modifies this`pos, this`current
      ensures Valid()
      ensures Lookup(r, pos, current) == Find(file, old(pos), old(current), now - start)
    {
      var elapsed := now - start;
      if current.Garbled? {
        return Raised(ValueError);
      }
      if |current.cols| >= 2 && current.cols[0] > elapsed {
        return Ok(current.cols[1]);
      }
      ghost var from := pos;
      ghost var past := pos == |file|;
      var x := GetLine(false);
      while Expired(x, elapsed)
        invariant Valid() && from <= pos && x == current
        invariant past ==> pos == |file| && x == EndOfFile
        invariant !past ==> from < pos && file[pos - 1] == x
        invariant forall j :: from <= j < (if past then pos else pos - 1) ==> Expired(file[j], elapsed)
        decreases |file| - pos, if Expired(x, elapsed) then 1 else 0
      {
        past := pos == |file|;
        x := GetLine(false);
      }
      ghost var k := if past then |file| else pos - 1;
      ScanStopsAtFirst(file, from, k, elapsed);
      if x.Garbled? || |x.cols| == 0 {
        return Ok(-1.0);
      }
      var again := GetLine(true);
      assert again == x;
      if |again.cols| < 2 {
        return Raised(IndexError);
      }
      r := Ok(again.cols[1]);
    }

    method Start(now: real)
      requires Valid()
      modifies this`pos, this`start, this`setpoint, this`running
      ensures Valid()
      ensures pos == 0 && start == now && setpoint == 0.0 && running == 1
    {
      pos := 0;
      start := now;
      setpoint := 0.0;
      running := 1;
    }

    method Stop()
      requires Valid()
      modifies this`running
      ensures Valid() && running == 0
    {
      running := 0;
    }

    /** The `running` setter on the truth value of the request. */
    method SetRunning(state: bool, now: real)
      requires Valid()
      modifies this`pos, this`start, this`setpoint, this`running
      ensures Valid()
      ensures state == (old(running) != 0) ==>
        pos == old(pos) && start == old(start) && setpoint == old(setpoint) && running == old(running)
      ensures state && old(running) == 0 ==> pos == 0 && start == now && setpoint == 0.0 && running == 1
      ensures !state && old(running) != 0 ==>
        running == 0 && pos == old(pos) && start == old(start) && setpoint == old(setpoint)
    {
      if state && running == 0 {
        Start(now);
      } else if !state && running != 0 {
        Stop();
      }
    }

    /** `_run`. */
    method RunOnce(now: real) returns (r: Outcome<real>)
      requires Valid()
      modifies this`pos, this`current, this`setpoint
      ensures Valid()
      ensures running == 0 ==>
        r == Ok(-1.0) && pos == old(pos) && current == old(current) && setpoint == old(setpoint)
      ensures running != 0 ==>
        var f := Find(file, old(pos), old(current), now - start);
        pos == f.pos && current == f.row && (r, setpoint) == RunResult(old(setpoint), f.result)
    {
      if running == 0 {
        return Ok(-1.0);
      }
      if setpoint < 0.0 {
        return Ok(-1.0);
      }
      var found := FindNow(now);
      if found.Raised? {
        return found;
      }
      if found.value >= 0.0 {
        if found.value != setpoint {
          setpoint := found.value;
        }
        return Ok(setpoint);
      }
      return Ok(-1.0);
    }

    /** `run`: a running profile that answered -1 is stopped. */
    method Run(now: real) returns (r: Outcome<real>)
      requires Valid()
      modifies this`pos, this`current, this`setpoint, this`running
      ensures Valid()
      ensures old(running) == 0 ==>
        r == Ok(-1.0) && running == 0 && setpoint == old(setpoint) && pos == old(pos) && current == old(current)
      ensures old(running) != 0 ==>
        var f := Find(file, old(pos), old(current), now - start);
        && pos == f.pos && current == f.row && (r, setpoint) == RunResult(old(setpoint), f.result)
        && running == (if r == Ok(-1.0) then 0 else 1)
    {
      r := RunOnce(now);
      if running != 0 && r == Ok(-1.0) {
        Stop();
      }
    }
  }
}
