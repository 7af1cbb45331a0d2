/** The pieces of Python's semantics that several modelled files share. */
module Py {

  datatype Option<+T> = None | Some(value: T)

  /** The Python exceptions the modelled code can raise or catch. */
  datatype Exc = IOError | IndexError | ValueError | TypeError | AttributeError
               | NameError | UnboundLocalError | ZeroDivisionError

  /** A Python call that either returns a value or raises. */
  datatype Outcome<+T> = Ok(value: T) | Raised(exc: Exc)

  /** Python `xs[i]` on a list of length n: negative indices count from the
      end, anything else out of range raises `IndexError` (None here). */
  function ListIndex(i: int, n: nat): (r: Option<nat>)
    ensures r.Some? <==> -(n as int) <= i < n
    ensures r.Some? ==> r.value < n && (r.value == i || r.value == i + n)
  {
    if 0 <= i < n then Some(i) else if -(n as int) <= i < 0 then Some(i + n) else None
  }

  /** The characters for which Python's `str.isspace()` holds, which are
      also those `\s` matches in a `str` pattern and those `strip()` removes. */
  predicate IsSpace(c: char) {
    c in Whitespace
  }

  const Whitespace: set<char> := {
    '\t', '\n', '\U{000B}', '\U{000C}', '\r', '\U{001C}', '\U{001D}', '\U{001E}', '\U{001F}', ' ',
    '\U{0085}', '\U{00A0}', '\U{1680}', '\U{2000}', '\U{2001}', '\U{2002}', '\U{2003}', '\U{2004}',
    '\U{2005}', '\U{2006}', '\U{2007}', '\U{2008}', '\U{2009}', '\U{200A}', '\U{2028}', '\U{2029}',
    '\U{202F}', '\U{205F}', '\U{3000}'}

  /** Every character of s in [lo, hi) is a blank. */
  predicate BlankBetween(s: string, lo: int, hi: int) {
    forall i :: lo <= i < hi && 0 <= i < |s| ==> IsSpace(s[i])
  }

  /** s without its trailing `\s` characters. */
  function RStripSpace(s: string): (r: string)
    ensures |r| <= |s|
  {
    if |s| == 0 || !IsSpace(s[|s| - 1]) then s
    else RStripSpace(s[..|s| - 1])
  }

  /** What RStripSpace removes is a run of blanks at the end, and what it
      keeps does not end in one. */
  lemma {:induction false} RStripShape(s: string)
    ensures var r := RStripSpace(s);
      r == s[..|r|] && BlankBetween(s, |r|, |s|) && (|r| > 0 ==> !IsSpace(r[|r| - 1]))
    decreases |s|
  {
    if |s| > 0 && IsSpace(s[|s| - 1]) {
      var t := s[..|s| - 1];
      RStripShape(t);
      var r := RStripSpace(t);
      assert r == s[..|r|];
      forall i | |r| <= i < |s|
        ensures IsSpace(s[i])
      {
        if i < |t| {
          assert s[i] == t[i];
        }
      }
    }
  }

  /** s without its leading `\s` characters. */
  function LStripSpace(s: string): (r: string)
    ensures |r| <= |s|
  {
    if |s| == 0 || !IsSpace(s[0]) then s
    else LStripSpace(s[1..])
  }

  /** What LStripSpace removes is a run of blanks at the start, and what it
      keeps does not start with one. */
  lemma {:induction false} LStripShape(s: string)
    ensures var r := LStripSpace(s);
      r == s[|s| - |r|..] && BlankBetween(s, 0, |s| - |r|) && (|r| > 0 ==> !IsSpace(r[0]))
    decreases |s|
  {
    if |s| > 0 && IsSpace(s[0]) {
      var t := s[1..];
      LStripShape(t);
      var r := LStripSpace(t);
      assert r == s[|s| - |r|..];
      forall i | 0 <= i < |s| - |r|
        ensures IsSpace(s[i])
      {
        if i > 0 {
          assert s[i] == t[i - 1];
        }
      }
    }
  }

  /** `s.strip()`. */
  function Strip(s: string): (r: string)
    ensures |r| <= |s|
  {
    LStripSpace(RStripSpace(s))
  }

  /** `strip()` keeps one contiguous run of s, with only blanks cut on
      either side, that neither starts nor ends in a blank. */
  lemma StripShape(s: string)
    ensures var r := Strip(s); var t := RStripSpace(s);
      && |r| <= |t| <= |s| && r == s[|t| - |r|..|t|]
      && BlankBetween(s, 0, |t| - |r|) && BlankBetween(s, |t|, |s|)
      && (|r| > 0 ==> !IsSpace(r[0]) && !IsSpace(r[|r| - 1]))
  {
    var t := RStripSpace(s);
    RStripShape(s);
    LStripShape(t);
    var r := LStripSpace(t);
    assert r == t[|t| - |r|..];
    forall i | 0 <= i < |t| - |r|
      ensures IsSpace(s[i])
    {
      assert s[i] == t[i];
    }
  }
}
