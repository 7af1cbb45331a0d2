/** The PiFace Control & Display driver of display/h100Display.py.  The LCD
    is modelled by the cells written so far, each holding a character or a
    custom bitmap; a write puts its text on consecutive columns of one row.
    The string `str(number)` that the number fields display is an input: the
    formatting of floats is not modelled. */
module LcdDisplay {

  /** `' ' * n`, and likewise for any character. */
  function Repeat(c: char, n: nat): (r: string)
    ensures |r| == n && forall i :: 0 <= i < n ==> r[i] == c
  {
    if n == 0 then [] else Repeat(c, n - 1) + [c]
  }

  /** CPython's `s.center(width)`: the margin is split with the odd space on
      the left exactly when both the margin and the width are odd. */
  function LeftMargin(len: nat, width: nat): (m: nat)
    requires len <= width
    ensures 2 * m == width - len || 2 * m == width - len + 1 || 2 * m + 1 == width - len
  {
    var marg := width - len;
    marg / 2 + (if marg % 2 == 1 && width % 2 == 1 then 1 else 0)
  }

  function Center(s: string, width: nat): (r: string)
    ensures |s| >= width ==> r == s
    ensures |s| < width ==>
      var left := LeftMargin(|s|, width);
      && |r| == width && r[left..left + |s|] == s
      && (forall i :: 0 <= i < left ==> r[i] == ' ')
      && (forall i :: left + |s| <= i < width ==> r[i] == ' ')
  {
    if |s| >= width then s
    else
      var left := LeftMargin(|s|, width);
      Repeat(' ', left) + s + Repeat(' ', width - |s| - left)
  }

  /** `s.rjust(width)`. */
  function RJust(s: string, width: nat): (r: string)
    ensures |s| >= width ==> r == s
    ensures |s| < width ==>
      |r| == width && r[width - |s|..] == s && forall i :: 0 <= i < width - |s| ==> r[i] == ' '
  {
    if |s| >= width then s else Repeat(' ', width - |s|) + s
  }

  /** `s[:n]`. */
  function Take(s: string, n: nat): (r: string)
    ensures |r| == if |s| <= n then |s| else n
    ensures r == s[..|r|]
  {
    if |s| <= n then s else s[..n]
  }

  /** `s.split('.')[0]`: the text before the first full stop. */
  function BeforeDot(s: string): (r: string)
    ensures |r| <= |s| && r == s[..|r|] && '.' !in r
    ensures |r| < |s| ==> s[|r|] == '.'
  {
    if |s| == 0 || s[0] == '.' then [] else [s[0]] + BeforeDot(s[1..])
  }

  /** `__setText`: text cut to chars characters and centred in exactly chars
      columns; what is kept is the start of the text. */
  function SetText(text: string, chars: nat): (r: string)
    ensures |r| == chars
    ensures var t := Take(text, chars); var left := LeftMargin(|t|, chars);
      r[left..left + |t|] == t && t == text[..|t|]
  {
    Center(Take(text, chars), chars)
  }

  /** `__setFloat` on the digits numstr of the number: chars copies of 'x'
      when the part before the point does not fit, otherwise the first chars
      characters right-justified. */
  function SetFloat(numstr: string, chars: nat): (r: string)
    ensures |r| == chars
    ensures |BeforeDot(numstr)| > chars ==> r == Repeat('x', chars)
    ensures |BeforeDot(numstr)| <= chars ==>
      var t := Take(numstr, chars); r[chars - |t|..] == t && forall i :: 0 <= i < chars - |t| ==> r[i] == ' '
  {
    if |BeforeDot(numstr)| > chars then Repeat('x', chars) else RJust(Take(numstr, chars), chars)
  }

  /** A prefix of a suffix is a slice. */
  lemma PrefixOfSuffix(r: string, k: nat, t: string, w: string)
    requires k <= |r| && r[k..] == t && |w| <= |t| && t[..|w|] == w
    ensures r[k..k + |w|] == w
  {
    assert r[k..k + |w|] == r[k..][..|w|];
  }

  /** Cutting s to n characters keeps every prefix of s no longer than n. */
  lemma TakeKeepsPrefix(s: string, n: nat, w: string)
    requires |w| <= n && |w| <= |s| && w == s[..|w|]
    ensures |w| <= |Take(s, n)| && Take(s, n)[..|w|] == w
  {
  }

  /** What a number field keeps is never a cut-off whole part: when the
      digits before the point fit, all of them are shown. */
  lemma {:induction false} WholePartShown(numstr: string, chars: nat)
    requires |BeforeDot(numstr)| <= chars
    ensures var r := SetFloat(numstr, chars); var w := BeforeDot(numstr); var t := Take(numstr, chars);
      r[chars - |t|..chars - |t| + |w|] == w
  {
    var w := BeforeDot(numstr);
    var t := Take(numstr, chars);
    TakeKeepsPrefix(numstr, chars, w);
    PrefixOfSuffix(SetFloat(numstr, chars), chars - |t|, t, w);
  }

  /** A cell of the display. */
  datatype Cell = Char(c: char) | Bitmap(index: nat)

  /** The fields the setters write. */
  datatype Field = Name | State | Temp | Volts | Amps

  /** The cells a setter writes: its text field of `Width` columns from
      `[col, row]` and, for the readings, the cell of the unit or symbol
      beside it. */
  function Col(f: Field): int {
    match f
    case Name => 0
    case State => 4
    case Temp => 8
    case Volts => 0
    case Amps => 6
  }

  function Row(f: Field): int {
    match f
    case Name => 0
    case State => 0
    case Temp => 0
    case Volts => 1
    case Amps => 1
  }

  function Width(f: Field): nat {
    match f
    case Name => 3
    case State => 3
    case Temp => 4
    case Volts => 4
    case Amps => 4
  }

  /** The unit or symbol cell, for the fields that have one. */
  function UnitCell(f: Field): (int, int) {
    match f
    case Temp => (12, 0)
    case Volts => (4, 1)
    case Amps => (10, 1)
    case _ => (Col(f), Row(f))
  }

  predicate InField(f: Field, p: (int, int)) {
    (p.1 == Row(f) && Col(f) <= p.0 < Col(f) + Width(f)) || p == UnitCell(f)
  }

  /** No two fields share a cell, so a setter never overwrites another
      field. */
  lemma FieldsDisjoint(f: Field, g: Field, p: (int, int))
    requires f != g
    ensures !(InField(f, p) && InField(g, p))
  {
  }

  /** The screen after writing text from column col of row row. */
  function WriteAt(screen: map<(int, int), Cell>, text: string, col: int, row: int): (s: map<(int, int), Cell>)
    ensures forall c :: col <= c < col + |text| ==> (c, row) in s && s[(c, row)] == Char(text[c - col])
    ensures forall p: (int, int) :: p.1 != row || p.0 < col || p.0 >= col + |text| ==>
      (p in s <==> p in screen) && (p in s ==> s[p] == screen[p])
    decreases |text|
  {
    if |text| == 0 then screen
    else
      var first := screen[(col, row) := Char(text[0])];
      var s := WriteAt(first, text[1..], col + 1, row);
      assert (col, row) in s && s[(col, row)] == Char(text[0]);
      s
  }

  /** The custom bitmaps stored on the LCD: the temperature symbol and the
      seven bars of the progress animation; the LCD has eight slots. */
  const TempSymbolIndex: nat := 0
  const ProgressIndex: seq<nat> := [1, 2, 3, 4, 5, 6, 7]

  lemma BitmapSlots()
    ensures TempSymbolIndex < 8 && TempSymbolIndex !in ProgressIndex
    ensures forall i :: 0 <= i < |ProgressIndex| ==> 1 <= ProgressIndex[i] < 8
    ensures forall i, j :: 0 <= i < j < |ProgressIndex| ==> ProgressIndex[i] != ProgressIndex[j]
  {
  }

  /** The animation counter after one frame: 0..5 step up and 6 wraps. */
  function NextCounter(counter: nat): (n: nat)
    requires counter < |ProgressIndex|
    ensures n < |ProgressIndex| && n == (counter + 1) % |ProgressIndex|
  {
    if counter < 6 then counter + 1 else 0
  }

  class FuelCellDisplay {
    var screen: map<(int, int), Cell>

    /** The display after `clear()`. */
    constructor ()
      ensures screen == map[]
    {
      screen := map[];
    }

    /** `__update(text, ptr)`: the text is written from the cursor and
        returned. */
    method Update(text: string, col: int, row: int) returns (r: string)
      modifies this
      ensures r == text && screen == WriteAt(old(screen), text, col, row)
      ensures Shows(text, col, row) && Kept(old(screen), row, col, col + |text|)
    {
      screen := WriteAt(screen, text, col, row);
      r := text;
    }

    /** `__update(symbol, ptr, index)` with index >= 0: the custom bitmap is
        put at the cursor; the symbol is returned. */
    method UpdateBitmap(symbol: string, col: int, row: int, index: nat) returns (r: string)
      modifies this
      ensures r == symbol && screen == old(screen)[(col, row) := Bitmap(index)]
      ensures Kept(old(screen), row, col, col + 1)
    {
      screen := screen[(col, row) := Bitmap(index)];
      r := symbol;
    }

    /** The cells outside columns [lo, hi) of the row are as they were. */
    ghost predicate Kept(before: map<(int, int), Cell>, row: int, lo: int, hi: int)
      reads this
    {
      forall p: (int, int) :: p.1 != row || p.0 < lo || p.0 >= hi ==>
        (p in screen <==> p in before) && (p in screen ==> screen[p] == before[p])
    }

    /** The cells outside the field's footprint are as they were. */
    ghost predicate OthersKept(f: Field, before: map<(int, int), Cell>)
      reads this
    {
      forall p: (int, int) :: !InField(f, p) ==> (p in screen <==> p in before) && (p in screen ==> screen[p] == before[p])
    }

    /** The field text is shown from column col of row row. */
    ghost predicate Shows(text: string, col: int, row: int)
      reads this
    {
      forall c :: col <= c < col + |text| ==> (c, row) in screen && screen[(c, row)] == Char(text[c - col])
    }

    method SetName(text: string) returns (r: string)
      modifies this
      ensures r == SetText(text, 3) && Shows(r, Col(Name), Row(Name)) && OthersKept(Name, old(screen))
    {
      var t := SetText(text, 3);
      r := Update(t, 0, 0);
    }

    method SetState(text: string) returns (r: string)
      modifies this
      ensures r == SetText(text, 3) && Shows(r, Col(State), Row(State)) && OthersKept(State, old(screen))
    {
      var t := SetText(text, 3);
      r := Update(t, 4, 0);
    }

    /** `setTemp`: the temperature symbol at column 12 and the number
        before it. */
    method SetTemp(numstr: string) returns (r: string)
      modifies this
      ensures r == SetFloat(numstr, 4) && Shows(r, Col(Temp), Row(Temp)) && OthersKept(Temp, old(screen))
      ensures UnitCell(Temp) in screen && screen[UnitCell(Temp)] == Bitmap(TempSymbolIndex)
    {
      ghost var before := screen;
      var _ := UpdateBitmap("", 12, 0, TempSymbolIndex);
      ghost var mid := screen;
      var t := SetFloat(numstr, 4);
      r := Update(t, 8, 0);
      assert Kept(mid, 0, 8, 12);
    }

    method SetVolts(numstr: string) returns (r: string)
      modifies this
      ensures r == SetFloat(numstr, 4) && Shows(r, Col(Volts), Row(Volts)) && OthersKept(Volts, old(screen))
      ensures UnitCell(Volts) in screen && screen[UnitCell(Volts)] == Char('V')
    {
      var u := SetText("V", 1);
      assert u == "V";
      var _ := Update(u, 4, 1);
      ghost var mid := screen;
      var t := SetFloat(numstr, 4);
      r := Update(t, 0, 1);
      assert Kept(mid, 1, 0, 4);
    }

    method SetAmps(numstr: string) returns (r: string)
      modifies this
      ensures r == SetFloat(numstr, 4) && Shows(r, Col(Amps), Row(Amps)) && OthersKept(Amps, old(screen))
      ensures UnitCell(Amps) in screen && screen[UnitCell(Amps)] == Char('A')
    {
      var u := SetText("A", 1);
      assert u == "A";
      var _ := Update(u, 10, 1);
      ghost var mid := screen;
      var t := SetFloat(numstr, 4);
      r := Update(t, 6, 1);
      assert Kept(mid, 1, 6, 10);
    }
  }

  /** `steps` frames of the daemon's progress animation from counter 0: the
      bitmaps shown cycle through the seven bars in order. */
  method Animate(steps: nat) returns (shown: seq<nat>, counter: nat)
    ensures counter == steps % |ProgressIndex|
    ensures |shown| == steps && forall i :: 0 <= i < steps ==> shown[i] == ProgressIndex[i % |ProgressIndex|]
  {
    counter := 0;
    shown := [];
    var k := 0;
    while k < steps
      invariant k <= steps && counter == k % |ProgressIndex|
      invariant |shown| == k && forall i :: 0 <= i < k ==> shown[i] == ProgressIndex[i % |ProgressIndex|]
    {
      shown := shown + [ProgressIndex[counter]];
      if counter < 6 {
        counter := counter + 1;
      } else {
        counter := 0;
      }
      k := k + 1;
    }
  }
}
