/** Source texts and the position cursor that walks over them
    (minilang/utillities/code.py). */
module Code {

  datatype Option<+T> = None | Some(value: T)

  /** The string Python's lexer holds in `_char`: the empty string before the
      first advance, one character of the text, or `None` past its end. */
  datatype LexChar = Blank | Char(c: char) | Exhausted

  /** Python's normalisation of one slice bound against a length `n`:
      a negative bound counts from the end, then the bound is clamped to [0, n]. */
  function SliceIndex(i: int, n: nat): (r: nat)
    ensures r <= n
  {
    if i < 0 then (if i + n < 0 then 0 else i + n) else if i > n then n else i
  }

  /** Python's `s[lo:hi]`. */
  function PySlice(s: string, lo: int, hi: int): (r: string)
    ensures |r| <= |s|
    ensures 0 <= lo <= hi <= |s| ==> r == s[lo..hi]
    ensures SliceIndex(lo, |s|) >= SliceIndex(hi, |s|) ==> r == []
  {
    var a, b := SliceIndex(lo, |s|), SliceIndex(hi, |s|);
    if a < b then s[a..b] else []
  }

  /** The first index at or after `i` holding `c`, or -1. */
  function FindFrom(s: string, c: char, i: nat): (r: int)
    decreases |s| - i
    ensures r == -1 || (i <= r < |s| && s[r] == c)
    ensures forall j :: i <= j < |s| && (r == -1 || j < r) ==> s[j] != c
  {
    if i >= |s| then -1 else if s[i] == c then i else FindFrom(s, c, i + 1)
  }

  /** Python's `s.find(c, start)` for a one-character needle. */
  function Find(s: string, c: char, start: int): (r: int)
    ensures r == -1 || (SliceIndex(start, |s|) <= r < |s| && s[r] == c)
    ensures r == -1 <==> forall j :: SliceIndex(start, |s|) <= j < |s| ==> s[j] != c
    ensures forall j :: SliceIndex(start, |s|) <= j < |s| && (r == -1 || j < r) ==> s[j] != c
  {
    FindFrom(s, c, SliceIndex(start, |s|))
  }

  /** A file name and its text; `code == None` is a source that was never loaded. */
  datatype Source = Source(filename: string, code: Option<string>) {

    /** `loaded` */
    predicate Loaded() { code.Some? }

    /** `source[i]`: `None` when not loaded; Python's negative indices count from the end. */
    function CharAt(i: int): (r: Option<char>)
      requires Loaded() ==> -|code.value| <= i < |code.value|
      ensures r.Some? <==> Loaded()
      ensures Loaded() && 0 <= i ==> r.value == code.value[i]
      ensures Loaded() && i < 0 ==> r.value == code.value[|code.value| + i]
    {
      if code.None? then None
      else if i < 0 then Some(code.value[|code.value| + i])
      else Some(code.value[i])
    }

    /** `source[lo:hi]`: `None` when not loaded. */
    function Slice(lo: int, hi: int): (r: Option<string>)
      ensures r.Some? <==> Loaded()
      ensures Loaded() && 0 <= lo <= hi <= |code.value| ==> r.value == code.value[lo..hi]
      ensures Loaded() ==> |r.value| <= |code.value|
    {
      if code.None? then None else Some(PySlice(code.value, lo, hi))
    }
  }

  /** The value of a `SourceLocation`: index, `line_slice` bounds, line and column. */
  datatype Position = Position(index: int, lineStart: int, lineStop: int, line: int, column: int)

  /** What `SourceLocation.advance(char)` does to a location over `text`. */
  function Advanced(p: Position, ch: LexChar, text: string): Position
  {
    if ch == Char('\n') then
      Position(p.index + 1, p.index + 1, Find(text, '\n', p.index + 2), p.line + 1, 1)
    else
      p.(index := p.index + 1, column := p.column + 1)
  }

  class SourceLocation {
    var index: int
    var lineStart: int
    var lineStop: int
    var line: int
    var column: int
    const source: Source

    constructor (source: Source, lineStart: int, lineStop: int, index: int, line: int, column: int)
      ensures this.source == source
      ensures Value() == Position(index, lineStart, lineStop, line, column)
    {
      this.source := source;
      this.lineStart, this.lineStop := lineStart, lineStop;
      this.index, this.line, this.column := index, line, column;
    }

    function Value(): Position
      reads this
    {
      Position(index, lineStart, lineStop, line, column)
    }

    /** `source_line`: the source text over `line_slice`. */
    function SourceLine(): (r: Option<string>)
      reads this
      ensures r.Some? <==> source.Loaded()
      ensures source.Loaded() && 0 <= lineStart <= lineStop <= |source.code.value| ==>
                r.value == source.code.value[lineStart..lineStop]
    {
      source.Slice(lineStart, lineStop)
    }

    /** Consumes `char`, the character under the cursor. */
    method Advance(ch: LexChar)
      requires ch == Char('\n') ==> source.Loaded()
      modifies this
      ensures index == old(index) + 1
      ensures ch == Char('\n') ==>
                line == old(line) + 1 && column == 1 &&
                lineStart == index && lineStop == Find(source.code.value, '\n', index + 1)
      ensures ch != Char('\n') ==>
                column == old(column) + 1 &&
                line == old(line) && lineStart == old(lineStart) && lineStop == old(lineStop)
      ensures source.Loaded() ==> Value() == Advanced(old(Value()), ch, source.code.value)
    {
      index := index + 1;
      if ch == Char('\n') {
        var stop := Find(source.code.value, '\n', index + 1);
        lineStart, lineStop := index, stop;
        line := line + 1;
        column := 1;
      } else {
        column := column + 1;
      }
    }

    /** `copy()`: a new location with the same value over the same source. */
    method Copy() returns (c: SourceLocation)
      ensures fresh(c)
      ensures c.source == source && c.Value() == Value()
    {
      c := new SourceLocation(source, lineStart, lineStop, index, line, column);
    }
  }

  /** A copy and its original evolve independently: advancing the copy leaves the
      original as it was, and advancing the original afterwards leaves the copy
      at its own advanced value. */
  method CopyIsIndependent(loc: SourceLocation, a: LexChar, b: LexChar) returns (c: SourceLocation)
    requires loc.source.Loaded()
    modifies loc
    ensures fresh(c) && c.source == loc.source
    ensures c.Value() == Advanced(old(loc.Value()), b, loc.source.code.value)
    ensures loc.Value() == Advanced(old(loc.Value()), a, loc.source.code.value)
  {
    c := loc.Copy();
    c.Advance(b);
    assert loc.Value() == old(loc.Value());
    loc.Advance(a);
  }

  /** On the first line `line_slice` is (0, -1), and Python reads the stop -1
      from the end of the text, so `source_line` leaves out its last character. */
  lemma FirstSourceLine(loc: SourceLocation)
    requires loc.source.Loaded() && |loc.source.code.value| >= 1
    requires loc.lineStart == 0 && loc.lineStop == -1
    ensures var text := loc.source.code.value;
            loc.SourceLine() == Some(text[..|text| - 1])
  {
  }
}
