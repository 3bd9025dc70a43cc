/** The scanning procedures of minilang/lexing/core.py as functions of the text
    index they start from.

    The lexer's whole state is the index of its `SourceLocation`: the current
    character is `CurAt(text, k)` and the location's value is `PosAt(text, k)`.
    Each scan is therefore a function from a start index to the index it stops
    at and the token (or error) it produces. The imperative `Lexer` in module
    Lexing is proved to compute exactly these functions. */
module LexSpec {
  import opened Ascii
  import opened Code
  import opened LexConfig

  /** `Token`: a snapshot of the location where it starts and a half-open
      range `[lo, hi)` into the source (a Python slice, so -1 counts from the end). */
  datatype Token = Token(
    source: Source, loc: Position, kind: string, subkind: string,
    lo: int, hi: int, base: int, suffix: string)
  {
    /** `value`: the source text over the token's range. */
    function Value(): (r: Option<string>)
      ensures r.Some? <==> source.Loaded()
      ensures source.Loaded() && 0 <= lo <= hi <= |source.code.value| ==>
                r.value == source.code.value[lo..hi]
    {
      source.Slice(lo, hi)
    }
  }

  /** A token built without `base` or `suffix`, which default to 10 and ''. */
  function Plain(src: Source, loc: Position, kind: string, subkind: string, lo: int, hi: int): Token
  {
    Token(src, loc, kind, subkind, lo, hi, 10, "")
  }

  /** `UnexpectedCharError`, carrying the location, the character under the
      cursor and the hint (empty when none is given). `NoneLowered` is the
      `AttributeError` Python raises when a number's leading `0` is the last
      character of the text (`None.lower()`); gen_tokens does not catch it,
      so here it ends tokenization the same way an error does. `MissingBase`
      is the `KeyError` of the case-sensitive lookup `base[self._char]` when a
      base character matched only ignoring case, with the location of that
      character. */
  datatype LexError =
    | UnexpectedChar(loc: Position, ch: LexChar, hint: string)
    | NoneLowered(loc: Position)
    | MissingBase(loc: Position, key: char)

  /** What one scan procedure does: the token it emits (`None` for a
      suppressed comment) and the index where the cursor stops, or an error. */
  datatype Scan = Scanned(token: Option<Token>, next: int) | Failed(error: LexError)

  // ---------------------------------------------------------------------------
  // The cursor

  /** The lexer's `_char` when its location is at index `k`. */
  function CurAt(text: string, k: int): LexChar
  {
    if k == -1 then Blank else if 0 <= k < |text| then Char(text[k]) else Exhausted
  }

  /** The lexer's starting location: index -1, `line_slice` (0, -1), line 1, column 1. */
  const Start := Position(-1, 0, -1, 1, 1)

  /** The lexer's location after advancing from the start to index `k`. */
  function PosAt(text: string, k: int): (p: Position)
    requires k >= -1
    decreases k + 1
    ensures p.index == k
    ensures p.line >= 1
  {
    if k == -1 then Start else Advanced(PosAt(text, k - 1), CurAt(text, k - 1), text)
  }

  /** The number of newlines among the characters before index `k`. */
  function NewlinesBefore(text: string, k: int): (n: nat)
    decreases k
  {
    if k <= 0 then 0
    else NewlinesBefore(text, k - 1) + (if k - 1 < |text| && text[k - 1] == '\n' then 1 else 0)
  }

  /** On the first line the column is the index plus two: the priming advance
      over the empty string moves from index -1 to 0 and already counts a column. */
  lemma {:induction false} PositionOnFirstLine(text: string, k: int)
    requires k >= -1
    requires forall i :: 0 <= i < k && i < |text| ==> text[i] != '\n'
    ensures PosAt(text, k) == Position(k, 0, -1, 1, if k == -1 then 1 else k + 2)
  {
    if k >= 0 {
      PositionOnFirstLine(text, k - 1);
    }
  }

  /** After a newline at index `j`, the line counts every newline so far, the
      column is the distance from it, `line_slice` starts just past it and
      stops at the next newline found from `j + 2` (or -1). */
  lemma {:induction false} PositionAfterNewline(text: string, j: int, k: int)
    requires 0 <= j < k && j < |text| && text[j] == '\n'
    requires forall i :: j < i < k && i < |text| ==> text[i] != '\n'
    ensures PosAt(text, k) ==
              Position(k, j + 1, Find(text, '\n', j + 2), 1 + NewlinesBefore(text, k), k - j)
  {
    if k == j + 1 {
      PositionLine(text, j);
    } else {
      PositionAfterNewline(text, j, k - 1);
    }
  }

  /** The line is one more than the number of newlines consumed. */
  lemma {:induction false} PositionLine(text: string, k: int)
    requires k >= -1
    ensures PosAt(text, k).line == 1 + NewlinesBefore(text, k)
  {
    if k >= 0 {
      PositionLine(text, k - 1);
    }
  }

  // ---------------------------------------------------------------------------
  // Strings

  /** The loop of `_scan_string` from index `j`: the index where the cursor
      stops and whether the closing quote `q` was found. */
  function StringTail(cfg: Config, text: string, q: char, j: int): (r: (int, bool))
    requires 0 <= j <= |text| + 1
    decreases |text| - j
    ensures j <= r.0 <= |text| + 1
    ensures r.1 ==> j < r.0 <= |text| && text[r.0 - 1] == q
    ensures !r.1 ==> r.0 >= |text|
    ensures j < |text| && text[j] == cfg.escapeMark && r.1 ==> r.0 > j + 2
  {
    if j >= |text| then (j, false)
    else if text[j] == cfg.escapeMark then StringTail(cfg, text, q, j + 2)
    else if text[j] == q then (j + 1, true)
    else StringTail(cfg, text, q, j + 1)
  }

  /** One pass of the string loop at a character of the text. */
  lemma StringStep(cfg: Config, text: string, q: char, j: int)
    requires 0 <= j < |text|
    ensures StringTail(cfg, text, q, j) ==
              if text[j] == cfg.escapeMark then StringTail(cfg, text, q, j + 2)
              else if text[j] == q then (j + 1, true)
              else StringTail(cfg, text, q, j + 1)
  {
  }

  /** The string loop reads `text[a..c]` without closing: it splits into
      pairs of the escape mark `esc` and any character, and single characters
      that are neither the quote `q` nor the escape mark. */
  predicate Unescaped(text: string, q: char, esc: char, a: int, c: int)
    requires 0 <= a <= c <= |text|
    decreases c - a
  {
    a == c ||
    (text[a] == esc && a + 2 <= c && Unescaped(text, q, esc, a + 2, c)) ||
    (text[a] != esc && text[a] != q && Unescaped(text, q, esc, a + 1, c))
  }

  /** The string loop closes exactly at the first quote that no escape mark
      consumes: it closes only after such a quote, and whenever the text from
      `j` holds one at `c`, it stops just past `c`. */
  lemma {:induction false} StringTailCloses(cfg: Config, text: string, q: char, j: int)
    requires 0 <= j <= |text| + 1
    decreases |text| - j
    ensures var r := StringTail(cfg, text, q, j);
            r.1 ==> q != cfg.escapeMark && j < r.0 && Unescaped(text, q, cfg.escapeMark, j, r.0 - 1)
    ensures forall c :: j <= c < |text| && text[c] == q && q != cfg.escapeMark &&
                        Unescaped(text, q, cfg.escapeMark, j, c) ==>
                          StringTail(cfg, text, q, j) == (c + 1, true)
  {
    var esc := cfg.escapeMark;
    if j < |text| {
      if text[j] == esc {
        StringTailCloses(cfg, text, q, j + 2);
        forall c | j <= c < |text| && text[c] == q && q != esc && Unescaped(text, q, esc, j, c)
          ensures StringTail(cfg, text, q, j) == (c + 1, true)
        {
          assert c != j && Unescaped(text, q, esc, j + 2, c);
        }
      } else if text[j] == q {
        forall c | j <= c < |text| && text[c] == q && q != esc && Unescaped(text, q, esc, j, c)
          ensures c == j
        {
        }
      } else {
        StringTailCloses(cfg, text, q, j + 1);
        forall c | j <= c < |text| && text[c] == q && q != esc && Unescaped(text, q, esc, j, c)
          ensures StringTail(cfg, text, q, j) == (c + 1, true)
        {
          assert c != j && Unescaped(text, q, esc, j + 1, c);
        }
      }
    }
  }

  /** The string opened by the quote at `k` is closed by the quote at `c`:
      the same quote character, not the escape mark, and everything between
      them read without closing. */
  predicate Closes(cfg: Config, text: string, k: int, c: int)
    requires 0 <= k < c < |text|
  {
    text[c] == text[k] && text[c] != cfg.escapeMark &&
    Unescaped(text, text[k], cfg.escapeMark, k + 1, c)
  }

  /** `_scan_string` at the opening quote `text[k]`. A closed string's range
      runs from the opening quote to just past the closing one; an unterminated
      string's range is empty, because `end` is still the start location. */
  function ScanString(cfg: Config, src: Source, k: int): (r: Scan)
    requires src.Loaded()
    requires 0 <= k < |src.code.value| && src.code.value[k] in cfg.quotes
    ensures r.Scanned? && r.token.Some?
    ensures var t, text := r.token.value, src.code.value;
            t.loc == PosAt(text, k) && t.kind == cfg.kinds.str &&
            t.subkind == cfg.quotes[text[k]] && t.lo == k && k < r.next <= |text| + 1 &&
            ((k + 2 <= r.next <= |text| && text[r.next - 1] == text[k] && t.hi == r.next) ||
             (|text| <= r.next && t.hi == k))
  {
    var text := src.code.value;
    var (e, closed) := StringTail(cfg, text, text[k], k + 1);
    Scanned(Some(Plain(src, PosAt(text, k), cfg.kinds.str, cfg.quotes[text[k]],
                       k, if closed then e else k)), e)
  }

  /** A string closes at the first quote that closes it: then its range and
      the cursor stop just past that quote. Without one the cursor runs to
      the end of the text and the range is empty. */
  lemma ScanStringCloses(cfg: Config, src: Source, k: int)
    requires src.Loaded()
    requires 0 <= k < |src.code.value| && src.code.value[k] in cfg.quotes
    ensures var r, text := ScanString(cfg, src, k), src.code.value;
            r.token.value.hi == k ||
            (k < r.next - 1 < |text| && Closes(cfg, text, k, r.next - 1) && r.token.value.hi == r.next)
    ensures var r, text := ScanString(cfg, src, k), src.code.value;
            forall c :: k < c < |text| && Closes(cfg, text, k, c) ==>
                          r.token.value.hi == c + 1 && r.next == c + 1
    ensures var r, text := ScanString(cfg, src, k), src.code.value;
            (forall c :: k < c < |text| ==> !Closes(cfg, text, k, c)) ==>
              r.token.value.hi == k && |text| <= r.next
  {
    StringTailCloses(cfg, src.code.value, src.code.value[k], k + 1);
  }

  // ---------------------------------------------------------------------------
  // Numbers

  /** The local variables of `_scan_number` (the string `number` it also
      accumulates is never read, so it is not kept). */
  datatype NumState = NumState(
    idx: int, digits: string, subkind: string, base: int,
    hasDecimal: bool, hasOtherBase: bool, suffix: string)

  datatype NumScan = NumDone(end: int, st: NumState) | NumError(error: LexError)

  /** True when `c` ends a number without being consumed. */
  predicate EndsNumber(cfg: Config, c: char) {
    c in cfg.whitespaceChars || c in cfg.delimiterChars || c in cfg.operatorChars
  }

  /** One pass of the loop of `_scan_number` from index `j`, starting with the
      leading-zero test. */
  function NumberTail(cfg: Config, text: string, j: int, st: NumState): (r: NumScan)
    requires 0 <= j <= |text|
    decreases |text| - j, 1
    ensures r.NumDone? ==> j <= r.end <= |text|
  {
    if j >= |text| then NumDone(j, st)
    else if st.idx == 0 && text[j] == '0' then
      var st1 := st.(idx := st.idx + 1);
      if j + 1 >= |text| then NumError(NoneLowered(PosAt(text, j + 1)))
      else if InIgnoringCase(text[j + 1], cfg.baseChars) then
        if text[j + 1] !in cfg.bases then NumError(MissingBase(PosAt(text, j + 1), text[j + 1]))
        else
          var b := cfg.bases[text[j + 1]];
          NumberTail(cfg, text, j + 2,
            st1.(digits := b.digits, subkind := b.subkind, base := |b.digits|,
                 hasOtherBase := true, idx := st1.idx + 1))
      else NumberStep(cfg, text, j + 1, st1)
    else NumberStep(cfg, text, j, st)
  }

  /** The character tests of `_scan_number` at index `j`. */
  function NumberStep(cfg: Config, text: string, j: int, st: NumState): (r: NumScan)
    requires 0 <= j < |text|
    decreases |text| - j, 0
    ensures r.NumDone? ==> j <= r.end <= |text|
  {
    var c := text[j];
    if InIgnoringCase(c, st.digits) then
      NumberTail(cfg, text, j + 1, st.(idx := st.idx + 1))
    else if IsSeparator(cfg, c) then
      NumberTail(cfg, text, j + 1, st.(idx := st.idx + 1))
    else if c == '.' then
      if st.hasOtherBase || st.hasDecimal then NumError(UnexpectedChar(PosAt(text, j), Char(c), ""))
      else NumberTail(cfg, text, j + 1, st.(hasDecimal := true, subkind := "FLOAT", idx := st.idx + 1))
    else if IsAlpha(c) && !st.hasOtherBase then
      NumberTail(cfg, text, j + 1, st.(idx := st.idx + 1, suffix := st.suffix + [c]))
    else if EndsNumber(cfg, c) then NumDone(j, st)
    else NumError(UnexpectedChar(PosAt(text, j), Char(c), ""))
  }

  /** Where a number ends: the loop stops only at the end of the text or at a
      character that ends a number, and it consumes a digit of the current
      alphabet; the suffix only grows, by letters (which letters is
      NumberDecimalSuffix). */
  lemma {:induction false} NumberTailEnds(cfg: Config, text: string, j: int, st: NumState)
    requires 0 <= j <= |text|
    decreases |text| - j, 1
    ensures var r := NumberTail(cfg, text, j, st);
            r.NumDone? ==> r.end == |text| || EndsNumber(cfg, text[r.end])
    ensures var r := NumberTail(cfg, text, j, st);
            r.NumDone? && j < |text| && InIgnoringCase(text[j], st.digits) ==> j < r.end
    ensures var r := NumberTail(cfg, text, j, st);
            r.NumDone? ==> st.suffix <= r.st.suffix &&
                           forall i :: |st.suffix| <= i < |r.st.suffix| ==> IsAlpha(r.st.suffix[i])
  {
    if j < |text| {
      if st.idx == 0 && text[j] == '0' {
        var st1 := st.(idx := st.idx + 1);
        if j + 1 < |text| {
          if !InIgnoringCase(text[j + 1], cfg.baseChars) {
            NumberStepEnds(cfg, text, j + 1, st1);
          } else if text[j + 1] in cfg.bases {
            var b := cfg.bases[text[j + 1]];
            NumberTailEnds(cfg, text, j + 2,
              st1.(digits := b.digits, subkind := b.subkind, base := |b.digits|,
                   hasOtherBase := true, idx := st1.idx + 1));
          }
        }
      } else {
        NumberStepEnds(cfg, text, j, st);
      }
    }
  }

  lemma {:induction false} NumberStepEnds(cfg: Config, text: string, j: int, st: NumState)
    requires 0 <= j < |text|
    decreases |text| - j, 0
    ensures var r := NumberStep(cfg, text, j, st);
            r.NumDone? ==> r.end == |text| || EndsNumber(cfg, text[r.end])
    ensures var r := NumberStep(cfg, text, j, st);
            r.NumDone? && InIgnoringCase(text[j], st.digits) ==> j < r.end
    ensures var r := NumberStep(cfg, text, j, st);
            r.NumDone? ==> st.suffix <= r.st.suffix &&
                           forall i :: |st.suffix| <= i < |r.st.suffix| ==> IsAlpha(r.st.suffix[i])
  {
    var c := text[j];
    if InIgnoringCase(c, st.digits) || IsSeparator(cfg, c) {
      NumberTailEnds(cfg, text, j + 1, st.(idx := st.idx + 1));
    } else if c == '.' {
      if !(st.hasOtherBase || st.hasDecimal) {
        NumberTailEnds(cfg, text, j + 1, st.(hasDecimal := true, subkind := "FLOAT", idx := st.idx + 1));
      }
    } else if IsAlpha(c) && !st.hasOtherBase {
      var st' := st.(idx := st.idx + 1, suffix := st.suffix + [c]);
      NumberTailEnds(cfg, text, j + 1, st');
      var r := NumberTail(cfg, text, j + 1, st');
      assert r.NumDone? ==> r.st.suffix[|st.suffix|] == c;
    }
  }

  /** The leading-zero test of one pass of the number loop. */
  lemma NumberTailZero(cfg: Config, text: string, j: int, st: NumState)
    requires 0 <= j < |text|
    ensures NumberTail(cfg, text, j, st) ==
              if !(st.idx == 0 && text[j] == '0') then NumberStep(cfg, text, j, st)
              else if j + 1 >= |text| then NumError(NoneLowered(PosAt(text, j + 1)))
              else if InIgnoringCase(text[j + 1], cfg.baseChars) then
                if text[j + 1] !in cfg.bases then NumError(MissingBase(PosAt(text, j + 1), text[j + 1]))
                else
                var b := cfg.bases[text[j + 1]];
                NumberTail(cfg, text, j + 2,
                  st.(digits := b.digits, subkind := b.subkind, base := |b.digits|,
                      hasOtherBase := true, idx := st.idx + 2))
              else NumberStep(cfg, text, j + 1, st.(idx := st.idx + 1))
  {
  }

  /** A digit of the current alphabet is consumed. */
  lemma NumberStepDigit(cfg: Config, text: string, j: int, st: NumState)
    requires 0 <= j < |text| && InIgnoringCase(text[j], st.digits)
    ensures NumberStep(cfg, text, j, st) == NumberTail(cfg, text, j + 1, st.(idx := st.idx + 1))
  {
  }

  /** The state `_scan_number` starts in. */
  function NumStart(cfg: Config): NumState
  {
    NumState(0, "0123456789", cfg.numberSubkind, 10, false, false, "")
  }

  /** `_scan_number` at the digit `text[k]`. */
  function ScanNumber(cfg: Config, src: Source, k: int): (r: Scan)
    requires src.Loaded()
    requires 0 <= k < |src.code.value|
    ensures r.Scanned? ==> r.token.Some? && k <= r.next <= |src.code.value|
    ensures r.Scanned? ==> var t := r.token.value;
              t.lo == k && t.hi == r.next && t.kind == cfg.kinds.number &&
              t.loc == PosAt(src.code.value, k) &&
              (forall i :: 0 <= i < |t.suffix| ==> IsAlpha(t.suffix[i]))
    ensures r.Scanned? ==>
              r.next == |src.code.value| || EndsNumber(cfg, src.code.value[r.next])
    ensures r.Scanned? && IsDigit(src.code.value[k]) ==> k < r.next
  {
    var text := src.code.value;
    DigitInDigits(text[k]);
    NumberTailEnds(cfg, text, k, NumStart(cfg));
    match NumberTail(cfg, text, k, NumStart(cfg))
    case NumDone(e, st) =>
      Scanned(Some(Token(src, PosAt(text, k), cfg.kinds.number, st.subkind, k, e, st.base, st.suffix)), e)
    case NumError(err) => Failed(err)
  }

  /** Once the leading-zero test is behind (`idx > 0`), the base, its digits and
      its subkind no longer change, no base switch happens, nothing joins the
      suffix in a non-default base, and a decimal point is admitted only in base
      ten, setting the subkind to "FLOAT". */
  lemma {:induction false} NumberTailKeepsBase(cfg: Config, text: string, j: int, st: NumState)
    requires 0 <= j <= |text| && st.idx > 0
    requires st.hasDecimal ==> !st.hasOtherBase && st.subkind == "FLOAT"
    ensures var r := NumberTail(cfg, text, j, st);
            r.NumDone? ==>
              r.st.hasOtherBase == st.hasOtherBase && r.st.base == st.base &&
              (st.hasOtherBase ==> r.st.subkind == st.subkind && r.st.digits == st.digits &&
                                   r.st.suffix == st.suffix && !r.st.hasDecimal) &&
              (st.hasDecimal ==> r.st.hasDecimal) &&
              (r.st.hasDecimal ==> !r.st.hasOtherBase && r.st.subkind == "FLOAT") &&
              (!r.st.hasDecimal ==> r.st.subkind == st.subkind)
    decreases |text| - j
  {
    if j < |text| {
      NumberStepKeepsBase(cfg, text, j, st);
    }
  }

  lemma {:induction false} NumberStepKeepsBase(cfg: Config, text: string, j: int, st: NumState)
    requires 0 <= j < |text| && st.idx > 0
    requires st.hasDecimal ==> !st.hasOtherBase && st.subkind == "FLOAT"
    ensures var r := NumberStep(cfg, text, j, st);
            r.NumDone? ==>
              r.st.hasOtherBase == st.hasOtherBase && r.st.base == st.base &&
              (st.hasOtherBase ==> r.st.subkind == st.subkind && r.st.digits == st.digits &&
                                   r.st.suffix == st.suffix && !r.st.hasDecimal) &&
              (st.hasDecimal ==> r.st.hasDecimal) &&
              (r.st.hasDecimal ==> !r.st.hasOtherBase && r.st.subkind == "FLOAT") &&
              (!r.st.hasDecimal ==> r.st.subkind == st.subkind)
    decreases |text| - j, 0
  {
    var c := text[j];
    if InIgnoringCase(c, st.digits) || IsSeparator(cfg, c) {
      NumberTailKeepsBase(cfg, text, j + 1, st.(idx := st.idx + 1));
    } else if c == '.' {
      if !(st.hasOtherBase || st.hasDecimal) {
        NumberTailKeepsBase(cfg, text, j + 1, st.(hasDecimal := true, subkind := "FLOAT", idx := st.idx + 1));
      }
    } else if IsAlpha(c) && !st.hasOtherBase {
      NumberTailKeepsBase(cfg, text, j + 1, st.(idx := st.idx + 1, suffix := st.suffix + [c]));
    }
  }

  /** A leading `0` followed by a base character (compared case-insensitively)
      switches to that base's digit alphabet: the token's base is the length of
      the alphabet, its subkind is the table's, and it has no suffix. When the
      table has no entry for the character as written, the lookup fails there. */
  lemma NumberBaseSwitch(cfg: Config, src: Source, k: int)
    requires src.Loaded()
    requires 0 <= k && k + 1 < |src.code.value| && src.code.value[k] == '0'
    requires InIgnoringCase(src.code.value[k + 1], cfg.baseChars)
    ensures var r, text := ScanNumber(cfg, src, k), src.code.value;
            text[k + 1] !in cfg.bases ==>
              r == Failed(MissingBase(PosAt(text, k + 1), text[k + 1]))
    ensures var r, text := ScanNumber(cfg, src, k), src.code.value;
            r.Scanned? ==>
              text[k + 1] in cfg.bases &&
              r.token.value.base == |cfg.bases[text[k + 1]].digits| &&
              r.token.value.subkind == cfg.bases[text[k + 1]].subkind &&
              r.token.value.suffix == ""
  {
    var text := src.code.value;
    if text[k + 1] in cfg.bases {
      var b := cfg.bases[text[k + 1]];
      var st := NumStart(cfg);
      var st2 := st.(idx := 1).(digits := b.digits, subkind := b.subkind, base := |b.digits|,
                                 hasOtherBase := true, idx := 2);
      assert NumberTail(cfg, text, k, st) == NumberTail(cfg, text, k + 2, st2);
      NumberTailKeepsBase(cfg, text, k + 2, st2);
    }
  }

  /** The number loop entered in base ten, before any decimal point, at a
      character other than a leading zero. */
  lemma NumberStepFromStart(cfg: Config, text: string, j: int, st: NumState)
    requires 0 <= j < |text| && st.idx >= 0
    requires st.base == 10 && !st.hasOtherBase && !st.hasDecimal && st.subkind == cfg.numberSubkind
    requires st.idx == 0 ==> text[j] != '0'
    ensures var r := NumberStep(cfg, text, j, st);
            r.NumDone? ==> r.st.base == 10 &&
                           (r.st.subkind == "FLOAT" || r.st.subkind == cfg.numberSubkind)
  {
    var c := text[j];
    if InIgnoringCase(c, st.digits) || IsSeparator(cfg, c) {
      NumberTailKeepsBase(cfg, text, j + 1, st.(idx := st.idx + 1));
    } else if c == '.' {
      NumberTailKeepsBase(cfg, text, j + 1, st.(hasDecimal := true, subkind := "FLOAT", idx := st.idx + 1));
    } else if IsAlpha(c) {
      NumberTailKeepsBase(cfg, text, j + 1, st.(idx := st.idx + 1, suffix := st.suffix + [c]));
    }
  }

  /** Without a base switch a number is in base ten, and its subkind is either
      "FLOAT" (a decimal point was read) or the configured default. */
  lemma NumberDefaultBase(cfg: Config, src: Source, k: int)
    requires src.Loaded()
    requires 0 <= k < |src.code.value|
    requires !(src.code.value[k] == '0' && k + 1 < |src.code.value| &&
               InIgnoringCase(src.code.value[k + 1], cfg.baseChars))
    ensures var r := ScanNumber(cfg, src, k);
            r.Scanned? ==>
              r.token.value.base == 10 &&
              (r.token.value.subkind == "FLOAT" || r.token.value.subkind == cfg.numberSubkind)
  {
    var text := src.code.value;
    if text[k] == '0' {
      if k + 1 < |text| {
        NumberStepFromStart(cfg, text, k + 1, NumStart(cfg).(idx := 1));
      }
    } else {
      NumberStepFromStart(cfg, text, k, NumStart(cfg));
    }
  }

  /** The decimal point is never the separator, a base character or a digit
      of any base, so it is only ever consumed as a decimal point. */
  predicate PointIsDecimal(cfg: Config) {
    !IsSeparator(cfg, '.') && !InIgnoringCase('.', cfg.baseChars) &&
    forall c :: c in cfg.bases ==> !InIgnoringCase('.', cfg.bases[c].digits)
  }

  /** What the loop of `_scan_number` reading `text[j..e]` from state `st` to
      `st'` did with decimal points: none once a point was read or a base was
      switched, never two, and a point leaves the subkind "FLOAT". */
  predicate PointsRead(text: string, j: int, e: int, st: NumState, st': NumState)
    requires 0 <= j <= e <= |text|
  {
    (st.hasDecimal ==> st'.hasDecimal) &&
    (st'.hasDecimal ==> st'.subkind == "FLOAT") &&
    (st.hasDecimal || st.hasOtherBase ==> forall i :: j <= i < e ==> text[i] != '.') &&
    (forall i :: j <= i < e && text[i] == '.' ==> st'.hasDecimal) &&
    (forall i, l :: j <= i < l < e && text[i] == '.' ==> text[l] != '.')
  }

  lemma {:induction false} NumberTailPoints(cfg: Config, text: string, j: int, st: NumState)
    requires 0 <= j <= |text| && PointIsDecimal(cfg)
    requires !InIgnoringCase('.', st.digits) && st.idx >= 0
    requires st.hasDecimal ==> st.idx > 0 && st.subkind == "FLOAT"
    decreases |text| - j, 1
    ensures var r := NumberTail(cfg, text, j, st);
            r.NumDone? ==> PointsRead(text, j, r.end, st, r.st)
  {
    if j < |text| {
      if st.idx == 0 && text[j] == '0' {
        var st1 := st.(idx := st.idx + 1);
        if j + 1 < |text| {
          if !InIgnoringCase(text[j + 1], cfg.baseChars) {
            NumberStepPoints(cfg, text, j + 1, st1);
          } else if text[j + 1] in cfg.bases {
            var b := cfg.bases[text[j + 1]];
            NumberTailPoints(cfg, text, j + 2,
              st1.(digits := b.digits, subkind := b.subkind, base := |b.digits|,
                   hasOtherBase := true, idx := st1.idx + 1));
          }
        }
      } else {
        NumberStepPoints(cfg, text, j, st);
      }
    }
  }

  lemma {:induction false} NumberStepPoints(cfg: Config, text: string, j: int, st: NumState)
    requires 0 <= j < |text| && PointIsDecimal(cfg)
    requires !InIgnoringCase('.', st.digits) && st.idx >= 0
    requires st.hasDecimal ==> st.idx > 0 && st.subkind == "FLOAT"
    decreases |text| - j, 0
    ensures var r := NumberStep(cfg, text, j, st);
            r.NumDone? ==> PointsRead(text, j, r.end, st, r.st)
  {
    var c := text[j];
    if InIgnoringCase(c, st.digits) || IsSeparator(cfg, c) {
      NumberTailPoints(cfg, text, j + 1, st.(idx := st.idx + 1));
    } else if c == '.' {
      if !(st.hasOtherBase || st.hasDecimal) {
        NumberTailPoints(cfg, text, j + 1, st.(hasDecimal := true, subkind := "FLOAT", idx := st.idx + 1));
      }
    } else if IsAlpha(c) && !st.hasOtherBase {
      NumberTailPoints(cfg, text, j + 1, st.(idx := st.idx + 1, suffix := st.suffix + [c]));
    }
  }

  /** The result of `_scan_number` in terms of its loop. */
  lemma ScanNumberLoop(cfg: Config, src: Source, k: int)
    requires src.Loaded()
    requires 0 <= k < |src.code.value|
    ensures var r, text := NumberTail(cfg, src.code.value, k, NumStart(cfg)), src.code.value;
            r.NumDone? ==>
              ScanNumber(cfg, src, k) ==
              Scanned(Some(Token(src, PosAt(text, k), cfg.kinds.number, r.st.subkind, k, r.end,
                                 r.st.base, r.st.suffix)), r.end)
  {
  }

  /** A number token holds at most one decimal point, and a number with a
      point has the subkind "FLOAT". */
  lemma NumberPoints(cfg: Config, src: Source, k: int)
    requires src.Loaded() && PointIsDecimal(cfg)
    requires 0 <= k < |src.code.value|
    ensures var r, text := ScanNumber(cfg, src, k), src.code.value;
            r.Scanned? ==>
              (forall i, l :: k <= i < l < r.next && text[i] == '.' ==> text[l] != '.') &&
              (forall i :: k <= i < r.next && text[i] == '.' ==> r.token.value.subkind == "FLOAT")
  {
    PointNotDecimalDigit();
    NumberTailPoints(cfg, src.code.value, k, NumStart(cfg));
    ScanNumberLoop(cfg, src, k);
  }

  /** A number that starts with a base prefix holds no decimal point. */
  lemma NumberPrefixNoPoint(cfg: Config, src: Source, k: int)
    requires src.Loaded() && PointIsDecimal(cfg)
    requires 0 <= k && k + 1 < |src.code.value| && src.code.value[k] == '0'
    requires InIgnoringCase(src.code.value[k + 1], cfg.baseChars)
    ensures var r, text := ScanNumber(cfg, src, k), src.code.value;
            r.Scanned? ==> forall i :: k <= i < r.next ==> text[i] != '.'
  {
    var text, st0 := src.code.value, NumStart(cfg);
    NumberTailZero(cfg, text, k, st0);
    if text[k + 1] in cfg.bases {
      var b := cfg.bases[text[k + 1]];
      var st2 := st0.(digits := b.digits, subkind := b.subkind, base := |b.digits|,
                      hasOtherBase := true, idx := 2);
      NumberTailPoints(cfg, text, k + 2, st2);
      ScanNumberLoop(cfg, src, k);
    }
  }

  /** The letters of `s` a base-ten number puts into its suffix, in order:
      every letter that is not the separator. (The separator test comes
      first, and no letter is a decimal digit.) */
  function SuffixLetters(cfg: Config, s: string): string
  {
    if s == [] then []
    else (if IsAlpha(s[0]) && !IsSeparator(cfg, s[0]) then [s[0]] else []) + SuffixLetters(cfg, s[1..])
  }

  lemma SuffixLettersCons(cfg: Config, text: string, j: int, e: int)
    requires 0 <= j < e <= |text|
    ensures SuffixLetters(cfg, text[j..e]) ==
              (if IsAlpha(text[j]) && !IsSeparator(cfg, text[j]) then [text[j]] else []) +
              SuffixLetters(cfg, text[j + 1..e])
  {
    assert text[j..e][1..] == text[j + 1..e];
  }

  /** Without a base prefix, the loop appends to the suffix exactly the
      letters it reads that are not the separator, in the order read. */
  lemma {:induction false} NumberTailSuffix(cfg: Config, text: string, j: int, st: NumState)
    requires 0 <= j <= |text| && st.idx > 0 && !st.hasOtherBase && NoLetters(st.digits)
    decreases |text| - j, 1
    ensures var r := NumberTail(cfg, text, j, st);
            r.NumDone? ==> r.st.suffix == st.suffix + SuffixLetters(cfg, text[j..r.end])
  {
    if j < |text| {
      NumberStepSuffix(cfg, text, j, st);
    }
  }

  lemma {:induction false} NumberStepSuffix(cfg: Config, text: string, j: int, st: NumState)
    requires 0 <= j < |text| && st.idx >= 0 && !st.hasOtherBase && NoLetters(st.digits)
    decreases |text| - j, 0
    ensures var r := NumberStep(cfg, text, j, st);
            r.NumDone? ==> r.st.suffix == st.suffix + SuffixLetters(cfg, text[j..r.end])
  {
    var c := text[j];
    if IsAlpha(c) {
      LetterNotIn(c, st.digits);
    }
    if InIgnoringCase(c, st.digits) || IsSeparator(cfg, c) {
      SuffixAfterStep(cfg, text, j, st, st.(idx := st.idx + 1));
    } else if c == '.' {
      if !st.hasDecimal {
        SuffixAfterStep(cfg, text, j, st, st.(hasDecimal := true, subkind := "FLOAT", idx := st.idx + 1));
      }
    } else if IsAlpha(c) {
      SuffixAfterStep(cfg, text, j, st, st.(idx := st.idx + 1, suffix := st.suffix + [c]));
    } else if EndsNumber(cfg, c) {
      assert text[j..j] == [];
    }
  }

  /** One consumed character `text[j]`: the suffix gained it exactly when it
      is a letter other than the separator. */
  lemma {:induction false} SuffixAfterStep(cfg: Config, text: string, j: int, st: NumState, st1: NumState)
    requires 0 <= j < |text| && st1.idx > 0 && !st1.hasOtherBase && NoLetters(st1.digits)
    requires NumberStep(cfg, text, j, st) == NumberTail(cfg, text, j + 1, st1)
    requires st1.suffix ==
               st.suffix + (if IsAlpha(text[j]) && !IsSeparator(cfg, text[j]) then [text[j]] else [])
    decreases |text| - j, 0, 0
    ensures var r := NumberStep(cfg, text, j, st);
            r.NumDone? ==> r.st.suffix == st.suffix + SuffixLetters(cfg, text[j..r.end])
  {
    NumberTailSuffix(cfg, text, j + 1, st1);
    var r := NumberTail(cfg, text, j + 1, st1);
    if r.NumDone? {
      SuffixLettersCons(cfg, text, j, r.end);
    }
  }

  /** Without a base prefix, a number's suffix is exactly the letters of its
      text that are not the separator, in order: the letters after `12` in
      `12ab` give the suffix `ab`, and a separator letter joins nothing. */
  lemma NumberDecimalSuffix(cfg: Config, src: Source, k: int)
    requires src.Loaded()
    requires 0 <= k < |src.code.value|
    requires !(src.code.value[k] == '0' && k + 1 < |src.code.value| &&
               InIgnoringCase(src.code.value[k + 1], cfg.baseChars))
    ensures var r := ScanNumber(cfg, src, k);
            r.Scanned? ==> r.token.value.suffix == SuffixLetters(cfg, src.code.value[k..r.next])
  {
    DecimalNoLetters();
    SuffixFromStart(cfg, src.code.value, k, NumStart(cfg));
    ScanNumberLoop(cfg, src, k);
  }

  lemma SuffixFromStart(cfg: Config, text: string, k: int, st: NumState)
    requires 0 <= k < |text| && st.idx == 0 && st.suffix == ""
    requires !st.hasOtherBase && NoLetters(st.digits)
    requires !(text[k] == '0' && k + 1 < |text| && InIgnoringCase(text[k + 1], cfg.baseChars))
    ensures var r := NumberTail(cfg, text, k, st);
            r.NumDone? ==> r.st.suffix == SuffixLetters(cfg, text[k..r.end])
  {
    if text[k] == '0' {
      if k + 1 < |text| {
        var st1 := st.(idx := 1);
        assert NumberTail(cfg, text, k, st) == NumberStep(cfg, text, k + 1, st1);
        NumberStepSuffix(cfg, text, k + 1, st1);
        var r := NumberStep(cfg, text, k + 1, st1);
        if r.NumDone? {
          SuffixLettersCons(cfg, text, k, r.end);
        }
      }
    } else {
      NumberStepSuffix(cfg, text, k, st);
    }
  }

  /** The characters a number in the alphabet `digits` is made of: a digit
      (compared ignoring case), the separator and, unless a base prefix was
      read, a decimal point or a suffix letter. */
  predicate NumberTakes(cfg: Config, digits: string, otherBase: bool, c: char) {
    InIgnoringCase(c, digits) || IsSeparator(cfg, c) || (!otherBase && (c == '.' || IsAlpha(c)))
  }

  /** `c` is the decimal point and is read as one (not as a digit or the separator). */
  predicate IsPoint(cfg: Config, digits: string, c: char) {
    c == '.' && !InIgnoringCase(c, digits) && !IsSeparator(cfg, c)
  }

  /** `c` is not part of a number and does not end one either; a point a
      number cannot take is always an error. */
  predicate NumberRejects(cfg: Config, digits: string, otherBase: bool, c: char) {
    !NumberTakes(cfg, digits, otherBase, c) && (c == '.' || !EndsNumber(cfg, c))
  }

  /** Reading `text[j..f]` breaks nothing: every character can be taken, no
      two decimal points occur, and none at all once a point was read. */
  predicate NumberReadsTo(cfg: Config, text: string, digits: string, otherBase: bool,
                          hadPoint: bool, j: int, f: int)
    requires 0 <= j <= f <= |text|
  {
    (forall i :: j <= i < f ==> NumberTakes(cfg, digits, otherBase, text[i])) &&
    (forall i, l :: j <= i < l < f && IsPoint(cfg, digits, text[i]) ==> !IsPoint(cfg, digits, text[l])) &&
    (hadPoint ==> forall i :: j <= i < f ==> !IsPoint(cfg, digits, text[i]))
  }

  /** The number read from `j` breaks at `f`: the character there is
      rejected, or it is a second decimal point. */
  predicate NumberBreaks(cfg: Config, text: string, digits: string, otherBase: bool,
                         hadPoint: bool, j: int, f: int)
    requires 0 <= j <= f < |text|
  {
    NumberRejects(cfg, digits, otherBase, text[f]) ||
    (IsPoint(cfg, digits, text[f]) &&
     (hadPoint || exists i :: j <= i < f && IsPoint(cfg, digits, text[i])))
  }

  /** After the leading-zero test, a number that ends normally consumed only
      characters it can take. */
  lemma {:induction false} NumberTailTakes(cfg: Config, text: string, j: int, st: NumState)
    requires 0 <= j <= |text| && st.idx > 0
    decreases |text| - j, 1
    ensures var r := NumberTail(cfg, text, j, st);
            r.NumDone? ==> forall i :: j <= i < r.end ==> NumberTakes(cfg, st.digits, st.hasOtherBase, text[i])
  {
    if j < |text| {
      NumberStepTakes(cfg, text, j, st);
    }
  }

  lemma {:induction false} NumberStepTakes(cfg: Config, text: string, j: int, st: NumState)
    requires 0 <= j < |text| && st.idx >= 0
    decreases |text| - j, 0
    ensures var r := NumberStep(cfg, text, j, st);
            r.NumDone? ==> forall i :: j <= i < r.end ==> NumberTakes(cfg, st.digits, st.hasOtherBase, text[i])
  {
    var c := text[j];
    if InIgnoringCase(c, st.digits) || IsSeparator(cfg, c) {
      NumberTailTakes(cfg, text, j + 1, st.(idx := st.idx + 1));
    } else if c == '.' {
      if !(st.hasOtherBase || st.hasDecimal) {
        NumberTailTakes(cfg, text, j + 1, st.(hasDecimal := true, subkind := "FLOAT", idx := st.idx + 1));
      }
    } else if IsAlpha(c) && !st.hasOtherBase {
      NumberTailTakes(cfg, text, j + 1, st.(idx := st.idx + 1, suffix := st.suffix + [c]));
    }
  }

  /** After the leading-zero test, the number loop fails exactly at the first
      place `f` where the number breaks, with the character found there. */
  lemma {:induction false} NumberTailFails(cfg: Config, text: string, j: int, st: NumState, f: int)
    requires 0 <= j <= f < |text| && st.idx > 0
    requires NumberReadsTo(cfg, text, st.digits, st.hasOtherBase, st.hasDecimal, j, f)
    requires NumberBreaks(cfg, text, st.digits, st.hasOtherBase, st.hasDecimal, j, f)
    decreases |text| - j, 1
    ensures NumberTail(cfg, text, j, st) == NumError(UnexpectedChar(PosAt(text, f), Char(text[f]), ""))
  {
    NumberStepFails(cfg, text, j, st, f);
  }

  lemma {:induction false} NumberStepFails(cfg: Config, text: string, j: int, st: NumState, f: int)
    requires 0 <= j <= f < |text| && st.idx >= 0
    requires NumberReadsTo(cfg, text, st.digits, st.hasOtherBase, st.hasDecimal, j, f)
    requires NumberBreaks(cfg, text, st.digits, st.hasOtherBase, st.hasDecimal, j, f)
    decreases |text| - j, 0
    ensures NumberStep(cfg, text, j, st) == NumError(UnexpectedChar(PosAt(text, f), Char(text[f]), ""))
  {
    var c := text[j];
    if j < f {
      assert NumberTakes(cfg, st.digits, st.hasOtherBase, c);
      if InIgnoringCase(c, st.digits) || IsSeparator(cfg, c) {
        var st' := st.(idx := st.idx + 1);
        if exists i :: j <= i < f && IsPoint(cfg, st.digits, text[i]) {
          var i :| j <= i < f && IsPoint(cfg, st.digits, text[i]);
          assert j + 1 <= i;
        }
        NumberTailFails(cfg, text, j + 1, st', f);
      } else if c == '.' {
        assert IsPoint(cfg, st.digits, text[j]);
        var st' := st.(hasDecimal := true, subkind := "FLOAT", idx := st.idx + 1);
        NumberTailFails(cfg, text, j + 1, st', f);
      } else {
        var st' := st.(idx := st.idx + 1, suffix := st.suffix + [c]);
        if exists i :: j <= i < f && IsPoint(cfg, st.digits, text[i]) {
          var i :| j <= i < f && IsPoint(cfg, st.digits, text[i]);
          assert j + 1 <= i;
        }
        NumberTailFails(cfg, text, j + 1, st', f);
      }
    }
  }

  /** A number without a base prefix consumes only characters of a base-ten
      number, and fails exactly at the first place it breaks. */
  lemma NumberDecimalTakes(cfg: Config, src: Source, k: int)
    requires src.Loaded() && 0 <= k < |src.code.value|
    requires !(src.code.value[k] == '0' && k + 1 < |src.code.value| &&
               InIgnoringCase(src.code.value[k + 1], cfg.baseChars))
    ensures var r, text := ScanNumber(cfg, src, k), src.code.value;
            r.Scanned? ==> forall i :: k <= i < r.next ==> NumberTakes(cfg, NumStart(cfg).digits, false, text[i])
  {
    DecimalLoopTakes(cfg, src.code.value, k);
    ScanNumberLoop(cfg, src, k);
  }

  /** The loop of an unprefixed number consumes only characters of a base-ten number. */
  lemma DecimalLoopTakes(cfg: Config, text: string, k: int)
    requires 0 <= k < |text|
    requires !(text[k] == '0' && k + 1 < |text| && InIgnoringCase(text[k + 1], cfg.baseChars))
    ensures var r := NumberTail(cfg, text, k, NumStart(cfg));
            r.NumDone? ==> forall i :: k <= i < r.end ==> NumberTakes(cfg, NumStart(cfg).digits, false, text[i])
  {
    DigitInDigits('0');
    LoopTakesFromStart(cfg, text, k, NumStart(cfg));
  }

  /** The same from any starting state whose alphabet holds `0`. */
  lemma LoopTakesFromStart(cfg: Config, text: string, k: int, st: NumState)
    requires 0 <= k < |text| && st.idx == 0 && !st.hasOtherBase && InIgnoringCase('0', st.digits)
    requires !(text[k] == '0' && k + 1 < |text| && InIgnoringCase(text[k + 1], cfg.baseChars))
    ensures var r := NumberTail(cfg, text, k, st);
            r.NumDone? ==> forall i :: k <= i < r.end ==> NumberTakes(cfg, st.digits, false, text[i])
  {
    if text[k] == '0' {
      if k + 1 < |text| {
        NumberStepTakes(cfg, text, k + 1, st.(idx := 1));
      }
    } else {
      NumberStepTakes(cfg, text, k, st);
    }
  }

  lemma NumberDecimalFails(cfg: Config, src: Source, k: int, f: int)
    requires src.Loaded() && 0 <= k <= f < |src.code.value|
    requires !(src.code.value[k] == '0' && k + 1 < |src.code.value| &&
               InIgnoringCase(src.code.value[k + 1], cfg.baseChars))
    requires NumberReadsTo(cfg, src.code.value, NumStart(cfg).digits, false, false, k, f)
    requires NumberBreaks(cfg, src.code.value, NumStart(cfg).digits, false, false, k, f)
    ensures ScanNumber(cfg, src, k) ==
              Failed(UnexpectedChar(PosAt(src.code.value, f), Char(src.code.value[f]), ""))
  {
    DigitInDigits('0');
    LoopFailsFromStart(cfg, src.code.value, k, NumStart(cfg), f);
  }

  /** The loop of an unprefixed number, from any starting state whose
      alphabet holds `0`, fails where the number breaks. */
  lemma LoopFailsFromStart(cfg: Config, text: string, k: int, st: NumState, f: int)
    requires 0 <= k <= f < |text| && st.idx == 0 && !st.hasOtherBase && !st.hasDecimal
    requires InIgnoringCase('0', st.digits)
    requires !(text[k] == '0' && k + 1 < |text| && InIgnoringCase(text[k + 1], cfg.baseChars))
    requires NumberReadsTo(cfg, text, st.digits, false, false, k, f)
    requires NumberBreaks(cfg, text, st.digits, false, false, k, f)
    ensures NumberTail(cfg, text, k, st) == NumError(UnexpectedChar(PosAt(text, f), Char(text[f]), ""))
  {
    if text[k] == '0' {
      assert k < f;
      NumberTailFails(cfg, text, k + 1, st.(idx := 1), f);
    } else {
      NumberStepFails(cfg, text, k, st, f);
    }
  }

  /** After a base prefix `0b` with an entry in the table, the number consumes
      only digits of that base and separators, and fails exactly at the first
      character it cannot take. */
  lemma NumberPrefixTakes(cfg: Config, src: Source, k: int)
    requires src.Loaded() && 0 <= k && k + 1 < |src.code.value| && src.code.value[k] == '0'
    requires InIgnoringCase(src.code.value[k + 1], cfg.baseChars) && src.code.value[k + 1] in cfg.bases
    ensures var r, text := ScanNumber(cfg, src, k), src.code.value;
            r.Scanned? ==>
              forall i :: k + 2 <= i < r.next ==> NumberTakes(cfg, cfg.bases[text[k + 1]].digits, true, text[i])
  {
    var text, st0 := src.code.value, NumStart(cfg);
    var b := cfg.bases[text[k + 1]];
    NumberTailZero(cfg, text, k, st0);
    NumberTailTakes(cfg, text, k + 2,
      st0.(digits := b.digits, subkind := b.subkind, base := |b.digits|, hasOtherBase := true, idx := 2));
    ScanNumberLoop(cfg, src, k);
  }

  lemma NumberPrefixFails(cfg: Config, src: Source, k: int, f: int)
    requires src.Loaded() && 0 <= k && k + 2 <= f < |src.code.value| && src.code.value[k] == '0'
    requires InIgnoringCase(src.code.value[k + 1], cfg.baseChars) && src.code.value[k + 1] in cfg.bases
    requires var d := cfg.bases[src.code.value[k + 1]].digits;
             NumberReadsTo(cfg, src.code.value, d, true, false, k + 2, f) &&
             NumberBreaks(cfg, src.code.value, d, true, false, k + 2, f)
    ensures ScanNumber(cfg, src, k) ==
              Failed(UnexpectedChar(PosAt(src.code.value, f), Char(src.code.value[f]), ""))
  {
    var text := src.code.value;
    PrefixLoopFails(cfg, text, k, NumStart(cfg), f);
  }

  /** The loop of a prefixed number fails where the digits after the prefix break. */
  lemma PrefixLoopFails(cfg: Config, text: string, k: int, st0: NumState, f: int)
    requires 0 <= k && k + 2 <= f < |text| && text[k] == '0' && st0 == NumStart(cfg)
    requires InIgnoringCase(text[k + 1], cfg.baseChars) && text[k + 1] in cfg.bases
    requires var d := cfg.bases[text[k + 1]].digits;
             NumberReadsTo(cfg, text, d, true, false, k + 2, f) &&
             NumberBreaks(cfg, text, d, true, false, k + 2, f)
    ensures NumberTail(cfg, text, k, st0) == NumError(UnexpectedChar(PosAt(text, f), Char(text[f]), ""))
  {
    var b := cfg.bases[text[k + 1]];
    var st2 := st0.(digits := b.digits, subkind := b.subkind, base := |b.digits|,
                    hasOtherBase := true, idx := 2);
    NumberTailFails(cfg, text, k + 2, st2, f);
  }

  /** A number read in the alphabet `digits` ends cleanly at `f`: the text
      ends there, or `text[f]` is a whitespace, delimiter or operator
      character that the number cannot take and that is not a point. */
  predicate NumberEndsAt(cfg: Config, text: string, digits: string, otherBase: bool, f: int)
    requires 0 <= f <= |text|
  {
    f == |text| ||
    (!NumberTakes(cfg, digits, otherBase, text[f]) && text[f] != '.' && EndsNumber(cfg, text[f]))
  }

  /** After the leading-zero test, a number that reads without a break up to
      a clean end at `f` stops there without an error. */
  lemma {:induction false} NumberTailDone(cfg: Config, text: string, j: int, st: NumState, f: int)
    requires 0 <= j <= f <= |text| && st.idx > 0
    requires NumberReadsTo(cfg, text, st.digits, st.hasOtherBase, st.hasDecimal, j, f)
    requires NumberEndsAt(cfg, text, st.digits, st.hasOtherBase, f)
    decreases |text| - j, 1
    ensures var r := NumberTail(cfg, text, j, st); r.NumDone? && r.end == f
  {
    if j < |text| {
      NumberStepDone(cfg, text, j, st, f);
    }
  }

  lemma {:induction false} NumberStepDone(cfg: Config, text: string, j: int, st: NumState, f: int)
    requires 0 <= j <= f <= |text| && j < |text| && st.idx >= 0
    requires NumberReadsTo(cfg, text, st.digits, st.hasOtherBase, st.hasDecimal, j, f)
    requires NumberEndsAt(cfg, text, st.digits, st.hasOtherBase, f)
    decreases |text| - j, 0
    ensures var r := NumberStep(cfg, text, j, st); r.NumDone? && r.end == f
  {
    var c := text[j];
    if j < f {
      assert NumberTakes(cfg, st.digits, st.hasOtherBase, c);
      if InIgnoringCase(c, st.digits) || IsSeparator(cfg, c) {
        NumberTailDone(cfg, text, j + 1, st.(idx := st.idx + 1), f);
      } else if c == '.' {
        assert IsPoint(cfg, st.digits, text[j]);
        NumberTailDone(cfg, text, j + 1, st.(hasDecimal := true, subkind := "FLOAT", idx := st.idx + 1), f);
      } else {
        NumberTailDone(cfg, text, j + 1, st.(idx := st.idx + 1, suffix := st.suffix + [c]), f);
      }
    }
  }

  /** A number without a base prefix that reads as a base-ten number up to a
      clean end at `f` scans, and its token ends at `f`; so whitespace, a
      delimiter or an operator character ends a number such as `3.14`. A lone
      `0` at the end of the text is the exception (NumberTrailingZero). */
  lemma NumberDecimalScans(cfg: Config, src: Source, k: int, f: int)
    requires src.Loaded() && 0 <= k <= f <= |src.code.value| && k < |src.code.value|
    requires !(src.code.value[k] == '0' && k + 1 < |src.code.value| &&
               InIgnoringCase(src.code.value[k + 1], cfg.baseChars))
    requires !(src.code.value[k] == '0' && k + 1 == |src.code.value|)
    requires NumberReadsTo(cfg, src.code.value, NumStart(cfg).digits, false, false, k, f)
    requires NumberEndsAt(cfg, src.code.value, NumStart(cfg).digits, false, f)
    ensures var r := ScanNumber(cfg, src, k); r.Scanned? && r.next == f
  {
    DigitInDigits('0');
    LoopDoneFromStart(cfg, src.code.value, k, NumStart(cfg), f);
  }

  /** The loop of an unprefixed number, from any starting state whose
      alphabet holds `0`, stops at a clean end. */
  lemma LoopDoneFromStart(cfg: Config, text: string, k: int, st: NumState, f: int)
    requires 0 <= k <= f <= |text| && k < |text| && st.idx == 0 && !st.hasOtherBase && !st.hasDecimal
    requires InIgnoringCase('0', st.digits)
    requires !(text[k] == '0' && k + 1 < |text| && InIgnoringCase(text[k + 1], cfg.baseChars))
    requires !(text[k] == '0' && k + 1 == |text|)
    requires NumberReadsTo(cfg, text, st.digits, false, false, k, f)
    requires NumberEndsAt(cfg, text, st.digits, false, f)
    ensures var r := NumberTail(cfg, text, k, st); r.NumDone? && r.end == f
  {
    if text[k] == '0' {
      assert k < f;
      NumberStepDone(cfg, text, k + 1, st.(idx := 1), f);
    } else {
      NumberStepDone(cfg, text, k, st, f);
    }
  }

  /** A leading `0` that is the last character fails: the code lower-cases
      the missing character after it. */
  lemma NumberTrailingZero(cfg: Config, src: Source, k: int)
    requires src.Loaded() && 0 <= k && k + 1 == |src.code.value| && src.code.value[k] == '0'
    ensures ScanNumber(cfg, src, k) == Failed(NoneLowered(PosAt(src.code.value, k + 1)))
  {
  }

  /** After a base prefix `0b` with an entry in the table, a number that
      reads only digits of that base and separators up to a clean end at `f`
      scans, and its token ends at `f`; so `0x1A2F` followed by the end of the
      text or a character that ends a number is one token. */
  lemma NumberPrefixScans(cfg: Config, src: Source, k: int, f: int)
    requires src.Loaded() && 0 <= k && k + 2 <= f <= |src.code.value| && src.code.value[k] == '0'
    requires InIgnoringCase(src.code.value[k + 1], cfg.baseChars) && src.code.value[k + 1] in cfg.bases
    requires var d := cfg.bases[src.code.value[k + 1]].digits;
             NumberReadsTo(cfg, src.code.value, d, true, false, k + 2, f) &&
             NumberEndsAt(cfg, src.code.value, d, true, f)
    ensures var r := ScanNumber(cfg, src, k); r.Scanned? && r.next == f
  {
    PrefixLoopDone(cfg, src.code.value, k, NumStart(cfg), f);
  }

  /** The loop of a prefixed number stops at a clean end after the prefix. */
  lemma PrefixLoopDone(cfg: Config, text: string, k: int, st0: NumState, f: int)
    requires 0 <= k && k + 2 <= f <= |text| && text[k] == '0' && st0 == NumStart(cfg)
    requires InIgnoringCase(text[k + 1], cfg.baseChars) && text[k + 1] in cfg.bases
    requires var d := cfg.bases[text[k + 1]].digits;
             NumberReadsTo(cfg, text, d, true, false, k + 2, f) &&
             NumberEndsAt(cfg, text, d, true, f)
    ensures var r := NumberTail(cfg, text, k, st0); r.NumDone? && r.end == f
  {
    var b := cfg.bases[text[k + 1]];
    var st2 := st0.(digits := b.digits, subkind := b.subkind, base := |b.digits|,
                    hasOtherBase := true, idx := 2);
    NumberTailDone(cfg, text, k + 2, st2, f);
  }

  // ---------------------------------------------------------------------------
  // Operators and comments

  datatype RunScan = RunEnd(end: int) | RunError(error: LexError)

  /** The loop of `_scan_operator` from index `j`, the operator having started
      at `k`: characters of the operator set are taken one at a time, and taking
      one beyond `operator.max_length` is an error at the location after it. */
  function OperatorTail(cfg: Config, text: string, k: int, j: int): (r: RunScan)
    requires 0 <= k <= j <= |text|
    requires j == k || j - k <= cfg.operatorMaxLength
    requires forall i :: k <= i < j ==> text[i] in cfg.operatorChars
    decreases |text| - j
    ensures r.RunEnd? ==> j <= r.end <= |text| && (r.end - k <= cfg.operatorMaxLength || r.end == k)
  {
    if j >= |text| || text[j] !in cfg.operatorChars then RunEnd(j)
    else if j + 1 - k > cfg.operatorMaxLength then
      RunError(UnexpectedChar(PosAt(text, j + 1), CurAt(text, j + 1), ""))
    else OperatorTail(cfg, text, k, j + 1)
  }

  /** An operator run ends at the first character outside the operator set;
      a run longer than `operator.max_length` fails at the location just after
      its `max_length + 1`-th character. */
  lemma {:induction false} OperatorTailEnds(cfg: Config, text: string, k: int, j: int)
    requires 0 <= k <= j <= |text|
    requires j == k || j - k <= cfg.operatorMaxLength
    requires forall i :: k <= i < j ==> text[i] in cfg.operatorChars
    decreases |text| - j
    ensures var r := OperatorTail(cfg, text, k, j);
            r.RunEnd? ==> (forall i :: k <= i < r.end ==> text[i] in cfg.operatorChars) &&
                          (r.end == |text| || text[r.end] !in cfg.operatorChars)
    ensures var r := OperatorTail(cfg, text, k, j);
            r.RunError? ==>
              var e := k + 1 + (if cfg.operatorMaxLength < 0 then 0 else cfg.operatorMaxLength);
              e <= |text| && (forall i :: k <= i < e ==> text[i] in cfg.operatorChars) &&
              r.error == UnexpectedChar(PosAt(text, e), CurAt(text, e), "")
  {
    if j < |text| && text[j] in cfg.operatorChars && j + 1 - k <= cfg.operatorMaxLength {
      OperatorTailEnds(cfg, text, k, j + 1);
    }
  }

  /** One operator character: taken, or an error once the operator would
      exceed `operator.max_length`. */
  lemma OperatorStep(cfg: Config, text: string, k: int, j: int)
    requires 0 <= k <= j < |text| && (j == k || j - k <= cfg.operatorMaxLength)
    requires forall i :: k <= i < j ==> text[i] in cfg.operatorChars
    requires text[j] in cfg.operatorChars
    ensures OperatorTail(cfg, text, k, j) ==
              if j + 1 - k > cfg.operatorMaxLength
              then RunError(UnexpectedChar(PosAt(text, j + 1), CurAt(text, j + 1), ""))
              else OperatorTail(cfg, text, k, j + 1)
  {
  }

  /** The loop of `_scan_comment` from index `j`, the body having started at
      `c0`. Without an end marker it stops at a newline and does not consume
      it; with one it stops right after the body first ends with the marker. */
  function CommentTail(text: string, endMarker: Option<string>, c0: int, j: int): (r: int)
    requires 0 <= c0 <= j <= |text|
    decreases |text| - j
    ensures j <= r <= |text|
  {
    if j >= |text| then j
    else if text[j] == '\n' && endMarker.None? then j
    else if endMarker.Some? && EndsWith(text[c0..j + 1], endMarker.value) then j + 1
    else CommentTail(text, endMarker, c0, j + 1)
  }

  /** Where a comment body ends. A line comment stops at the first newline
      (left unconsumed) or at the end of the text. A block comment stops right
      after the first point where the body ends with the marker, or at the end
      of the text when the marker never closes it. */
  lemma {:induction false} CommentTailEnds(text: string, endMarker: Option<string>, c0: int, j: int)
    requires 0 <= c0 <= j <= |text|
    decreases |text| - j
    ensures var r := CommentTail(text, endMarker, c0, j);
            endMarker.None? ==>
              (r == |text| || text[r] == '\n') && forall i :: j <= i < r ==> text[i] != '\n'
    ensures var r := CommentTail(text, endMarker, c0, j);
            endMarker.Some? ==>
              (r == |text| || (j < r && EndsWith(text[c0..r], endMarker.value))) &&
              forall i :: j < i < r ==> !EndsWith(text[c0..i], endMarker.value)
  {
    if j < |text| && !(text[j] == '\n' && endMarker.None?) &&
       !(endMarker.Some? && EndsWith(text[c0..j + 1], endMarker.value)) {
      CommentTailEnds(text, endMarker, c0, j + 1);
    }
  }

  /** One character of a comment body that does not stop the line form;
      `body` is the body read so far, this character included. */
  lemma CommentStep(text: string, endMarker: Option<string>, c0: int, j: int, body: string)
    requires 0 <= c0 <= j < |text| && !(text[j] == '\n' && endMarker.None?)
    requires body == text[c0..j + 1]
    ensures CommentTail(text, endMarker, c0, j) ==
              if endMarker.Some? && EndsWith(body, endMarker.value) then j + 1
              else CommentTail(text, endMarker, c0, j + 1)
  {
  }

  /** A recognised comment or documentation form whose marker ends at `e`:
      the cursor stops past the comment (a line comment before its newline, a
      block comment right after its first end marker, either one at the end
      of the text when nothing stops it) and the token, emitted only when the
      form is configured as included, spans from the marker to there. */
  function CommentToken(src: Source, k: int, e: int, endMarker: Option<string>,
                        kind: string, subkind: string, included: bool): (r: Scan)
    requires src.Loaded() && 0 <= k <= e <= |src.code.value|
    ensures r.Scanned? && e <= r.next <= |src.code.value|
    ensures var text := src.code.value;
            endMarker.None? ==>
              (r.next == |text| || text[r.next] == '\n') && forall i :: e <= i < r.next ==> text[i] != '\n'
    ensures var text := src.code.value;
            endMarker.Some? ==>
              (r.next == |text| || (e < r.next && EndsWith(text[e..r.next], endMarker.value))) &&
              forall i :: e < i < r.next ==> !EndsWith(text[e..i], endMarker.value)
    ensures r.token.Some? <==> included
    ensures included ==> r.token.value == Plain(src, PosAt(src.code.value, k), kind, subkind, k, r.next)
  {
    var text := src.code.value;
    CommentTailEnds(text, endMarker, e, e);
    var ce := CommentTail(text, endMarker, e, e);
    Scanned(if included then Some(Plain(src, PosAt(text, k), kind, subkind, k, ce)) else None, ce)
  }

  /** `_scan_operator` at the operator character `text[k]`. The accumulated
      text is compared with the documentation line marker, the documentation
      block marker, the comment line marker and the comment block marker, in
      that order; any other text is an operator named by the `tokens` table,
      spanning the whole run of operator characters. An operator longer than
      `operator.max_length` fails just after its `max_length + 1`-th
      character. */
  function ScanOperator(cfg: Config, src: Source, k: int): (r: Scan)
    requires src.Loaded()
    requires 0 <= k < |src.code.value| && src.code.value[k] in cfg.operatorChars
    ensures r.Scanned? ==> k < r.next <= |src.code.value|
    ensures r.Scanned? && r.token.Some? ==>
              r.token.value.lo == k && r.token.value.hi == r.next &&
              r.token.value.loc == PosAt(src.code.value, k) &&
              r.token.value.kind in {cfg.kinds.operator, cfg.kinds.comment, cfg.kinds.documentation}
    ensures r.Scanned? && r.token.None? ==> !cfg.comment.included || !cfg.document.included
    ensures var e := k + 1 + (if cfg.operatorMaxLength < 0 then 0 else cfg.operatorMaxLength);
            r.Failed? ==>
              e <= |src.code.value| && r.error == UnexpectedChar(PosAt(src.code.value, e), CurAt(src.code.value, e), "")
    ensures var run, text := OperatorTail(cfg, src.code.value, k, k), src.code.value;
            run.RunEnd? && text[k..run.end] != cfg.document.line && text[k..run.end] != cfg.document.blockBegin &&
            text[k..run.end] != cfg.comment.line && text[k..run.end] != cfg.comment.blockBegin ==>
              r == Scanned(Some(Plain(src, PosAt(text, k), cfg.kinds.operator,
                                      TokenName(cfg, text[k..run.end]), k, run.end)), run.end) &&
              (run.end == |text| || text[run.end] !in cfg.operatorChars)
  {
    var text := src.code.value;
    OperatorTailEnds(cfg, text, k, k);
    match OperatorTail(cfg, text, k, k)
    case RunError(err) => Failed(err)
    case RunEnd(e) =>
      var op := text[k..e];
      if op == cfg.document.line then
        CommentToken(src, k, e, None, cfg.kinds.documentation, cfg.document.subkind, cfg.document.included)
      else if op == cfg.document.blockBegin then
        CommentToken(src, k, e, Some(cfg.document.blockEnd), cfg.kinds.documentation,
                     cfg.document.blockSubkind, cfg.document.included)
      else if op == cfg.comment.line then
        CommentToken(src, k, e, None, cfg.kinds.comment, cfg.comment.subkind, cfg.comment.included)
      else if op == cfg.comment.blockBegin then
        CommentToken(src, k, e, Some(cfg.comment.blockEnd), cfg.kinds.comment,
                     cfg.comment.blockSubkind, cfg.comment.included)
      else
        Scanned(Some(Plain(src, PosAt(text, k), cfg.kinds.operator, TokenName(cfg, op), k, e)), e)
  }

  /** The four markers, compared in the order documentation line,
      documentation block, comment line, comment block: the first one equal
      to the run starts a comment of its category and form, with that form's
      subkind, scanned from the end of the run. So a marker shared by the
      documentation and the comment forms always starts documentation. */
  lemma ScanOperatorMarkers(cfg: Config, src: Source, k: int)
    requires src.Loaded()
    requires 0 <= k < |src.code.value| && src.code.value[k] in cfg.operatorChars
    ensures var r, run, text := ScanOperator(cfg, src, k), OperatorTail(cfg, src.code.value, k, k), src.code.value;
            run.RunEnd? && text[k..run.end] == cfg.document.line ==>
              r == CommentToken(src, k, run.end, None, cfg.kinds.documentation,
                                cfg.document.subkind, cfg.document.included)
    ensures var r, run, text := ScanOperator(cfg, src, k), OperatorTail(cfg, src.code.value, k, k), src.code.value;
            run.RunEnd? && text[k..run.end] != cfg.document.line && text[k..run.end] == cfg.document.blockBegin ==>
              r == CommentToken(src, k, run.end, Some(cfg.document.blockEnd), cfg.kinds.documentation,
                                cfg.document.blockSubkind, cfg.document.included)
    ensures var r, run, text := ScanOperator(cfg, src, k), OperatorTail(cfg, src.code.value, k, k), src.code.value;
            run.RunEnd? && text[k..run.end] != cfg.document.line && text[k..run.end] != cfg.document.blockBegin &&
            text[k..run.end] == cfg.comment.line ==>
              r == CommentToken(src, k, run.end, None, cfg.kinds.comment,
                                cfg.comment.subkind, cfg.comment.included)
    ensures var r, run, text := ScanOperator(cfg, src, k), OperatorTail(cfg, src.code.value, k, k), src.code.value;
            run.RunEnd? && text[k..run.end] != cfg.document.line && text[k..run.end] != cfg.document.blockBegin &&
            text[k..run.end] != cfg.comment.line && text[k..run.end] == cfg.comment.blockBegin ==>
              r == CommentToken(src, k, run.end, Some(cfg.comment.blockEnd), cfg.kinds.comment,
                                cfg.comment.blockSubkind, cfg.comment.included)
    ensures var r, run, text := ScanOperator(cfg, src, k), OperatorTail(cfg, src.code.value, k, k), src.code.value;
            run.RunEnd? && cfg.document.included &&
            (text[k..run.end] == cfg.document.line || text[k..run.end] == cfg.document.blockBegin) ==>
              r.Scanned? && r.token.Some? && r.token.value.kind == cfg.kinds.documentation
  {
  }

  /** A line comment that is not included leaves no token, and the cursor
      resumes at the newline that ends it (or at the end of the text). */
  lemma SuppressedLineComment(cfg: Config, src: Source, k: int)
    requires src.Loaded() && 0 <= k < |src.code.value|
    requires var text := src.code.value;
             text[k] in cfg.operatorChars && !cfg.comment.included &&
             cfg.comment.line != cfg.document.line && cfg.comment.line != cfg.document.blockBegin &&
             OperatorTail(cfg, text, k, k).RunEnd? &&
             text[k..OperatorTail(cfg, text, k, k).end] == cfg.comment.line
    ensures var r, text := ScanOperator(cfg, src, k), src.code.value;
            r.Scanned? && r.token.None? && k < r.next <= |text| &&
            (r.next == |text| || text[r.next] == '\n') &&
            forall i :: k + |cfg.comment.line| <= i < r.next ==> text[i] != '\n'
  {
    var e := OperatorTail(cfg, src.code.value, k, k).end;
    CommentTailEnds(src.code.value, None, e, e);
  }

  /** A block comment that is not included leaves no token, and the cursor
      resumes right after its first end marker (or at the end of the text
      when it is never closed). */
  lemma SuppressedBlockComment(cfg: Config, src: Source, k: int)
    requires src.Loaded() && 0 <= k < |src.code.value|
    requires var text := src.code.value;
             text[k] in cfg.operatorChars && !cfg.comment.included &&
             cfg.comment.blockBegin != cfg.document.line && cfg.comment.blockBegin != cfg.document.blockBegin &&
             cfg.comment.blockBegin != cfg.comment.line &&
             OperatorTail(cfg, text, k, k).RunEnd? &&
             text[k..OperatorTail(cfg, text, k, k).end] == cfg.comment.blockBegin
    ensures var r, text, e := ScanOperator(cfg, src, k), src.code.value, k + |cfg.comment.blockBegin|;
            r.Scanned? && r.token.None? && e <= r.next <= |text| &&
            (r.next == |text| || (e < r.next && EndsWith(text[e..r.next], cfg.comment.blockEnd))) &&
            forall i :: e < i < r.next ==> !EndsWith(text[e..i], cfg.comment.blockEnd)
  {
    var e := OperatorTail(cfg, src.code.value, k, k).end;
    CommentTailEnds(src.code.value, Some(cfg.comment.blockEnd), e, e);
  }

  // ---------------------------------------------------------------------------
  // Words

  /** The loop of `_scan_word` from index `j`, the word having started at `k`:
      alphanumeric characters other than '_' are taken, and taking one beyond
      `word.max_length` is an error at the location after it. */
  function WordTail(cfg: Config, text: string, k: int, j: int): (r: RunScan)
    requires 0 <= k <= j <= |text|
    requires j == k || j - k <= cfg.wordMaxLength
    requires forall i :: k <= i < j ==> IsAlnum(text[i]) && text[i] != '_'
    decreases |text| - j
    ensures r.RunEnd? ==> j <= r.end <= |text| && (r.end - k <= cfg.wordMaxLength || r.end == k)
  {
    if j >= |text| || !IsAlnum(text[j]) || text[j] == '_' then RunEnd(j)
    else if j + 1 - k > cfg.wordMaxLength then
      RunError(UnexpectedChar(PosAt(text, j + 1), CurAt(text, j + 1), "Identifier is too long"))
    else WordTail(cfg, text, k, j + 1)
  }

  /** A word run ends at the first character that is not alphanumeric or is
      '_'; a run longer than `word.max_length` fails at the location just after
      its `max_length + 1`-th character. */
  lemma {:induction false} WordTailEnds(cfg: Config, text: string, k: int, j: int)
    requires 0 <= k <= j <= |text|
    requires j == k || j - k <= cfg.wordMaxLength
    requires forall i :: k <= i < j ==> IsAlnum(text[i]) && text[i] != '_'
    decreases |text| - j
    ensures var r := WordTail(cfg, text, k, j);
            r.RunEnd? ==> (forall i :: k <= i < r.end ==> IsAlnum(text[i]) && text[i] != '_') &&
                          (r.end == |text| || !IsAlnum(text[r.end]) || text[r.end] == '_')
    ensures var r := WordTail(cfg, text, k, j);
            r.RunError? ==>
              var e := k + 1 + (if cfg.wordMaxLength < 0 then 0 else cfg.wordMaxLength);
              e <= |text| && (forall i :: k <= i < e ==> IsAlnum(text[i]) && text[i] != '_') &&
              r.error == UnexpectedChar(PosAt(text, e), CurAt(text, e), "Identifier is too long")
  {
    if j < |text| && IsAlnum(text[j]) && text[j] != '_' && j + 1 - k <= cfg.wordMaxLength {
      WordTailEnds(cfg, text, k, j + 1);
    }
  }

  /** One word character: taken, or an error once the word would exceed
      `word.max_length`. */
  lemma WordStep(cfg: Config, text: string, k: int, j: int)
    requires 0 <= k <= j < |text| && (j == k || j - k <= cfg.wordMaxLength)
    requires forall i :: k <= i < j ==> IsAlnum(text[i]) && text[i] != '_'
    requires IsAlnum(text[j]) && text[j] != '_'
    ensures WordTail(cfg, text, k, j) ==
              if j + 1 - k > cfg.wordMaxLength
              then RunError(UnexpectedChar(PosAt(text, j + 1), CurAt(text, j + 1), "Identifier is too long"))
              else WordTail(cfg, text, k, j + 1)
  {
  }

  /** True when `name` is a configured keyword subset that contains `word`. */
  predicate InSubset(sets: map<string, set<string>>, name: string, word: string) {
    name in sets && word in sets[name]
  }

  /** The subset loop of `_scan_word` from position `i` of `names`, with the
      subset chosen so far: there is no `break`, so a later match replaces it. */
  function SubsetFold(sets: map<string, set<string>>, word: string, names: seq<string>,
                      i: nat, acc: Option<string>): (r: Option<string>)
    requires i <= |names|
    decreases |names| - i
    ensures r == acc || (r.Some? && r.value in names[i..] && InSubset(sets, r.value, word))
  {
    if i == |names| then acc
    else SubsetFold(sets, word, names, i + 1, if InSubset(sets, names[i], word) then Some(names[i]) else acc)
  }

  /** `names[m]` is the last subset name in `names` whose subset contains `word`. */
  predicate LastMatch(sets: map<string, set<string>>, names: seq<string>, word: string, m: int) {
    0 <= m < |names| && InSubset(sets, names[m], word) &&
    forall l :: m < l < |names| ==> !InSubset(sets, names[l], word)
  }

  /** When no subset from position `i` on contains the word, the loop keeps
      the subset chosen before it. */
  lemma {:induction false} SubsetFoldNoMatch(sets: map<string, set<string>>, word: string,
                                             names: seq<string>, i: nat, acc: Option<string>)
    requires i <= |names|
    requires forall j :: i <= j < |names| ==> !InSubset(sets, names[j], word)
    ensures SubsetFold(sets, word, names, i, acc) == acc
    decreases |names| - i
  {
    if i < |names| {
      SubsetFoldNoMatch(sets, word, names, i + 1, acc);
    }
  }

  /** The subset loop picks the LAST subset, in declared order, that contains
      the word: earlier matches are overwritten. */
  lemma {:induction false} SubsetFoldLastMatch(sets: map<string, set<string>>, word: string,
                                               names: seq<string>, i: nat, acc: Option<string>, m: nat)
    requires i <= m && LastMatch(sets, names, word, m)
    ensures SubsetFold(sets, word, names, i, acc) == Some(names[m])
    decreases |names| - i
  {
    var acc' := if InSubset(sets, names[i], word) then Some(names[i]) else acc;
    if i == m {
      SubsetFoldNoMatch(sets, word, names, i + 1, acc');
    } else {
      SubsetFoldLastMatch(sets, word, names, i + 1, acc', m);
    }
  }

  /** The kind and (not yet upper-cased) subkind `_scan_word` gives a word. */
  function WordClass(cfg: Config, word: string): (r: (string, string))
  {
    if word in cfg.reserved then (cfg.kinds.keyword, cfg.reservedSubkind)
    else match SubsetFold(cfg.keywordSets, word, cfg.subkinds, 0, None)
      case Some(name) => (cfg.kinds.keyword, name)
      case None => (cfg.kinds.word, cfg.wordSubkind)
  }

  /** A reserved word is a keyword with the reserved subkind; otherwise the last
      subset containing the word makes it a keyword with that subset's name;
      otherwise it is a word with the default word subkind. */
  lemma WordClassCases(cfg: Config, word: string)
    ensures word in cfg.reserved ==> WordClass(cfg, word) == (cfg.kinds.keyword, cfg.reservedSubkind)
    ensures (word !in cfg.reserved &&
             forall j :: 0 <= j < |cfg.subkinds| ==> !InSubset(cfg.keywordSets, cfg.subkinds[j], word))
            ==> WordClass(cfg, word) == (cfg.kinds.word, cfg.wordSubkind)
    ensures forall m :: word !in cfg.reserved && LastMatch(cfg.keywordSets, cfg.subkinds, word, m) ==>
              WordClass(cfg, word) == (cfg.kinds.keyword, cfg.subkinds[m])
  {
    if forall j :: 0 <= j < |cfg.subkinds| ==> !InSubset(cfg.keywordSets, cfg.subkinds[j], word) {
      SubsetFoldNoMatch(cfg.keywordSets, word, cfg.subkinds, 0, None);
    }
    forall m | word !in cfg.reserved && LastMatch(cfg.keywordSets, cfg.subkinds, word, m)
      ensures WordClass(cfg, word) == (cfg.kinds.keyword, cfg.subkinds[m])
    {
      SubsetFoldLastMatch(cfg.keywordSets, word, cfg.subkinds, 0, None, m);
    }
  }

  /** `_scan_word` at the letter `text[k]`; the subkind is upper-cased. */
  function ScanWord(cfg: Config, src: Source, k: int): (r: Scan)
    requires src.Loaded()
    requires 0 <= k < |src.code.value|
    ensures r.Scanned? ==> r.token.Some? && k <= r.next <= |src.code.value|
    ensures r.Scanned? ==> var t := r.token.value;
              t.lo == k && t.hi == r.next && t.loc == PosAt(src.code.value, k) &&
              (t.kind, t.subkind) == (WordClass(cfg, src.code.value[k..r.next]).0,
                                      Upper(WordClass(cfg, src.code.value[k..r.next]).1)) &&
              forall i :: 0 <= i < |t.subkind| ==> !IsLowerChar(t.subkind[i])
    ensures r.Scanned? && IsAlpha(src.code.value[k]) ==> k < r.next
  {
    var text := src.code.value;
    match WordTail(cfg, text, k, k)
    case RunError(err) => Failed(err)
    case RunEnd(e) =>
      var (kind, subkind) := WordClass(cfg, text[k..e]);
      Scanned(Some(Plain(src, PosAt(text, k), kind, Upper(subkind), k, e)), e)
  }

  // ---------------------------------------------------------------------------
  // Whitespace

  /** The whitespace loop of `gen_tokens` from index `j`. */
  function WsRun(cfg: Config, text: string, j: int): (r: int)
    requires 0 <= j
    decreases |text| - j
    ensures j <= r && (j <= |text| ==> r <= |text|)
    ensures forall i :: j <= i < r ==> i < |text| && text[i] in cfg.whitespaceChars
    ensures r < |text| ==> text[r] !in cfg.whitespaceChars
  {
    if j < |text| && text[j] in cfg.whitespaceChars then WsRun(cfg, text, j + 1) else j
  }
}
