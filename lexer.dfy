/** The `Lexer` class of minilang/lexing/core.py: a mutable location and the
    current character, advanced by scan procedures that each run a loop.
    Every method is proved to compute the corresponding function of LexSpec
    and Tokenize, so the properties proved there hold of the class. */
module Lexing {
  import opened Ascii
  import opened Code
  import opened LexConfig
  import opened LexSpec
  import opened Tokenize

  class Lexer {
    const config: Config
    const source: Source
    const text: string
    const pos: SourceLocation
    /** `_char` */
    var ch: LexChar

    /** The current character and the location are those reached by advancing
        from the start to `pos.index`. */
    ghost predicate Valid()
      reads this, pos
    {
      source.Loaded() && text == source.code.value && pos.source == source &&
      -1 <= pos.index && ch == CurAt(text, pos.index) && pos.Value() == PosAt(text, pos.index)
    }

    /** Starts at index -1 with `_char == ''` and `line_slice` (0, -1). */
    constructor (config: Config, source: Source)
      requires source.Loaded()
      ensures Valid() && fresh(pos)
      ensures this.config == config && this.source == source && pos.index == -1
    {
      this.config := config;
      this.source := source;
      this.text := source.code.value;
      pos := new SourceLocation(source, 0, -1, -1, 1, 1);
      ch := Blank;
    }

    /** `_advance`: the location consumes the current character; the new
        current character is `None` exactly when the index is past the text. */
    method Advance()
      requires Valid()
      modifies this, pos
      ensures Valid() && pos.index == old(pos.index) + 1
      ensures ch == Exhausted <==> pos.index >= |text|
      ensures ch != Exhausted ==> ch == Char(text[pos.index])
    {
      pos.Advance(ch);
      if pos.index >= |text| {
        ch := Exhausted;
      } else {
        ch := Char(text[pos.index]);
      }
    }

    /** `gen_tokens`: the token list ending in the end-of-file token, or the
        first error with an empty list. */
    method GenTokens() returns (tokens: seq<Token>, error: Option<LexError>)
      requires Valid()
      modifies this, pos
      ensures Valid()
      ensures error.None? ==> LexFrom(config, source, old(pos.index)) == Lexed(tokens)
      ensures error.Some? ==> tokens == [] && LexFrom(config, source, old(pos.index)) == LexFailed(error.value)
    {
      ghost var target := LexFrom(config, source, pos.index);
      tokens := [];
      while ch != Exhausted
        invariant Valid()
        invariant target == Append(tokens, LexFrom(config, source, pos.index))
        decreases |text| + 1 - pos.index
      {
        LexFromStep(config, source, pos.index);
        var t, e := NextToken();
        if e.Some? {
          return [], e;
        }
        AppendPrepend(tokens, t, LexFrom(config, source, pos.index));
        if t.Some? {
          tokens := tokens + [t.value];
        } else {
          assert tokens + [] == tokens;
        }
      }
      var at := pos.Copy();
      tokens := tokens + [Token(source, at.Value(), config.kinds.eof, "", -1, -1, 10, "")];
      error := None;
    }

    /** The body of the loop of `gen_tokens`: a run of whitespace, or one
        token dispatched on its first character, or the error for a character
        no category admits. */
    method NextToken() returns (token: Option<Token>, error: Option<LexError>)
      requires Valid() && ch != Exhausted
      modifies this, pos
      ensures Valid()
      ensures match Step(config, source, old(pos.index))
              case Scanned(t, n) => token == t && error.None? && pos.index == n
              case Failed(e) => error == Some(e)
    {
      ghost var k := pos.index;
      if ch == Blank || ch.c in config.whitespaceChars {
        StepWhitespace(config, source, k);
        var start := pos.Copy();
        SkipWhitespace();
        token := if config.whitespaceInclude
                 then Some(Token(source, start.Value(), config.kinds.whitespace, "", start.index, pos.index, 10, ""))
                 else None;
        return token, None;
      }
      var c := ch.c;
      StepChar(config, source, k);
      if c in config.quotes {
        var t := ScanString();
        token, error := Some(t), None;
      } else if c in "0123456789" {
        token, error := ScanNumber();
      } else if c in config.delimiterChars {
        var at := pos.Copy();
        token := Some(Token(source, at.Value(), config.kinds.delimiter, TokenName(config, [c]),
                            pos.index, pos.index + 1, 10, ""));
        error := None;
        Advance();
      } else if c in config.operatorChars {
        token, error := ScanOperator();
      } else if IsAlpha(c) {
        token, error := ScanWord();
      } else {
        var at := pos.Copy();
        token, error := None, Some(UnexpectedChar(at.Value(), ch, ""));
      }
    }

    /** The whitespace loop of `gen_tokens`, entered at whitespace (or at the
        empty character before the text). */
    method SkipWhitespace()
      requires Valid() && (ch == Blank || (ch.Char? && ch.c in config.whitespaceChars))
      modifies this, pos
      ensures Valid() && pos.index == WsRun(config, text, old(pos.index) + 1)
    {
      ghost var k := pos.index;
      Advance();
      while ch != Exhausted && (ch == Blank || ch.c in config.whitespaceChars)
        invariant Valid() && k < pos.index <= |text| + 1
        invariant WsRun(config, text, k + 1) == WsRun(config, text, pos.index)
        decreases |text| + 1 - pos.index
      {
        Advance();
      }
    }

    /** `_scan_string` */
    method ScanString() returns (token: Token)
      requires Valid() && ch.Char? && ch.c in config.quotes
      modifies this, pos
      ensures Valid()
      ensures LexSpec.ScanString(config, source, old(pos.index)) == Scanned(Some(token), pos.index)
    {
      ghost var k := pos.index;
      var quote := ch.c;
      var subkind := config.quotes[quote];
      var start := pos.Copy();
      var end := start;
      Advance();
      while ch != Exhausted
        invariant Valid() && k < pos.index <= |text| + 1
        invariant end == start && start != pos && start.Value() == PosAt(text, k)
        invariant StringTail(config, text, quote, k + 1) == StringTail(config, text, quote, pos.index)
        decreases |text| + 1 - pos.index
      {
        StringStep(config, text, quote, pos.index);
        if ch == Char(config.escapeMark) {
          Advance();
          Advance();
        } else if ch == Char(quote) {
          Advance();
          end := pos.Copy();
          break;
        } else {
          Advance();
        }
      }
      token := Token(source, start.Value(), config.kinds.str, subkind, start.index, end.index, 10, "");
    }

    /** `_scan_number`. Its locals are kept in one `NumState` record. */
    method ScanNumber() returns (token: Option<Token>, error: Option<LexError>)
      requires Valid() && ch.Char?
      modifies this, pos
      ensures Valid()
      ensures var r := LexSpec.ScanNumber(config, source, old(pos.index));
              match r
              case Scanned(t, n) => token == t && error.None? && pos.index == n
              case Failed(e) => token.None? && error == Some(e)
    {
      var start := pos.Copy();
      var st;
      st, error := NumberLoop(NumStart(config));
      if error.Some? {
        return None, error;
      }
      token := Some(Token(source, start.Value(), config.kinds.number, st.subkind,
                          start.index, pos.index, st.base, st.suffix));
    }

    /** The loop of `_scan_number` from the current character in state `st`. */
    method NumberLoop(st0: NumState) returns (st: NumState, error: Option<LexError>)
      requires Valid() && 0 <= pos.index <= |text|
      modifies this, pos
      ensures Valid()
      ensures var r := NumberTail(config, text, old(pos.index), st0);
              if error.Some? then r == NumError(error.value)
              else r == NumDone(pos.index, st)
    {
      ghost var k := pos.index;
      st := st0;
      ghost var target := NumberTail(config, text, k, st);
      while ch != Exhausted
        invariant Valid() && k <= pos.index <= |text|
        invariant target == NumberTail(config, text, pos.index, st)
        decreases |text| - pos.index
      {
        if st.idx == 0 && ch == Char('0') {
          var switched;
          st, switched, error := NumberPrefix(st);
          if error.Some? {
            return st, error;
          }
          if switched {
            continue;
          }
        } else {
          NumberTailZero(config, text, pos.index, st);
        }
        assert target == NumberStep(config, text, pos.index, st);
        var stop: bool;
        st, stop, error := NumberChar(st);
        if error.Some? {
          return st, error;
        }
        if stop {
          break;
        }
        assert target == NumberTail(config, text, pos.index, st);
      }
      assert target == NumDone(pos.index, st);
      error := None;
    }

    /** The leading-zero test of the loop of `_scan_number`: the `0` is
        consumed, and a base character after it switches the base. */
    method NumberPrefix(st: NumState) returns (st': NumState, switched: bool, error: Option<LexError>)
      requires Valid() && st.idx == 0 && ch == Char('0')
      modifies this, pos
      ensures Valid()
      ensures var j, r := old(pos.index), NumberTail(config, text, old(pos.index), st);
              if error.Some? then r == NumError(error.value)
              else if switched then pos.index == j + 2 && pos.index <= |text| &&
                                    r == NumberTail(config, text, pos.index, st')
              else pos.index == j + 1 && ch.Char? && r == NumberStep(config, text, pos.index, st')
    {
      ghost var j := pos.index;
      NumberTailZero(config, text, j, st);
      st', switched, error := st.(idx := st.idx + 1), false, None;
      Advance();
      if ch == Exhausted {
        // Python evaluates `None.lower()` here and raises
        var at := pos.Copy();
        return st', false, Some(NoneLowered(at.Value()));
      }
      if InIgnoringCase(ch.c, config.baseChars) {
        if ch.c !in config.bases {
          // Python's case-sensitive `base[self._char]` raises `KeyError` here
          var at := pos.Copy();
          return st', false, Some(MissingBase(at.Value(), ch.c));
        }
        var b := config.bases[ch.c];
        st' := st'.(digits := b.digits, subkind := b.subkind, base := |b.digits|,
                    hasOtherBase := true, idx := st'.idx + 1);
        Advance();
        switched := true;
      }
    }

    /** The character tests of one pass of the loop of `_scan_number`:
        a digit, the separator, a decimal point or a suffix letter is consumed;
        a character that ends a number stops the loop; any other is an error. */
    method NumberChar(st: NumState) returns (st': NumState, stop: bool, error: Option<LexError>)
      requires Valid() && ch.Char?
      modifies this, pos
      ensures Valid()
      ensures var j := old(pos.index);
              var r := NumberStep(config, text, j, st);
              if error.Some? then r == NumError(error.value)
              else if stop then r == NumDone(j, st) && pos.index == j && st' == st
              else pos.index == j + 1 && r == NumberTail(config, text, j + 1, st')
    {
      ghost var j := pos.index;
      var c := ch.c;
      st', stop, error := st, false, None;
      if InIgnoringCase(c, st.digits) {
        NumberStepDigit(config, text, j, st);
        st' := st.(idx := st.idx + 1);
        Advance();
      } else if IsSeparator(config, c) {
        st' := st.(idx := st.idx + 1);
        Advance();
      } else if c == '.' {
        if st.hasOtherBase || st.hasDecimal {
          var at := pos.Copy();
          return st, false, Some(UnexpectedChar(at.Value(), ch, ""));
        }
        st' := st.(hasDecimal := true, subkind := "FLOAT", idx := st.idx + 1);
        Advance();
      } else if IsAlpha(c) && !st.hasOtherBase {
        st' := st.(idx := st.idx + 1, suffix := st.suffix + [c]);
        Advance();
      } else if c in config.whitespaceChars {
        stop := true;
      } else if c in config.delimiterChars {
        stop := true;
      } else if c in config.operatorChars {
        stop := true;
      } else {
        var at := pos.Copy();
        error := Some(UnexpectedChar(at.Value(), ch, ""));
      }
    }

    /** `_scan_operator` */
    method ScanOperator() returns (token: Option<Token>, error: Option<LexError>)
      requires Valid() && ch.Char? && ch.c in config.operatorChars
      modifies this, pos
      ensures Valid()
      ensures var r := LexSpec.ScanOperator(config, source, old(pos.index));
              match r
              case Scanned(t, n) => token == t && error.None? && pos.index == n
              case Failed(e) => token.None? && error == Some(e)
    {
      var start := pos.Copy();
      var operator;
      operator, error := OperatorRun();
      if error.Some? {
        return None, error;
      }
      var kind, subkind, end, included;
      if operator == config.document.line {
        var loc := ScanComment(None);
        end, kind, subkind, included :=
          loc.index, config.kinds.documentation, config.document.subkind, config.document.included;
      } else if operator == config.document.blockBegin {
        var loc := ScanComment(Some(config.document.blockEnd));
        end, kind, subkind, included :=
          loc.index, config.kinds.documentation, config.document.blockSubkind, config.document.included;
      } else if operator == config.comment.line {
        var loc := ScanComment(None);
        end, kind, subkind, included :=
          loc.index, config.kinds.comment, config.comment.subkind, config.comment.included;
      } else if operator == config.comment.blockBegin {
        var loc := ScanComment(Some(config.comment.blockEnd));
        end, kind, subkind, included :=
          loc.index, config.kinds.comment, config.comment.blockSubkind, config.comment.included;
      } else {
        end, kind, subkind, included := pos.index, config.kinds.operator, TokenName(config, operator), true;
      }
      token := if included
               then Some(Token(source, start.Value(), kind, subkind, start.index, end, 10, ""))
               else None;
    }

    /** The accumulating loop of `_scan_operator`: the operator text it read,
        or the error for an operator longer than `operator.max_length`. */
    method OperatorRun() returns (operator: string, error: Option<LexError>)
      requires Valid() && 0 <= pos.index <= |text|
      modifies this, pos
      ensures Valid()
      ensures var k, r := old(pos.index), OperatorTail(config, text, old(pos.index), old(pos.index));
              if error.Some? then r == RunError(error.value)
              else r == RunEnd(pos.index) && operator == text[k..pos.index]
    {
      ghost var k := pos.index;
      operator := "";
      while ch != Exhausted
        invariant Valid() && k <= pos.index <= |text|
        invariant operator == text[k..pos.index]
        invariant pos.index == k || pos.index - k <= config.operatorMaxLength
        invariant forall i :: k <= i < pos.index ==> text[i] in config.operatorChars
        invariant OperatorTail(config, text, k, k) == OperatorTail(config, text, k, pos.index)
        decreases |text| - pos.index
      {
        if ch.c in config.operatorChars {
          OperatorStep(config, text, k, pos.index);
          operator := operator + [ch.c];
          Advance();
          if |operator| > config.operatorMaxLength {
            var at := pos.Copy();
            return operator, Some(UnexpectedChar(at.Value(), ch, ""));
          }
        } else {
          break;
        }
      }
      error := None;
    }

    /** `_scan_comment`: consumes a comment body and returns the location where
        it ends. */
    method ScanComment(endMarker: Option<string>) returns (loc: SourceLocation)
      requires Valid() && 0 <= pos.index <= |text|
      modifies this, pos
      ensures Valid() && fresh(loc) && loc.Value() == pos.Value()
      ensures pos.index == CommentTail(text, endMarker, old(pos.index), old(pos.index))
    {
      ghost var c0 := pos.index;
      var comment := "";
      while ch != Exhausted
        invariant Valid() && c0 <= pos.index <= |text|
        invariant comment == text[c0..pos.index]
        invariant CommentTail(text, endMarker, c0, c0) == CommentTail(text, endMarker, c0, pos.index)
        decreases |text| - pos.index
      {
        if ch == Char('\n') && endMarker.None? {
          break;
        }
        ghost var j := pos.index;
        assert text[c0..j + 1] == text[c0..j] + [ch.c];
        comment := comment + [ch.c];
        CommentStep(text, endMarker, c0, j, comment);
        Advance();
        if endMarker.Some? && EndsWith(comment, endMarker.value) {
          break;
        }
      }
      loc := pos.Copy();
    }

    /** `_scan_word` */
    method ScanWord() returns (token: Option<Token>, error: Option<LexError>)
      requires Valid() && ch.Char?
      modifies this, pos
      ensures Valid()
      ensures var r := LexSpec.ScanWord(config, source, old(pos.index));
              match r
              case Scanned(t, n) => token == t && error.None? && pos.index == n
              case Failed(e) => token.None? && error == Some(e)
    {
      var start := pos.Copy();
      var word;
      word, error := WordRun();
      if error.Some? {
        return None, error;
      }
      var kind, subkind := ClassifyWord(word);
      token := Some(Token(source, start.Value(), kind, Upper(subkind), start.index, pos.index, 10, ""));
    }

    /** The accumulating loop of `_scan_word`: the word it read, or the error
        for a word longer than `word.max_length`. */
    method WordRun() returns (word: string, error: Option<LexError>)
      requires Valid() && 0 <= pos.index <= |text|
      modifies this, pos
      ensures Valid()
      ensures var k, r := old(pos.index), WordTail(config, text, old(pos.index), old(pos.index));
              if error.Some? then r == RunError(error.value)
              else r == RunEnd(pos.index) && word == text[k..pos.index]
    {
      ghost var k := pos.index;
      word := "";
      while ch != Exhausted
        invariant Valid() && k <= pos.index <= |text|
        invariant word == text[k..pos.index]
        invariant pos.index == k || pos.index - k <= config.wordMaxLength
        invariant forall i :: k <= i < pos.index ==> IsAlnum(text[i]) && text[i] != '_'
        invariant WordTail(config, text, k, k) == WordTail(config, text, k, pos.index)
        decreases |text| - pos.index
      {
        if !IsAlnum(ch.c) || ch.c == '_' {
          break;
        }
        WordStep(config, text, k, pos.index);
        word := word + [ch.c];
        Advance();
        if |word| > config.wordMaxLength {
          var at := pos.Copy();
          return word, Some(UnexpectedChar(at.Value(), ch, "Identifier is too long"));
        }
      }
      error := None;
    }

    /** The classification part of `_scan_word`: reserved words first, then
        every keyword subset in declared order, the last match winning. */
    method ClassifyWord(word: string) returns (kind: string, subkind: string)
      ensures (kind, subkind) == WordClass(config, word)
    {
      kind := config.kinds.word;
      subkind := config.wordSubkind;
      if word in config.reserved {
        kind := config.kinds.keyword;
        subkind := config.reservedSubkind;
      } else {
        ghost var found: Option<string> := None;
        for i := 0 to |config.subkinds|
          invariant SubsetFold(config.keywordSets, word, config.subkinds, 0, None) ==
                    SubsetFold(config.keywordSets, word, config.subkinds, i, found)
          invariant found.None? ==> kind == config.kinds.word && subkind == config.wordSubkind
          invariant found.Some? ==> kind == config.kinds.keyword && subkind == found.value
        {
          var keyKind := config.subkinds[i];
          if keyKind in config.keywordSets && word in config.keywordSets[keyKind] {
            kind := config.kinds.keyword;
            subkind := keyKind;
            found := Some(keyKind);
          }
        }
      }
    }
  }

  /** A new lexer over a loaded source followed by `gen_tokens`: the result is
      the tokenization of the whole text, so on success every token stores the
      location of its start and the list ends in exactly one end-of-file token. */
  method Lex(config: Config, source: Source) returns (tokens: seq<Token>, error: Option<LexError>)
    requires source.Loaded()
    ensures error.None? ==> Tokenize.Tokenize(config, source) == Lexed(tokens)
    ensures error.None? ==> WellShaped(config, source, -1, tokens)
    ensures error.Some? ==> tokens == [] && Tokenize.Tokenize(config, source) == LexFailed(error.value)
  {
    var lexer := new Lexer(config, source);
    tokens, error := lexer.GenTokens();
  }
}
