# minilang lexer, modelled in Dafny

This project models the lexing core of minilang. Three parts are modelled:

- A configuration-driven **lexer** (`Lexer` in `minilang/lexing/core.py`). It walks a source text one character at a time. It dispatches on the class of the current character: whitespace, string quote, digit, delimiter, operator character or letter. It emits tokens, each holding a half-open range into the text. On success it returns all tokens followed by exactly one end-of-file token. On the first error it returns an empty list and that error.
- The **position cursor** it drives (`Source` and `SourceLocation` in `minilang/utillities/code.py`). The cursor keeps index, line, column and the bounds of the current line, and can be copied by value.
- The **token cursor** a parser consumes (`TokenStream` in `minilang/lexing/stream.py`). It is a forward-only index over the token list, with `is_`/`match_`/`expect_` tests on a token's value, kind or subkind.

Modules:

- `Ascii` (ascii.dfy): character classes and case mapping, restricted to ASCII.
- `Code` (code.dfy): `Source`, Python slicing and `find`, and the `SourceLocation` class with `advance` and `copy`.
- `LexConfig` (config.dfy): the configuration as a typed record. Each key the scanner reads is a field.
- `LexSpec` (lexspec.dfy): each scan procedure as a pure function of the text and the start index, with lemmas about each one.
  - The key fact is that the lexer's whole state follows from its index.
  - `CurAt(text, k)` is the current character at index `k`: empty at -1, `text[k]` inside the text, `None` past its end.
  - `PosAt(text, k)` is the location reached by advancing from the start position to `k`.
- `Tokenize` (tokenize.dfy): `gen_tokens` as a function (`LexFrom`, `Tokenize`), with the shape of its result.
- `Lexing` (lexer.dfy): the `Lexer` class itself. It has the location object and the current character as state, and one method per scan loop.
  - Each method is proved to compute the matching `LexSpec`/`Tokenize` function, so the lemmas proved there hold for the class.
  - Some Python methods are split over several Dafny methods, one per loop, to keep each proof small: `NumberLoop`/`NumberPrefix`/`NumberChar`, `OperatorRun`, `WordRun`/`ClassifyWord`, `NextToken`/`SkipWhitespace`.
- `Stream` (stream.dfy): the `TokenStream` class.

Quirks of the code the model reproduces:

- **Priming.** The lexer starts at index -1 with the empty string as its current character. The empty string counts as whitespace, so the first pass of the loop always takes the whitespace branch. That branch advances to index 0, which makes the first column 2. When whitespace is included, the token it emits has a range starting at -1.
- **Underscore.** An underscore ends a word.
- **Keyword subsets.** The last keyword subset that contains the word wins.
- **Float subkind.** A decimal point sets the subkind to the literal "FLOAT".
- **Unterminated strings.** An unterminated string gets the empty range (start, start).
- **Line bounds.** On the first line `line_slice` is (0, -1). Python reads the -1 from the end, so `source_line` there drops the last character of the text.
- **Trailing zero.** When a number's leading `0` is the last character, the code calls `None.lower()` and raises. The model gives this as the error `NoneLowered`, which ends tokenization like any other error (`gen_tokens` does not catch it).
- **Base lookup.** After `0`, the base character is compared ignoring case but then looked up in the base table case-sensitively. A table without the character as written raises `KeyError`. The model gives this as the error `MissingBase`, which ends tokenization the same way.
- **No round trip.** The token values do not give the text back, even when every form is included and the ranges tile the text (LexFromTiles). The priming token's range starts at -1, which Python's slice reads from the end, so its value is usually empty (PrimingValue; over "  x" it is the empty string, PrimingValueExample). An unterminated string's value is empty too.

## Model

| member | source | states |
|---|---|---|
| Ascii.Lower | minilang/lexing/core.py:225 | `s.lower()` has the length of `s`, and each character is the lower case of the one in `s` |
| Ascii.Upper | minilang/lexing/core.py:372 | `s.upper()` has the length of `s`, and each character is the upper case of the one in `s` |
| Ascii.InIgnoringCaseIsLowerIn | minilang/lexing/core.py:215 | the case-insensitive membership test used by the model holds exactly when `c.lower()` occurs in `s.lower()` |
| Ascii.DigitInDigits | minilang/lexing/core.py:203 | every decimal digit, which is what sends the lexer to the number scan, is in the default digit alphabet |
| Ascii.PointNotDecimalDigit | minilang/lexing/core.py:203 | the decimal point is not in the default digit alphabet |
| Ascii.EndsWith | minilang/lexing/core.py:337 | `s.endswith(suffix)`, by index (definition; its agreement with the slice form is EndsWithSlice) |
| Ascii.EndsWithSlice | minilang/lexing/core.py:337 | the index form of `endswith` holds exactly when the suffix fits and the last `len(suffix)` characters equal it |
| Code.PySlice | minilang/utillities/code.py:70-73 | a Python slice is the plain subsequence when its bounds are in range, and empty when its normalised bounds cross |
| Code.Find | minilang/utillities/code.py:145 | `find` returns the first index at or after the normalised start that holds the character, and -1 exactly when no such index exists |
| Code.Source.CharAt | minilang/utillities/code.py:70-73 | `source[i]` is `None` exactly when the source is not loaded; otherwise it is the character at `i`, with negative indices counting from the end |
| Code.Source.Slice | minilang/utillities/code.py:70-73 | `source[lo:hi]` is `None` exactly when the source is not loaded; otherwise it is the text between in-range bounds |
| Code.Source.Loaded | minilang/utillities/code.py:83-84 | `loaded`: the code is not `None` (definition) |
| Code.SourceLocation.constructor | minilang/utillities/code.py:95-100 | a new location holds the given source, index, line slice, line and column |
| Code.SourceLocation.SourceLine | minilang/utillities/code.py:134-136 | `source_line` is `None` exactly on an unloaded source; otherwise it is the text over the line slice |
| Code.SourceLocation.Advance | minilang/utillities/code.py:142-152 | the index grows by exactly one. Past a newline, the line grows by one, the column resets to 1, the line slice starts at the new index and stops at the next newline found from index+1 (or -1). Past any other character, only the column grows by one |
| Code.SourceLocation.Copy | minilang/utillities/code.py:154-156 | `copy` gives a fresh location with the same source and the same index, line slice, line and column |
| Code.CopyIsIndependent | minilang/utillities/code.py:154-156 | advancing a copy leaves the original unchanged; advancing both leaves each at its own advanced value |
| Code.FirstSourceLine | minilang/utillities/code.py:134-136 | with the first line's slice (0, -1), `source_line` is the whole text except its last character |
| LexConfig.TokenName | minilang/lexing/core.py:313 | `tokens.get(text, '')`: the name the table gives `text`, or the empty string when it has none |
| LexSpec.Token.Value | minilang/lexing/core.py:122-124 | a token's `value` is `None` exactly over an unloaded source; otherwise it is the text over its range |
| LexSpec.CurAt | minilang/lexing/core.py:163-167 | `_char` at index `k`: the empty string at the start index -1, the character inside the text, `None` past its end (definition) |
| LexSpec.PosAt | minilang/lexing/core.py:157-167 | the location after advancing to index `k` has index `k` and a line of at least 1 |
| LexSpec.PositionOnFirstLine | minilang/utillities/code.py:149-150 | before any newline the location keeps the slice (0, -1) and line 1, and its column is `k + 2` (1 at the start index -1) |
| LexSpec.PositionAfterNewline | minilang/utillities/code.py:144-148 | after the last newline before `k`, at `j`: the line slice starts at `j + 1` and stops at the next newline from `j + 2`, and the column is `k - j` |
| LexSpec.PositionLine | minilang/utillities/code.py:144-150 | the line at index `k` is one more than the number of newlines consumed before `k` |
| LexSpec.StringTail | minilang/lexing/core.py:181-190 | the string loop stops either just past a quote, or at or past the end of the text with no closing quote; the full escape rule is StringTailCloses |
| LexSpec.StringTailCloses | minilang/lexing/core.py:181-190 | the loop closes only just past a quote that is not the escape mark, with the text before it read as escape pairs and plain characters (`Unescaped`), and whenever such a quote exists it closes just past the first one |
| LexSpec.ScanString | minilang/lexing/core.py:169-192 | a string token has the string kind and the quote's subkind, and starts at the opening quote; its range ends just past a matching quote where the cursor stops, or it is empty and the cursor is at or past the end of the text |
| LexSpec.ScanStringCloses | minilang/lexing/core.py:169-192 | when a quote closes the string (`Closes`: same quote, not the escape mark, everything before it unescaped), the range and the cursor end just past the first such quote; when none does, the range is empty and the cursor is at or past the end of the text |
| LexSpec.NumberTail | minilang/lexing/core.py:210-260 | the number loop ends between its start and the end of the text |
| LexSpec.NumberStep | minilang/lexing/core.py:225-260 | the character tests of the number loop end between the current index and the end of the text |
| LexSpec.NumberTailEnds | minilang/lexing/core.py:210-260 | a number ends only at the end of the text or at a whitespace, delimiter or operator character, which is not consumed; a digit of the current alphabet is consumed; the suffix only grows, by letters (which ones: NumberTailSuffix) |
| LexSpec.NumberStepEnds | minilang/lexing/core.py:225-260 | the same three facts for one pass of the character tests |
| LexSpec.ScanNumber | minilang/lexing/core.py:194-264 | a number token has the number kind, starts at the first digit and ends where the cursor stops, which is the end of the text or a character that ends a number. It consumes at least that digit, and its suffix is made of letters (exactly which letters is NumberDecimalSuffix; after a base prefix it is empty, NumberBaseSwitch). Which characters it consumes, where it fails and when it succeeds are NumberDecimalTakes/Fails/Scans, NumberPrefixTakes/Fails/Scans, NumberTrailingZero and NumberBaseSwitch |
| LexSpec.NumberTailKeepsBase | minilang/lexing/core.py:230-248 | after the leading-zero test the base, digits and subkind do not change again; in another base nothing joins the suffix and no decimal point is admitted; a decimal point sets the subkind to "FLOAT" |
| LexSpec.NumberStepKeepsBase | minilang/lexing/core.py:230-248 | the same invariant for one pass of the character tests |
| LexSpec.NumberBaseSwitch | minilang/lexing/core.py:211-223 | a base prefix whose character the table has, as written, gives that base's subkind, base equal to its number of digits and an empty suffix; when the table lacks the character, the scan fails with `MissingBase` at it |
| LexSpec.NumberStepFromStart | minilang/lexing/core.py:225-248 | from the default state a number keeps base 10, with the default subkind or "FLOAT" |
| LexSpec.NumberDefaultBase | minilang/lexing/core.py:201-238 | a number without a base prefix has base 10 and either the configured subkind or "FLOAT" |
| LexSpec.NumberTailSuffix | minilang/lexing/core.py:225-250 | without a base prefix, the loop appends to the suffix exactly the letters it reads that are not the separator, in the order read (a separator letter matches the earlier separator test; no letter is a decimal digit) |
| LexSpec.NumberStepSuffix | minilang/lexing/core.py:225-250 | the same for one pass of the character tests, counting the character at the pass's index |
| LexSpec.NumberDecimalSuffix | minilang/lexing/core.py:194-264 | a number without a base prefix that scans has as suffix exactly the letters of its text other than the separator, in order (`SuffixLetters`); so `12ab` has suffix `ab` |
| LexSpec.NumberTailPoints | minilang/lexing/core.py:234-241 | the number loop reads no decimal point once one has been read or a base was switched, and never two; a point read leaves the subkind "FLOAT" |
| LexSpec.NumberStepPoints | minilang/lexing/core.py:234-241 | the same for one pass of the character tests |
| LexSpec.NumberPoints | minilang/lexing/core.py:234-241 | a number token's range holds at most one decimal point, and a number holding one has the subkind "FLOAT" |
| LexSpec.NumberPrefixNoPoint | minilang/lexing/core.py:235-236 | a number that starts with a base prefix holds no decimal point |
| LexSpec.NumberTailTakes | minilang/lexing/core.py:225-260 | after the leading-zero test, a number that ends normally consumed only characters it can take (`NumberTakes`: a digit, the separator, and without a prefix a point or a letter) |
| LexSpec.NumberStepTakes | minilang/lexing/core.py:225-260 | the same for one pass of the character tests |
| LexSpec.NumberTailFails | minilang/lexing/core.py:234-260 | after the leading-zero test, the loop fails at the first character where the number breaks (`NumberBreaks`: a character it cannot take that does not end a number, a point it cannot take, or a second point), with that location and character |
| LexSpec.NumberStepFails | minilang/lexing/core.py:234-260 | the same for one pass of the character tests |
| LexSpec.NumberDecimalTakes | minilang/lexing/core.py:194-260 | a number without a base prefix that scans consumed only characters of a base-ten number |
| LexSpec.NumberDecimalFails | minilang/lexing/core.py:194-260 | a number without a base prefix fails exactly at the first place it breaks, e.g. the second `.` of `3.14.5`, with that location and character |
| LexSpec.NumberPrefixTakes | minilang/lexing/core.py:211-260 | after a base prefix, a number that scans consumed only digits of that base and separators |
| LexSpec.NumberPrefixFails | minilang/lexing/core.py:211-260 | after a base prefix, the scan fails exactly at the first character that is not a digit of that base or the separator and does not end a number, or is a point |
| LexSpec.NumberTailDone | minilang/lexing/core.py:225-260 | after the leading-zero test, a number that reads without a break up to a clean end (`NumberEndsAt`: the end of the text, or a whitespace, delimiter or operator character the number cannot take and that is not a point) stops there without an error |
| LexSpec.NumberStepDone | minilang/lexing/core.py:225-260 | the same for one pass of the character tests |
| LexSpec.NumberDecimalScans | minilang/lexing/core.py:194-264 | a number without a base prefix that reads as a base-ten number up to a clean end scans, with its token ending there (so `3.14` followed by whitespace is one number); only a lone trailing `0` is excluded |
| LexSpec.NumberTrailingZero | minilang/lexing/core.py:211-215 | a leading `0` that is the last character fails with `NoneLowered` at the end of the text |
| LexSpec.NumberPrefixScans | minilang/lexing/core.py:211-260 | after a base prefix with a table entry, a number that reads only digits of that base and separators up to a clean end scans, with its token ending there (so `0x1A2F` is one number) |
| LexSpec.OperatorTail | minilang/lexing/core.py:277-287 | the operator run stops within the text, at most `operator.max_length` characters after its start |
| LexSpec.OperatorTailEnds | minilang/lexing/core.py:277-287 | a run is a maximal stretch of operator characters; reading one character past `max_length` is an error reported at the location after it, with the character found there |
| LexSpec.CommentTail | minilang/lexing/core.py:329-338 | the comment loop stops between its start and the end of the text |
| LexSpec.CommentTailEnds | minilang/lexing/core.py:329-338 | the line form stops at the first newline, without consuming it, or at the end of the text. The block form stops just after the first point where the body read so far ends with the end marker, or at the end of the text |
| LexSpec.CommentToken | minilang/lexing/core.py:289-340 | the cursor stops past the comment: a line comment before its first newline, a block comment right after its first end marker, either one at the end of the text otherwise. A token is emitted exactly when the form is included, spanning from the marker's start to there, at the marker's location |
| LexSpec.ScanOperator | minilang/lexing/core.py:266-320 | an operator scan consumes at least one character; a token it emits starts at the scan's start, ends at the cursor and has the operator, comment or documentation kind. It emits nothing only for a form not included. A run matching no marker is one operator token over the maximal run of operator characters, named by `tokens`; a run longer than `max_length` fails at the location after its `max_length + 1`-th character |
| LexSpec.ScanOperatorMarkers | minilang/lexing/core.py:288-312 | the run is compared with the documentation line, documentation block, comment line and comment block markers in that order; the first one it equals gives that category's kind and that form's subkind and `include`, with the comment scanned from the end of the run (to the newline, or past the first end marker, by CommentToken); a marker shared by documentation and comment gives documentation |
| LexSpec.SuppressedLineComment | minilang/lexing/core.py:301-319 | a line comment not configured for inclusion emits no token, and the cursor ends at the newline that ends it or at the end of the text |
| LexSpec.SuppressedBlockComment | minilang/lexing/core.py:301-340 | a block comment not configured for inclusion emits no token, and the cursor ends right after its first end marker or at the end of the text |
| LexSpec.WordTail | minilang/lexing/core.py:352-359 | the word run stops within the text, at most `word.max_length` characters after its start |
| LexSpec.WordTailEnds | minilang/lexing/core.py:352-359 | a word is a maximal stretch of alphanumeric characters other than `_`; growing past `max_length` is the error "Identifier is too long" at the location after it |
| LexSpec.SubsetFold | minilang/lexing/core.py:367-370 | the subset loop ends with the subset chosen before, or with a later subset name that holds the word |
| LexSpec.SubsetFoldNoMatch | minilang/lexing/core.py:367-370 | when no later keyword subset holds the word, the subset chosen so far stays |
| LexSpec.SubsetFoldLastMatch | minilang/lexing/core.py:367-370 | the subset loop ends with the last subset, in declared order, that holds the word |
| LexSpec.WordClass | minilang/lexing/core.py:361-370 | the kind and subkind of a word (definition; its cases are WordClassCases) |
| LexSpec.WordClassCases | minilang/lexing/core.py:361-370 | a reserved word is a keyword with `keyword.subkind`; otherwise the last subset holding the word makes it a keyword of that subkind; a word in no subset keeps the word kind and `word.subkind` |
| LexSpec.ScanWord | minilang/lexing/core.py:342-373 | a word token covers the word read, stores its start location, takes its kind and subkind from the classification, and has an upper-cased subkind with no lower-case letter |
| LexSpec.WsRun | minilang/lexing/core.py:387-388 | the whitespace loop consumes a maximal run of whitespace characters |
| Tokenize.EofToken | minilang/lexing/core.py:427 | the end-of-file token: the eof kind at the location where the loop stopped, over the sentinel range (-1, -1) (definition) |
| Tokenize.EofTokenValue | minilang/lexing/core.py:427 | the end-of-file token's value is the empty string |
| Tokenize.Step | minilang/lexing/core.py:384-425 | one pass of the loop in the order whitespace, quote, digit, delimiter, operator character, letter, error (definition; its shape is StepShape) |
| Tokenize.StepShape | minilang/lexing/core.py:384-425 | each pass advances the cursor; a token it emits starts where the pass started, stores that location and never has the end-of-file kind when that kind is unique. It ends where the pass ends, except an unterminated string, whose range is empty and after which the text is exhausted. A pass is silent only when some form is not included |
| Tokenize.LexFrom | minilang/lexing/core.py:384-429 | the loop of `gen_tokens` from an index (definition; its shape is LexFromWellShaped) |
| Tokenize.LexFromWellShaped | minilang/lexing/core.py:384-429 | every successful result ends in exactly one end-of-file token with range (-1, -1); the earlier tokens start at strictly increasing indices, store their start locations, have `lo <= hi` and do not overlap the next |
| Tokenize.LexFromTiles | minilang/lexing/core.py:384-425 | when whitespace, comments and documentation are all included, the token ranges tile the text: the first starts at the start index, each starts where the previous ends, and the last ends at the end of the text or is an empty unterminated string |
| Tokenize.PrimingValue | minilang/lexing/core.py:385-392 | the priming token's value is empty unless the text is whitespace throughout, and then it is just the last character, because the slice starts at -1 |
| Tokenize.UnterminatedStringValue | minilang/lexing/core.py:169-192 | an unterminated string's value is empty |
| Tokenize.Tokenize | minilang/lexing/core.py:375-429 | a successful tokenization of the whole text is well shaped in that sense |
| Tokenize.WhitespaceOnly | minilang/lexing/core.py:384-392 | a text of whitespace only gives just the end-of-file token, preceded by one whitespace token over (-1, length) when whitespace is included |
| Tokenize.PrimingStep | minilang/lexing/core.py:385-392 | the first pass always takes the whitespace branch from index -1, moves to index 0 where the column is 2, and a whitespace token it emits starts at -1 |
| Tokenize.DelimiterToken | minilang/lexing/core.py:403-408 | a delimiter gives a one-character token of the delimiter kind and the `tokens` name of its text |
| Lexing.Lexer.constructor | minilang/lexing/core.py:137-141 | a new lexer stands at index -1 with the empty current character and the start location |
| Lexing.Lexer.Advance | minilang/lexing/core.py:157-167 | the location moves one index on; the current character is `None` exactly when the index is past the text, and otherwise the character at the index |
| Lexing.Lexer.GenTokens | minilang/lexing/core.py:375-429 | the token list, ending in the end-of-file token, equals the tokenization from the current index; on an error the list is empty and the error is the tokenization's |
| Lexing.Lexer.NextToken | minilang/lexing/core.py:384-425 | one pass of the loop emits the token and reaches the index of the corresponding tokenization step, or fails with its error |
| Lexing.Lexer.SkipWhitespace | minilang/lexing/core.py:386-388 | the whitespace loop stops at the end of the maximal whitespace run |
| Lexing.Lexer.ScanString | minilang/lexing/core.py:169-192 | the string scan produces exactly the token and end index of the string specification |
| Lexing.Lexer.ScanNumber | minilang/lexing/core.py:194-264 | the number scan produces exactly the token, end index or error of the number specification |
| Lexing.Lexer.NumberLoop | minilang/lexing/core.py:210-260 | the loop of the number scan ends in the final state and index of the number loop specification, or with its error |
| Lexing.Lexer.NumberPrefix | minilang/lexing/core.py:211-223 | the leading-zero test consumes the `0`, then fails with `NoneLowered` at the end of the text or `MissingBase` for a base character the table lacks, switches the base and consumes the base character, or hands the next character to the tests, each as the number loop specification does |
| Lexing.Lexer.NumberChar | minilang/lexing/core.py:225-260 | one pass of the character tests: digits, the separator, a decimal point and suffix letters are consumed; whitespace, delimiter and operator characters stop without being consumed; anything else is an error |
| Lexing.Lexer.ScanOperator | minilang/lexing/core.py:266-320 | the operator scan, with the doc line, doc block, comment line, comment block priority and the `tokens` name as the default, produces exactly the result of the operator specification |
| Lexing.Lexer.OperatorRun | minilang/lexing/core.py:277-287 | the accumulated operator is the text run read, or the error for an operator longer than `max_length` |
| Lexing.Lexer.ScanComment | minilang/lexing/core.py:322-340 | the comment loop stops where the comment specification stops, and returns a fresh copy of the location |
| Lexing.Lexer.ScanWord | minilang/lexing/core.py:342-373 | the word scan produces exactly the token or error of the word specification |
| Lexing.Lexer.WordRun | minilang/lexing/core.py:352-359 | the accumulated word is the text run read, or the "Identifier is too long" error |
| Lexing.Lexer.ClassifyWord | minilang/lexing/core.py:361-370 | the reserved test followed by the subset loop gives the kind and subkind of the word classification |
| Lexing.Lex | minilang/lexing/core.py:375-429 | a new lexer running `gen_tokens` returns the tokenization of the whole text, which is well shaped, or an empty list with its error |
| Stream.TokenStream.constructor | minilang/lexing/stream.py:59-65 | a new stream is at index 0 over the given tokens and source, with no handler called yet |
| Stream.TokenStream.Length | minilang/lexing/stream.py:67-68 | `__len__`: the number of tokens (definition) |
| Stream.TokenStream.Eot | minilang/lexing/stream.py:70-72 | `eot`: the index is at or past the number of tokens (definition) |
| Stream.TokenStream.Current | minilang/lexing/stream.py:67-84 | `token` is the token at the index while not at the end of tokens (`eot`, `idx >= len`). With the index off the list (past the end, or negative) it is the end-of-tokens handler's result for the source, and the process exits exactly when there is no handler |
| Stream.TokenStream.Advance | minilang/lexing/stream.py:98-100 | `advance` adds exactly one to the index, with no bounds check, and returns true |
| Stream.TokenStream.Is | minilang/lexing/stream.py:107-146 | `is_token`, `is_kind`, `is_subkind`: the current token's value, kind or subkind is among the candidates (definition; used by Match and Expect) |
| Stream.TokenStream.Get | minilang/lexing/stream.py:102-105 | `get` returns the token current before the call and leaves the index one further |
| Stream.TokenStream.Match | minilang/lexing/stream.py:110-113 | `match_token`/`match_kind`/`match_subkind` advance by one exactly when the value, kind or subkind is among the candidates, return whether they did, and otherwise leave the index unchanged |
| Stream.TokenStream.Expect | minilang/lexing/stream.py:115-160 | `expect_*` advances over a matching token. On a mismatch the index stays. With a handler, exactly one report is added: the source, the token, the candidates, the category `value`/`kind`/`subkind` and the actual attribute. Without a handler the process exits |
| Stream.EofKindOnlyAtEnd | minilang/lexing/stream.py:124-127 | over the tokens of a successful tokenization, `is_kind` of the end-of-file kind holds exactly at the last token |

## Left out

- `export_constants` (minilang/lexing/core.py:436-480) and the `export` keyword argument: they generate a Python file and write it to disk.
- Lexing.Lexer.constructor: the `on_unexpected` keyword argument is not modelled. The model always uses the default handler, which returns an error value. Its message formatting (minilang/lexing/core.py:483-485) is replaced by the fields of `LexError`: location, character and hint.
- `_kind_subkind` (minilang/lexing/core.py:151-155) is never called. The `source` property of `Lexer` is the `source` field.
- The `number` accumulator of `_scan_number` is never read, so the model does not keep it.
- The branch at minilang/lexing/core.py:244-245 cannot be taken: its test contradicts the test that guards it.
- LexSpec.NumberPoints: holds only when the decimal point is not the separator, a base character or a base digit (`PointIsDecimal`), since otherwise a `.` can be consumed as one of those.
- The configuration is a typed record instead of a JSON document read through a dictionary wrapper. The record makes four assumptions:
  - the quote delimiters are the keys of the `quotes` map;
  - the escape mark is one character;
  - character sets are sets of characters;
  - no keyword subset is named like one of the other keys of the keyword section (`reserved`, `subkind`, `subkinds`).
- The number separator is a string in the source, compared with the current character (minilang/lexing/core.py:230). The record holds it as `Some(c)` when it is the one character `c`, and as `None` otherwise (empty or longer), which never matches, as in the source.
- Character classes and case mapping (`isalpha`, `isalnum`, `lower`, `upper`) are ASCII only. Python's versions are Unicode-aware.
- `Source.load` (file reading), `Source.__len__`, the `__str__` methods and `main` in minilang/lexing/stream.py are not modelled. They are I/O, formatting and a driver script.
- `SourceLocation.advance` returns `self` for chaining; the model's method returns nothing.
- Stream.TokenStream.Current: printing to stderr and `sys.exit(1)` become the result `Aborted`. The end-of-tokens handler is modelled as a function from the source to a token; the source allows any callable.
- Stream.TokenStream.Expect: the `on_unexpected` handler is arbitrary code. The model records each call as a `Report` and does not model what the handler does. Printing and `sys.exit(1)` become the result `Exited`.
- Stream.TokenStream.Get: when reading the token ends the process, the model leaves the index unchanged.
- `is_*`, `match_*` and `expect_*` index the token list without a check and raise past its end. In the model they require the index to be on a token.
- Code.Source.CharAt: requires the index to lie inside the text (counting negative indices from the end). On a loaded source, `self.code.__getitem__(key)` raises `IndexError` outside it. The lexer never reads out of range, so no lexing behaviour is lost.
- The `location`, `value` and `source` properties of `TokenStream` (minilang/lexing/stream.py:86-96) are not modelled: each only reads a field of `token`. The `kind_delimiter` argument is stored and never read.
