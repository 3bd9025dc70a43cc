/** The driver `gen_tokens` of minilang/lexing/core.py as a function: one
    dispatch step per token, repeated until the text is exhausted or a scan
    fails. */
module Tokenize {
  import opened Ascii
  import opened Code
  import opened LexConfig
  import opened LexSpec

  /** Either the full token list or the first error. */
  datatype LexResult = Lexed(tokens: seq<Token>) | LexFailed(error: LexError)

  /** The end-of-file token `gen_tokens` appends, with the sentinel range (-1, -1). */
  function EofToken(cfg: Config, src: Source, k: int): Token
    requires k >= -1 && src.Loaded()
  {
    Plain(src, PosAt(src.code.value, k), cfg.kinds.eof, "", -1, -1)
  }

  /** The sentinel range (-1, -1) is an empty Python slice, so the
      end-of-file token's value is the empty string. */
  lemma EofTokenValue(cfg: Config, src: Source, k: int)
    requires k >= -1 && src.Loaded()
    ensures EofToken(cfg, src, k).Value() == Some("")
  {
  }

  /** True when `_char` counts as whitespace: the empty string before the first
      advance is found in any string of whitespace characters. */
  predicate AtWhitespace(cfg: Config, text: string, k: int)
    requires -1 <= k < |text|
  {
    k == -1 || text[k] in cfg.whitespaceChars
  }

  /** One pass of the loop of `gen_tokens` with the cursor at index `k`
      (where `_char` is not `None`). */
  function Step(cfg: Config, src: Source, k: int): Scan
    requires src.Loaded()
    requires -1 <= k < |src.code.value|
  {
    var text := src.code.value;
    if AtWhitespace(cfg, text, k) then
      var e := WsRun(cfg, text, k + 1);
      Scanned(if cfg.whitespaceInclude
              then Some(Plain(src, PosAt(text, k), cfg.kinds.whitespace, "", k, e))
              else None, e)
    else
      var c := text[k];
      if c in cfg.quotes then ScanString(cfg, src, k)
      else if IsDigit(c) then ScanNumber(cfg, src, k)
      else if c in cfg.delimiterChars then
        Scanned(Some(Plain(src, PosAt(text, k), cfg.kinds.delimiter, TokenName(cfg, [c]), k, k + 1)), k + 1)
      else if c in cfg.operatorChars then ScanOperator(cfg, src, k)
      else if IsAlpha(c) then ScanWord(cfg, src, k)
      else Failed(UnexpectedChar(PosAt(text, k), Char(c), ""))
  }

  /** Every pass makes progress, and a token it emits starts where the pass
      started, stores that location, and is never mistaken for the end-of-file
      token. It ends where the pass ends, except for an unterminated string,
      whose range is empty and after which the text is exhausted. A pass emits
      nothing only when some form is configured as not included. */
  lemma StepShape(cfg: Config, src: Source, k: int)
    requires src.Loaded()
    requires -1 <= k < |src.code.value|
    ensures var r := Step(cfg, src, k);
            r.Scanned? ==> k < r.next <= |src.code.value| + 1
    ensures var r := Step(cfg, src, k);
            r.Scanned? && r.token.Some? ==>
              r.token.value.lo == k &&
              r.token.value.loc == PosAt(src.code.value, k) &&
              (EofKindUnique(cfg.kinds) ==> r.token.value.kind != cfg.kinds.eof)
    ensures var r, text := Step(cfg, src, k), src.code.value;
            r.Scanned? && r.token.Some? ==>
              (r.token.value.hi == r.next && r.next <= |text|) ||
              (r.token.value.hi == k && |text| <= r.next && 0 <= k && text[k] in cfg.quotes)
    ensures var r := Step(cfg, src, k);
            r.Scanned? && r.token.None? ==>
              !cfg.whitespaceInclude || !cfg.comment.included || !cfg.document.included
  {
  }

  /** Puts the token a step emitted, if any, in front of the rest of the result. */
  function Prepend(t: Option<Token>, r: LexResult): LexResult
  {
    match r
    case Lexed(ts) => Lexed((if t.Some? then [t.value] else []) + ts)
    case LexFailed(_) => r
  }

  /** The tokens already appended by `gen_tokens` in front of what the rest of
      the text gives. */
  function Append(ts: seq<Token>, r: LexResult): LexResult
  {
    match r
    case Lexed(rest) => Lexed(ts + rest)
    case LexFailed(_) => r
  }

  /** One pass of the loop, as `LexFrom` takes it at an index inside the text. */
  lemma LexFromStep(cfg: Config, src: Source, k: int)
    requires src.Loaded() && -1 <= k < |src.code.value|
    ensures LexFrom(cfg, src, k) ==
              match Step(cfg, src, k)
              case Failed(e) => LexFailed(e)
              case Scanned(t, n) => Prepend(t, LexFrom(cfg, src, n))
  {
  }

  /** The whitespace branch of one pass. */
  lemma StepWhitespace(cfg: Config, src: Source, k: int)
    requires src.Loaded() && -1 <= k < |src.code.value|
    requires AtWhitespace(cfg, src.code.value, k)
    ensures var e := WsRun(cfg, src.code.value, k + 1);
            Step(cfg, src, k) ==
              Scanned(if cfg.whitespaceInclude
                      then Some(Plain(src, PosAt(src.code.value, k), cfg.kinds.whitespace, "", k, e))
                      else None, e)
  {
  }

  /** The branches of one pass at a character that is not whitespace. */
  lemma StepChar(cfg: Config, src: Source, k: int)
    requires src.Loaded() && 0 <= k < |src.code.value|
    requires !AtWhitespace(cfg, src.code.value, k)
    ensures var text, c := src.code.value, src.code.value[k];
            Step(cfg, src, k) ==
              if c in cfg.quotes then ScanString(cfg, src, k)
              else if IsDigit(c) then ScanNumber(cfg, src, k)
              else if c in cfg.delimiterChars then
                Scanned(Some(Plain(src, PosAt(text, k), cfg.kinds.delimiter, TokenName(cfg, [c]), k, k + 1)), k + 1)
              else if c in cfg.operatorChars then ScanOperator(cfg, src, k)
              else if IsAlpha(c) then ScanWord(cfg, src, k)
              else Failed(UnexpectedChar(PosAt(text, k), Char(c), ""))
  {
  }

  /** Emitting a token moves it from the rest of the result to the list. */
  lemma AppendPrepend(ts: seq<Token>, t: Option<Token>, r: LexResult)
    ensures Append(ts, Prepend(t, r)) == Append(ts + (if t.Some? then [t.value] else []), r)
  {
    if r.Lexed? {
      assert ts + ((if t.Some? then [t.value] else []) + r.tokens) ==
             (ts + (if t.Some? then [t.value] else [])) + r.tokens;
    }
  }

  /** True when a successful result ends in exactly one end-of-file token: the
      last token has the sentinel range (-1, -1) and no earlier one does, the
      earlier tokens start at increasing indices from `k` on, and each stores
      the location of its start. */
  ghost predicate WellShaped(cfg: Config, src: Source, k: int, ts: seq<Token>)
    requires src.Loaded() && k >= -1
  {
    |ts| >= 1 &&
    ts[|ts| - 1].kind == cfg.kinds.eof && ts[|ts| - 1].lo == -1 && ts[|ts| - 1].hi == -1 &&
    TokensFrom(cfg, src, k, ts) && Ordered(ts)
  }

  /** Each token before the last starts at or after `k`, has `lo <= hi`,
      stores the location of its start and, when that kind is unique, is not
      of the end-of-file kind. */
  ghost predicate TokensFrom(cfg: Config, src: Source, k: int, ts: seq<Token>)
    requires src.Loaded() && k >= -1
  {
    forall i :: 0 <= i < |ts| - 1 ==>
      k <= ts[i].lo <= ts[i].hi && 0 <= ts[i].hi && ts[i].loc == PosAt(src.code.value, ts[i].lo) &&
      (EofKindUnique(cfg.kinds) ==> ts[i].kind != cfg.kinds.eof)
  }

  /** The tokens before the last start at increasing indices and none
      overlaps the next. */
  ghost predicate Ordered(ts: seq<Token>)
  {
    forall i :: 0 <= i < |ts| - 2 ==> ts[i].lo < ts[i + 1].lo && ts[i].hi <= ts[i + 1].lo
  }

  /** The loop of `gen_tokens` from index `k`. */
  function LexFrom(cfg: Config, src: Source, k: int): LexResult
    requires src.Loaded() && -1 <= k
    decreases |src.code.value| + 1 - k
  {
    if k >= |src.code.value| then Lexed([EofToken(cfg, src, k)])
    else match Step(cfg, src, k)
      case Failed(e) => LexFailed(e)
      case Scanned(t, n) => Prepend(t, LexFrom(cfg, src, n))
  }

  /** Every successful result from `k` on is well shaped. */
  lemma {:induction false} LexFromWellShaped(cfg: Config, src: Source, k: int)
    requires src.Loaded() && -1 <= k
    decreases |src.code.value| + 1 - k
    ensures var r := LexFrom(cfg, src, k);
            r.Lexed? ==> WellShaped(cfg, src, k, r.tokens)
  {
    if k < |src.code.value| {
      match Step(cfg, src, k)
      case Failed(_) =>
      case Scanned(t, n) =>
        StepShape(cfg, src, k);
        LexFromWellShaped(cfg, src, n);
        var r := LexFrom(cfg, src, n);
        if r.Lexed? {
          match t
          case Some(tok) => WellShapedCons(cfg, src, k, tok, n, r.tokens);
          case None => WellShapedFrom(cfg, src, k, n, r.tokens);
        }
    }
  }

  /** A token a pass emits in front of a well-shaped rest keeps it well shaped. */
  lemma WellShapedCons(cfg: Config, src: Source, k: int, t: Token, n: int, rest: seq<Token>)
    requires src.Loaded() && -1 <= k < n && WellShaped(cfg, src, n, rest)
    requires t.lo == k <= t.hi <= n && 0 <= t.hi && t.loc == PosAt(src.code.value, k)
    requires EofKindUnique(cfg.kinds) ==> t.kind != cfg.kinds.eof
    ensures WellShaped(cfg, src, k, [t] + rest)
  {
    var ts := [t] + rest;
    assert ts[|ts| - 1] == rest[|rest| - 1];
    ConsTokens(cfg, src, k, t, n, rest);
    ConsOrder(cfg, src, k, t, n, rest);
  }

  /** A rest that is well shaped from `n` is well shaped from any `k <= n`. */
  lemma WellShapedFrom(cfg: Config, src: Source, k: int, n: int, rest: seq<Token>)
    requires src.Loaded() && -1 <= k <= n && WellShaped(cfg, src, n, rest)
    ensures WellShaped(cfg, src, k, rest)
  {
    assert TokensFrom(cfg, src, k, rest);
  }

  lemma ConsTokens(cfg: Config, src: Source, k: int, t: Token, n: int, rest: seq<Token>)
    requires src.Loaded() && -1 <= k < n && |rest| >= 1 && TokensFrom(cfg, src, n, rest)
    requires t.lo == k <= t.hi && 0 <= t.hi && t.loc == PosAt(src.code.value, k)
    requires EofKindUnique(cfg.kinds) ==> t.kind != cfg.kinds.eof
    ensures TokensFrom(cfg, src, k, [t] + rest)
  {
    var ts := [t] + rest;
    forall i | 1 <= i < |ts| - 1 ensures ts[i] == rest[i - 1] { }
  }

  lemma ConsOrder(cfg: Config, src: Source, k: int, t: Token, n: int, rest: seq<Token>)
    requires src.Loaded() && -1 <= k < n && |rest| >= 1
    requires TokensFrom(cfg, src, n, rest) && Ordered(rest)
    requires t.lo == k && t.hi <= n
    ensures Ordered([t] + rest)
  {
    var ts := [t] + rest;
    forall i | 1 <= i < |ts| - 1 ensures ts[i] == rest[i - 1] { }
  }

  /** Whitespace, comments and documentation are all configured as included. */
  predicate AllIncluded(cfg: Config) {
    cfg.whitespaceInclude && cfg.comment.included && cfg.document.included
  }

  /** The tokens before the end-of-file token tile the text from `k`: the
      first starts at `k`, each starts where the one before it ends, and the
      last ends at the end of the text, or is an unterminated string, whose
      range is empty. */
  ghost predicate Tiles(src: Source, k: int, ts: seq<Token>)
    requires src.Loaded() && |ts| >= 1
  {
    var n := |src.code.value|;
    (k < n ==> |ts| >= 2 && ts[0].lo == k) &&
    (forall i :: 0 <= i < |ts| - 2 ==> ts[i].hi == ts[i + 1].lo) &&
    (|ts| >= 2 ==> ts[|ts| - 2].hi == n || ts[|ts| - 2].hi == ts[|ts| - 2].lo)
  }

  /** When every form is included, no pass is silent, so the token ranges
      cover the text without gaps. */
  lemma {:induction false} LexFromTiles(cfg: Config, src: Source, k: int)
    requires src.Loaded() && -1 <= k && AllIncluded(cfg)
    decreases |src.code.value| + 1 - k
    ensures var r := LexFrom(cfg, src, k);
            r.Lexed? ==> |r.tokens| >= 1 && Tiles(src, k, r.tokens)
  {
    if k < |src.code.value| {
      match Step(cfg, src, k)
      case Failed(_) =>
      case Scanned(t, n) =>
        StepShape(cfg, src, k);
        LexFromTiles(cfg, src, n);
        var r := LexFrom(cfg, src, n);
        if r.Lexed? && n >= |src.code.value| {
          assert r.tokens == [EofToken(cfg, src, n)];
        }
    }
  }

  /** The priming pass's range starts at -1, which Python's slice reads as
      the last character: unless the text is whitespace throughout, the
      token's value is the empty string, not the whitespace it covers, and for
      a text of whitespace only it is just the last character. */
  lemma PrimingValue(cfg: Config, src: Source)
    requires src.Loaded() && cfg.whitespaceInclude
    ensures var text := src.code.value;
            var e, t := WsRun(cfg, text, 0), Step(cfg, src, -1).token.value;
            (e < |text| || |text| == 0) ==> t.Value() == Some("")
    ensures var text := src.code.value;
            var e, t := WsRun(cfg, text, 0), Step(cfg, src, -1).token.value;
            0 < e == |text| ==> t.Value() == Some([text[|text| - 1]])
  {
    PrimingStep(cfg, src);
    PrimingRange(src, cfg.kinds.whitespace, WsRun(cfg, src.code.value, 0));
  }

  /** The value of a token over (-1, e), for `e` within the text. */
  lemma PrimingRange(src: Source, kind: string, e: int)
    requires src.Loaded() && 0 <= e <= |src.code.value|
    ensures var text, t := src.code.value, Plain(src, Start, kind, "", -1, e);
            (e < |text| || |text| == 0) ==> t.Value() == Some("")
    ensures var text, t := src.code.value, Plain(src, Start, kind, "", -1, e);
            0 < e == |text| ==> t.Value() == Some([text[|text| - 1]])
  {
    var text := src.code.value;
    assert Plain(src, Start, kind, "", -1, e).Value() == Some(PySlice(text, -1, e));
    if 0 < e == |text| {
      assert text[|text| - 1..|text|] == [text[|text| - 1]];
    }
  }

  /** The values of the tokens do not give the text back: over "  x" the
      priming token covers the two blanks, but its value is empty. */
  lemma PrimingValueExample(cfg: Config, src: Source)
    requires src.Loaded() && src.code.value == "  x" && cfg.whitespaceInclude
    requires ' ' in cfg.whitespaceChars && 'x' !in cfg.whitespaceChars
    ensures var t := Step(cfg, src, -1).token.value;
            t.lo == -1 && t.hi == 2 && src.code.value[0..t.hi] == "  " && t.Value() == Some("")
  {
    var text := src.code.value;
    assert WsRun(cfg, text, 2) == 2;
    assert WsRun(cfg, text, 0) == 2;
    PrimingValue(cfg, src);
  }

  /** An unterminated string's token has an empty value. */
  lemma UnterminatedStringValue(cfg: Config, src: Source, k: int)
    requires src.Loaded()
    requires 0 <= k < |src.code.value| && src.code.value[k] in cfg.quotes
    requires forall c :: k < c < |src.code.value| ==> !Closes(cfg, src.code.value, k, c)
    ensures ScanString(cfg, src, k).token.value.Value() == Some("")
  {
    ScanStringCloses(cfg, src, k);
  }

  /** `gen_tokens`: the whole text from the lexer's starting index -1. */
  function Tokenize(cfg: Config, src: Source): (r: LexResult)
    requires src.Loaded()
    ensures r.Lexed? ==> WellShaped(cfg, src, -1, r.tokens)
  {
    LexFromWellShaped(cfg, src, -1);
    LexFrom(cfg, src, -1)
  }

  /** A text made only of whitespace gives just the end-of-file token, preceded
      by one whitespace token over the priming range (-1, |text|) when
      whitespace is included. */
  lemma WhitespaceOnly(cfg: Config, src: Source)
    requires src.Loaded()
    requires forall i :: 0 <= i < |src.code.value| ==> src.code.value[i] in cfg.whitespaceChars
    ensures var n := |src.code.value|;
            Tokenize(cfg, src) ==
              if cfg.whitespaceInclude
              then Lexed([Plain(src, Start, cfg.kinds.whitespace, "", -1, n), EofToken(cfg, src, n)])
              else Lexed([EofToken(cfg, src, n)])
  {
    var n := |src.code.value|;
    assert WsRun(cfg, src.code.value, 0) == n;
    assert LexFrom(cfg, src, n) == Lexed([EofToken(cfg, src, n)]);
  }

  /** The first pass is always the whitespace branch: it advances from -1 to 0
      (so the first column is already 2) and, when whitespace is included,
      emits a token whose range starts at -1. */
  lemma PrimingStep(cfg: Config, src: Source)
    requires src.Loaded()
    ensures var e := WsRun(cfg, src.code.value, 0);
            Step(cfg, src, -1) ==
              Scanned(if cfg.whitespaceInclude
                      then Some(Plain(src, Start, cfg.kinds.whitespace, "", -1, e))
                      else None, e)
    ensures PosAt(src.code.value, 0).column == 2
  {
  }

  /** A delimiter gives a one-character token of the delimiter kind, named by
      the `tokens` table. */
  lemma DelimiterToken(cfg: Config, src: Source, k: int)
    requires src.Loaded() && 0 <= k < |src.code.value|
    requires var c := src.code.value[k];
             c !in cfg.whitespaceChars && c !in cfg.quotes && !IsDigit(c) && c in cfg.delimiterChars
    ensures var r, c := Step(cfg, src, k), src.code.value[k];
            r.Scanned? && r.next == k + 1 && r.token.Some? &&
            r.token.value.kind == cfg.kinds.delimiter &&
            r.token.value.subkind == TokenName(cfg, [c]) &&
            r.token.value.Value() == Some([c])
  {
    var text := src.code.value;
    assert text[k..k + 1] == [text[k]];
  }
}
