/** The forward-only token cursor a parser consumes
    (`TokenStream` in minilang/lexing/stream.py). */
module Stream {
  import opened Code
  import opened LexConfig
  import opened LexSpec
  import opened Tokenize

  /** The attribute of the current token that `is_token`, `is_kind` and
      `is_subkind` (and their `match_`/`expect_` forms) compare. */
  datatype TokenField = ValueField | KindField | SubkindField

  /** The category name `expect_*` hands to the unexpected-token handler. */
  function FieldName(f: TokenField): string
  {
    match f
    case ValueField => "value"
    case KindField => "kind"
    case SubkindField => "subkind"
  }

  /** The compared attribute of `t`; a token's `value` is `None` over a source
      that was never loaded, and `None` is never among the candidate strings. */
  function FieldOf(t: Token, f: TokenField): Option<string>
  {
    match f
    case ValueField => t.Value()
    case KindField => Some(t.kind)
    case SubkindField => Some(t.subkind)
  }

  /** The attribute of `t` is one of `candidates`. */
  predicate In(t: Token, f: TokenField, candidates: seq<string>)
  {
    var v := FieldOf(t, f);
    v.Some? && v.value in candidates
  }

  /** The result of the `token` property: a token, or the end of the process
      (an error message on stderr and exit status 1). */
  datatype Lookup = Found(token: Token) | Aborted

  /** The result of `expect_*`: `True` after advancing, `None` after the
      handler was told, or the end of the process with exit status 1. */
  datatype Expectation = Accepted | Reported | Exited

  /** One call of the `on_unexpected` handler: the source, the current token,
      the expected candidates, the category and the actual attribute. */
  datatype Report = Report(
    source: Source, token: Token, expected: seq<string>, category: string, actual: Option<string>)

  class TokenStream {
    const tokens: seq<Token>
    const source: Source
    /** Whether an `on_unexpected` handler was given; its calls are recorded in `reports`. */
    const hasUnexpectedHandler: bool
    /** The `on_end_of_tokens` handler, which maps the source to a token, if given. */
    const onEndOfTokens: Option<Source -> Token>
    const kindDelimiter: Option<string>
    var idx: int
    var reports: seq<Report>

    constructor (source: Source, tokens: seq<Token>, hasUnexpectedHandler: bool,
                 onEndOfTokens: Option<Source -> Token>, kindDelimiter: Option<string>)
      ensures this.source == source && this.tokens == tokens
      ensures this.hasUnexpectedHandler == hasUnexpectedHandler
      ensures this.onEndOfTokens == onEndOfTokens && this.kindDelimiter == kindDelimiter
      ensures idx == 0 && reports == []
    {
      this.source, this.tokens := source, tokens;
      this.hasUnexpectedHandler := hasUnexpectedHandler;
      this.onEndOfTokens, this.kindDelimiter := onEndOfTokens, kindDelimiter;
      idx, reports := 0, [];
    }

    /** `len(stream)` */
    function Length(): nat
    {
      |tokens|
    }

    /** `eot`: the cursor is at or past the end of the tokens. */
    predicate Eot()
      reads this
    {
      idx >= Length()
    }

    /** `token`: the token under the cursor while there is one; past the end,
        what the end-of-tokens handler makes of the source, or the end of the
        process when there is no handler. */
    function Current(): (r: Lookup)
      reads this
      ensures 0 <= idx && !Eot() ==> r == Found(tokens[idx])
      ensures !(0 <= idx < Length()) && onEndOfTokens.Some? ==> r == Found(onEndOfTokens.value(source))
      ensures r.Aborted? <==> !(0 <= idx < Length()) && onEndOfTokens.None?
    {
      if 0 <= idx < Length() then Found(tokens[idx])
      else if onEndOfTokens.Some? then Found(onEndOfTokens.value(source))
      else Aborted
    }

    /** `advance`: one step forward, with no bounds check. */
    method Advance() returns (r: bool)
      modifies this
      ensures r && idx == old(idx) + 1 && reports == old(reports)
    {
      idx := idx + 1;
      r := true;
    }

    /** `get`: the current token, and the cursor one further; when reading the
        token ends the process, nothing advances. */
    method Get() returns (r: Lookup)
      modifies this
      ensures r == old(Current())
      ensures idx == old(idx) + (if r.Found? then 1 else 0)
      ensures reports == old(reports)
    {
      r := Current();
      if r.Found? {
        var advanced := Advance();
      }
    }

    /** `is_token`, `is_kind`, `is_subkind`: the current token's value, kind or
        subkind is one of the candidates. The source indexes the list without a
        check, so the cursor must be on a token. */
    predicate Is(f: TokenField, candidates: seq<string>)
      reads this
      requires 0 <= idx < Length()
    {
      In(tokens[idx], f, candidates)
    }

    /** `match_token`, `match_kind`, `match_subkind`: advances exactly when the
        current token matches, and says whether it did. */
    method Match(f: TokenField, candidates: seq<string>) returns (r: bool)
      requires 0 <= idx < Length()
      modifies this
      ensures r <==> old(Is(f, candidates))
      ensures idx == old(idx) + (if r then 1 else 0)
      ensures reports == old(reports)
    {
      r := Is(f, candidates);
      if r {
        r := Advance();
      }
    }

    /** `expect_token`, `expect_kind`, `expect_subkind`: advances over a
        matching token; on a mismatch the cursor stays, and the handler is told
        once about the token, what was expected, the category and the actual
        attribute, or, without a handler, the process ends. */
    method Expect(f: TokenField, candidates: seq<string>) returns (r: Expectation)
      requires 0 <= idx < Length()
      modifies this
      ensures old(Is(f, candidates)) ==>
                r == Accepted && idx == old(idx) + 1 && reports == old(reports)
      ensures !old(Is(f, candidates)) ==> idx == old(idx)
      ensures !old(Is(f, candidates)) && hasUnexpectedHandler ==>
                r == Reported &&
                reports == old(reports) +
                  [Report(source, tokens[idx], candidates, FieldName(f), FieldOf(tokens[idx], f))]
      ensures !old(Is(f, candidates)) && !hasUnexpectedHandler ==>
                r == Exited && reports == old(reports)
    {
      if Is(f, candidates) {
        var advanced := Advance();
        r := Accepted;
      } else if hasUnexpectedHandler {
        var t := tokens[idx];
        reports := reports + [Report(source, t, candidates, FieldName(f), FieldOf(t, f))];
        r := Reported;
      } else {
        r := Exited;
      }
    }
  }

  /** Over the tokens of a successful tokenization, a test for the end-of-file
      kind holds exactly at the last token, so a parser that matches it has
      consumed everything else. */
  lemma EofKindOnlyAtEnd(s: TokenStream, cfg: Config)
    requires s.source.Loaded() && EofKindUnique(cfg.kinds)
    requires Tokenize.Tokenize(cfg, s.source) == Lexed(s.tokens)
    requires 0 <= s.idx < |s.tokens|
    ensures s.Is(KindField, [cfg.kinds.eof]) <==> s.idx == |s.tokens| - 1
  {
    assert WellShaped(cfg, s.source, -1, s.tokens);
  }
}
