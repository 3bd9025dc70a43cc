/** The lexer's configuration as a typed record. The repository reads it from a
    JSON document through a dictionary wrapper; here every key the scanner
    consults is a field. */
module LexConfig {
  import opened Ascii
  import opened Code

  /** `kinds`: the kind name given to each category of token. */
  datatype Kinds = Kinds(
    whitespace: string, word: string, keyword: string, number: string,
    delimiter: string, operator: string, str: string, comment: string,
    documentation: string, eof: string)

  /** One entry of `number.integer.base`: the digit alphabet and subkind of a base. */
  datatype BaseEntry = BaseEntry(digits: string, subkind: string)

  /** `comment` or `document`: the line marker, the block markers, the subkinds
      and whether such tokens are emitted. */
  datatype CommentForm = CommentForm(
    line: string, blockBegin: string, blockEnd: string,
    subkind: string, blockSubkind: string, included: bool)

  datatype Config = Config(
    kinds: Kinds,
    whitespaceChars: set<char>,        // whitespace.chars
    whitespaceInclude: bool,           // whitespace.include
    quotes: map<char, string>,         // string.delimiters, each with string[q].subkind
    escapeMark: char,                  // string.escape.mark
    numberSubkind: string,             // number.subkind
    separator: Option<char>,           // number.separator; None unless it is one character
    baseChars: string,                 // number.integer.base_chars
    bases: map<char, BaseEntry>,       // number.integer.base
    operatorChars: set<char>,          // operator.chars
    operatorMaxLength: int,            // operator.max_length
    delimiterChars: set<char>,         // delimiter.chars
    comment: CommentForm,              // comment
    document: CommentForm,             // document
    reserved: set<string>,             // keyword.reserved
    reservedSubkind: string,           // keyword.subkind
    subkinds: seq<string>,             // keyword.subkinds, in declared order
    keywordSets: map<string, set<string>>,  // keyword[name] for each subset name
    wordSubkind: string,               // word.subkind
    wordMaxLength: int,                // word.max_length
    tokenNames: map<string, string>)   // tokens: literal text to subkind name

  /** `tokens.get(text, '')` */
  function TokenName(cfg: Config, text: string): (r: string)
    ensures text in cfg.tokenNames ==> r == cfg.tokenNames[text]
    ensures text !in cfg.tokenNames ==> r == ""
  {
    if text in cfg.tokenNames then cfg.tokenNames[text] else ""
  }

  /** `c == number.separator`: a separator that is not exactly one character
      (the empty string, say) never equals a character of the text. */
  predicate IsSeparator(cfg: Config, c: char) {
    cfg.separator == Some(c)
  }

  /** No other category shares the end-of-file kind name. */
  predicate EofKindUnique(k: Kinds) {
    k.eof !in {k.whitespace, k.word, k.keyword, k.number, k.delimiter,
               k.operator, k.str, k.comment, k.documentation}
  }
}
