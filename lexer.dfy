/**
 * The interface of the spec lexer (internal/lexer), whose source is not part
 * of this model. Its tokeniser is passed around as a function value.
 */
module Lexer {
  import opened Wrappers
  import opened Errors

  /** Token classes of the spec grammar; only `TTArg` (a positional name) matters to the command layer. */
  datatype TokenType =
    | TTArg | TTShortOpt | TTLongOpt | TTOptSeq | TTOptValue | TTOptions
    | TTOpenSq | TTCloseSq | TTOpenPar | TTClosePar | TTChoice | TTRep | TTDoubleDash

  datatype Token = Token(typ: TokenType, val: string, pos: nat)

  /** `lexer.Tokenize`: spec text to tokens, or a lexing error. */
  type Tokenizer = string -> Result<seq<Token>, Error>
}
