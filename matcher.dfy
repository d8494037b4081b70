/**
 * The interfaces of the spec parser (internal/parser) and of the matcher it
 * builds (internal/fsm), whose sources are not part of this model. Both are
 * passed around as function values.
 */
module Matcher {
  import opened Wrappers
  import opened Errors
  import opened Lexer

  /** `Parse` of a compiled matcher: accepts one command's slice of the arguments or returns an error. */
  type Fsm = seq<string> -> Option<Error>

  /** `parser.Parse` applied to one command's descriptors: tokens to matcher, or a parse error. */
  type Parser = seq<Token> -> Result<Fsm, Error>
}
