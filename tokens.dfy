/** Token.py: a token is a record of its type, its value and its line number. */
module Tokens {
  import opened Values

  /** The token type names defined at the top of Lexer.py. */
  datatype TokenType =
    | Integer | Plus | Minus | Mul | Div | Mod | Eof | Declare | Identifier
    | LBracket | RBracket | LParent | RParent | LBrace | RBrace
    | Loop | If | Else | Output | Assign | Semicolon
    | Incrementor | Decrementor | ConditionalCombinator | ConditionalOp | Negator

  /** `value` is an int for INTEGER, None for EOF and the lexeme otherwise. */
  datatype Token = Token(kind: TokenType, value: Value, line: nat)
}
