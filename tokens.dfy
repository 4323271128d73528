/**
 * The token model: the closed set of lexical categories and the token value.
 * The three literal-bearing kinds carry their decoded payload inline.
 */
module Tokens {

  /** A 64-bit float payload. Its arithmetic and text form are not modelled. */
  type Num(==, !new)

  datatype TokenType =
    // Single-character tokens.
    | LeftParen | RightParen | LeftBrace | RightBrace | Comma | Dot
    | Minus | Plus | Semicolon | Slash | Star
    // One or two character tokens.
    | Bang | BangEqual | Equal | EqualEqual
    | Greater | GreaterEqual | Less | LessEqual
    // Literals.
    | Identifier(name: string) | LoxString(text: string) | Number(value: Num)
    // Keywords.
    | And | Class | Else | False | Fun | For | If | Nil | Or
    | Print | Return | Super | This | True | Var | While
    | Eof

  /** A token: its kind and the 1-based source line it was scanned on. */
  datatype Token = Token(kind: TokenType, line: nat)
}
