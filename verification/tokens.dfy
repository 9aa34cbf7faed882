/** The closed set of token kinds and the token record. */
module Tokens {
  import opened Ascii

  datatype TokenType =
    | Eof
      // identifiers and literals
    | Identifier | NumberLiteral | StringLiteral
      // keywords: structures
    | Class | Interface | Import | Package | Enum | Struct | Protected | Private
    | Override | This | New | Super | Constructor | Data | Typeof | Annotation
      // control flow
    | If | Else | Elif | While | For | Loop | Break | Continue
      // functions
    | Async | Await | Function | Return
      // literal words
    | True | False | Null
      // bindings
    | Mut | Val
      // word operators
    | And | Or | Not | Is | In | Of
      // error handling and switch (declared, never produced)
    | Try | Catch | Finally | Throw
    | Switch | Case | Default
      // operator symbols
    | Plus | Minus | Star | Slash | Percent | AndAnd | OrOr | NotBang | NotEqual
    | EqualEqual | Colon | Greater | Less | GreaterEqual | LessEqual | MinusMinus
    | PlusPlus | Dollar | BangBang
      // assignment
    | Equal
      // brackets
    | LeftParen | RightParen | LeftBrace | RightBrace | LeftBracket | RightBracket
      // lambdas
    | Arrow | FatArrow | ColonColon | Question | Ellipsis
    | BitAnd | BitOr | BitXor
    | ShiftLeft | ShiftRight
    | AT
      // punctuation
    | Comma | Dot | Semicolon

  /** A token: its kind, the exact source bytes, and the cursor line/column after it. */
  datatype Token = Token(tokenType: TokenType, lexeme: seq<byte>, line: int, column: int)

  /** Kinds that are declared but that no dispatch case and no keyword yields. */
  predicate IsUnused(k: TokenType) {
    k.Try? || k.Catch? || k.Finally? || k.Throw? || k.Switch? || k.Case? || k.Default? || k.FatArrow? || k.BitXor?
  }

  /** Kinds a scan step can put in front of the end-of-input sentinel. */
  predicate Producible(k: TokenType) {
    k != Eof && !IsUnused(k)
  }
}
