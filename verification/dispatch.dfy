/**
 One scan step: `scan_tokens` consumes the next byte and dispatches on it,
 to whitespace and newline handling, comments, strings, operators with one
 byte of look-ahead, numbers and identifiers, or an unexpected-character
 error.
 */
module Dispatch {
  import opened Ascii
  import opened Tokens
  import opened Cursor
  import opened Wrappers
  import opened Scanners

  predicate IsQuote(c: byte) {
    c == '"' || c == '\''
  }

  /** The two bytes `a`, `b` stand at `i`. */
  predicate PairAt(src: seq<byte>, i: nat, a: byte, b: byte) {
    i + 1 < |src| && src[i] == a && src[i + 1] == b
  }

  /** `if match_char(next) { long } else { short }`, each arm pushing its token. */
  function Either(lx: Lexer, next: byte, long: TokenType, short: TokenType): (r: Lexer)
    requires Valid(lx)
  {
    var (l2, m) := MatchChar(lx, next);
    AddToken(l2, if m then long else short)
  }

  /** Two look-ahead tries in order, then the single-byte kind. */
  function Either3(lx: Lexer, next1: byte, k1: TokenType, next2: byte, k2: TokenType, short: TokenType): (r: Lexer)
    requires Valid(lx)
  {
    var (l2, m1) := MatchChar(lx, next1);
    if m1 then AddToken(l2, k1)
    else
      var (l3, m2) := MatchChar(lx, next2);
      AddToken(l3, if m2 then k2 else short)
  }

  /**
   One scan step from the cursor: consume one byte and dispatch on it. What
   a step does is stated case by case by the lemmas below.
   */
  function ScanToken(lx: Lexer): (r: Result<Lexer, LexError>)
    requires Valid(lx)
  {
    var (l1, c) := Advance(lx);
    match c
    case ' ' | '\r' | '\t' => Ok(l1)
    case '\n' => Ok(l1.(line := l1.line + 1, column := 1))
    case '/' =>
      var (l2, slash) := MatchChar(l1, '/');
      if slash then Ok(SkipLineComment(l2))
      else
        var (l3, star) := MatchChar(l1, '*');
        if star then BlockComment(l3) else Ok(AddToken(l1, Slash))
    case '"' | '\'' => ScanString(l1)
    case '+' => Ok(Either(l1, '+', PlusPlus, Plus))
    case '-' => Ok(Either3(l1, '-', MinusMinus, '>', Arrow, Minus))
    case '*' => Ok(AddToken(l1, Star))
    case '%' => Ok(AddToken(l1, Percent))
    case '=' => Ok(Either(l1, '=', EqualEqual, Equal))
    case '!' => Ok(Either3(l1, '=', NotEqual, '!', BangBang, NotBang))
    case '>' => Ok(Either3(l1, '=', GreaterEqual, '>', ShiftRight, Greater))
    case '<' => Ok(Either3(l1, '=', LessEqual, '<', ShiftLeft, Less))
    case '&' => Ok(Either(l1, '&', AndAnd, BitAnd))
    case '|' => Ok(Either(l1, '|', OrOr, BitOr))
    case ':' => Ok(Either(l1, ':', ColonColon, Colon))
    case '.' =>
      var (l2, two) := MatchChar(l1, '.');
      if two then
        var (l3, three) := MatchChar(l2, '.');
        if three then Ok(AddToken(l3, Ellipsis)) else Err(MalformedEllipsis(l3.line))
      else Ok(AddToken(l1, Dot))
    case '?' => Ok(AddToken(l1, Question))
    case ',' => Ok(AddToken(l1, Comma))
    case ';' => Ok(AddToken(l1, Semicolon))
    case '(' => Ok(AddToken(l1, LeftParen))
    case ')' => Ok(AddToken(l1, RightParen))
    case '{' => Ok(AddToken(l1, LeftBrace))
    case '}' => Ok(AddToken(l1, RightBrace))
    case '[' => Ok(AddToken(l1, LeftBracket))
    case ']' => Ok(AddToken(l1, RightBracket))
    case '$' => Ok(AddToken(l1, Dollar))
    case '@' => Ok(AddToken(l1, AT))
    case _ =>
      if IsDigit(c) then Ok(ScanNumber(l1))
      else if IsAlpha(c) then Ok(ScanIdentifier(l1))
      else Err(UnexpectedChar(c, l1.line, l1.column))
  }

  /** What `Either` pushes, in terms of the byte after the cursor. */
  lemma EitherStep(lx: Lexer, next: byte, long: TokenType, short: TokenType)
    requires Valid(lx)
    ensures Either(lx, next, long, short)
         == if !IsAtEnd(lx) && Peek(lx) == next then AddToken(Jump(lx, 1), long) else AddToken(lx, short)
  {
    MatchStep(lx, next);
  }

  /** What `Either3` pushes, in terms of the byte after the cursor. */
  lemma Either3Step(lx: Lexer, next1: byte, k1: TokenType, next2: byte, k2: TokenType, short: TokenType)
    requires Valid(lx)
    ensures Either3(lx, next1, k1, next2, k2, short)
         == if !IsAtEnd(lx) && Peek(lx) == next1 then AddToken(Jump(lx, 1), k1)
            else if !IsAtEnd(lx) && Peek(lx) == next2 then AddToken(Jump(lx, 1), k2)
            else AddToken(lx, short)
  {
    MatchStep(lx, next1);
    MatchStep(lx, next2);
  }
}
