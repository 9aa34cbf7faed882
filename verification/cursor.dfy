/**
 The lexer's cursor state over an immutable source buffer, and the
 primitives that read and move it: `is_at_end`, `advance`, `match_char`,
 `peek`, `peek_next` and `add_token`.
 */
module Cursor {
  import opened Ascii
  import opened Tokens

  /** The four lexical failures, each with the position data its message carries. */
  datatype LexError =
    | UnexpectedChar(c: byte, line: int, column: int)
    | UnterminatedString(line: int)
    | UnterminatedBlockComment(line: int)
    | MalformedEllipsis(line: int)

  /**
   The scanner: the source, the first byte of the current lexeme (`start`),
   the next unread byte (`current`), the line/column counters, and the
   tokens produced so far.
   */
  datatype Lexer = Lexer(
    source: seq<byte>,
    start: nat,
    current: nat,
    line: int,
    column: int,
    tokens: seq<Token>)

  /** The span `[start, current)` lies inside the source, so it can be sliced. */
  predicate Valid(lx: Lexer) {
    lx.start <= lx.current <= |lx.source|
  }

  /** A fresh scanner: nothing consumed, line 1, column 1, no tokens. */
  function New(source: seq<byte>): (lx: Lexer)
    ensures Valid(lx) && lx.source == source && lx.tokens == []
    ensures lx.current == 0 && lx.line == 1 && lx.column == 1
  {
    Lexer(source, 0, 0, 1, 1, [])
  }

  /** Same source buffer and same lexeme start. */
  predicate Same(lx: Lexer, r: Lexer) {
    r.source == lx.source && r.start == lx.start
  }

  predicate IsAtEnd(lx: Lexer) {
    lx.current >= |lx.source|
  }

  /** The next unread byte, or NUL past the end. */
  function Peek(lx: Lexer): byte {
    if IsAtEnd(lx) then NUL else lx.source[lx.current]
  }

  /** The byte after the next unread one, or NUL when there is none. */
  function PeekNext(lx: Lexer): byte {
    if lx.current + 1 >= |lx.source| then NUL else lx.source[lx.current + 1]
  }

  /**
   Consumes one byte: it returns exactly the byte `Peek` reports and moves
   `current` on by one unless at the end, with the column keeping step;
   nothing else changes.
   */
  function Advance(lx: Lexer): (r: (Lexer, byte))
    ensures r.1 == Peek(lx)
    ensures Same(lx, r.0) && r.0.tokens == lx.tokens && r.0.line == lx.line
    ensures IsAtEnd(lx) ==> r.0 == lx
    ensures !IsAtEnd(lx) ==> r.0.current == lx.current + 1 && r.0.column == lx.column + 1
  {
    if IsAtEnd(lx) then (lx, NUL)
    else (lx.(current := lx.current + 1, column := lx.column + 1), lx.source[lx.current])
  }

  /**
   Conditional advance: it succeeds exactly when the next byte exists and
   is `expected`, and then moves the cursor as `Advance` does; otherwise the
   state is unchanged.
   */
  function MatchChar(lx: Lexer, expected: byte): (r: (Lexer, bool))
    ensures r.1 <==> !IsAtEnd(lx) && Peek(lx) == expected
  {
    if IsAtEnd(lx) then (lx, false)
    else if lx.source[lx.current] != expected then (lx, false)
    else (lx.(current := lx.current + 1, column := lx.column + 1), true)
  }

  /**
   Pushes one token whose lexeme is the slice `[start, current)`, stamped
   with the line and column the cursor has after the lexeme.
   */
  function AddToken(lx: Lexer, k: TokenType): (r: Lexer)
    requires Valid(lx)
    ensures Valid(r) && r.tokens == lx.tokens + [Token(k, lx.source[lx.start..lx.current], lx.line, lx.column)]
    ensures Same(lx, r) && r.current == lx.current && r.line == lx.line && r.column == lx.column
  {
    lx.(tokens := lx.tokens + [Token(k, lx.source[lx.start..lx.current], lx.line, lx.column)])
  }

  /** `peek_next` looks exactly one byte further than `peek` would after an advance. */
  lemma PeekNextIsPeekAfterAdvance(lx: Lexer)
    ensures PeekNext(lx) == Peek(Advance(lx).0)
  {
  }

  /** Advancing keeps the span valid and never moves past the end of the source. */
  lemma AdvanceStaysInside(lx: Lexer)
    requires Valid(lx)
    ensures Valid(Advance(lx).0) && Advance(lx).0.current <= |lx.source|
  {
  }

  /** The cursor moved `n` bytes along the current line. */
  function Jump(lx: Lexer, n: nat): (r: Lexer)
    ensures Same(lx, r) && r.tokens == lx.tokens && r.line == lx.line
    ensures r.current == lx.current + n && r.column == lx.column + n
  {
    lx.(current := lx.current + n, column := lx.column + n)
  }

  /** Inside the source, `advance` is a one-byte jump that yields the byte under the cursor. */
  lemma AdvanceStep(lx: Lexer)
    requires !IsAtEnd(lx)
    ensures Advance(lx) == (Jump(lx, 1), lx.source[lx.current])
  {
  }

  /** `match_char` is a one-byte jump when the expected byte is next, and changes nothing otherwise. */
  lemma MatchStep(lx: Lexer, expected: byte)
    ensures MatchChar(lx, expected)
         == if !IsAtEnd(lx) && Peek(lx) == expected then (Jump(lx, 1), true) else (lx, false)
  {
  }

  /** Two jumps along a line are one jump. */
  lemma JumpJump(lx: Lexer, a: nat, b: nat)
    ensures Jump(Jump(lx, a), b) == Jump(lx, a + b)
  {
  }
}
