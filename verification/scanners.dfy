/**
 The sub-scanners the dispatcher hands over to: line comment, string,
 number, identifier and block comment. Each is a loop over the cursor,
 written as a function recursive in the bytes left to read.
 */
module Scanners {
  import opened Ascii
  import opened Tokens
  import opened Layout
  import opened Cursor
  import opened Wrappers
  import opened Keywords

  /** `r` only moved the cursor forward: same source, lexeme start and tokens. */
  predicate Moves(lx: Lexer, r: Lexer) {
    && Same(lx, r)
    && r.tokens == lx.tokens
    && lx.current <= r.current <= |lx.source|
  }

  /** `[i, j)` is a maximal run of bytes satisfying `p`: all of them do, and the byte at `j`, if any, does not. */
  predicate MaximalRun(src: seq<byte>, i: nat, j: nat, p: byte -> bool) {
    && i <= j <= |src|
    && (forall k | i <= k < j :: p(src[k]))
    && (j == |src| || !p(src[j]))
  }

  predicate NotNewline(c: byte) {
    c != '\n'
  }

  /** A fractional part starts at `d`: a dot followed by a digit. */
  predicate FractionAt(src: seq<byte>, d: nat) {
    d + 1 < |src| && src[d] == '.' && IsDigit(src[d + 1])
  }

  /**
   `[i, e)` is the rest of a number literal: a maximal digit run, then, only
   when a dot and a digit follow it, the dot and a second maximal digit run.
   */
  ghost predicate NumberTail(src: seq<byte>, i: nat, e: nat) {
    exists d | i <= d <= e ::
      && MaximalRun(src, i, d, IsDigit)
      && if FractionAt(src, d) then d + 1 < e && MaximalRun(src, d + 1, e, IsDigit) else e == d
  }

  predicate QuoteAt(src: seq<byte>, j: int) {
    0 <= j < |src| && src[j] == '"'
  }

  /** Some double quote lies at or after `i`. */
  ghost predicate QuoteFrom(src: seq<byte>, i: nat) {
    exists j | i <= j :: QuoteAt(src, j)
  }

  /** Searching for a quote from `i` looks at `i`, then on from `i + 1`. */
  lemma QuoteFromStep(src: seq<byte>, i: nat)
    ensures QuoteFrom(src, i) <==> QuoteAt(src, i) || QuoteFrom(src, i + 1)
  {
    if QuoteFrom(src, i) {
      var j :| i <= j && QuoteAt(src, j);
      if j > i {
        assert QuoteFrom(src, i + 1);
      }
    }
  }

  /** `e - 1` is the first double quote at or after `i`. */
  predicate FirstQuoteEnd(src: seq<byte>, i: nat, e: nat) {
    && i < e <= |src|
    && src[e - 1] == '"'
    && forall j | i <= j < e - 1 :: !QuoteAt(src, j)
  }

  // A comment close, star then slash, starts at `j`.
  predicate CloseAt(s: seq<byte>, j: int) {
    0 <= j && j + 1 < |s| && s[j] == '*' && s[j + 1] == '/'
  }

  // Some comment close starts at or after `i`.
  ghost predicate HasCloseFrom(s: seq<byte>, i: nat) {
    exists j | i <= j :: CloseAt(s, j)
  }

  // Searching for a comment close from `i` looks at `i`, then on from `i + 1`.
  lemma CloseFromStep(s: seq<byte>, i: nat)
    ensures HasCloseFrom(s, i) <==> CloseAt(s, i) || HasCloseFrom(s, i + 1)
  {
    if HasCloseFrom(s, i) {
      var j :| i <= j && CloseAt(s, j);
      if j > i {
        assert HasCloseFrom(s, i + 1);
      }
    }
  }

  // `[i, e)` ends with the first comment close that starts at or after `i`.
  predicate FirstCloseEnd(s: seq<byte>, i: nat, e: nat) {
    && i + 2 <= e <= |s|
    && CloseAt(s, e - 2)
    && forall j | i <= j < e - 2 :: !CloseAt(s, j)
  }

  /**
   The loop `while p(peek()) { advance() }`: it stops at the end of the
   maximal run of `p` bytes, and the column moves by the bytes consumed.
   */
  function AdvanceWhile(lx: Lexer, p: byte -> bool): (r: Lexer)
    requires Valid(lx) && !p(NUL)
    ensures Moves(lx, r) && r.line == lx.line
    ensures MaximalRun(lx.source, lx.current, r.current, p)
    ensures r.column == lx.column + (r.current - lx.current)
    decreases |lx.source| - lx.current
  {
    if !p(Peek(lx)) then lx else AdvanceWhile(Advance(lx).0, p)
  }

  /**
   Line comment body: skips up to, not including, the next newline or the
   end of input.
   */
  function SkipLineComment(lx: Lexer): (r: Lexer)
    requires Valid(lx)
    ensures Moves(lx, r) && r.line == lx.line
    ensures MaximalRun(lx.source, lx.current, r.current, NotNewline)
    ensures r.column == lx.column + (r.current - lx.current)
    decreases |lx.source| - lx.current
  {
    if IsAtEnd(lx) || Peek(lx) == '\n' then lx else SkipLineComment(Advance(lx).0)
  }

  /**
   One byte of a string or comment body: a newline counts a line and sets
   the column to `reset - 1`, and the advance then counts the byte itself,
   so the column after a newline is `reset`.
   */
  function BodyByte(lx: Lexer, reset: int): (r: Lexer)
    requires Valid(lx) && !IsAtEnd(lx)
    ensures Moves(lx, r) && r.current == lx.current + 1
    ensures r.line == lx.line + Newlines(lx.source, lx.current, r.current)
    ensures r.column == ColumnAfter(lx.source, lx.current, r.current, lx.column, reset)
  {
    OneByte(lx.source, lx.current, lx.column, reset);
    var l1 := if Peek(lx) == '\n' then lx.(line := lx.line + 1, column := reset - 1) else lx;
    Advance(l1).0
  }

  /**
   String body, after the opening quote: reads up to and including the
   first double quote; a newline counts a line and sets the column to 0
   before the newline itself is counted. At the end of input the string is
   unterminated.
   */
  function StringBody(lx: Lexer): (r: Result<Lexer, LexError>)
    requires Valid(lx)
    ensures r.Ok? ==> Moves(lx, r.value) && r.value.current > lx.current
    decreases |lx.source| - lx.current
  {
    if IsAtEnd(lx) then Err(UnterminatedString(lx.line))
    else if Peek(lx) == '"' then Ok(Advance(lx).0)
    else StringBody(BodyByte(lx, 1))
  }

  /**
   The string body succeeds exactly when a double quote follows; otherwise
   the error is reported at the line reached at the end of input.
   */
  lemma {:induction false} StringBodyOutcome(lx: Lexer)
    requires Valid(lx)
    ensures StringBody(lx).Ok? <==> QuoteFrom(lx.source, lx.current)
    ensures StringBody(lx).Err? ==>
      StringBody(lx).error == UnterminatedString(lx.line + Newlines(lx.source, lx.current, |lx.source|))
    decreases |lx.source| - lx.current
  {
    var src, cur := lx.source, lx.current;
    QuoteFromStep(src, cur);
    if IsAtEnd(lx) {
      assert !QuoteFrom(src, cur);
    } else if Peek(lx) == '"' {
      assert QuoteAt(src, cur);
    } else {
      StringBodyOutcome(BodyByte(lx, 1));
      NewlinesSplit(src, cur, cur + 1, |src|);
    }
  }

  /**
   A successful string body stops just after the first double quote; the
   line grows by the newlines read and the column restarts at 1 after each
   of them.
   */
  lemma {:induction false} StringBodySpan(lx: Lexer)
    requires Valid(lx) && StringBody(lx).Ok?
    ensures var l := StringBody(lx).value;
      && FirstQuoteEnd(lx.source, lx.current, l.current)
      && l.line == lx.line + Newlines(lx.source, lx.current, l.current)
      && l.column == ColumnAfter(lx.source, lx.current, l.current, lx.column, 1)
    decreases |lx.source| - lx.current
  {
    var src, cur := lx.source, lx.current;
    if Peek(lx) == '"' {
      StringBodyCloses(lx);
    } else {
      assert !QuoteAt(src, cur);
      var l2 := BodyByte(lx, 1);
      assert StringBody(lx) == StringBody(l2);
      StringBodySpan(l2);
      var e := StringBody(l2).value.current;
      NewlinesSplit(src, cur, cur + 1, e);
      ColumnAfterSplit(src, cur, cur + 1, e, lx.column, 1);
    }
  }

  /** The quote at the cursor ends the string right after it, on the same line. */
  lemma StringBodyCloses(lx: Lexer)
    requires Valid(lx) && !IsAtEnd(lx) && Peek(lx) == '"'
    ensures var l := StringBody(lx);
      && l.Ok?
      && FirstQuoteEnd(lx.source, lx.current, l.value.current)
      && l.value.line == lx.line + Newlines(lx.source, lx.current, l.value.current)
      && l.value.column == ColumnAfter(lx.source, lx.current, l.value.current, lx.column, 1)
  {
    AdvanceStep(lx);
    OneByte(lx.source, lx.current, lx.column, 1);
  }

  /**
   The string scanner, after the opening delimiter: it succeeds exactly when
   a double quote lies ahead, and then pushes one `StringLiteral` token from
   the delimiter through the first double quote, with line and column
   following the bytes read; otherwise it reports the string as unterminated
   at the line reached at the end of input.
   */
  function ScanString(lx: Lexer): (r: Result<Lexer, LexError>)
    requires Valid(lx)
    ensures r.Ok? <==> QuoteFrom(lx.source, lx.current)
    ensures r.Ok? ==>
      && Same(lx, r.value)
      && FirstQuoteEnd(lx.source, lx.current, r.value.current)
      && r.value.line == lx.line + Newlines(lx.source, lx.current, r.value.current)
      && r.value.column == ColumnAfter(lx.source, lx.current, r.value.current, lx.column, 1)
      && r.value.tokens == lx.tokens + [Token(StringLiteral, lx.source[lx.start..r.value.current], r.value.line, r.value.column)]
    ensures r.Err? ==> r.error == UnterminatedString(lx.line + Newlines(lx.source, lx.current, |lx.source|))
  {
    StringBodyOutcome(lx);
    match StringBody(lx)
    case Err(e) => Err(e)
    case Ok(l) =>
      StringBodySpan(lx);
      Ok(AddToken(l, StringLiteral))
  }

  /**
   The number scanner, after the first digit: the lexeme runs to the end of
   the digit run, and on through a fraction only when a dot and a digit
   follow; one `NumberLiteral` token.
   */
  function ScanNumber(lx: Lexer): (r: Lexer)
    requires Valid(lx)
    ensures r.source == lx.source && r.start == lx.start && r.line == lx.line
    ensures lx.current <= r.current <= |lx.source|
    ensures NumberTail(lx.source, lx.current, r.current)
    ensures forall k | lx.current <= k < r.current :: IsDigit(lx.source[k]) || lx.source[k] == '.'
    ensures r.column == lx.column + (r.current - lx.current)
    ensures r.tokens == lx.tokens + [Token(NumberLiteral, lx.source[lx.start..r.current], r.line, r.column)]
  {
    var l1 := AdvanceWhile(lx, IsDigit);
    if Peek(l1) == '.' && IsDigit(PeekNext(l1)) then
      var l2 := AdvanceWhile(Advance(l1).0, IsDigit);
      assert FractionAt(lx.source, l1.current);
      AddToken(l2, NumberLiteral)
    else
      assert !FractionAt(lx.source, l1.current);
      AddToken(l1, NumberLiteral)
  }

  /**
   The identifier scanner, after the first letter: the lexeme runs to the
   end of the letter/digit/underscore run and its kind is the keyword lookup
   of the whole lexeme.
   */
  function ScanIdentifier(lx: Lexer): (r: Lexer)
    requires Valid(lx)
    ensures r.source == lx.source && r.start == lx.start && r.line == lx.line
    ensures MaximalRun(lx.source, lx.current, r.current, IsAlphaNumeric)
    ensures r.column == lx.column + (r.current - lx.current)
    ensures
      var text := lx.source[lx.start..r.current];
      r.tokens == lx.tokens + [Token(LookupKeyword(text), text, r.line, r.column)]
  {
    var l1 := AdvanceWhile(lx, IsAlphaNumeric);
    AddToken(l1, LookupKeyword(l1.source[l1.start..l1.current]))
  }

  // Block comment body, after the opening slash and star: reads up to and
  // including the first star-slash close, without nesting; a newline counts
  // a line and sets the column to 1 before the newline itself is counted. At
  // the end of input the comment is unterminated.
  function BlockComment(lx: Lexer): (r: Result<Lexer, LexError>)
    requires Valid(lx)
    ensures r.Ok? ==> Moves(lx, r.value) && r.value.current >= lx.current + 2
    decreases |lx.source| - lx.current
  {
    if IsAtEnd(lx) then Err(UnterminatedBlockComment(lx.line))
    else if Peek(lx) == '*' && PeekNext(lx) == '/' then Ok(Advance(Advance(lx).0).0)
    else BlockComment(BodyByte(lx, 2))
  }

  // The block comment body succeeds exactly when a close follows; otherwise
  // the error is reported at the line reached at the end of input.
  lemma {:induction false} BlockCommentOutcome(lx: Lexer)
    requires Valid(lx)
    ensures BlockComment(lx).Ok? <==> HasCloseFrom(lx.source, lx.current)
    ensures BlockComment(lx).Err? ==>
      BlockComment(lx).error == UnterminatedBlockComment(lx.line + Newlines(lx.source, lx.current, |lx.source|))
    decreases |lx.source| - lx.current
  {
    var src, cur := lx.source, lx.current;
    CloseFromStep(src, cur);
    if IsAtEnd(lx) {
      assert !HasCloseFrom(src, cur);
    } else if Peek(lx) == '*' && PeekNext(lx) == '/' {
      assert CloseAt(src, cur);
    } else {
      assert !CloseAt(src, cur);
      BlockCommentOutcome(BodyByte(lx, 2));
      NewlinesSplit(src, cur, cur + 1, |src|);
    }
  }

  // A successful block comment body stops just after the first close; the
  // line grows by the newlines read and the column restarts at 2 after each
  // of them.
  lemma {:induction false} BlockCommentSpan(lx: Lexer)
    requires Valid(lx) && BlockComment(lx).Ok?
    ensures var l := BlockComment(lx).value;
      && FirstCloseEnd(lx.source, lx.current, l.current)
      && l.line == lx.line + Newlines(lx.source, lx.current, l.current)
      && l.column == ColumnAfter(lx.source, lx.current, l.current, lx.column, 2)
    decreases |lx.source| - lx.current
  {
    var src, cur := lx.source, lx.current;
    if Peek(lx) == '*' && PeekNext(lx) == '/' {
      BlockCommentCloses(lx);
    } else {
      assert !CloseAt(src, cur);
      var l2 := BodyByte(lx, 2);
      assert BlockComment(lx) == BlockComment(l2);
      BlockCommentSpan(l2);
      var e := BlockComment(l2).value.current;
      NewlinesSplit(src, cur, cur + 1, e);
      ColumnAfterSplit(src, cur, cur + 1, e, lx.column, 2);
    }
  }

  // The close at the cursor ends the comment right after it, on the same line.
  lemma BlockCommentCloses(lx: Lexer)
    requires Valid(lx) && !IsAtEnd(lx) && Peek(lx) == '*' && PeekNext(lx) == '/'
    ensures var l := BlockComment(lx);
      && l.Ok?
      && FirstCloseEnd(lx.source, lx.current, l.value.current)
      && l.value.line == lx.line + Newlines(lx.source, lx.current, l.value.current)
      && l.value.column == ColumnAfter(lx.source, lx.current, l.value.current, lx.column, 2)
  {
    assert BlockComment(lx).value.current == lx.current + 2;
    PlainSpan(lx.source, lx.current, lx.current + 2, lx.column, 2);
  }
}
