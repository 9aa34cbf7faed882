/**
 Consequences of the step specification for the inputs where the lexer's
 behaviour is easiest to get wrong: look-ahead that stops short, a dot
 after a number, a broken ellipsis, a string opened by an apostrophe, and
 bytes that no case accepts.
 */
module Rules {
  import opened Ascii
  import opened Tokens
  import opened Layout
  import opened Cursor
  import opened Wrappers
  import opened Scanners
  import opened Dispatch
  import opened Step

  /** The last token of a step that pushed one. */
  function Pushed(lx: Lexer, r: Result<Lexer, LexError>): (t: Option<Token>) {
    if r.Ok? && |r.value.tokens| == |lx.tokens| + 1 then Some(r.value.tokens[|lx.tokens|]) else None
  }

  /** `=>` is not an operator: the step pushes `Equal` for the `=` alone and leaves `>` for the next step. */
  lemma EqualBeforeGreater(lx: Lexer)
    requires Valid(lx) && PairAt(lx.source, lx.current, '=', '>')
    ensures ScanToken(lx).Ok? && ScanToken(lx).value.current == lx.current + 1
    ensures Pushed(lx, ScanToken(lx)).Some? && Pushed(lx, ScanToken(lx)).value.tokenType == Equal
  {
    ScanTokenSpec(lx);
  }

  /** `^`, and every byte of 128 or above, is an unexpected character reported one column on. */
  lemma NoCaseForByte(lx: Lexer)
    requires Valid(lx) && !IsAtEnd(lx)
    requires lx.source[lx.current] == '^' || lx.source[lx.current] as int >= 128
    ensures ScanToken(lx) == Err(UnexpectedChar(lx.source[lx.current], lx.line, lx.column + 1))
  {
    ClassesAreAscii(lx.source[lx.current]);
    ScanTokenSpec(lx);
  }

  /** A dot after a digit run that no digit follows is not part of the number: `1.` is a number `1`, then a dot. */
  lemma NumberStopsAtBareDot(lx: Lexer)
    requires Valid(lx) && !IsAtEnd(lx) && IsDigit(lx.source[lx.current])
    requires lx.current + 1 < |lx.source| && lx.source[lx.current + 1] == '.'
    requires lx.current + 2 == |lx.source| || !IsDigit(lx.source[lx.current + 2])
    ensures ScanToken(lx).Ok? && ScanToken(lx).value.current == lx.current + 1
    ensures Pushed(lx, ScanToken(lx)).Some? && Pushed(lx, ScanToken(lx)).value.tokenType == NumberLiteral
  {
    var src, i := lx.source, lx.current;
    assert Classify(src[i]) == DigitByte;
    DigitDispatch(lx);
    var l1 := AdvanceWhile(Jump(lx, 1), IsDigit);
    assert l1.current == i + 1;
    assert !FractionAt(src, l1.current);
  }

  /** Two dots without a third, also at the end of the input, are a malformed ellipsis. */
  lemma TwoDotsFail(lx: Lexer)
    requires Valid(lx) && PairAt(lx.source, lx.current, '.', '.')
    requires lx.current + 2 == |lx.source| || lx.source[lx.current + 2] != '.'
    ensures ScanToken(lx) == Err(MalformedEllipsis(lx.line))
  {
    ScanTokenSpec(lx);
  }

  /** Three dots are one `Ellipsis` token. */
  lemma ThreeDots(lx: Lexer)
    requires Valid(lx) && PairAt(lx.source, lx.current, '.', '.')
    requires lx.current + 2 < |lx.source| && lx.source[lx.current + 2] == '.'
    ensures ScanToken(lx).Ok? && ScanToken(lx).value.current == lx.current + 3
    ensures Pushed(lx, ScanToken(lx)).Some? && Pushed(lx, ScanToken(lx)).value.tokenType == Ellipsis
  {
    ScanTokenSpec(lx);
  }

  /**
   A string opened by an apostrophe ends only at a double quote: with no
   double quote after it the step fails even when another apostrophe
   follows, and the error carries the line reached at the end of input.
   */
  lemma ApostropheClosesOnlyOnQuote(lx: Lexer)
    requires Valid(lx) && !IsAtEnd(lx) && lx.source[lx.current] == '\''
    ensures ScanToken(lx).Ok? <==> QuoteFrom(lx.source, lx.current + 1)
    ensures ScanToken(lx).Ok? ==> lx.source[ScanToken(lx).value.current - 1] == '"'
    ensures ScanToken(lx).Err? ==>
      ScanToken(lx).error == UnterminatedString(lx.line + Newlines(lx.source, lx.current, |lx.source|))
  {
    ScanTokenSpec(lx);
  }
}
