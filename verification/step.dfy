/**
 What one scan step does, stated without reference to the dispatch code:
 by the class of the byte under the cursor, which steps fail and with what
 error, and for the others how far the cursor moves, how line and column
 follow, and which token, if any, is pushed.
 */
module Step {
  import opened Ascii
  import opened Tokens
  import opened Layout
  import opened Cursor
  import opened Wrappers
  import opened Keywords
  import opened Scanners
  import opened Dispatch

  /** The operator of one byte spelled by `c`, if any. */
  function SingleKind(c: byte): Option<TokenType> {
    match c
    case '+' => Some(Plus)
    case '-' => Some(Minus)
    case '*' => Some(Star)
    case '/' => Some(Slash)
    case '%' => Some(Percent)
    case '=' => Some(Equal)
    case '!' => Some(NotBang)
    case '>' => Some(Greater)
    case '<' => Some(Less)
    case '&' => Some(BitAnd)
    case '|' => Some(BitOr)
    case ':' => Some(Colon)
    case '.' => Some(Dot)
    case '?' => Some(Question)
    case ',' => Some(Comma)
    case ';' => Some(Semicolon)
    case '(' => Some(LeftParen)
    case ')' => Some(RightParen)
    case '{' => Some(LeftBrace)
    case '}' => Some(RightBrace)
    case '[' => Some(LeftBracket)
    case ']' => Some(RightBracket)
    case '$' => Some(Dollar)
    case '@' => Some(AT)
    case _ => None
  }

  /** The operator of two bytes spelled by `a` then `b`, if any. */
  function PairKind(a: byte, b: byte): Option<TokenType> {
    match (a, b)
    case ('+', '+') => Some(PlusPlus)
    case ('-', '-') => Some(MinusMinus)
    case ('-', '>') => Some(Arrow)
    case ('=', '=') => Some(EqualEqual)
    case ('!', '=') => Some(NotEqual)
    case ('!', '!') => Some(BangBang)
    case ('>', '=') => Some(GreaterEqual)
    case ('>', '>') => Some(ShiftRight)
    case ('<', '=') => Some(LessEqual)
    case ('<', '<') => Some(ShiftLeft)
    case ('&', '&') => Some(AndAnd)
    case ('|', '|') => Some(OrOr)
    case (':', ':') => Some(ColonColon)
    case _ => None
  }

  /** The byte pair at `i` spells a two-byte operator. */
  predicate PairOperatorAt(src: seq<byte>, i: nat) {
    i + 1 < |src| && PairKind(src[i], src[i + 1]).Some?
  }

  /** Maximal munch: the length of the longest operator spelled at `i`. */
  function MunchLength(src: seq<byte>, i: nat): nat {
    if PairOperatorAt(src, i) then 2 else 1
  }

  /** The kind of the longest operator spelled at `i`. */
  function MunchKind(src: seq<byte>, i: nat): TokenType
    requires i < |src| && SingleKind(src[i]).Some?
  {
    if PairOperatorAt(src, i) then PairKind(src[i], src[i + 1]).value else SingleKind(src[i]).value
  }

  /** `..` stands at `i` with no third dot after it. */
  predicate BrokenEllipsisAt(src: seq<byte>, i: nat) {
    PairAt(src, i, '.', '.') && !(i + 2 < |src| && src[i + 2] == '.')
  }

  /** The classes of bytes a scan step can find under the cursor. */
  datatype ByteClass =
    | Blank | Newline | SlashByte | QuoteByte | DotByte | OperatorByte
    | DigitByte | LetterByte | Unexpected

  /** The class of a byte, each class decided by the byte alone. */
  function Classify(c: byte): ByteClass {
    if c == ' ' || c == '\r' || c == '\t' then Blank
    else if c == '\n' then Newline
    else if c == '/' then SlashByte
    else if IsQuote(c) then QuoteByte
    else if c == '.' then DotByte
    else if SingleKind(c).Some? then OperatorByte
    else if IsDigit(c) then DigitByte
    else if IsAlpha(c) then LetterByte
    else Unexpected
  }

  /** The positions where a scan step fails. */
  ghost predicate FailsAt(src: seq<byte>, i: nat) {
    i >= |src| ||
    match Classify(src[i])
    case Unexpected => true
    case QuoteByte => !QuoteFrom(src, i + 1)
    case SlashByte => PairAt(src, i, '/', '*') && !HasCloseFrom(src, i + 2)
    case DotByte => BrokenEllipsisAt(src, i)
    case _ => false
  }

  /** The error a failing step reports, with its position. */
  ghost predicate StepError(lx: Lexer, e: LexError) {
    var src, i := lx.source, lx.current;
    if i >= |src| then e == UnexpectedChar(NUL, lx.line, lx.column)
    else match Classify(src[i])
      case QuoteByte => e == UnterminatedString(lx.line + Newlines(src, i, |src|))
      case SlashByte => e == UnterminatedBlockComment(lx.line + Newlines(src, i, |src|))
      case DotByte => e == MalformedEllipsis(lx.line)
      case _ => e == UnexpectedChar(src[i], lx.line, lx.column + 1)
  }

  /** The step from `lx` to `l` pushed no token. */
  predicate Skips(lx: Lexer, l: Lexer) {
    l.tokens == lx.tokens
  }

  /**
   The step pushed one token of kind `k`: its lexeme runs from the lexeme
   start to the new cursor and it carries the new line and column.
   */
  predicate Pushes(lx: Lexer, l: Lexer, k: TokenType)
    requires lx.start <= l.current <= |lx.source|
  {
    l.tokens == lx.tokens + [Token(k, lx.source[lx.start..l.current], l.line, l.column)]
  }

  /**
   The cursor moved forward within the source, and line and column follow
   the consumed bytes; only a block comment restarts the column at 2.
   */
  ghost predicate Consumes(lx: Lexer, l: Lexer) {
    var src, i := lx.source, lx.current;
    && Same(lx, l)
    && lx.start <= i < l.current <= |src|
    && l.line == lx.line + Newlines(src, i, l.current)
    && l.column == ColumnAfter(src, i, l.current, lx.column, if PairAt(src, i, '/', '*') then 2 else 1)
  }

  /** What a successful step consumed and pushed, by the class of the byte under the cursor. */
  ghost predicate StepOk(lx: Lexer, l: Lexer) {
    var src, i, e := lx.source, lx.current, l.current;
    && Consumes(lx, l)
    && match Classify(src[i])
       case Blank => Skips(lx, l) && e == i + 1
       case Newline => Skips(lx, l) && e == i + 1
       case SlashByte =>
         if PairAt(src, i, '/', '/') then Skips(lx, l) && MaximalRun(src, i + 2, e, NotNewline)
         else if PairAt(src, i, '/', '*') then Skips(lx, l) && FirstCloseEnd(src, i + 2, e)
         else Pushes(lx, l, Slash) && e == i + 1
       case QuoteByte => Pushes(lx, l, StringLiteral) && FirstQuoteEnd(src, i + 1, e)
       case DotByte =>
         if PairAt(src, i, '.', '.') then Pushes(lx, l, Ellipsis) && e == i + 3 && src[i + 2] == '.'
         else Pushes(lx, l, Dot) && e == i + 1
       case OperatorByte => Pushes(lx, l, MunchKind(src, i)) && e == i + MunchLength(src, i)
       case DigitByte => Pushes(lx, l, NumberLiteral) && NumberTail(src, i + 1, e)
       case LetterByte => Pushes(lx, l, LookupKeyword(src[lx.start..e])) && MaximalRun(src, i + 1, e, IsAlphaNumeric)
       case Unexpected => false
  }

  /** The full outcome of one step: when it fails, with which error, and otherwise what it did. */
  ghost predicate StepSpec(lx: Lexer, r: Result<Lexer, LexError>) {
    && (r.Ok? <==> !FailsAt(lx.source, lx.current))
    && match r
       case Ok(l) => StepOk(lx, l)
       case Err(e) => StepError(lx, e)
  }

  /** The step an operator byte should take: push the longest operator spelled at the cursor. */
  function Munched(lx: Lexer): Lexer
    requires Valid(lx) && !IsAtEnd(lx) && SingleKind(lx.source[lx.current]).Some?
  {
    AddToken(Jump(lx, MunchLength(lx.source, lx.current)), MunchKind(lx.source, lx.current))
  }

  // The dispatch at each operator byte takes the munch step.
  lemma MunchSingleOnly(lx: Lexer)
    requires Valid(lx) && !IsAtEnd(lx)
    requires lx.source[lx.current] in {'*', '%', '?', ',', ';', '(', ')', '{', '}', '[', ']', '$', '@'}
    ensures ScanToken(lx) == Ok(Munched(lx))
  {
    AdvanceStep(lx);
  }

  lemma MunchPlus(lx: Lexer)
    requires Valid(lx) && !IsAtEnd(lx) && lx.source[lx.current] == '+'
    ensures ScanToken(lx) == Ok(Munched(lx))
  {
    AdvanceStep(lx);
    EitherStep(Jump(lx, 1), '+', PlusPlus, Plus);
    JumpJump(lx, 1, 1);
  }

  lemma MunchEqual(lx: Lexer)
    requires Valid(lx) && !IsAtEnd(lx) && lx.source[lx.current] == '='
    ensures ScanToken(lx) == Ok(Munched(lx))
  {
    AdvanceStep(lx);
    EitherStep(Jump(lx, 1), '=', EqualEqual, Equal);
    JumpJump(lx, 1, 1);
  }

  lemma MunchAmp(lx: Lexer)
    requires Valid(lx) && !IsAtEnd(lx) && lx.source[lx.current] == '&'
    ensures ScanToken(lx) == Ok(Munched(lx))
  {
    AdvanceStep(lx);
    EitherStep(Jump(lx, 1), '&', AndAnd, BitAnd);
    JumpJump(lx, 1, 1);
  }

  lemma MunchBar(lx: Lexer)
    requires Valid(lx) && !IsAtEnd(lx) && lx.source[lx.current] == '|'
    ensures ScanToken(lx) == Ok(Munched(lx))
  {
    AdvanceStep(lx);
    EitherStep(Jump(lx, 1), '|', OrOr, BitOr);
    JumpJump(lx, 1, 1);
  }

  lemma MunchColon(lx: Lexer)
    requires Valid(lx) && !IsAtEnd(lx) && lx.source[lx.current] == ':'
    ensures ScanToken(lx) == Ok(Munched(lx))
  {
    AdvanceStep(lx);
    EitherStep(Jump(lx, 1), ':', ColonColon, Colon);
    JumpJump(lx, 1, 1);
  }

  lemma MunchMinus(lx: Lexer)
    requires Valid(lx) && !IsAtEnd(lx) && lx.source[lx.current] == '-'
    ensures ScanToken(lx) == Ok(Munched(lx))
  {
    AdvanceStep(lx);
    Either3Step(Jump(lx, 1), '-', MinusMinus, '>', Arrow, Minus);
    JumpJump(lx, 1, 1);
  }

  lemma MunchBang(lx: Lexer)
    requires Valid(lx) && !IsAtEnd(lx) && lx.source[lx.current] == '!'
    ensures ScanToken(lx) == Ok(Munched(lx))
  {
    AdvanceStep(lx);
    Either3Step(Jump(lx, 1), '=', NotEqual, '!', BangBang, NotBang);
    JumpJump(lx, 1, 1);
  }

  lemma MunchGreater(lx: Lexer)
    requires Valid(lx) && !IsAtEnd(lx) && lx.source[lx.current] == '>'
    ensures ScanToken(lx) == Ok(Munched(lx))
  {
    AdvanceStep(lx);
    Either3Step(Jump(lx, 1), '=', GreaterEqual, '>', ShiftRight, Greater);
    JumpJump(lx, 1, 1);
  }

  lemma MunchLess(lx: Lexer)
    requires Valid(lx) && !IsAtEnd(lx) && lx.source[lx.current] == '<'
    ensures ScanToken(lx) == Ok(Munched(lx))
  {
    AdvanceStep(lx);
    Either3Step(Jump(lx, 1), '=', LessEqual, '<', ShiftLeft, Less);
    JumpJump(lx, 1, 1);
  }

  /** Every operator byte other than slash and dot takes the munch step. */
  lemma MunchDispatch(lx: Lexer)
    requires Valid(lx) && !IsAtEnd(lx) && Classify(lx.source[lx.current]) == OperatorByte
    ensures ScanToken(lx) == Ok(Munched(lx))
  {
    var c := lx.source[lx.current];
    if c in {'*', '%', '?', ',', ';', '(', ')', '{', '}', '[', ']', '$', '@'} {
      MunchSingleOnly(lx);
    } else if c == '+' {
      MunchPlus(lx);
    } else if c == '=' {
      MunchEqual(lx);
    } else if c == '&' {
      MunchAmp(lx);
    } else if c == '|' {
      MunchBar(lx);
    } else if c == ':' {
      MunchColon(lx);
    } else if c == '-' {
      MunchMinus(lx);
    } else if c == '!' {
      MunchBang(lx);
    } else if c == '>' {
      MunchGreater(lx);
    } else if c == '<' {
      MunchLess(lx);
    } else {
      assert false;
    }
  }

  /** The munch step meets the specification of an operator step. */
  lemma MunchMeetsSpec(lx: Lexer)
    requires Valid(lx) && !IsAtEnd(lx) && Classify(lx.source[lx.current]) == OperatorByte
    ensures StepSpec(lx, Ok(Munched(lx)))
  {
    var src, i := lx.source, lx.current;
    PlainSpan(src, i, i + MunchLength(src, i), lx.column, 1);
  }

  /** At the end of the input the step reports NUL as an unexpected byte, at the unchanged position. */
  lemma StepAtEnd(lx: Lexer)
    requires Valid(lx) && IsAtEnd(lx)
    ensures StepSpec(lx, ScanToken(lx))
  {
  }

  lemma StepBlank(lx: Lexer)
    requires Valid(lx) && !IsAtEnd(lx) && Classify(lx.source[lx.current]) == Blank
    ensures StepSpec(lx, ScanToken(lx))
  {
    AdvanceStep(lx);
    OneByte(lx.source, lx.current, lx.column, 1);
  }

  lemma StepNewline(lx: Lexer)
    requires Valid(lx) && !IsAtEnd(lx) && Classify(lx.source[lx.current]) == Newline
    ensures StepSpec(lx, ScanToken(lx))
  {
    AdvanceStep(lx);
    OneByte(lx.source, lx.current, lx.column, 1);
  }

  lemma StepLineComment(lx: Lexer)
    requires Valid(lx) && PairAt(lx.source, lx.current, '/', '/')
    ensures StepSpec(lx, ScanToken(lx))
  {
    var src, i := lx.source, lx.current;
    AdvanceStep(lx);
    MatchStep(Jump(lx, 1), '/');
    JumpJump(lx, 1, 1);
    assert ScanToken(lx) == Ok(SkipLineComment(Jump(lx, 2)));
    PlainSpan(src, i, SkipLineComment(Jump(lx, 2)).current, lx.column, 1);
  }

  lemma BlockCommentDispatch(lx: Lexer)
    requires Valid(lx) && PairAt(lx.source, lx.current, '/', '*')
    ensures ScanToken(lx) == BlockComment(Jump(lx, 2))
  {
    AdvanceStep(lx);
    MatchStep(Jump(lx, 1), '/');
    MatchStep(Jump(lx, 1), '*');
    JumpJump(lx, 1, 1);
  }

  lemma StepBlockComment(lx: Lexer)
    requires Valid(lx) && PairAt(lx.source, lx.current, '/', '*')
    ensures StepSpec(lx, ScanToken(lx))
  {
    BlockCommentDispatch(lx);
    BlockCommentMeetsSpec(lx);
  }

  // The comment body from after the opening pair meets the specification of the whole step.
  lemma BlockCommentMeetsSpec(lx: Lexer)
    requires Valid(lx) && PairAt(lx.source, lx.current, '/', '*')
    ensures StepSpec(lx, BlockComment(Jump(lx, 2)))
  {
    var src, i := lx.source, lx.current;
    var l2 := Jump(lx, 2);
    BlockCommentOutcome(l2);
    PlainSpan(src, i, i + 2, lx.column, 2);
    if BlockComment(l2).Ok? {
      BlockCommentClosed(lx);
    } else {
      NewlinesSplit(src, i, i + 2, |src|);
    }
  }

  lemma BlockCommentClosed(lx: Lexer)
    requires Valid(lx) && PairAt(lx.source, lx.current, '/', '*') && BlockComment(Jump(lx, 2)).Ok?
    ensures StepOk(lx, BlockComment(Jump(lx, 2)).value)
  {
    var src, i := lx.source, lx.current;
    var l2 := Jump(lx, 2);
    PlainSpan(src, i, i + 2, lx.column, 2);
    BlockCommentSpan(l2);
    var e := BlockComment(l2).value.current;
    NewlinesSplit(src, i, i + 2, e);
    ColumnAfterSplit(src, i, i + 2, e, lx.column, 2);
  }

  lemma StepSlash(lx: Lexer)
    requires Valid(lx) && !IsAtEnd(lx) && lx.source[lx.current] == '/'
    requires !PairAt(lx.source, lx.current, '/', '/') && !PairAt(lx.source, lx.current, '/', '*')
    ensures StepSpec(lx, ScanToken(lx))
  {
    AdvanceStep(lx);
    MatchStep(Jump(lx, 1), '/');
    MatchStep(Jump(lx, 1), '*');
    OneByte(lx.source, lx.current, lx.column, 1);
  }

  // The string scan from after the opening quote meets the specification of the whole step.
  lemma QuoteMeetsSpec(lx: Lexer)
    requires Valid(lx) && !IsAtEnd(lx) && Classify(lx.source[lx.current]) == QuoteByte
    ensures StepSpec(lx, ScanString(Jump(lx, 1)))
  {
    var src, i := lx.source, lx.current;
    var l1 := Jump(lx, 1);
    OneByte(src, i, lx.column, 1);
    if ScanString(l1).Ok? {
      QuoteClosed(lx);
    } else {
      NewlinesSplit(src, i, i + 1, |src|);
    }
  }

  lemma QuoteClosed(lx: Lexer)
    requires Valid(lx) && !IsAtEnd(lx) && Classify(lx.source[lx.current]) == QuoteByte
    requires ScanString(Jump(lx, 1)).Ok?
    ensures StepOk(lx, ScanString(Jump(lx, 1)).value)
  {
    var src, i := lx.source, lx.current;
    var l1 := Jump(lx, 1);
    OneByte(src, i, lx.column, 1);
    var e := ScanString(l1).value.current;
    NewlinesSplit(src, i, i + 1, e);
    ColumnAfterSplit(src, i, i + 1, e, lx.column, 1);
  }

  lemma QuoteDispatch(lx: Lexer)
    requires Valid(lx) && !IsAtEnd(lx) && Classify(lx.source[lx.current]) == QuoteByte
    ensures ScanToken(lx) == ScanString(Jump(lx, 1))
  {
    AdvanceStep(lx);
  }

  lemma StepDot(lx: Lexer)
    requires Valid(lx) && !IsAtEnd(lx) && Classify(lx.source[lx.current]) == DotByte
    ensures StepSpec(lx, ScanToken(lx))
  {
    var src, i := lx.source, lx.current;
    AdvanceStep(lx);
    MatchStep(Jump(lx, 1), '.');
    MatchStep(Jump(lx, 2), '.');
    JumpJump(lx, 1, 1);
    JumpJump(lx, 2, 1);
    if PairAt(src, i, '.', '.') && i + 2 < |src| && src[i + 2] == '.' {
      PlainSpan(src, i, i + 3, lx.column, 1);
    } else {
      PlainSpan(src, i, i + 1, lx.column, 1);
    }
  }

  lemma DigitDispatch(lx: Lexer)
    requires Valid(lx) && !IsAtEnd(lx) && Classify(lx.source[lx.current]) == DigitByte
    ensures ScanToken(lx) == Ok(ScanNumber(Jump(lx, 1)))
  {
    AdvanceStep(lx);
  }

  // The number scan from after the first digit meets the specification of the whole step.
  lemma DigitMeetsSpec(lx: Lexer)
    requires Valid(lx) && !IsAtEnd(lx) && Classify(lx.source[lx.current]) == DigitByte
    ensures StepSpec(lx, Ok(ScanNumber(Jump(lx, 1))))
  {
    PlainSpan(lx.source, lx.current, ScanNumber(Jump(lx, 1)).current, lx.column, 1);
  }

  lemma LetterDispatch(lx: Lexer)
    requires Valid(lx) && !IsAtEnd(lx) && Classify(lx.source[lx.current]) == LetterByte
    ensures ScanToken(lx) == Ok(ScanIdentifier(Jump(lx, 1)))
  {
    AdvanceStep(lx);
  }

  // The identifier scan from after the first letter meets the specification of the whole step.
  lemma LetterMeetsSpec(lx: Lexer)
    requires Valid(lx) && !IsAtEnd(lx) && Classify(lx.source[lx.current]) == LetterByte
    ensures StepSpec(lx, Ok(ScanIdentifier(Jump(lx, 1))))
  {
    PlainSpan(lx.source, lx.current, ScanIdentifier(Jump(lx, 1)).current, lx.column, 1);
  }

  lemma StepUnexpected(lx: Lexer)
    requires Valid(lx) && !IsAtEnd(lx) && Classify(lx.source[lx.current]) == Unexpected
    ensures StepSpec(lx, ScanToken(lx))
  {
    AdvanceStep(lx);
  }

  /**
   The dispatch meets the step specification at every cursor position:
   it fails exactly at the failing positions, with the error stated there,
   and otherwise consumes, counts and pushes as stated for the class of the
   byte under the cursor.
   */
  lemma ScanTokenSpec(lx: Lexer)
    requires Valid(lx)
    ensures StepSpec(lx, ScanToken(lx))
  {
    if IsAtEnd(lx) {
      StepAtEnd(lx);
    } else {
      var src, i := lx.source, lx.current;
      match Classify(src[i])
      case Blank => StepBlank(lx);
      case Newline => StepNewline(lx);
      case SlashByte =>
        if PairAt(src, i, '/', '/') {
          StepLineComment(lx);
        } else if PairAt(src, i, '/', '*') {
          StepBlockComment(lx);
        } else {
          StepSlash(lx);
        }
      case QuoteByte =>
        QuoteDispatch(lx);
        QuoteMeetsSpec(lx);
      case DotByte => StepDot(lx);
      case OperatorByte =>
        MunchDispatch(lx);
        MunchMeetsSpec(lx);
      case DigitByte =>
        DigitDispatch(lx);
        DigitMeetsSpec(lx);
      case LetterByte =>
        LetterDispatch(lx);
        LetterMeetsSpec(lx);
      case Unexpected => StepUnexpected(lx);
    }
  }

  /** Every operator the munch tables name is a kind a step may push. */
  lemma MunchProducible(src: seq<byte>, i: nat)
    requires i < |src| && SingleKind(src[i]).Some?
    ensures Producible(MunchKind(src, i))
  {
  }

  /** A piece of layout that one step skips without pushing a token: a blank, a newline, or a comment. */
  predicate SkipPiece(src: seq<byte>, m: nat, e: nat) {
    || (m + 1 == e <= |src| && src[m] in {' ', '\r', '\t', '\n'})
    || (PairAt(src, m, '/', '/') && MaximalRun(src, m + 2, e, NotNewline))
    || (PairAt(src, m, '/', '*') && FirstCloseEnd(src, m + 2, e))
  }

  /**
   One token pushed, of a kind other than the end-of-input sentinel and the
   kinds no scan produces, whose lexeme is the consumed slice.
   */
  predicate PushesOne(lx: Lexer, l: Lexer)
    requires lx.current <= l.current <= |lx.source|
  {
    && |l.tokens| == |lx.tokens| + 1
    && var t := l.tokens[|lx.tokens|];
    && Producible(t.tokenType)
    && l.tokens == lx.tokens + [Token(t.tokenType, lx.source[lx.current..l.current], l.line, l.column)]
  }

  lemma PushesProducible(lx: Lexer, l: Lexer, k: TokenType)
    requires lx.start == lx.current <= l.current <= |lx.source|
    requires Pushes(lx, l, k) && Producible(k)
    ensures PushesOne(lx, l)
  {
    assert l.tokens[|lx.tokens|] == Token(k, lx.source[lx.current..l.current], l.line, l.column);
  }

  /**
   Whatever its class, a successful step either skipped one piece of layout
   or pushed exactly one token, of a producible kind, whose lexeme is the
   consumed slice.
   */
  lemma StepShape(lx: Lexer, l: Lexer)
    requires Valid(lx) && lx.start == lx.current && StepOk(lx, l)
    ensures lx.current < l.current <= |lx.source|
    ensures (l.tokens == lx.tokens && SkipPiece(lx.source, lx.current, l.current)) || PushesOne(lx, l)
  {
    var src, i := lx.source, lx.current;
    match Classify(src[i])
    case Blank =>
    case Newline =>
    case SlashByte =>
      if !PairAt(src, i, '/', '/') && !PairAt(src, i, '/', '*') {
        PushesProducible(lx, l, Slash);
      }
    case QuoteByte => PushesProducible(lx, l, StringLiteral);
    case DotByte =>
      if PairAt(src, i, '.', '.') {
        PushesProducible(lx, l, Ellipsis);
      } else {
        PushesProducible(lx, l, Dot);
      }
    case OperatorByte =>
      MunchProducible(src, i);
      PushesProducible(lx, l, MunchKind(src, i));
    case DigitByte => PushesProducible(lx, l, NumberLiteral);
    case LetterByte =>
      LookupProducible(src[i..l.current]);
      PushesProducible(lx, l, LookupKeyword(src[i..l.current]));
  }
}
