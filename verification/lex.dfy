/**
 The driver `lex`: from a fresh cursor, run scan steps until the end of the
 input, each step starting a new lexeme at the cursor; the first failing
 step ends the run with its error, and a run that reaches the end pushes
 one end-of-input token stamped with the final line and column.
 */
module Lexing {
  import opened Ascii
  import opened Tokens
  import opened Layout
  import opened Cursor
  import opened Wrappers
  import opened Dispatch
  import opened Step
  import opened Reference

  /** A successful step from `lx` stays in the source and moves the cursor forward. */
  lemma StepProgress(lx: Lexer)
    requires Valid(lx)
    ensures ScanToken(lx).Ok? ==>
      var l := ScanToken(lx).value;
      Valid(l) && l.source == lx.source && lx.current < l.current
  {
    ScanTokenSpec(lx);
  }

  /** The scan loop: one step per lexeme until the end, then the end-of-input token. */
  function LexLoop(lx: Lexer): (r: Result<seq<Token>, LexError>)
    requires Valid(lx)
    decreases |lx.source| - lx.current
  {
    if IsAtEnd(lx) then Ok(lx.tokens + [Token(Eof, [], lx.line, lx.column)])
    else
      var l := lx.(start := lx.current);
      StepProgress(l);
      match ScanToken(l)
      case Err(e) => Err(e)
      case Ok(l2) => LexLoop(l2)
  }

  /** The lexer over a whole source buffer. */
  function Lex(source: seq<byte>): Result<seq<Token>, LexError> {
    LexLoop(Cursor.New(source))
  }

  /** `[b, e)` is a sequence of skipped layout pieces, possibly none. */
  ghost predicate Skipped(src: seq<byte>, b: nat, e: nat)
    decreases e - b
  {
    b == e || exists m | b <= m < e :: SkipPiece(src, m, e) && Skipped(src, b, m)
  }

  /** The last token of `toks` is the slice `[a, b)`, stamped with the line reached at `b`, followed by layout up to `e`. */
  ghost predicate LastTokenAt(src: seq<byte>, toks: seq<Token>, a: nat, b: nat, e: nat) {
    && |toks| > 0
    && a < b <= e <= |src|
    && var t := toks[|toks| - 1];
    && Producible(t.tokenType)
    && t.lexeme == src[a..b]
    && t.line == LineAt(src, b)
    && Skipped(src, b, e)
  }

  /**
   The tokens `toks` tile `[0, e)` in order: each lexeme is the non-empty
   source slice of its own span, spans do not overlap, everything between
   them is skipped layout, and each token carries the line reached at the
   end of its lexeme.
   */
  ghost predicate Covers(src: seq<byte>, e: nat, toks: seq<Token>)
    decreases |toks|
  {
    if |toks| == 0 then e <= |src| && Skipped(src, 0, e)
    else exists a, b :: LastTokenAt(src, toks, a, b, e) && Covers(src, a, toks[..|toks| - 1])
  }

  /**
   The column after `[0, e)`: one past the length without a newline, else
   the distance from the last newline, plus one when a block comment was
   where that newline was read.
   */
  ghost predicate ColumnAt(src: seq<byte>, e: nat, col: int)
    requires e <= |src|
  {
    var ln := LastNewline(src, 0, e);
    if ln < 0 then col == e + 1 else e - ln <= col <= e - ln + 1
  }

  /** What holds before every step of the loop. */
  ghost predicate LoopInv(lx: Lexer) {
    && Valid(lx)
    && Covers(lx.source, lx.current, lx.tokens)
    && lx.line == LineAt(lx.source, lx.current)
    && ColumnAt(lx.source, lx.current, lx.column)
  }

  /** A successful run tiles the source: the covered tokens, then one end-of-input token with an empty lexeme at the final position. */
  ghost predicate Tiled(src: seq<byte>, toks: seq<Token>) {
    && |toks| > 0
    && var eof := toks[|toks| - 1];
    && eof.tokenType == Eof && eof.lexeme == []
    && eof.line == LineAt(src, |src|)
    && ColumnAt(src, |src|, eof.column)
    && Covers(src, |src|, toks[..|toks| - 1])
  }

  lemma SkippedExtend(src: seq<byte>, b: nat, m: nat, e: nat)
    requires b <= m < e && Skipped(src, b, m) && SkipPiece(src, m, e)
    ensures Skipped(src, b, e)
  {
  }

  /** Layout after the covered tokens extends the cover. */
  lemma CoversSkip(src: seq<byte>, m: nat, e: nat, toks: seq<Token>)
    requires m < e && Covers(src, m, toks) && SkipPiece(src, m, e)
    ensures Covers(src, e, toks)
  {
    if |toks| == 0 {
      SkippedExtend(src, 0, m, e);
    } else {
      var a, b :| LastTokenAt(src, toks, a, b, m) && Covers(src, a, toks[..|toks| - 1]);
      SkippedExtend(src, b, m, e);
      assert LastTokenAt(src, toks, a, b, e);
    }
  }

  /** A token spanning `[m, e)` right after the covered tokens extends the cover. */
  lemma CoversPush(src: seq<byte>, m: nat, e: nat, toks: seq<Token>, t: Token)
    requires m < e <= |src| && Covers(src, m, toks)
    requires Producible(t.tokenType) && t.lexeme == src[m..e] && t.line == LineAt(src, e)
    ensures Covers(src, e, toks + [t])
  {
    var ts := toks + [t];
    assert ts[..|ts| - 1] == toks;
    assert LastTokenAt(src, ts, m, e, e);
  }

  /** The column bookkeeping of one step keeps the column invariant. */
  lemma ColumnStep(src: seq<byte>, i: nat, e: nat, col: int, reset: int)
    requires i <= e <= |src| && ColumnAt(src, i, col) && (reset == 1 || reset == 2)
    ensures ColumnAt(src, e, ColumnAfter(src, i, e, col, reset))
  {
    ColumnAfterClosedForm(src, i, e, col, reset);
    LastNewlineSplit(src, 0, i, e);
  }

  /** A successful step keeps the loop invariant. */
  lemma StepKeepsInv(lx: Lexer, l2: Lexer)
    requires LoopInv(lx) && !IsAtEnd(lx)
    requires StepOk(lx.(start := lx.current), l2)
    ensures LoopInv(l2)
  {
    var src, i, e := lx.source, lx.current, l2.current;
    var l := lx.(start := lx.current);
    StepShape(l, l2);
    NewlinesSplit(src, 0, i, e);
    ColumnStep(src, i, e, lx.column, if PairAt(src, i, '/', '*') then 2 else 1);
    if l2.tokens == lx.tokens && SkipPiece(src, i, e) {
      CoversSkip(src, i, e, lx.tokens);
    } else {
      var t := l2.tokens[|lx.tokens|];
      CoversPush(src, i, e, lx.tokens, t);
    }
  }

  /** From any cursor where the invariant holds, a loop that reaches the end has tiled the whole source. */
  lemma {:induction false} LexLoopTiles(lx: Lexer)
    requires LoopInv(lx)
    ensures LexLoop(lx).Ok? ==> Tiled(lx.source, LexLoop(lx).value)
    decreases |lx.source| - lx.current
  {
    if IsAtEnd(lx) {
      var toks := lx.tokens + [Token(Eof, [], lx.line, lx.column)];
      assert toks[..|toks| - 1] == lx.tokens;
    } else {
      var l := lx.(start := lx.current);
      ScanTokenSpec(l);
      StepProgress(l);
      if ScanToken(l).Ok? {
        var l2 := ScanToken(l).value;
        StepKeepsInv(lx, l2);
        LexLoopTiles(l2);
      }
    }
  }

  /**
   On success the tokens tile the source and end in exactly one
   end-of-input token at the final line, with the final column stated as
   `ColumnAt` allows.
   */
  lemma LexTiles(source: seq<byte>)
    ensures Lex(source).Ok? ==> Tiled(source, Lex(source).value)
  {
    assert Skipped(source, 0, 0);
    LexLoopTiles(Cursor.New(source));
  }

  /** The scan loop is the reference run: each dispatch step is the one step the specification allows. */
  lemma {:induction false} LexLoopIsRun(lx: Lexer)
    requires Valid(lx)
    ensures LexLoop(lx) == Run(lx)
    decreases |lx.source| - lx.current
  {
    if !IsAtEnd(lx) {
      var l := lx.(start := lx.current);
      ScanTokenSpec(l);
      if !FailsAt(lx.source, lx.current) {
        StepOkUnique(l, ScanToken(l).value, Next(lx));
        LexLoopIsRun(Next(lx));
      }
    }
  }

  /** A successful run: the cursor the reference run reaches at the end of the input, its tokens, then the end-of-input token there. */
  ghost predicate Lexed(src: seq<byte>, toks: seq<Token>) {
    exists t :: Reached(src, t) && IsAtEnd(t) && toks == t.tokens + [Token(Eof, [], t.line, t.column)]
  }

  /** A failed run: the error of the step from the first cursor of the reference run at which the step fails. */
  ghost predicate FailsWith(src: seq<byte>, e: LexError) {
    exists t :: Reached(src, t) && !IsAtEnd(t) && FailsAt(src, t.current) && StepError(t, e)
  }

  /**
   The lexer's contract: it returns exactly the tokens of the reference run
   when that run reaches the end of the input, and exactly the error of the
   first failing step otherwise. No partial token list is returned with an
   error.
   */
  lemma LexSpec(source: seq<byte>, toks: seq<Token>, e: LexError)
    ensures Lex(source) == Ok(toks) <==> Lexed(source, toks)
    ensures Lex(source) == Err(e) <==> FailsWith(source, e)
  {
    LexOkSpec(source, toks);
    LexErrSpec(source, e);
  }

  /** The success half of the lexer's contract. */
  lemma LexOkSpec(source: seq<byte>, toks: seq<Token>)
    ensures Lex(source) == Ok(toks) <==> Lexed(source, toks)
  {
    var t0 := FinalCursor(source);
    SameFinal(source, toks, UnexpectedChar(NUL, 0, 0), t0);
    match Lex(source)
    case Ok(ts) => assert Lexed(source, ts);
    case Err(_) =>
  }

  /** The failure half of the lexer's contract. */
  lemma LexErrSpec(source: seq<byte>, e: LexError)
    ensures Lex(source) == Err(e) <==> FailsWith(source, e)
  {
    var t0 := FinalCursor(source);
    SameFinal(source, [], e, t0);
    match Lex(source)
    case Err(e0) =>
      assert FailsWith(source, e0);
      if FailsWith(source, e) {
        StepErrorUnique(t0, e, e0);
      }
    case Ok(_) =>
  }

  /** The cursor where the lexer's run stops: at the end of the input on success, at the failing step otherwise. */
  lemma FinalCursor(source: seq<byte>) returns (t0: Lexer)
    ensures Reached(source, t0) && t0.source == source && FailsAt(source, t0.current)
    ensures match Lex(source)
      case Ok(toks) => IsAtEnd(t0) && toks == t0.tokens + [Token(Eof, [], t0.line, t0.column)]
      case Err(e) => !IsAtEnd(t0) && StepError(t0, e)
  {
    var s0 := Cursor.New(source);
    LexLoopIsRun(s0);
    RunOutcome(s0);
    match Run(s0)
    case Ok(ts) =>
      t0 :| Reaches(s0, t0) && IsAtEnd(t0) && ts == t0.tokens + [Token(Eof, [], t0.line, t0.column)];
      ReachesInside(s0, t0);
    case Err(e0) =>
      t0 :| Reaches(s0, t0) && !IsAtEnd(t0) && FailsAt(t0.source, t0.current) && StepError(t0, e0);
      ReachesInside(s0, t0);
  }

  /** A successful or failed run names the one cursor of the reference run where the step cannot go on. */
  lemma SameFinal(source: seq<byte>, toks: seq<Token>, e: LexError, t0: Lexer)
    requires Reached(source, t0) && FailsAt(t0.source, t0.current)
    ensures t0.source == source
    ensures Lexed(source, toks) ==> IsAtEnd(t0) && toks == t0.tokens + [Token(Eof, [], t0.line, t0.column)]
    ensures FailsWith(source, e) ==> !IsAtEnd(t0) && StepError(t0, e)
  {
    var s0 := Cursor.New(source);
    ReachesInside(s0, t0);
    if Lexed(source, toks) {
      var t :| Reached(source, t) && IsAtEnd(t) && toks == t.tokens + [Token(Eof, [], t.line, t.column)];
      ReachesInside(s0, t);
      FinalUnique(s0, t, t0);
    }
    if FailsWith(source, e) {
      var t :| Reached(source, t) && !IsAtEnd(t) && FailsAt(source, t.current) && StepError(t, e);
      ReachesInside(s0, t);
      FinalUnique(s0, t, t0);
    }
  }

  /** Every covered token has a producible kind and a non-empty lexeme. */
  lemma {:induction false} CoversTokens(src: seq<byte>, e: nat, toks: seq<Token>)
    requires Covers(src, e, toks)
    ensures forall k | 0 <= k < |toks| :: Producible(toks[k].tokenType) && |toks[k].lexeme| > 0
    decreases |toks|
  {
    if |toks| > 0 {
      var a, b :| LastTokenAt(src, toks, a, b, e) && Covers(src, a, toks[..|toks| - 1]);
      CoversTokens(src, a, toks[..|toks| - 1]);
      forall k | 0 <= k < |toks| - 1
        ensures Producible(toks[k].tokenType) && |toks[k].lexeme| > 0
      {
        assert toks[k] == toks[..|toks| - 1][k];
      }
    }
  }

  /**
   A successful run ends in exactly one end-of-input token, and no token
   before it has one of the kinds that no scan produces.
   */
  lemma LexOneEof(source: seq<byte>)
    requires Lex(source).Ok?
    ensures var toks := Lex(source).value;
      && |toks| > 0
      && (forall k | 0 <= k < |toks| :: toks[k].tokenType == Eof <==> k == |toks| - 1)
      && (forall k | 0 <= k < |toks| - 1 :: !IsUnused(toks[k].tokenType) && |toks[k].lexeme| > 0)
  {
    var toks := Lex(source).value;
    LexTiles(source);
    var body := toks[..|toks| - 1];
    CoversTokens(source, |source|, body);
    forall k | 0 <= k < |toks| - 1
      ensures toks[k].tokenType != Eof && !IsUnused(toks[k].tokenType) && |toks[k].lexeme| > 0
    {
      assert toks[k] == body[k];
    }
  }

  /** The run succeeds exactly when the step fails at none of the cursors the reference run reaches before the end. */
  lemma LexTotal(source: seq<byte>)
    ensures Lex(source).Ok? <==> forall t | Reached(source, t) && !IsAtEnd(t) :: !FailsAt(source, t.current)
  {
    var s0 := Cursor.New(source);
    match Lex(source)
    case Ok(toks) =>
      LexSpec(source, toks, UnexpectedChar(NUL, 0, 0));
      var t0 :| Reached(source, t0) && IsAtEnd(t0) && toks == t0.tokens + [Token(Eof, [], t0.line, t0.column)];
      ReachesInside(s0, t0);
      forall t | Reached(source, t) && !IsAtEnd(t)
        ensures !FailsAt(source, t.current)
      {
        ReachesInside(s0, t);
        if FailsAt(source, t.current) {
          FinalUnique(s0, t, t0);
        }
      }
    case Err(e) =>
      LexSpec(source, [], e);
  }

  /** On a single line, the end-of-input token is on line 1, one column past the last byte. */
  lemma LexSingleLine(source: seq<byte>)
    requires Lex(source).Ok?
    requires forall p | 0 <= p < |source| :: source[p] != '\n'
    ensures |Lex(source).value| > 0
    ensures var eof := Lex(source).value[|Lex(source).value| - 1];
      eof.line == 1 && eof.column == |source| + 1
  {
    LexTiles(source);
    PlainSpan(source, 0, |source|, 1, 1);
    NewlinesPositive(source, 0, |source|);
  }
}
