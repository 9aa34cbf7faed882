/**
 The reference run: the step specification iterated from a cursor. The
 specification allows at most one successor for each step, so a run is a
 single chain of cursors. It ends at the end of the input, or at the first
 position where a step fails.
 */
module Reference {
  import opened Ascii
  import opened Tokens
  import opened Cursor
  import opened Wrappers
  import opened Scanners
  import opened Dispatch
  import opened Step

  /** Two maximal runs of `p` from the same start end at the same place. */
  lemma MaximalRunUnique(src: seq<byte>, i: nat, a: nat, b: nat, p: byte -> bool)
    requires MaximalRun(src, i, a, p) && MaximalRun(src, i, b, p)
    ensures a == b
  {
  }

  /** The first double quote from `i` is one place. */
  lemma FirstQuoteEndUnique(src: seq<byte>, i: nat, a: nat, b: nat)
    requires FirstQuoteEnd(src, i, a) && FirstQuoteEnd(src, i, b)
    ensures a == b
  {
    if a < b {
      assert QuoteAt(src, a - 1);
    } else if b < a {
      assert QuoteAt(src, b - 1);
    }
  }

  /** The first comment close from `i` is one place. */
  lemma FirstCloseEndUnique(src: seq<byte>, i: nat, a: nat, b: nat)
    requires FirstCloseEnd(src, i, a) && FirstCloseEnd(src, i, b)
    ensures a == b
  {
  }

  /** A number literal from `i` has one end: its digit run, and its fraction only when a dot and a digit follow. */
  lemma NumberTailUnique(src: seq<byte>, i: nat, a: nat, b: nat)
    requires NumberTail(src, i, a) && NumberTail(src, i, b)
    ensures a == b
  {
    var da :| i <= da <= a && MaximalRun(src, i, da, IsDigit)
      && if FractionAt(src, da) then da + 1 < a && MaximalRun(src, da + 1, a, IsDigit) else a == da;
    var db :| i <= db <= b && MaximalRun(src, i, db, IsDigit)
      && if FractionAt(src, db) then db + 1 < b && MaximalRun(src, db + 1, b, IsDigit) else b == db;
    MaximalRunUnique(src, i, da, db, IsDigit);
    if FractionAt(src, da) {
      MaximalRunUnique(src, da + 1, a, b, IsDigit);
    }
  }

  /** Two successful steps from one cursor end at the same position. */
  lemma StepEndUnique(lx: Lexer, a: Lexer, b: Lexer)
    requires StepOk(lx, a) && StepOk(lx, b)
    ensures a.current == b.current
  {
    var src, i := lx.source, lx.current;
    match Classify(src[i])
    case SlashByte =>
      if PairAt(src, i, '/', '/') {
        MaximalRunUnique(src, i + 2, a.current, b.current, NotNewline);
      } else if PairAt(src, i, '/', '*') {
        FirstCloseEndUnique(src, i + 2, a.current, b.current);
      }
    case QuoteByte => FirstQuoteEndUnique(src, i + 1, a.current, b.current);
    case DigitByte => NumberTailUnique(src, i + 1, a.current, b.current);
    case LetterByte => MaximalRunUnique(src, i + 1, a.current, b.current, IsAlphaNumeric);
    case _ =>
  }

  /** The step specification is deterministic: a cursor has at most one successor. */
  lemma StepOkUnique(lx: Lexer, a: Lexer, b: Lexer)
    requires StepOk(lx, a) && StepOk(lx, b)
    ensures a == b
  {
    StepEndUnique(lx, a, b);
  }

  /** The one successor the step specification allows at a position where the step does not fail. */
  ghost function Next(lx: Lexer): (l: Lexer)
    requires Valid(lx) && !FailsAt(lx.source, lx.current)
    ensures StepOk(lx.(start := lx.current), l)
    ensures Valid(l) && l.source == lx.source && lx.current < l.current <= |lx.source|
  {
    var l0 := lx.(start := lx.current);
    ScanTokenSpec(l0);
    assert StepOk(l0, ScanToken(l0).value);
    var l :| StepOk(l0, l);
    l
  }

  /** The step specification states one error at each failing position. */
  lemma StepErrorUnique(lx: Lexer, a: LexError, b: LexError)
    requires StepError(lx, a) && StepError(lx, b)
    ensures a == b
  {
  }

  /** The error the step specification states at a failing position. */
  ghost function ErrorOf(lx: Lexer): (e: LexError)
    requires Valid(lx) && FailsAt(lx.source, lx.current)
    ensures StepError(lx, e)
  {
    var l0 := lx.(start := lx.current);
    ScanTokenSpec(l0);
    assert StepError(lx, ScanToken(l0).error);
    var e :| StepError(lx, e);
    e
  }

  /**
   The run from `lx`. At the end of the input it yields the tokens so far
   and one end-of-input token at the cursor's line and column. At a failing
   position it yields that step's error. Otherwise it continues from the
   one successor.
   */
  ghost function Run(lx: Lexer): Result<seq<Token>, LexError>
    requires Valid(lx)
    decreases |lx.source| - lx.current
  {
    if IsAtEnd(lx) then Ok(lx.tokens + [Token(Eof, [], lx.line, lx.column)])
    else if FailsAt(lx.source, lx.current) then Err(ErrorOf(lx))
    else Run(Next(lx))
  }

  /** `t` lies on the run from `lx`: it is `lx`, or `lx` steps and `t` lies on the run from the successor. */
  ghost predicate Reaches(lx: Lexer, t: Lexer)
    decreases |lx.source| - lx.current
  {
    && Valid(lx)
    && (lx == t || (!FailsAt(lx.source, lx.current) && Reaches(Next(lx), t)))
  }

  /** `t` lies on the run from the fresh cursor over `src`. */
  ghost predicate Reached(src: seq<byte>, t: Lexer) {
    Reaches(Cursor.New(src), t)
  }

  /** A cursor on a run is valid, over the same source, and no earlier than where the run started. */
  lemma {:induction false} ReachesInside(lx: Lexer, t: Lexer)
    requires Reaches(lx, t)
    ensures Valid(t) && t.source == lx.source && lx.current <= t.current
    decreases |lx.source| - lx.current
  {
    if lx != t {
      ReachesInside(Next(lx), t);
    }
  }

  /** Runs do not branch: of two cursors on the run from `lx`, one lies on the run from the other. */
  lemma {:induction false} ReachesLinear(lx: Lexer, a: Lexer, b: Lexer)
    requires Reaches(lx, a) && Reaches(lx, b)
    ensures Reaches(a, b) || Reaches(b, a)
    decreases |lx.source| - lx.current
  {
    if lx != a && lx != b {
      ReachesLinear(Next(lx), a, b);
    }
  }

  /** A run goes on only from positions where the step does not fail, so a failing cursor is the last one. */
  lemma ReachesStops(a: Lexer, b: Lexer)
    requires Reaches(a, b) && FailsAt(a.source, a.current)
    ensures b == a
  {
  }

  /**
   The run's outcome in terms of the cursors on it: success means a cursor
   at the end of the input whose tokens, plus the end-of-input token, are
   the result; failure means a cursor at a failing position whose step error
   is the result.
   */
  lemma {:induction false} RunOutcome(lx: Lexer)
    requires Valid(lx)
    ensures match Run(lx)
      case Ok(toks) =>
        exists t :: Reaches(lx, t) && IsAtEnd(t) && toks == t.tokens + [Token(Eof, [], t.line, t.column)]
      case Err(e) =>
        exists t :: Reaches(lx, t) && !IsAtEnd(t) && FailsAt(t.source, t.current) && StepError(t, e)
    decreases |lx.source| - lx.current
  {
    if IsAtEnd(lx) {
      assert Reaches(lx, lx);
    } else if FailsAt(lx.source, lx.current) {
      assert Reaches(lx, lx);
    } else {
      var l := Next(lx);
      RunOutcome(l);
      match Run(l)
      case Ok(toks) =>
        var t :| Reaches(l, t) && IsAtEnd(t) && toks == t.tokens + [Token(Eof, [], t.line, t.column)];
        assert Reaches(lx, t);
      case Err(e) =>
        var t :| Reaches(l, t) && !IsAtEnd(t) && FailsAt(t.source, t.current) && StepError(t, e);
        assert Reaches(lx, t);
    }
  }

  /** Of two cursors on one run where the step fails, neither comes first: they are the same cursor. */
  lemma FinalUnique(lx: Lexer, a: Lexer, b: Lexer)
    requires Reaches(lx, a) && Reaches(lx, b)
    requires FailsAt(a.source, a.current) && FailsAt(b.source, b.current)
    ensures a == b
  {
    ReachesLinear(lx, a, b);
  }

  /** Every cursor on a run before a later one is a position where the step succeeded. */
  lemma EarlierSteps(lx: Lexer, a: Lexer, b: Lexer)
    requires Reaches(lx, a) && Reaches(lx, b) && a.current < b.current
    ensures Valid(a) && !FailsAt(a.source, a.current) && Reaches(Next(a), b)
  {
    ReachesInside(lx, a);
    ReachesLinear(lx, a, b);
    if Reaches(b, a) {
      ReachesInside(b, a);
    }
  }
}
