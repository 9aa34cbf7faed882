# dotFun lexer, modelled in Dafny

This project models the bootstrap lexer of the dotFun language. The lexer
is a single-pass scanner over an ASCII byte buffer. It cuts the buffer into
`Token`s, each with a kind, its exact source bytes, and the line and column
the cursor reached after it. The list ends in one `Eof` token. The first
lexical error stops the run.

The Rust lexer mutates a `Lexer` struct in place. The model threads an
immutable `Lexer` record (source, `start`, `current`, `line`, `column`,
tokens) through pure functions instead. Every loop of the source is a
function that recurses on the bytes left to read. Every `Result<(), String>`
becomes a `Result` whose error case is a `LexError` datatype carrying the
same position data as the message.

Modules:

- `Ascii`: bytes, and the character classes `is_digit`, `is_alpha` and `is_alpha_numeric`.
- `Tokens`: the closed `TokenType` enum in source order, and the `Token` record.
- `Keywords`: `lookup_keyword`.
- `Cursor`: the cursor state, with `new`, `is_at_end`, `advance`, `match_char`, `peek`, `peek_next` and `add_token`.
- `Layout`: line and column arithmetic over a span of the source.
- `Scanners`: the sub-scanners for line comments, strings, numbers, identifiers and block comments.
- `Dispatch`: `scan_tokens`, which is one dispatch step.
- `Step`: a specification of one step that is independent of the dispatch code, and the proof that the dispatch meets it.
- `Reference`: the step specification iterated from a fresh cursor. The specification allows at most one successor per step, so this run is a single chain of cursors. That a step exists at each non-failing cursor comes from `Step.ScanTokenSpec`; which step it is follows from the specification alone.
- `Lexing`: the driver `lex` and its whole-run contract.
- `Rules`: the quirks of a single step, each stated on its own.

The central results are these:

- **`Step.ScanTokenSpec`** covers every cursor position. It classifies the byte under the cursor and then states:
  - whether the step fails, and with which error;
  - otherwise how far the cursor moves;
  - how line and column follow the consumed bytes;
  - which token is pushed, if any.
- **`Lexing.LexLoopIsRun`** shows that the scan loop is the reference run. At every cursor the dispatch takes the one step the specification allows.
- **`Lexing.LexSpec`** states the whole run as an if-and-only-if:
  - `lex` returns `Ok(toks)` exactly when the reference run reaches the end of the input. The tokens are then those of that run, plus one `Eof` at its final line and column.
  - `lex` returns `Err(e)` exactly when the reference run stops at a position where the step fails, and `e` is that step's error. Every cursor before it stepped without failing, so this is the first failure, and no partial token list is returned.
- **`Lexing.LexTiles`** is a summary of a successful run. The lexemes tile the source in order, with skipped layout between them. Each lexeme is a non-empty slice of the source.

These quirks are modelled as the code behaves:

- A string may open on `'` but closes only on `"`.
- A token carries the cursor column after its lexeme.
- After a newline the column is 1 at top level and inside a string, and 2 inside a block comment.
- An unexpected character is reported at the column after it.

## Model

| member | source | states |
|---|---|---|
| Cursor.New | bootstrap/lexer/lexer.rs:15-24 | a fresh lexer is at offset 0, line 1, column 1, with no tokens |
| Cursor.Advance | bootstrap/lexer/lexer.rs:230-240 | returns exactly the byte `peek` would report (NUL past the end); inside the source it moves one byte and one column, at the end it changes nothing, and it never touches the source, lexeme start, line or tokens |
| Cursor.AdvanceStep | bootstrap/lexer/lexer.rs:230-240 | inside the source, `advance` is a one-byte, one-column move that returns the byte under the cursor |
| Cursor.MatchChar | bootstrap/lexer/lexer.rs:242-254 | succeeds exactly when a next byte exists and equals the expected one |
| Cursor.MatchStep | bootstrap/lexer/lexer.rs:242-254 | a successful match moves one byte like `advance`; a failed match leaves the state unchanged |
| Cursor.PeekNextIsPeekAfterAdvance | bootstrap/lexer/lexer.rs:256-268 | `peek_next` sees exactly the byte `peek` would see after one `advance`, with NUL past the end |
| Cursor.AdvanceStaysInside | bootstrap/lexer/lexer.rs:226-240 | advancing never moves the cursor past the end of the source |
| Cursor.AddToken | bootstrap/lexer/lexer.rs:43-54 | appends one token whose lexeme is the slice `[start, current)`, stamped with the current line and column; cursor and counters are unchanged |
| Ascii.DigitClass | bootstrap/lexer/lexer.rs:316-318 | the range test accepts exactly the ten decimal digits |
| Ascii.ClassesAreAscii | bootstrap/lexer/lexer.rs:316-326 | letters and digits are disjoint; no byte of 128 or above is a letter or digit, and neither is NUL |
| Keywords.LookupIdentifierIff | bootstrap/lexer/lexer.rs:271-313 | lookup yields `Identifier` if and only if the text is no reserved word, so matching is whole-word |
| Keywords.LookupSpelled | bootstrap/lexer/lexer.rs:271-313 | a keyword result is the kind whose reserved word is exactly the looked-up text |
| Keywords.SpellingRoundTrip | bootstrap/lexer/lexer.rs:271-313 | each of the 39 reserved words looks up to its own kind, and each has the shape of an identifier |
| Keywords.LookupProducible | bootstrap/lexer/lexer.rs:271-313 | lookup never yields `Eof` nor a declared-but-unused kind |
| Keywords.UnreservedWords | bootstrap/lexer/token.rs:63-72 | `try`, `catch`, `switch`, `default` are not in the table and look up as `Identifier` |
| Keywords.NoPartialOrFoldedMatch | bootstrap/lexer/lexer.rs:271-313 | a reserved word's kind is returned only for that exact word: no prefix, extension or case variant of it yields the kind |
| Layout.NewlinesSplit | bootstrap/lexer/lexer.rs:60-64 | newline counts add up over adjacent spans |
| Layout.ColumnAfterSplit | bootstrap/lexer/lexer.rs:60-64 | the column after a span equals the column after its two parts, consumed one after the other |
| Layout.ColumnAfterClosedForm | bootstrap/lexer/lexer.rs:60-64 | the column after a span is the start column plus its length when it has no newline, otherwise the reset value plus the bytes after its last newline |
| Layout.OneByte | bootstrap/lexer/lexer.rs:60-64 | one newline adds a line and resets the column; any other byte adds one column |
| Layout.PlainSpan | bootstrap/lexer/lexer.rs:230-240 | a span without a newline keeps the line and moves the column by its length |
| Scanners.SkipLineComment | bootstrap/lexer/lexer.rs:68-72 | a line comment skips the maximal run of non-newline bytes, keeping the line, and moves the column by that run's length |
| Scanners.AdvanceWhile | bootstrap/lexer/lexer.rs:181-183 | `while p(peek()) { advance() }` stops at the end of the maximal run of `p` bytes |
| Scanners.BodyByte | bootstrap/lexer/lexer.rs:171-175 | one byte of a string or comment body moves one byte; the line follows the newline count, and the column follows the layout rule with the body's reset value |
| Scanners.StringBodyOutcome | bootstrap/lexer/lexer.rs:162-178 | the string body succeeds if and only if a `"` lies ahead; otherwise the error reports the line reached at the end of input |
| Scanners.StringBodySpan | bootstrap/lexer/lexer.rs:162-178 | a successful body ends just after the first `"`; line and column follow the consumed bytes, with column 1 after a newline |
| Scanners.ScanString | bootstrap/lexer/lexer.rs:162-178 | succeeds if and only if a `"` lies ahead; then one `StringLiteral` runs from the opening delimiter through the first `"`, with line and column following the bytes read; otherwise the string is unterminated at the line reached at the end of input |
| Scanners.ScanNumber | bootstrap/lexer/lexer.rs:180-194 | a number is a maximal digit run, plus a dot and a second maximal run only when a digit follows the dot; one `NumberLiteral` token |
| Scanners.ScanIdentifier | bootstrap/lexer/lexer.rs:196-205 | an identifier is the maximal letter/digit/underscore run, and its kind is the keyword lookup of the whole lexeme |
| Scanners.BlockCommentOutcome | bootstrap/lexer/lexer.rs:207-224 | the comment succeeds if and only if `*/` lies ahead; otherwise the error reports the line reached at the end of input |
| Scanners.BlockCommentSpan | bootstrap/lexer/lexer.rs:207-224 | a successful comment ends just after the first `*/`, with no nesting; line and column follow, with column 2 after a newline |
| Dispatch.EitherStep | bootstrap/lexer/lexer.rs:82-126 | a two-way operator case pushes the long kind over two bytes when the next byte matches, and otherwise the short kind over one byte |
| Dispatch.Either3Step | bootstrap/lexer/lexer.rs:86-112 | a three-way operator case tries the two look-ahead bytes in order before the single-byte kind |
| Step.MunchDispatch | bootstrap/lexer/lexer.rs:82-149 | at every operator byte, the step pushes the longest operator the pair table spells at the cursor |
| Step.MunchMeetsSpec | bootstrap/lexer/lexer.rs:82-149 | the munch step consumes one or two bytes on the current line and pushes the munched kind |
| Step.MunchProducible | bootstrap/lexer/token.rs:106-115 | no operator in the tables is `Eof`, `FatArrow` or `BitXor` |
| Step.StepAtEnd | bootstrap/lexer/lexer.rs:154-158 | a step at the end of the input reports NUL as an unexpected character |
| Step.StepBlank | bootstrap/lexer/lexer.rs:60 | space, carriage return and tab are skipped, one column each |
| Step.StepNewline | bootstrap/lexer/lexer.rs:61-65 | a newline is skipped, the line grows by one and the column becomes 1 |
| Step.StepLineComment | bootstrap/lexer/lexer.rs:67-72 | `//` skips up to, but not including, the next newline |
| Step.StepBlockComment | bootstrap/lexer/lexer.rs:207-224 | `/*` skips through the first `*/` or fails as an unterminated block comment |
| Step.StepSlash | bootstrap/lexer/lexer.rs:75-77 | any other `/` pushes `Slash` |
| Step.QuoteMeetsSpec | bootstrap/lexer/lexer.rs:162-178 | from `"` or `'`, the step pushes the string through the first `"`, or fails as an unterminated string |
| Step.StepDot | bootstrap/lexer/lexer.rs:127-137 | `...` pushes `Ellipsis`, a lone `.` pushes `Dot`, and `..` without a third dot fails |
| Step.DigitMeetsSpec | bootstrap/lexer/lexer.rs:180-194 | a digit starts a number token whose tail is a digit run with an optional fraction |
| Step.LetterMeetsSpec | bootstrap/lexer/lexer.rs:196-205 | a letter or underscore starts an identifier token whose kind is the keyword lookup |
| Step.StepUnexpected | bootstrap/lexer/lexer.rs:154-158 | any other byte fails as an unexpected character at the column after it |
| Step.ScanTokenSpec | bootstrap/lexer/lexer.rs:56-160 | one step fails exactly at the failing positions, with the stated error; otherwise it consumes at least one byte, counts lines and columns, and pushes what its byte class prescribes |
| Step.StepShape | bootstrap/lexer/lexer.rs:56-160 | a successful step either skips one piece of layout or pushes exactly one token of a producible kind, whose lexeme is the consumed slice |
| Reference.StepOkUnique | bootstrap/lexer/lexer.rs:56-160 | the step specification allows at most one successor for any cursor, so the specified step is deterministic like `scan_tokens` |
| Reference.ReachesLinear | bootstrap/lexer/lexer.rs:28-31 | a run does not branch: of two cursors on it, one lies on the run from the other |
| Reference.EarlierSteps | bootstrap/lexer/lexer.rs:28-31 | every cursor on a run before a later one is a position where the step succeeded |
| Reference.FinalUnique | bootstrap/lexer/lexer.rs:28-31 | a run has only one cursor where the step cannot go on |
| Reference.RunOutcome | bootstrap/lexer/lexer.rs:26-41 | the run ends in `Ok` with the tokens of a cursor at the end of the input, or in `Err` with the error of a cursor at a failing position |
| Lexing.StepProgress | bootstrap/lexer/lexer.rs:28-31 | every successful step moves the cursor forward inside the source, so the loop terminates |
| Lexing.LexLoopIsRun | bootstrap/lexer/lexer.rs:28-41 | the scan loop computes the reference run: from any cursor it returns what the run of the step specification returns |
| Lexing.LexLoopTiles | bootstrap/lexer/lexer.rs:28-41 | from any cursor where the tiling invariant holds, a loop that reaches the end has tiled the whole source |
| Lexing.LexSpec | bootstrap/lexer/lexer.rs:26-41 | `lex` returns `Ok(toks)` if and only if the reference run reaches the end with these tokens and `Eof`, and `Err(e)` if and only if the run stops at a failing step whose error is `e` |
| Lexing.LexOkSpec | bootstrap/lexer/lexer.rs:33-38 | the success half: `Ok(toks)` exactly for the tokens of the run that reaches the end, then `Eof` at its line and column |
| Lexing.LexErrSpec | bootstrap/lexer/lexer.rs:28-31 | the failure half: `Err(e)` exactly for the error of the first failing step of the run |
| Lexing.LexTiles | bootstrap/lexer/lexer.rs:26-41 | on success the lexemes tile the source with skipped layout between them, and `Eof` carries the final line |
| Lexing.CoversTokens | bootstrap/lexer/lexer.rs:43-54 | every token before `Eof` has a non-empty lexeme and a producible kind |
| Lexing.LexOneEof | bootstrap/lexer/lexer.rs:33-38 | a successful run has exactly one `Eof`, in last place, and no declared-but-unused kind |
| Lexing.LexTotal | bootstrap/lexer/lexer.rs:26-41 | `lex` succeeds if and only if the step fails at none of the cursors the run reaches before the end of the input |
| Lexing.LexSingleLine | bootstrap/lexer/lexer.rs:33-38 | on a source without newlines, `Eof` is on line 1 and one column past the last byte |
| Rules.EqualBeforeGreater | bootstrap/lexer/lexer.rs:94-97 | `=>` is not an operator: `=` alone becomes `Equal`, leaving `>` for the next step |
| Rules.NoCaseForByte | bootstrap/lexer/lexer.rs:154-158 | `^` and every byte of 128 or above fail as an unexpected character |
| Rules.NumberStopsAtBareDot | bootstrap/lexer/lexer.rs:185-191 | `1.` without a digit after the dot yields a number ending before the dot |
| Rules.TwoDotsFail | bootstrap/lexer/lexer.rs:127-133 | `..` without a third dot, including at the end of the input, is a malformed ellipsis |
| Rules.ThreeDots | bootstrap/lexer/lexer.rs:127-130 | `...` is a single `Ellipsis` token |
| Rules.ApostropheClosesOnlyOnQuote | bootstrap/lexer/lexer.rs:162-178 | a string opened by `'` ends only at a `"`; with none ahead, the step fails with the line reached at the end |

## Left out

- `Display` for `Token` (bootstrap/lexer/token.rs:135-143) is library string formatting and is not modelled.
- The text of error messages is not modelled. Errors are the `LexError` datatype, carrying the byte, line and column the message prints.
- Rust's `String` and UTF-8 slicing are not modelled. The source is a sequence of byte values, so slicing never fails on a character boundary.
- `line` and `column` are unbounded integers, so `i64` overflow is not modelled.
- Calling `lex` twice on the same lexer is not modelled. `Lexing.Lex` always starts from a fresh lexer, so a second `Eof` cannot arise.
- Dispatch.ScanToken: carries no contract of its own. Its behaviour is stated case by case by `Step.ScanTokenSpec` and the lemmas it uses.
- Lexing.LexTiles: states the final column only within one when a newline was read. `Lexing.ColumnAt` allows `reset` or `reset + 1` after the last newline, because the tiling invariant does not record whether that newline was inside a block comment. The exact column of every token and of `Eof` is stated by `Lexing.LexSpec`, through the reference run.
- Keywords.LookupKeyword: the 39 arms of the source's match are grouped by word length and then matched on the word. Word and kind pairs are unchanged. The result is the same for every text, because words of different lengths never match.
