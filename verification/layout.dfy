/**
 Line and column arithmetic over a span `[i, e)` of the source: how many
 newlines it holds, where its last newline is, and what the column counter
 reads after it when every newline sets the counter to a fixed value.
 */
module Layout {
  import opened Ascii

  /** The number of newline bytes in `src[i..e]`. */
  function Newlines(src: seq<byte>, i: nat, e: nat): nat
    requires e <= |src|
    decreases e - i
  {
    if i >= e then 0
    else (if src[i] == '\n' then 1 else 0) + Newlines(src, i + 1, e)
  }

  /** The line counter after the bytes `src[..e]`, starting from line 1. */
  function LineAt(src: seq<byte>, e: nat): int
    requires e <= |src|
  {
    1 + Newlines(src, 0, e)
  }

  /** The index of the last newline in `src[i..e]`, or -1 when there is none. */
  function LastNewline(src: seq<byte>, i: nat, e: nat): (r: int)
    requires e <= |src|
    ensures r == -1 || i <= r < e
    ensures r >= 0 ==> src[r] == '\n'
    ensures forall k | i <= k < e && r < k :: src[k] != '\n'
    decreases e
  {
    if e <= i then -1
    else if src[e - 1] == '\n' then e - 1
    else LastNewline(src, i, e - 1)
  }

  /**
   The column after consuming `src[i..e]` from column `col`, byte by byte: a
   newline puts the column at `reset`, every other byte adds one.
   */
  function ColumnAfter(src: seq<byte>, i: nat, e: nat, col: int, reset: int): int
    requires e <= |src|
    decreases e - i
  {
    if i >= e then col
    else ColumnAfter(src, i + 1, e, if src[i] == '\n' then reset else col + 1, reset)
  }

  /** Newline counts add up over adjacent spans. */
  lemma {:induction false} NewlinesSplit(src: seq<byte>, i: nat, m: nat, e: nat)
    requires i <= m <= e <= |src|
    ensures Newlines(src, i, e) == Newlines(src, i, m) + Newlines(src, m, e)
    decreases m - i
  {
    if i < m {
      NewlinesSplit(src, i + 1, m, e);
    }
  }

  /** A span has newlines exactly when it has a last newline. */
  lemma {:induction false} NewlinesPositive(src: seq<byte>, i: nat, e: nat)
    requires i <= e <= |src|
    ensures Newlines(src, i, e) > 0 <==> LastNewline(src, i, e) >= 0
    decreases e - i
  {
    if i < e {
      NewlinesSplit(src, i, e - 1, e);
      NewlinesPositive(src, i, e - 1);
      assert Newlines(src, e - 1, e) == (if src[e - 1] == '\n' then 1 else 0);
    }
  }

  /** Consuming `[i, e)` is consuming `[i, m)`, then `[m, e)` from where the first part left the column. */
  lemma {:induction false} ColumnAfterSplit(src: seq<byte>, i: nat, m: nat, e: nat, col: int, reset: int)
    requires i <= m <= e <= |src|
    ensures ColumnAfter(src, i, e, col, reset)
         == ColumnAfter(src, m, e, ColumnAfter(src, i, m, col, reset), reset)
    decreases m - i
  {
    if i < m {
      ColumnAfterSplit(src, i + 1, m, e, if src[i] == '\n' then reset else col + 1, reset);
    }
  }

  /**
   Closed form of the column: with no newline the column advanced by the
   length of the span; otherwise it is `reset` plus the bytes after the last
   newline.
   */
  lemma {:induction false} ColumnAfterClosedForm(src: seq<byte>, i: nat, e: nat, col: int, reset: int)
    requires i <= e <= |src|
    ensures ColumnAfter(src, i, e, col, reset)
         == if LastNewline(src, i, e) < 0 then col + (e - i) else reset + (e - 1 - LastNewline(src, i, e))
    decreases e - i
  {
    if i < e {
      ColumnAfterSplit(src, i, e - 1, e, col, reset);
      ColumnAfterClosedForm(src, i, e - 1, col, reset);
    }
  }

  /** The last newline of `[i, e)` is in `[m, e)` when that part has one, else it is that of `[i, m)`. */
  lemma {:induction false} LastNewlineSplit(src: seq<byte>, i: nat, m: nat, e: nat)
    requires i <= m <= e <= |src|
    ensures LastNewline(src, i, e)
         == if LastNewline(src, m, e) >= 0 then LastNewline(src, m, e) else LastNewline(src, i, m)
    decreases e - m
  {
    if m < e {
      LastNewlineSplit(src, i, m, e - 1);
    }
  }

  /** A span of one byte: a newline counts one line and resets the column, any other byte moves it by one. */
  lemma OneByte(src: seq<byte>, i: nat, col: int, reset: int)
    requires i < |src|
    ensures Newlines(src, i, i + 1) == if src[i] == '\n' then 1 else 0
    ensures ColumnAfter(src, i, i + 1, col, reset) == if src[i] == '\n' then reset else col + 1
  {
  }

  /** A span without newlines keeps the line and moves the column by its length. */
  lemma {:induction false} PlainSpan(src: seq<byte>, i: nat, e: nat, col: int, reset: int)
    requires i <= e <= |src|
    requires forall k | i <= k < e :: src[k] != '\n'
    ensures Newlines(src, i, e) == 0
    ensures ColumnAfter(src, i, e, col, reset) == col + (e - i)
    decreases e - i
  {
    if i < e {
      PlainSpan(src, i + 1, e, col + 1, reset);
    }
  }
}
