/** The visual-row counting scan of the pager, as functions over the byte stream.

    The scan walks the input one byte at a time with two counters: the rows still
    to fill on the page and the cells still free on the current row. Cells are
    counted per byte: no grapheme or Unicode scalar is recognised.
 */
module LineScan {

  /** An input byte (Rust `u8`). */
  type byte = x: int | 0 <= x < 256

  const NEWLINE: byte := 10

  /** The counters the scan carries from byte to byte and from chunk to chunk:
      `lines` is `want_lines` (rows still to fill) and `columns` is `columns`
      (cells still free on the current row). Both only count down. */
  datatype Budget = Budget(lines: nat, columns: nat)

  /** The lexicographic order on budgets: rows first, then cells. */
  predicate Below(a: Budget, b: Budget) {
    a.lines < b.lines || (a.lines == b.lines && a.columns < b.columns)
  }

  /** The cell counter never exceeds the terminal width. */
  predicate Fits(width: nat, b: Budget) {
    b.columns <= width
  }

  /** The effect of looking at one byte: whether the byte was consumed, and the new budget. */
  datatype Move = Move(advance: bool, budget: Budget)

  /** One iteration of the inner loop, on the byte `c` at the read position, while rows remain. */
  function Step(width: nat, b: Budget, c: byte): (m: Move)
    requires b.lines > 0
    // the pair (rows, cells) strictly decreases, so the scan terminates even when it does not advance
    ensures Below(m.budget, b)
    ensures Fits(width, b) ==> Fits(width, m.budget)
    // either the row goes on, or a fresh row of the full width begins
    ensures m.budget.lines == b.lines || m.budget == Budget(b.lines - 1, width)
    // a row ends exactly on a newline or when the row is full
    ensures m.budget.lines < b.lines <==> (c == NEWLINE || b.columns == 0)
    // only a wrap leaves the byte in place, to start the next row
    ensures !m.advance <==> (c != NEWLINE && b.columns == 0)
  {
    if c == NEWLINE then Move(true, Budget(b.lines - 1, width))
    else if b.columns == 0 then Move(false, Budget(b.lines - 1, width))
    else Move(true, Budget(b.lines, b.columns - 1))
  }

  /** Where a scan stopped: how many bytes it consumed, and the budget left. */
  datatype Stop = Stop(consumed: nat, budget: Budget) {
    /** The same stop, seen from `k` bytes earlier in the stream. */
    function After(k: nat): (s: Stop) {
      Stop(k + consumed, budget)
    }
  }

  /** The scan of a byte stream from budget `b`: it stops when the page is full
      or when the stream runs out. */
  function Scan(width: nat, b: Budget, data: seq<byte>): (r: Stop)
    decreases |data|, b.lines
    ensures r.consumed <= |data|
    // bytes are left over only when the page is full
    ensures r.consumed < |data| ==> r.budget.lines == 0
    ensures r.budget.lines <= b.lines
    ensures Fits(width, b) ==> Fits(width, r.budget)
  {
    if b.lines == 0 || |data| == 0 then Stop(0, b)
    else
      var m := Step(width, b, data[0]);
      if m.advance then Scan(width, m.budget, data[1..]).After(1)
      else Scan(width, m.budget, data)
  }

  /** Bytes of `text` that contain no newline. */
  predicate NoNewline(text: seq<byte>) {
    forall k :: 0 <= k < |text| ==> text[k] != NEWLINE
  }

  /** Bytes without a newline that fit into the cells left on the row are drawn
      on that row, one cell each, and use up no row. */
  lemma {:induction false} RowText(width: nat, b: Budget, text: seq<byte>, rest: seq<byte>)
    requires b.lines > 0
    requires |text| <= b.columns
    requires NoNewline(text)
    decreases |text|
    ensures Scan(width, b, text + rest) == Scan(width, Budget(b.lines, b.columns - |text|), rest).After(|text|)
  {
    if text == [] {
      assert text + rest == rest;
    } else {
      assert (text + rest)[0] == text[0];
      assert (text + rest)[1..] == text[1..] + rest;
      RowText(width, Budget(b.lines, b.columns - 1), text[1..], rest);
    }
  }

  /** A newline ends the row even when the row is exactly full: the text before
      it and the newline itself use one row, and the next row starts with all
      `width` cells free. */
  lemma NewlineEndsRow(width: nat, b: Budget, text: seq<byte>, rest: seq<byte>)
    requires b.lines > 0
    requires |text| <= b.columns
    requires NoNewline(text)
    ensures Scan(width, b, text + [NEWLINE] + rest)
         == Scan(width, Budget(b.lines - 1, width), rest).After(|text| + 1)
  {
    assert text + [NEWLINE] + rest == text + ([NEWLINE] + rest);
    RowText(width, b, text, [NEWLINE] + rest);
    assert ([NEWLINE] + rest)[1..] == rest;
  }

  /** A row of exactly the cells left, followed by a byte that is not a newline,
      wraps: the row is used up and that byte is not consumed but starts the
      next row. */
  lemma RowWraps(width: nat, b: Budget, text: seq<byte>, rest: seq<byte>)
    requires b.lines > 0
    requires |text| == b.columns
    requires NoNewline(text)
    requires |rest| > 0 && rest[0] != NEWLINE
    ensures Scan(width, b, text + rest) == Scan(width, Budget(b.lines - 1, width), rest).After(|text|)
  {
    RowText(width, b, text, rest);
  }

  /** Scanning a stream in two pieces, carrying the budget across the boundary,
      is the same as scanning it whole. */
  lemma {:induction false} ScanAppend(width: nat, b: Budget, a: seq<byte>, c: seq<byte>)
    decreases |a|, b.lines
    ensures var r := Scan(width, b, a);
            Scan(width, b, a + c) == if r.consumed == |a| then Scan(width, r.budget, c).After(|a|) else r
  {
    if b.lines == 0 {
    } else if |a| == 0 {
      assert a + c == c;
    } else {
      var m := Step(width, b, a[0]);
      assert (a + c)[0] == a[0];
      if m.advance {
        assert (a + c)[1..] == a[1..] + c;
        ScanAppend(width, m.budget, a[1..], c);
      } else {
        ScanAppend(width, m.budget, a, c);
      }
    }
  }

  /** The bytes of all chunks, in order. */
  function Concat(chunks: seq<seq<byte>>): (s: seq<byte>) {
    if |chunks| == 0 then [] else chunks[0] + Concat(chunks[1..])
  }

  /** The scan as the pager runs it: chunk by chunk, the budget carried from one
      chunk into the next, stopping in the first chunk where the page fills. */
  function ScanChunks(width: nat, b: Budget, chunks: seq<seq<byte>>): (r: Stop)
    decreases |chunks|
  {
    if |chunks| == 0 then Stop(0, b)
    else
      var r := Scan(width, b, chunks[0]);
      if r.consumed < |chunks[0]| then r
      else ScanChunks(width, r.budget, chunks[1..]).After(|chunks[0]|)
  }

  /** Where the page stops does not depend on how the input is split into chunks. */
  lemma {:induction false} ChunkingIrrelevant(width: nat, b: Budget, chunks: seq<seq<byte>>)
    decreases |chunks|
    ensures ScanChunks(width, b, chunks) == Scan(width, b, Concat(chunks))
  {
    if |chunks| > 0 {
      ScanAppend(width, b, chunks[0], Concat(chunks[1..]));
      var r := Scan(width, b, chunks[0]);
      if r.consumed == |chunks[0]| {
        ChunkingIrrelevant(width, r.budget, chunks[1..]);
      }
    }
  }

  /** The number of newline bytes in `s`. */
  function Newlines(s: seq<byte>): (n: nat) {
    if s == [] then 0 else (if s[0] == NEWLINE then 1 else 0) + Newlines(s[1..])
  }

  /** What a scan consumes fits the rows it used: each row used ends with at most
      one newline, and the other bytes fill at most the cells that were free
      (those of the first row plus `width` for every row used), less the cells
      still free on the current row. */
  lemma {:induction false} PageCapacity(width: nat, b: Budget, data: seq<byte>)
    requires Fits(width, b)
    decreases |data|, b.lines
    ensures var r := Scan(width, b, data);
            var shown := data[..r.consumed];
            var rows := b.lines - r.budget.lines;
            Newlines(shown) <= rows &&
            |shown| - Newlines(shown) + r.budget.columns <= b.columns + rows * width
  {
    if b.lines > 0 && |data| > 0 {
      var m := Step(width, b, data[0]);
      var r := Scan(width, b, data);
      var rows := b.lines - r.budget.lines;
      var rows' := m.budget.lines - r.budget.lines;
      if m.advance {
        PageCapacity(width, m.budget, data[1..]);
        var shown' := data[1..][..r.consumed - 1];
        assert data[..r.consumed] == [data[0]] + shown';
        NewlinesCons(data[0], shown');
        if data[0] == NEWLINE {
          RowCells(rows', width);
        }
      } else {
        PageCapacity(width, m.budget, data);
        RowCells(rows', width);
      }
    }
  }

  /** One more row used adds `width` cells. */
  lemma RowCells(rows: nat, width: nat)
    ensures (rows + 1) * width == width + rows * width
  {
  }

  /** Newlines are counted from the front. */
  lemma NewlinesCons(c: byte, s: seq<byte>)
    ensures Newlines([c] + s) == (if c == NEWLINE then 1 else 0) + Newlines(s)
  {
  }
}
