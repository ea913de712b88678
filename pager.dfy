/** The pager: it reads its input in chunks into a fixed 1024-byte buffer, scans
    each chunk for the end of the first page, writes what it scanned, and then
    waits for a quit key.

    The reader is a sequence of chunks (what successive reads return), the
    terminal size is a parameter, the keys typed on the terminal are a sequence,
    and the writer is the `written` out-parameter that every write appends to.
 */
module Pager {
  import opened LineScan

  datatype Option<T> = None | Some(value: T)

  /** The capacity of the read buffer. */
  const BUFFER_SIZE: nat := 1024

  const QUIT_KEY: byte := 113   // 'q'
  const ESCAPE_KEY: byte := 27

  /** The cells per row and the rows per page. */
  datatype Viewport = Viewport(columns: nat, lines: nat)

  /** The page size chosen from the terminal's (width, height), if known: the
      terminal's width, and one row fewer than its height so that the last row
      stays free; 80 by 30 when the size is unknown. */
  function TermViewport(dims: Option<(nat, nat)>): (v: Viewport)
    requires dims.Some? ==> dims.value.1 >= 1
    ensures dims.Some? ==> v.columns == dims.value.0 && v.lines == dims.value.1 - 1
    ensures dims.None? ==> v == Viewport(80, 30)
  {
    match dims
    case Some((w, h)) => Viewport(w, h - 1)
    case None => Viewport(80, 30)
  }

  predicate IsQuitKey(k: byte) {
    k == QUIT_KEY || k == ESCAPE_KEY
  }

  ghost predicate HasQuitKey(keys: seq<byte>) {
    exists k :: 0 <= k < |keys| && IsQuitKey(keys[k])
  }

  /** How a run of the pager ends: the input ran out, the user quit after the
      first page, or the pager is still waiting for a quit key. */
  datatype Outcome = EndOfInput | Quit | Waiting

  /** One read from the reader, whose next unread chunk is `next`: the chunk is
      copied to the front of the buffer and its size returned; the rest of the
      buffer keeps what it held. When no chunk is left the read returns 0, the
      end of the input. */
  method Read(buffer: array<byte>, chunks: seq<seq<byte>>, next: nat) returns (size: nat, next': nat)
    requires next <= |chunks|
    requires forall k :: 0 <= k < |chunks| ==> |chunks[k]| <= buffer.Length
    modifies buffer
    ensures next < |chunks| ==> next' == next + 1 && size == |chunks[next]| && buffer[..size] == chunks[next]
    ensures next == |chunks| ==> next' == next && size == 0
    ensures buffer[size..] == old(buffer[size..])
  {
    if next == |chunks| {
      return 0, next;
    }
    size, next' := |chunks[next]|, next + 1;
    forall k | 0 <= k < size {
      buffer[k] := chunks[next][k];
    }
  }

  /** A slice from the front of the filled part of the buffer is the same prefix of what was read. */
  lemma FilledPart(buffer: array<byte>, size: nat, point: nat, chunk: seq<byte>)
    requires point <= size <= buffer.Length
    requires buffer[..size] == chunk
    ensures buffer[0..point] == chunk[..point]
  {
  }

  /** The wait after the first page: keys are read one at a time, and only 'q'
      or Escape ends the wait. */
  method WaitForQuit(keys: seq<byte>) returns (quit: bool)
    ensures quit <==> HasQuitKey(keys)
  {
    for i := 0 to |keys|
      invariant forall k :: 0 <= k < i ==> !IsQuitKey(keys[k])
    {
      if IsQuitKey(keys[i]) {
        return true;
      }
    }
    return false;
  }

  /** The inner loop of the pager over one chunk, `buffer[..size]`: it counts rows
      from the budget (`wantLines`, `columns`) until the page is full or the
      chunk is used up, and it computes exactly the scan of that chunk: `point`
      is how far it got, and the counters are the budget left. */
  method CountRows(buffer: array<byte>, size: nat, termColumns: nat, wantLines0: nat, columns0: nat)
      returns (wantLines: nat, columns: nat, point: nat)
    requires 0 < size <= buffer.Length
    requires columns0 <= termColumns
    ensures point <= size
    ensures point < size ==> wantLines == 0
    ensures Stop(point, Budget(wantLines, columns)) == Scan(termColumns, Budget(wantLines0, columns0), buffer[..size])
  {
    ghost var chunk := buffer[..size];
    wantLines, columns, point := wantLines0, columns0, 0;
    while wantLines > 0
      invariant 0 <= point < size
      invariant columns <= termColumns
      invariant Scan(termColumns, Budget(wantLines0, columns0), chunk)
             == Scan(termColumns, Budget(wantLines, columns), chunk[point..]).After(point)
      decreases wantLines, columns
    {
      assert chunk[point..][1..] == chunk[point + 1..];
      var c := buffer[point];
      if c == NEWLINE {
        wantLines := wantLines - 1;
        columns := termColumns;
        point := point + 1;
      } else if columns == 0 {
        // the row wrapped: this byte is not consumed and starts the next row
        wantLines := wantLines - 1;
        columns := termColumns;
      } else {
        point := point + 1;
        columns := columns - 1;
      }
      if point == size {
        assert chunk[point..] == [];
        return;
      }
    }
  }

  /** What scanning chunk `i` means for the scan of the whole input: if the
      chunk is used up, the scan goes on, with the budget left, in the chunks
      after it; otherwise the page ended inside the chunk, and the input up to
      that point is what was written before plus the scanned part of the chunk. */
  lemma ChunkScanned(width: nat, start: Budget, data: seq<byte>, written: seq<byte>,
                     b: Budget, chunks: seq<seq<byte>>, i: nat, r: Stop)
    requires i < |chunks|
    requires data == written + Concat(chunks[i..])
    requires Scan(width, start, data) == Scan(width, b, Concat(chunks[i..])).After(|written|)
    requires r == Scan(width, b, chunks[i])
    ensures r.consumed == |chunks[i]| ==>
      data == (written + chunks[i]) + Concat(chunks[i + 1..]) &&
      Scan(width, start, data) == Scan(width, r.budget, Concat(chunks[i + 1..])).After(|written + chunks[i]|)
    ensures r.consumed < |chunks[i]| ==>
      Scan(width, start, data).consumed == |written| + r.consumed < |data| &&
      data[..|written| + r.consumed] == written + chunks[i][..r.consumed]
  {
    var chunk, later := chunks[i], Concat(chunks[i + 1..]);
    assert chunks[i..][0] == chunk && chunks[i..][1..] == chunks[i + 1..];
    ScanAppend(width, b, chunk, later);
    assert written + (chunk + later) == (written + chunk) + later;
    if r.consumed < |chunk| {
      assert data[..|written| + r.consumed] == written + chunk[..r.consumed];
    }
  }

  /** The pager. It writes exactly the bytes of the input up to where the first
      page ends, as the scan over the whole input finds it, however the input
      is split into chunks. If input remains after that page, it then waits
      for a quit key; the row budget is never refilled, so no second page is
      ever shown. */
  method Run(chunks: seq<seq<byte>>, dims: Option<(nat, nat)>, keys: seq<byte>)
      returns (written: seq<byte>, outcome: Outcome)
    requires forall k :: 0 <= k < |chunks| ==> 0 < |chunks[k]| <= BUFFER_SIZE
    requires dims.Some? ==> dims.value.1 >= 1
    ensures var v := TermViewport(dims);
            var data := Concat(chunks);
            var r := Scan(v.columns, Budget(v.lines, v.columns), data);
            written == data[..r.consumed] &&
            outcome == (if r.consumed == |data| then EndOfInput
                        else if HasQuitKey(keys) then Quit
                        else Waiting)
  {
    var buffer := new byte[BUFFER_SIZE];
    var v := TermViewport(dims);
    var termColumns, termLines := v.columns, v.lines;

    var wantLines := termLines;   // rows still to fill on the page
    var columns := termColumns;   // cells still free on the current row

    ghost var data := Concat(chunks);
    ghost var start := Budget(termLines, termColumns);
    written, outcome := [], EndOfInput;

    var next := 0;   // the reader's position
    while true
      invariant next <= |chunks|
      invariant columns <= termColumns
      invariant data == written + Concat(chunks[next..])
      invariant Scan(termColumns, start, data)
             == Scan(termColumns, Budget(wantLines, columns), Concat(chunks[next..])).After(|written|)
      decreases |chunks| - next
    {
      ghost var i := next;
      var size;
      size, next := Read(buffer, chunks, next);
      if size == 0 {
        break;
      }
      var writeStart := 0;   // start of the next write; the later moves to `point` would only precede empty writes
      var point;
      ghost var before := Budget(wantLines, columns);
      wantLines, columns, point := CountRows(buffer, size, termColumns, wantLines, columns);
      FilledPart(buffer, size, point, chunks[i]);
      ChunkScanned(termColumns, start, data, written, before, chunks, i, Stop(point, Budget(wantLines, columns)));
      if point == size {
        // the chunk is used up: write it all and read the next one
        written := written + buffer[writeStart..point];
        continue;
      }

      // the page is full inside this chunk
      written := written + buffer[writeStart..point];
      var quit := WaitForQuit(keys);
      outcome := if quit then Quit else Waiting;
      return;
    }
  }
}
