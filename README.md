# red: the pager's visual-row scan, in Dafny

`red` is a small terminal pager. Its `pager` function reads its input in chunks
of up to 1024 bytes and counts visual rows until one terminal page is full. It
writes the bytes that fit on that page and then waits for `q` or Escape.

This project models that function. It has two modules:

- `LineScan` (scan.dfy) holds the reference functions. `Step` is one iteration of the
  row-counting loop over one byte. `Scan` is the whole scan over a byte stream:
  it stops when the page is full or the input runs out. The lemmas say what a
  scan does with rows, with newlines, with wraps and with input split into
  pieces.
- `Pager` (pager.dfy) is the program. `Run` keeps the source's shape: a chunk
  loop that reads into a 1024-byte `array`; an inner `while wantLines > 0` over
  `buffer[point]` (the method `CountRows`); writes of `buffer[writeStart..point]`;
  and the wait for a quit key. `Run` is proved against `Scan` over the
  concatenated input.

Terms used below:

- **budget**: the pair (`want_lines`, `columns`). `want_lines` is the number of
  rows still to fill on the page. `columns` is the number of cells still free on
  the current row. Both count down.
- **wrap**: the current row is full (`columns == 0`) and the next byte is not a
  newline. The row ends, but the byte is not consumed; it becomes the first
  byte of the next row.

What the model shows:

- Cells are counted per byte. No Unicode scalar or grapheme is recognised, and
  `\r` is an ordinary byte.
- A newline ends a row even when the row is exactly full.
- The budget carries over from one chunk to the next. So the byte where the
  page stops, and the bytes written, depend only on the concatenated input,
  not on how the reads split it.
- `want_lines` is never refilled, so the program never shows a second page.
  Once the first page is written and input remains, the pager can only quit
  or keep waiting.

Collaborators that are parameters of the model:

- The reader is `chunks`: one non-empty sequence of at most 1024 bytes per
  successful read. A read after the last chunk returns 0, which is the end of
  the input.
- The terminal size is `dims`, the result of `term_size::dimensions()`.
- The terminal's key bytes are `keys`.
- The writer is the out-parameter `written`. Each write appends its whole slice to it.

## Model

| member | source | states |
|---|---|---|
| `LineScan.Step` | src/main.rs:56-71 | One byte, while rows remain. The pair (rows, cells) strictly decreases in lexicographic order, which is why the loop terminates even when `point` does not move. The rows never increase. Cells stay at most `term_columns`. A row ends exactly on a newline or when the row is full, and the new row starts with all `term_columns` cells free. The byte stays unconsumed exactly on a wrap (not a newline, no cells left). |
| `LineScan.Scan` | src/main.rs:42-76 | The scan consumes at most the input. It leaves bytes over only when the page is full (`want_lines == 0`). The rows never increase, and cells stay at most the width. |
| `LineScan.RowText` | src/main.rs:68-71 | Bytes without a newline that fit into the free cells are each consumed with one cell. No row is used. |
| `LineScan.NewlineEndsRow` | src/main.rs:58-62 | Text that fits on the row, then a newline: exactly one row is used, all of it including the newline is consumed, and the next row has the full width. This holds even when the text fills the row exactly. |
| `LineScan.RowWraps` | src/main.rs:63-67 | A row filled exactly, then a byte that is not a newline: the row is used up, and scanning goes on from that same byte with a fresh full-width row. |
| `LineScan.ScanAppend` | src/main.rs:42-50 | Scanning `a` and then `c` with the leftover budget gives the same result as scanning `a + c` in one go. If the page filled inside `a`, the result is the scan of `a` alone. |
| `LineScan.ChunkingIrrelevant` | src/main.rs:45-76 | `ScanChunks`, the chunk-by-chunk scan, which carries the budget across chunk boundaries, equals the scan of the concatenated input. So where the page stops does not depend on how the input was split. |
| `LineScan.PageCapacity` | src/main.rs:56-71 | What a scan consumes has at most one newline per row used. Its other bytes fill no more than the free cells of the first row plus `term_columns` for every row used, less the cells still free at the end. |
| `Pager.TermViewport` | src/main.rs:37-40 | With a known terminal size (w, h), a page is w cells wide and h-1 rows tall, one row short of the terminal. Without one, it is 80 by 30. |
| `Pager.Read` | src/main.rs:45-48 | A read copies the next chunk to the front of the buffer, returns its size and advances the reader. The rest of the buffer keeps its old bytes. After the last chunk a read returns 0. |
| `Pager.WaitForQuit` | src/main.rs:82-90 | Returns true exactly when some key byte is `q` or Escape (27). |
| `Pager.CountRows` | src/main.rs:56-76 | The inner loop over `buffer[..size]` computes exactly the scan of that chunk from the budget it inherits: `point` is the number of bytes consumed, and the counters are the budget left. `point` never passes `size`. When `point < size`, the page is full. |
| `Pager.ChunkScanned` | src/main.rs:72-80 | After one chunk's scan, either the chunk is used up and the scan of the whole input goes on in the later chunks with the leftover budget, or the page ended inside the chunk. In the second case, the input up to the page end is what was written before plus the chunk's first `point` bytes (which `FilledPart` ties to `buffer[0..point]`). |
| `Pager.Run` | src/main.rs:34-93 | The bytes written are exactly the input up to where the scan of the whole concatenated input stops: contiguous, in order, each one once, given that every `write` takes its whole slice. If that is the end of the input, the run ends. Otherwise the page is full and no further page is shown. The run then ends with `Quit` if a key is `q` or Escape, and stays `Waiting` if none is. |

## Left out

- `setup_term` (src/main.rs:21-32) is left out. Putting `/dev/tty` into non-canonical, no-echo mode is OS I/O with no logic.
- `term_size::dimensions()` is a foreign call. Only its result is modelled, as the parameter `dims`. It returns a size only when both dimensions are non-zero, so `Run` and `TermViewport` require `h >= 1` (then `h-1` cannot underflow).
- `reader.read` errors are not modelled. `while let Ok(size)` stops on an error just as on a 0-byte read, so an error is the end of `chunks`.
- `writer.write` and `writer.flush` failures (`unwrap` panics) are not modelled. The flushes have no effect on the bytes written.
- Run: assumes that each `writer.write` takes the whole slice. src/main.rs:73 and src/main.rs:78 call `write`, not `write_all`, and ignore the count it returns. A short write, which the stdout `LineWriter` can make, would silently drop the rest of that slice. The model appends every slice whole, so `written` is what the program hands to the writer, not necessarily what reaches the output.
- The key wait is modelled by `WaitForQuit`. When `keys` holds no quit key, `Run` ends in `Waiting`. The source would instead go around its middle `loop` forever: it skips the inner loop (`want_lines` is 0), writes the empty slice `buffer[point..point]` and reopens the terminal. That adds nothing to the output, so the model does not loop. Panics from `byte.unwrap()` on a terminal read error are not modelled.
- `write_start` is moved to `point` after the page is written (src/main.rs:80). Later writes in the source are then empty, and the model does not repeat them.
- `Cli` argument parsing and `main` (src/main.rs:13-19, 95-102) are left out; they parse the arguments and open the file.
- Cell widths are not modelled beyond one cell per byte, because `src/main.rs` counts bytes.
