# go-debugger: the /post-heavy load-simulation handler

go-debugger is a small diagnostic HTTP server. Its routes echo requests, crash, exit or sleep
so that client behaviour can be observed. This project models the one route with behaviour
worth stating: `POST /post-heavy`. The handler:

1. reads the request body;
2. decodes it as JSON into a `LoadTest` directive with one field, `block_count`;
3. rejects a count that is not positive;
4. builds `block_count` byte blocks of 10 MiB, where byte `j` of block `i` is `(i + j) % 256`;
5. adds up every byte of every block;
6. answers 200 `got it\n`.

Each failed check answers 400 with a JSON error message and stops. No block is allocated
before all three checks have passed.

Files:

- `wrappers.dfy`: module `Wrappers`, the `Option` type.
- `blocks.dfy`: module `Blocks`.
  - The block contents: `Pattern` for one block and `Batch` for all of them.
  - The sums `SumBytes` and `SumBatch`.
  - The fill loop `FillBlocks`: nested loops that append freshly allocated arrays to a sequence.
  - The checksum loop `Checksum`: nested loops over those arrays.
  - The lemmas that give the sum's closed form, `count * (size / 256) * 32640`.
- `handler.dfy`: module `Handler`.
  - Decoding into `LoadTest` (`Unmarshal`).
  - The validation cascade (`Validate`) and the response table (`Respond`).
  - The outcome every request must reach (`Expected`).
  - The handler itself (`PostHeavy`) and its properties.

The outcome is an explicit datatype: `BadRead | BadJson | NonPositive | Ok(sum)`.

The two library calls are inputs of the model:

- The body read (`io.ReadAll`) is a `ReadResult`: the read either fails or yields the bytes.
- The JSON decoder is a `parse` function. It maps the bytes to `Rejected` (a syntax or type
  error) or to an `Object` holding the integer given for a key equal to `block_count` up to
  case, or nothing when there is no such key, its value is `null` or the body is `null`.

`Unmarshal` then applies the Go rules the handler relies on. An absent field keeps the zero
value 0. An integer that a 64-bit Go `int` cannot hold is a decoding error.

A missing `block_count` is not a decoding error. `json.Unmarshal` leaves the field at 0, so
the request reaches the `<= 0` check and is answered "block_count must be greater than 0"
(`MissingCountIsNonPositive`). The same holds for a key that matches no field, such as
`blockCount`, and for a body that is just `null`. The key is matched without regard to case,
so `BLOCK_COUNT` sets the count.

## Model

| member | source | states |
|---|---|---|
| Handler.Unmarshal | cmd/main.go:44-60 | decoding fails exactly when the decoder rejects the body or the count does not fit a Go `int`; an absent `block_count` decodes to 0; a decoded count is the given integer |
| Handler.Validate | cmd/main.go:48-64 | the checks run in order: a failed read gives BadRead whatever the body; otherwise a decoding failure gives BadJson; otherwise a count `<= 0` gives NonPositive; the handler goes on exactly when all three pass, with the decoded count |
| Handler.Respond | cmd/main.go:50-85 | status 200 with text "got it\n" exactly on success, whatever the sum; status 400 with the source's JSON error message for each rejection |
| Handler.Expected | cmd/main.go:61-82 | when allocation succeeds, a request succeeds exactly when it passes validation, and its sum is then `blockCount * 40960 * 32640` |
| Handler.PostHeavy | cmd/main.go:48-86 | with every allocation succeeding, the handler reaches the expected outcome and answers with its response; blocks are returned exactly on success, each freshly allocated and no two the same array; on success there are `blockCount` blocks of 10 MiB, in index order, holding the pattern |
| Handler.ReadErrorFirst | cmd/main.go:49-53 | a failed read is answered 400 "unable to read body" whatever the decoder would have said |
| Handler.JsonErrorBeforeCount | cmd/main.go:55-60 | a body the decoder rejects is answered "invalid JSON" before any count is looked at |
| Handler.MissingCountIsNonPositive | cmd/main.go:44-63 | a decoded body without `block_count` is rejected as a non-positive count, not as invalid JSON |
| Handler.ValidRequestsSucceed | cmd/main.go:61-85 | when allocation succeeds, a request gets 200 "got it\n" if and only if it passes the three checks |
| Handler.BlockSizeIsWholePeriods | cmd/main.go:66 | the 10 MiB block size is 40960 whole periods of 256 bytes |
| Handler.TwoBlocks | cmd/main.go:65-82 | example: a count of 2 gives the sum 2 * 40960 * 32640 |
| Blocks.Pattern | cmd/main.go:70-73 | block `i` has `size` bytes and byte `j` is `(i + j) % 256`, so every byte is in 0..255 |
| Blocks.Batch | cmd/main.go:68-75 | the batch has `count` blocks in index order and block `i` holds the pattern of index `i` |
| Blocks.FillBlocks | cmd/main.go:68-75 | it returns `count` fresh, pairwise distinct arrays of `size` bytes whose contents are the batch |
| Blocks.Checksum | cmd/main.go:77-82 | the sum it accumulates is the sum of every byte of every block |
| Blocks.SumBytesOfPattern | cmd/main.go:71-80 | adding up the bytes of block `i` gives the sum of `(i + j) % 256` over its offsets |
| Blocks.PatternSumPeriod | cmd/main.go:72 | any 256 consecutive bytes of a block add up to 32640, whatever the block index and starting offset |
| Blocks.BlockSum | cmd/main.go:69-82 | a block whose size is a multiple of 256 adds up to `(size / 256) * 32640`, independent of its index |
| Blocks.BatchSum | cmd/main.go:68-82 | the total depends only on the count and the size: `count * (size / 256) * 32640` |

## Left out

- Gin routing, `gin.Context` responses and the `http.Server` setup: framework plumbing. A response is modelled as a status and a body value, not as the bytes gin writes.
- `io.ReadAll` and `json.Unmarshal`: library calls, modelled only by what they produce. Syntax and type errors are not told apart; they are all `Rejected`. Key matching is part of `parse`: a key equal to `block_count` up to case gives the count, and an unmatched key or a top-level `null` gives `Object(None)`.
- Handler.Unmarshal: assumes Go's `int` is 64 bits wide. On a 32-bit platform the bounds would be those of `int32`.
- The deferred `Body.Close` and the logging of the sum: side effects with no bearing on the response.
- Blocks.Checksum: the sum is an unbounded integer. On a 64-bit platform Go's `int` could overflow only after billions of 10 MiB blocks, which memory cannot hold. On a 32-bit platform it overflows at the second block; the sum is only logged, so the response does not change.
- The other routes: `/post`, `/get`, `/post-long-time`, `/post-panic`, `/post-exit` and `/post/delay/:seconds`. Each returns a fixed string, sleeps, crashes or exits, and has no logic of its own beyond library calls.
- The signal-driven graceful shutdown: concurrency and operating-system signals.
- Handler.PostHeavy: assumes every allocation succeeds. In the source, a count whose slice header array is too large (on linux/amd64, roughly above 1.17e13, which includes `block_count = 9223372036854775807`) makes `make([][]byte, 0, blockCount)` panic; the recovery middleware of `gin.Default()` answers 500 and "got it\n" is never sent. A smaller count whose blocks exceed memory ends the process with a fatal out-of-memory error.
- Handler.Expected: for the same reason, it gives `Ok` for every count that passes validation; the source answers 500 or dies of memory exhaustion when the allocations fail.
- Handler.ValidRequestsSucceed: its "if and only if" holds only when the blocks for the count can be allocated; otherwise the source answers 500 or the process dies.
- The capacity hint `make([][]byte, 0, blockCount)`: apart from the failure above, it does not change the contents. The model grows the sequence of blocks by appending, as the source does.
