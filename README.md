# vim-clap: streaming command output and the filer listing

A Dafny model of two sequential pieces of vim-clap's Rust backend.

**Streaming command executor** (`src/cmd/async_cmd.rs`). It runs an external command and reports its standard output to the client. The output reader counts every line on a shared counter. It buffers the lines whose pre-increment count is below 500. When the pre-increment count is 500 (the 501st line) it writes a *preview* response holding the first 500 lines. At the end of the stream it writes a *final* response: `{total}` if a preview was sent, `{total, lines}` otherwise. A progress reporter writes `{total}` on each tick until it sees the stop flag. The working directory of the command falls back to the parent when the given path is not a directory.

**Filer provider** (`crates/stdio_server/src/filer.rs`). It lists a directory for the client. A directory's name gets the path separator appended. The first `max` entries in read order are taken and then sorted. The reply carries the entries, the directory and their count, or the error.

Modules:

- `Base` (`base.dfy`): `Option`, `Result`, `u64`.
- `Decimal` (`decimal.dfy`): how `format!("{:?}", counter)` renders a count, and how to parse it back.
- `AsyncCmd` (`async_cmd.dfy`): the `Run` class holds the shared counter `cnt`, the stop flag, the reader's `topN` and `sentTopN`, and the log of responses written. `Run.ReadOutput` is the reader's loop. `Run.Tick` and `RefreshTick` are one iteration of `refresh`. `Command.SetCurrentDir` is the working-directory fallback.
- `AsyncCmdProperties` (`async_cmd_props.dfy`): a line-by-line reference semantics of the reader (`Step`, `Replay`). It also holds the lemmas that state what the reader promises.
- `LexOrder` (`lex_order.dfy`): Rust's `Ord` on `String`. It proves that order is total and that a sorted arrangement is unique.
- `Filer` (`filer.dfy`): entry rendering, the take-then-collect step, the sort, `read_dir_entries` and `handle_message`.

Three behaviours of the code are modelled as written:

- The preview fires on the 501st line. A run of exactly 500 lines sends no preview, and its final response carries all 500 lines.
- `stop.fetch_and(false)` leaves the stop flag false, so the reader never stops the reporter.
- The final response is sent with the literal id `1`. The preview and progress responses use the request id.

## Model

| member | source | states |
|---|---|---|
| `AsyncCmd.Run.ReadOutput` | src/cmd/async_cmd.rs:25-61 | The counter rises by exactly the number of lines read. `topN` is the first `min(L, capacity)` lines, in order. `sentTopN` holds exactly when more lines than the capacity arrived. The log gains exactly the preview (if any) followed by the final response on end of stream, or only the preview on a read failure. The stop flag ends false on end of stream and is untouched on failure. A read failure returns its error. |
| `AsyncCmd.Run.constructor` | src/cmd/async_cmd.rs:92-93 | A run starts with counter 0, the stop flag clear and nothing written. |
| `AsyncCmd.Run.Tick` | src/cmd/async_cmd.rs:16-21 | One reporter tick returns when the stop flag is set and writes nothing. Otherwise it appends the progress response for the current counter. |
| `AsyncCmd.RefreshTick` | src/cmd/async_cmd.rs:17-21 | There is no response exactly when `stop` is set. Otherwise the response carries the request id and a `{total}` payload that parses back to the counter. |
| `AsyncCmd.Pop` | src/cmd/async_cmd.rs:69-71 | Popping a path with components gives its parent: pushing the removed last component restores the path. A path without components is unchanged. Absoluteness is kept. |
| `AsyncCmd.Command.SetCurrentDir` | src/cmd/async_cmd.rs:63-74 | With no override the working directory is unchanged. A directory path is used verbatim. Any other path is replaced by its parent. |
| `Decimal.Render` | src/cmd/async_cmd.rs:53 | The rendering of a count is a non-empty string of decimal digits with no leading zero, except for 0 itself. |
| `Decimal.ParseRender` | src/cmd/async_cmd.rs:20 | Parsing the rendered `total` gives back exactly the counter. |
| `AsyncCmdProperties.ReplayState` | src/cmd/async_cmd.rs:36-48 | Replaying the loop body one line at a time yields the closed-form state that `ReadOutput` promises: counter, buffer, flag and preview written. |
| `AsyncCmdProperties.ReplayAgrees` | src/cmd/async_cmd.rs:36-58 | The line-by-line replay, followed by the summary, writes exactly the responses `ReadOutputResponses` specifies. |
| `AsyncCmdProperties.PreviewIsPrefix` | src/cmd/async_cmd.rs:38-44 | Every preview carries the request id. It holds at most 500 lines, and those lines are the first lines of the output, in order. |
| `AsyncCmdProperties.PreviewExactlyPastThreshold` | src/cmd/async_cmd.rs:37-45 | From a fresh counter there is one preview exactly when more than 500 lines arrive, and none otherwise. It holds exactly the first 500 lines, not the triggering 501st. |
| `AsyncCmdProperties.FinalSummary` | src/cmd/async_cmd.rs:52-58 | On end of stream exactly one summary is written, and it is written last, with id 1. Its total parses to the number of lines. It carries `lines` (all of them) exactly when there were at most 500 lines. With more lines it follows the preview, which carries the request id. |
| `AsyncCmdProperties.ReadFailureWritesNoSummary` | src/cmd/async_cmd.rs:36 | A read failure writes no summary; a preview already written stays written. |
| `AsyncCmdProperties.ExactlyThresholdLines` | src/cmd/async_cmd.rs:39-56 | With exactly 500 lines the only response is `{total: "500", lines}` with id 1, and there is no preview. |
| `AsyncCmdProperties.ThreeLines` | src/cmd/async_cmd.rs:52-58 | Three lines give the single response `{total: "3", lines: [l1, l2, l3]}` with id 1. |
| `AsyncCmdProperties.FiveHundredTenLines` | src/cmd/async_cmd.rs:38-58 | 510 lines give the preview of the first 500 with the request id, then `{total: "510"}` with id 1. |
| `AsyncCmdProperties.ReaderThenTick` | src/cmd/async_cmd.rs:92-105 | When the reader finishes before a reporter tick, the reporter does not stop. It writes a progress response after the final summary, because the reader leaves `stop` false. |
| `LexOrder.SortedUnique` | crates/stdio_server/src/filer.rs:65 | Two ascending arrangements of the same strings are equal. So any correct sort gives the one result `entries.sort()` gives. |
| `Filer.Display` | crates/stdio_server/src/filer.rs:29-47 | With icons off, the rendering starts with the file name, with no prefix. For a name without the separator, it ends with the separator exactly for a directory, and removing it gives back the file name. With icons on, it is the icon function applied to the entry and that path string. |
| `Filer.PathStrRoundTrip` | crates/stdio_server/src/filer.rs:31-39 | For a file name without the separator, the path string parses back to the file name and whether the entry is a directory. |
| `Filer.CollectDisplayed` | crates/stdio_server/src/filer.rs:54-63 | The result fails exactly when some entry is an error, and then with the first error. Otherwise it has one rendering per entry, in read order. |
| `Filer.Insert` | crates/stdio_server/src/filer.rs:65 | Inserting into an ascending sequence keeps it ascending and adds exactly that one string. |
| `Filer.SortEntries` | crates/stdio_server/src/filer.rs:65 | The result is ascending and is a permutation of the input. |
| `Filer.ReadDirEntries` | crates/stdio_server/src/filer.rs:49-68 | A failing `read_dir` returns its error. An error among the first `max` entries returns the first such error, never a partial list. Otherwise the result is sorted, has `min(max, n)` entries (all `n` without a maximum), and is a permutation of the renderings of the first `max` entries in read order. |
| `Filer.HandleMessage` | crates/stdio_server/src/filer.rs:70-90 | Every reply carries the message's id, `provider_id` "filer" and the requested directory. It is an error exactly when the listing or one of its entries failed, and then carries that error. Otherwise `total` equals the number of entries, and they are the sorted renderings of all entries. |
| `Filer.ListingExample` | crates/stdio_server/src/filer.rs:49-68 | Listing `b.txt`, directory `A` and `c.log` without icons gives exactly `["A/", "b.txt", "c.log"]`. |

## Left out

- The async runtime is not modelled: `tokio::spawn`, `task::block_on`, the 30 ms `time::interval` and the `refresh` loop itself (src/cmd/async_cmd.rs:14-16, 97-105). The reporter is one tick, the reader is the only writer of the counter, and the interleavings of reporter ticks with reader lines are not enumerated.
- Spawning the child is not modelled, nor the `expect` panics on spawn failure or a missing stdout handle, nor `run` (src/cmd/async_cmd.rs:83-90, 108-111). These are process and OS interaction.
- The child-exit error response (src/cmd/async_cmd.rs:97-101) is not modelled, because it depends on the OS wait.
- `write_response` and the JSON encoding are not modelled. A response is a datatype appended to the run's log, and `crate::cmd::rpc` is not part of this model.
- `AsyncCmd.Run.ReadOutput`: the counter is an unbounded `nat`. The `usize` wrap-around of `fetch_add` after 2^64 lines is not modelled.
- `AsyncCmd.Run.ReadOutput`: the child's output is given as its lines followed by how the stream ended. Splitting bytes into lines (`BufReader::lines`) is not modelled.
- `AsyncCmd.Pop`: a path is an absolute flag plus its components. Windows prefixes and the normalisation `Path::components` performs are not modelled.
- `is_dir`, `file_name` and `fs::read_dir` (crates/stdio_server/src/filer.rs:25, 31, 54) are not queried. They are input data: a predicate on paths, and the entries with their names and kinds. A missing or non-UTF-8 name, on which the code panics at `unwrap`, becomes a precondition.
- `Filer.Display`: `prepend_filer_icon` is an opaque function passed in by the caller, and the global `enable_icon` setting is a parameter (crates/stdio_server/src/filer.rs:42, 74).
- `Filer.MainSeparator` is `/`, the Unix separator. The Windows `\` is not modelled.
- `Filer.HandleMessage`: the message is reduced to its id and its `cwd`. How `get_cwd` extracts the directory from the request parameters is not part of this model.
- `Filer.SortEntries` is an insertion sort on a sequence, where Rust sorts the vector in place with its stable merge sort. `LexOrder.SortedUnique` shows the results agree.
- `debug!` logging and the `test_dir` test, which only prints (crates/stdio_server/src/filer.rs:72, 92-105), are not modelled.
