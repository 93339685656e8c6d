/**
 * The executor of an external command whose output is delivered progressively
 * (src/cmd/async_cmd.rs): the output reader that counts and buffers the child's
 * lines, one tick of the progress reporter, and the working-directory fallback.
 *
 * The child process, the async runtime and the JSON transport are abstracted:
 * the child's standard output is the sequence of lines it yields followed by how
 * the stream ended, and every `write_response` appends a `Response` to the run's
 * log.  The reader is the only writer of the shared counter.
 */
module AsyncCmd {
  import opened Base
  import Decimal

  /** Lines whose pre-increment count is below this go into the preview buffer. */
  const PreviewThreshold: nat := 500

  /** The id the final summary is written with: a literal, not the request id. */
  const FinalResponseId: u64 := 1

  /** The `result` object of a response. */
  datatype Payload =
    | Total(total: string)                            // `{total}`: a progress tick, or the final summary after a preview
    | Lines(lines: seq<string>)                       // `{lines}`: the preview
    | TotalAndLines(total: string, lines: seq<string>) // `{total, lines}`: the final summary when no preview was sent

  /** `{ "result": result, "id": id }` as handed to `write_response`. */
  datatype Response = Response(result: Payload, id: u64)

  /** How the child's output stream ends after the lines it yields. */
  datatype Ending = EndOfStream | ReadFailure(message: string)

  /** How many lines the preview buffer takes when the counter starts at `cnt0`. */
  function PreviewCapacity(cnt0: nat): nat
  {
    if cnt0 < PreviewThreshold then PreviewThreshold - cnt0 else 0
  }

  /** The preview the reader writes while consuming `lines`, if any. */
  function PreviewResponses(cnt0: nat, lines: seq<string>, reqId: u64): seq<Response>
  {
    var cap := PreviewCapacity(cnt0);
    if |lines| > cap then [Response(Lines(lines[..cap]), reqId)] else []
  }

  /** The final summary after `lines` were read to the end of the stream. */
  function FinalResponse(cnt0: nat, lines: seq<string>): Response
  {
    var total := Decimal.Render(cnt0 + |lines|);
    if |lines| > PreviewCapacity(cnt0) then Response(Total(total), FinalResponseId)
    else Response(TotalAndLines(total, lines), FinalResponseId)
  }

  /** Everything `read_output` writes for a stream of `lines` ending with `ending`. */
  function ReadOutputResponses(cnt0: nat, lines: seq<string>, ending: Ending, reqId: u64): seq<Response>
  {
    PreviewResponses(cnt0, lines, reqId) + if ending.EndOfStream? then [FinalResponse(cnt0, lines)] else []
  }

  /**
   * One tick of `refresh`: `None` when the stop flag is seen (the loop returns
   * without writing), otherwise the progress response carrying the counter.
   */
  function RefreshTick(stop: bool, count: nat, reqId: u64): (r: Option<Response>)
    ensures r.None? <==> stop
    ensures r.Some? ==> r.value.id == reqId && r.value.result.Total?
    ensures r.Some? ==> Decimal.Parse(r.value.result.total) == Some(count)
  {
    if stop then None
    else
      Decimal.ParseRender(count);
      Some(Response(Total(Decimal.Render(count)), reqId))
  }

  /** The state of one run: the shared counter and stop flag, the reader's buffer, and the responses written. */
  class Run {
    const reqId: u64
    var cnt: nat
    var stop: bool
    var topN: seq<string>
    var sentTopN: bool
    var log: seq<Response>

    /** A run as `async_run` sets it up: counter 0, stop flag clear, nothing written. */
    constructor (reqId: u64)
      ensures this.reqId == reqId && cnt == 0 && !stop
      ensures topN == [] && !sentTopN && log == []
    {
      this.reqId := reqId;
      cnt, stop := 0, false;
      topN, sentTopN := [], false;
      log := [];
    }

    /** One tick of the progress reporter; `done` tells whether its loop returns. */
    method Tick() returns (done: bool)
      modifies this`log
      ensures done == stop
      ensures log == old(log) + match RefreshTick(stop, cnt, reqId) { case None => [] case Some(resp) => [resp] }
    {
      if stop {
        return true;
      }
      log := log + [Response(Total(Decimal.Render(cnt)), reqId)];
      done := false;
    }

    /**
     * `read_output`: consumes the child's lines, writing the preview when the
     * pre-increment count reaches the threshold and, at the end of the stream,
     * the final summary.  A read failure returns the error before the summary.
     */
    method ReadOutput(lines: seq<string>, ending: Ending) returns (r: Result<(), string>)
      modifies this
      ensures cnt == old(cnt) + |lines|
      ensures topN == lines[..Min(|lines|, PreviewCapacity(old(cnt)))]
      ensures sentTopN <==> |lines| > PreviewCapacity(old(cnt))
      ensures log == old(log) + ReadOutputResponses(old(cnt), lines, ending, reqId)
      ensures stop == (old(stop) && ending.ReadFailure?)
      ensures r == match ending { case EndOfStream => Success(()) case ReadFailure(m) => Failure(m) }
    {
      ghost var cnt0 := cnt;
      var cap := PreviewCapacity(cnt0);
      topN, sentTopN := [], false;
      var i := 0;
      while i < |lines|
        invariant 0 <= i <= |lines|
        invariant cnt == cnt0 + i
        invariant topN == lines[..Min(i, cap)]
        invariant sentTopN <==> i > cap
        invariant log == old(log) + PreviewResponses(cnt0, lines[..i], reqId)
        invariant stop == old(stop)
      {
        if i > cap {
          assert lines[..i][..cap] == lines[..cap];
        }
        var line := lines[i];
        var seen := cnt;
        cnt := cnt + 1;
        if !sentTopN {
          if seen < PreviewThreshold {
            topN := topN + [line];
          } else {
            sentTopN := true;
            log := log + [Response(Lines(topN), reqId)];
          }
        }
        if i + 1 > cap {
          assert lines[..i + 1][..cap] == lines[..cap];
        }
        i := i + 1;
      }
      assert lines[..|lines|] == lines;
      if ending.ReadFailure? {
        return Failure(ending.message);
      }
      stop := stop && false;
      var total := Decimal.Render(cnt);
      var result := if sentTopN then Total(total) else TotalAndLines(total, topN);
      log := log + [Response(result, FinalResponseId)];
      r := Success(());
    }
  }

  /** A path: whether it starts at the root, and its components in order. */
  datatype Path = Path(absolute: bool, components: seq<string>)

  /** `PathBuf::push` of a single component. */
  function Push(p: Path, component: string): Path
  {
    p.(components := p.components + [component])
  }

  /** `PathBuf::pop`: truncate to the parent, or leave the path as it is when it has none. */
  function Pop(p: Path): (r: Path)
    ensures |p.components| > 0 ==> Push(r, p.components[|p.components| - 1]) == p
    ensures |p.components| == 0 ==> r == p
    ensures r.absolute == p.absolute
  {
    if |p.components| == 0 then p else p.(components := p.components[..|p.components| - 1])
  }

  /** The part of a `tokio::process::Command` this core sets: its working directory. */
  class Command {
    var currentDir: Option<Path>

    /** A command that inherits the caller's working directory. */
    constructor ()
      ensures currentDir.None?
    {
      currentDir := None;
    }

    /**
     * `set_current_dir`: without an override nothing changes; a directory is
     * used as it is; any other path is replaced by its parent.
     */
    method SetCurrentDir(cmdDir: Option<Path>, isDir: Path -> bool)
      modifies this
      ensures cmdDir.None? ==> currentDir == old(currentDir)
      ensures cmdDir.Some? && isDir(cmdDir.value) ==> currentDir == cmdDir
      ensures cmdDir.Some? && !isDir(cmdDir.value) ==> currentDir == Some(Pop(cmdDir.value))
    {
      if cmdDir.Some? {
        var dir := cmdDir.value;
        if isDir(dir) {
          currentDir := Some(dir);
        } else {
          dir := Pop(dir);
          currentDir := Some(dir);
        }
      }
    }
  }
}
