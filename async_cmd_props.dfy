/**
 * What the output reader promises, proved about the responses it writes
 * (`AsyncCmd.ReadOutputResponses`, which `Run.ReadOutput` is verified against).
 *
 * `Step` and `Replay` are a reference semantics of the same loop, one line at a
 * time, written independently of that closed form; `ReplayState` and
 * `ReplayAgrees` check the closed form against it, so the specification the
 * method is proved against is itself checked against the loop body it abstracts.
 */
module AsyncCmdProperties {
  import opened Base
  import Decimal
  import opened AsyncCmd

  /** The reader's state between two lines: counter, buffer, flag, and what it wrote. */
  datatype ReaderState = ReaderState(cnt: nat, topN: seq<string>, sentTopN: bool, written: seq<Response>)

  /** One iteration of the `while let` loop of `read_output`. */
  function Step(s: ReaderState, line: string, reqId: u64): ReaderState
  {
    var seen := s.cnt;
    var next := s.(cnt := s.cnt + 1);
    if s.sentTopN then next
    else if seen < PreviewThreshold then next.(topN := s.topN + [line])
    else next.(sentTopN := true, written := s.written + [Response(Lines(s.topN), reqId)])
  }

  /** The reader's state after consuming `lines` one at a time, in order. */
  function Replay(cnt0: nat, lines: seq<string>, reqId: u64): ReaderState
    decreases |lines|
  {
    if lines == [] then ReaderState(cnt0, [], false, [])
    else Step(Replay(cnt0, lines[..|lines| - 1], reqId), lines[|lines| - 1], reqId)
  }

  /** The summary written once the loop has ended. */
  function Summary(s: ReaderState): Response
  {
    var total := Decimal.Render(s.cnt);
    Response(if s.sentTopN then Total(total) else TotalAndLines(total, s.topN), FinalResponseId)
  }

  /** Everything written, replaying the loop line by line. */
  function ReplayResponses(cnt0: nat, lines: seq<string>, ending: Ending, reqId: u64): seq<Response>
  {
    var s := Replay(cnt0, lines, reqId);
    s.written + if ending.EndOfStream? then [Summary(s)] else []
  }

  /** After any number of lines, the loop's state has the closed form `Run.ReadOutput` promises. */
  lemma {:induction false} ReplayState(cnt0: nat, lines: seq<string>, reqId: u64)
    ensures Replay(cnt0, lines, reqId) ==
      ReaderState(cnt0 + |lines|, lines[..Min(|lines|, PreviewCapacity(cnt0))],
                  |lines| > PreviewCapacity(cnt0), PreviewResponses(cnt0, lines, reqId))
    decreases |lines|
  {
    if lines != [] {
      var cap := PreviewCapacity(cnt0);
      var init := lines[..|lines| - 1];
      ReplayState(cnt0, init, reqId);
      assert init[..Min(|init|, cap)] == lines[..Min(|init|, cap)];
      if |init| > cap {
        assert init[..cap] == lines[..cap];
      }
    }
  }

  /** The line-by-line replay writes exactly what `ReadOutputResponses` says. */
  lemma ReplayAgrees(cnt0: nat, lines: seq<string>, ending: Ending, reqId: u64)
    ensures ReplayResponses(cnt0, lines, ending, reqId) == ReadOutputResponses(cnt0, lines, ending, reqId)
  {
    ReplayState(cnt0, lines, reqId);
    var cap := PreviewCapacity(cnt0);
    if |lines| <= cap {
      assert lines[..Min(|lines|, cap)] == lines;
    }
  }

  /** The previews among `rs`, in order. */
  function Previews(rs: seq<Response>): (p: seq<Response>)
    ensures |p| <= |rs|
    ensures forall r :: r in p ==> r in rs && r.result.Lines?
  {
    if rs == [] then []
    else (if rs[0].result.Lines? then [rs[0]] else []) + Previews(rs[1..])
  }

  /** The summaries (`{total}` or `{total, lines}` payloads) among `rs`, in order. */
  function Summaries(rs: seq<Response>): (p: seq<Response>)
    ensures |p| <= |rs|
    ensures forall r :: r in p ==> r in rs && !r.result.Lines?
  {
    if rs == [] then []
    else (if rs[0].result.Lines? then [] else [rs[0]]) + Summaries(rs[1..])
  }

  lemma {:induction false} SelectAppend(a: seq<Response>, b: seq<Response>)
    ensures Previews(a + b) == Previews(a) + Previews(b)
    ensures Summaries(a + b) == Summaries(a) + Summaries(b)
    decreases |a|
  {
    if a != [] {
      assert (a + b)[0] == a[0];
      assert (a + b)[1..] == a[1..] + b;
      SelectAppend(a[1..], b);
    } else {
      assert a + b == b;
    }
  }

  /** Every preview holds at most 500 lines, and they are the first lines of the output, in order. */
  lemma PreviewIsPrefix(cnt0: nat, lines: seq<string>, ending: Ending, reqId: u64)
    ensures forall r :: r in Previews(ReadOutputResponses(cnt0, lines, ending, reqId)) ==>
      r.id == reqId && |r.result.lines| <= PreviewThreshold && r.result.lines == lines[..|r.result.lines|]
  {
    var fin: seq<Response> := if ending.EndOfStream? then [FinalResponse(cnt0, lines)] else [];
    SelectAppend(PreviewResponses(cnt0, lines, reqId), fin);
  }

  /**
   * For a run started at 0: one preview exactly when more than 500 lines arrive
   * (the 501st line triggers it), holding the first 500 lines and not the 501st.
   */
  lemma PreviewExactlyPastThreshold(lines: seq<string>, ending: Ending, reqId: u64)
    ensures var rs := ReadOutputResponses(0, lines, ending, reqId);
      Previews(rs) == if |lines| > PreviewThreshold then [Response(Lines(lines[..PreviewThreshold]), reqId)] else []
  {
    var fin: seq<Response> := if ending.EndOfStream? then [FinalResponse(0, lines)] else [];
    SelectAppend(PreviewResponses(0, lines, reqId), fin);
  }

  /**
   * For a run started at 0 that reads to the end of the stream: exactly one
   * summary, written last with id 1; its total is the number of lines; it holds
   * all the lines when there are at most 500, and no lines otherwise, in which
   * case it follows the preview.
   */
  lemma FinalSummary(lines: seq<string>, reqId: u64)
    ensures var rs := ReadOutputResponses(0, lines, EndOfStream, reqId);
      var last := rs[|rs| - 1];
      && Summaries(rs) == [last]
      && last.id == FinalResponseId
      && Decimal.Parse(last.result.total) == Some(|lines|)
      && (last.result.TotalAndLines? <==> |lines| <= PreviewThreshold)
      && (last.result.TotalAndLines? ==> last.result.lines == lines)
      && (|lines| > PreviewThreshold ==> |rs| == 2 && rs[0].result.Lines? && rs[0].id == reqId)
      && (|lines| <= PreviewThreshold ==> |rs| == 1)
  {
    var fin := FinalResponse(0, lines);
    SelectAppend(PreviewResponses(0, lines, reqId), [fin]);
    Decimal.ParseRender(|lines|);
  }

  /**
   * A read failure ends the reader before any summary; a preview already
   * written stays written.
   */
  lemma ReadFailureWritesNoSummary(cnt0: nat, lines: seq<string>, message: string, reqId: u64)
    ensures var rs := ReadOutputResponses(cnt0, lines, ReadFailure(message), reqId);
      Summaries(rs) == [] && rs == PreviewResponses(cnt0, lines, reqId)
  {
    var rs := PreviewResponses(cnt0, lines, reqId);
    assert rs + [] == rs;
    SelectAppend(rs, []);
  }

  /** With exactly 500 lines no preview is written: the summary carries all 500 lines. */
  lemma ExactlyThresholdLines(lines: seq<string>, reqId: u64)
    requires |lines| == PreviewThreshold
    ensures ReadOutputResponses(0, lines, EndOfStream, reqId) == [Response(TotalAndLines("500", lines), FinalResponseId)]
  {
    assert Decimal.DigitChar(0) == '0' && Decimal.DigitChar(5) == '5';
    assert Decimal.Render(50) == "50";
    assert Decimal.Render(500) == "500";
  }

  /** A child that prints three lines: one summary with the three lines, no preview. */
  lemma ThreeLines(reqId: u64)
    ensures ReadOutputResponses(0, ["l1", "l2", "l3"], EndOfStream, reqId) ==
      [Response(TotalAndLines("3", ["l1", "l2", "l3"]), FinalResponseId)]
  {
  }

  /** A child that prints 510 lines: the preview of the first 500, then a summary with total 510 only. */
  lemma FiveHundredTenLines(lines: seq<string>, reqId: u64)
    requires |lines| == 510
    ensures ReadOutputResponses(0, lines, EndOfStream, reqId) ==
      [Response(Lines(lines[..500]), reqId), Response(Total("510"), FinalResponseId)]
  {
    assert Decimal.DigitChar(0) == '0' && Decimal.DigitChar(1) == '1' && Decimal.DigitChar(5) == '5';
    assert Decimal.Render(51) == "51";
    assert Decimal.Render(510) == "510";
  }

  /**
   * The reader followed by one reporter tick, as `async_run` may schedule
   * them: the reader leaves the stop flag clear, so the reporter keeps going and
   * writes a progress response after the final summary.
   */
  method ReaderThenTick(reqId: u64, lines: seq<string>) returns (done: bool, written: seq<Response>)
    ensures !done
    ensures written == ReadOutputResponses(0, lines, EndOfStream, reqId) + [Response(Total(Decimal.Render(|lines|)), reqId)]
  {
    var run := new Run(reqId);
    var r := run.ReadOutput(lines, EndOfStream);
    done := run.Tick();
    written := run.log;
  }
}
