/**
 A worked run through both programs: a ten-line file measured at 5 and
 10 lines against a server that always reports the same timing block,
 then summarised and plotted; and a repeated count against a server that
 fails after its first call.
 */
module EndToEnd {
  import opened Basics
  import opened Records
  import opened Sampler
  import opened Summary
  import opened PlotData

  /** The timing block the server reports for every request. */
  const SampleTimings: Timings := map[
    PromptMsKey := 100.0,
    PredictedMsKey := 200.0,
    PromptNKey := 5.0,
    PromptPerSecondKey := 50.0,
    PredictedPerSecondKey := 25.0]

  /** A server that answers every request with `SampleTimings`. */
  function FixedServer(call: nat, content: string, url: string, maxTokens: int): Reply {
    Replied(Some(SampleTimings))
  }

  /** Two records, at 5 and 10 lines, both carrying the sample timings;
      each summarises as 0.3 s in total (0.1 s prompt, 0.2 s predicted). */
  lemma TenLineRun(file: string, lines: seq<string>, url: string, results: seq<Record>)
    requires |lines| == 10
    requires OneRecordPerCount(file, lines, url, 64, FixedServer, [5, 10], results)
    ensures |results| == 2
    ensures results[0].linesUsed == 5 && results[1].linesUsed == 10
    ensures results[0].outcome == Timed(SampleTimings) && results[1].outcome == Timed(SampleTimings)
    ensures SummaryLineOf(results[0]) == TimingLine(5, 10, 0.3, 0.1, 0.2)
    ensures SummaryLineOf(results[1]) == TimingLine(10, 10, 0.3, 0.1, 0.2)
  {
    assert results[0] == RecordFor(file, lines, url, 64, FixedServer, 0, 5);
    assert results[1] == RecordFor(file, lines, url, 64, FixedServer, 1, 10);
    assert SampleTimings != map[] by {
      assert PromptMsKey in SampleTimings;
    }
  }

  /** Plotting those two records gives two identical points, and each
      printed range collapses to a single value. */
  lemma TenLinePlot(records: seq<Record>, s: Series)
    requires |records| == 2
    requires records[0].outcome == Timed(SampleTimings) && records[1].outcome == Timed(SampleTimings)
    requires SeriesOf(records, s)
    ensures s == Series([5.0, 5.0], [50.0, 50.0], [25.0, 25.0])
    ensures RangeOf(s.promptPerSecond) == Range(50.0, 50.0)
    ensures RangeOf(s.predictedPerSecond) == Range(25.0, 25.0)
  {
    assert records == [records[0]] + [records[1]];
    PointsAppend([records[0]], [records[1]]);
    PointsSingle(records[0]);
    PointsSingle(records[1]);
    assert PromptMsKey in SampleTimings;
    assert HasPoint(records[0]) && HasPoint(records[1]);
    assert Points(records) == records;
  }

  /** The two programs agree on what counts as timed: every record the
      plotter draws is one the sampler summarised with a timing line, so
      the plot never has more points than the summary has timing lines. */
  lemma {:induction false} PlottedRecordsAreTimed(results: seq<Record>)
    ensures forall r :: r in Points(results) ==> SummaryLineOf(r).TimingLine?
    ensures |Points(results)| <= Tally(results).1
  {
    if |results| > 0 {
      PlottedRecordsAreTimed(results[1..]);
    }
  }

  /** A server whose first call answers with `SampleTimings` and whose
      later calls fail. */
  function FlakyServer(call: nat, content: string, url: string, maxTokens: int): Reply {
    if call == 0 then Replied(Some(SampleTimings)) else Raised("connection reset")
  }

  /** A count given twice is two separate requests with the same prompt:
      the first can succeed while the second fails. */
  lemma RepeatedCountIsNewCall(file: string, lines: seq<string>, url: string, results: seq<Record>)
    requires |lines| == 10
    requires OneRecordPerCount(file, lines, url, 64, FlakyServer, [10, 10], results)
    ensures results[0].linesUsed == results[1].linesUsed == 10
    ensures results[0].outcome == Timed(SampleTimings)
    ensures results[1].outcome == Failed("connection reset")
  {
    assert results[0] == RecordFor(file, lines, url, 64, FlakyServer, 0, 10);
    assert results[1] == RecordFor(file, lines, url, 64, FlakyServer, 1, 10);
  }
}
