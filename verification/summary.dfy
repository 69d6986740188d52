/**
 The console summary the sampler prints after the loop (`main` in
 benchmark.py): one line per record, in one of three shapes. Times are
 converted from milliseconds to seconds; the two-decimal formatting is
 not modelled.
 */
module Summary {
  import opened Records

  /** One summary line: an error, a timing breakdown in seconds, or the
      "completed (no timing data)" line. */
  datatype SummaryLine =
    | ErrorLine(linesUsed: int, totalLines: nat, error: string)
    | TimingLine(linesUsed: int, totalLines: nat, totalSeconds: real, promptSeconds: real, predictedSeconds: real)
    | NoTimingLine(linesUsed: int, totalLines: nat)

  /** `timings.get(key, 0)`. */
  function MetricOrZero(t: Timings, key: string): real {
    if key in t then t[key] else 0.0
  }

  /** The summary line for one record. Errors take precedence; a non-empty
      timing block gives the breakdown, whose total is the prompt plus the
      predicted time, missing fields counting as zero. */
  function SummaryLineOf(r: Record): (line: SummaryLine)
    ensures line.linesUsed == r.linesUsed && line.totalLines == r.totalLines
    ensures line.ErrorLine? <==> r.outcome.Failed?
    ensures line.ErrorLine? ==> line.error == r.outcome.error
    ensures line.TimingLine? <==> r.outcome.Timed? && r.outcome.timings != map[]
    ensures line.NoTimingLine? <==> r.outcome.Timed? && r.outcome.timings == map[]
    ensures line.TimingLine? ==>
              && line.promptSeconds * 1000.0 == MetricOrZero(r.outcome.timings, PromptMsKey)
              && line.predictedSeconds * 1000.0 == MetricOrZero(r.outcome.timings, PredictedMsKey)
              && line.totalSeconds * 1000.0
                 == MetricOrZero(r.outcome.timings, PromptMsKey) + MetricOrZero(r.outcome.timings, PredictedMsKey)
  {
    match r.outcome
    case Failed(msg) => ErrorLine(r.linesUsed, r.totalLines, msg)
    case Timed(t) =>
      if t != map[] then
        var promptS := MetricOrZero(t, PromptMsKey) / 1000.0;
        var predictedS := MetricOrZero(t, PredictedMsKey) / 1000.0;
        TimingLine(r.linesUsed, r.totalLines, promptS + predictedS, promptS, predictedS)
      else
        NoTimingLine(r.linesUsed, r.totalLines)
  }

  /** The summary loop: one line per record, in record order. */
  method PrintSummary(results: seq<Record>) returns (lines: seq<SummaryLine>)
    ensures |lines| == |results|
    ensures forall k :: 0 <= k < |results| ==> lines[k] == SummaryLineOf(results[k])
  {
    lines := [];
    for i := 0 to |results|
      invariant |lines| == i
      invariant forall k :: 0 <= k < i ==> lines[k] == SummaryLineOf(results[k])
    {
      lines := lines + [SummaryLineOf(results[i])];
    }
  }

  /** How many summary lines of each shape a list of records yields. */
  function Tally(results: seq<Record>): (counts: (nat, nat, nat)) {
    if |results| == 0 then (0, 0, 0)
    else
      var (e, t, n) := Tally(results[1..]);
      match SummaryLineOf(results[0])
      case ErrorLine(_, _, _) => (e + 1, t, n)
      case TimingLine(_, _, _, _, _) => (e, t + 1, n)
      case NoTimingLine(_, _) => (e, t, n + 1)
  }

  /** The record's server call raised. */
  predicate CallFailed(r: Record) {
    r.outcome.Failed?
  }

  /** The call returned a non-empty timing block. */
  predicate HasTimings(r: Record) {
    r.outcome.Timed? && r.outcome.timings != map[]
  }

  /** The call returned, but without timing data. */
  predicate LacksTimings(r: Record) {
    r.outcome.Timed? && r.outcome.timings == map[]
  }

  /** The number of records satisfying `p`. */
  function CountWhere(results: seq<Record>, p: Record -> bool): nat {
    if |results| == 0 then 0
    else (if p(results[0]) then 1 else 0) + CountWhere(results[1..], p)
  }

  /** The summary's error lines are the failed calls, its timing lines the
      records with a non-empty timing block, and its no-timing-data lines
      the records whose call returned nothing to time. */
  lemma {:induction false} TallyCounts(results: seq<Record>)
    ensures Tally(results).0 == CountWhere(results, CallFailed)
    ensures Tally(results).1 == CountWhere(results, HasTimings)
    ensures Tally(results).2 == CountWhere(results, LacksTimings)
  {
    if |results| > 0 {
      TallyCounts(results[1..]);
    }
  }
}
