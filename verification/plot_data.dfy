/**
 The plotter's data extraction (`plot_benchmark_results` in
 plot_benchmark.py): the records that carry a usable timing block become
 points of three parallel series, whose ranges are printed after the
 chart. Rendering the chart itself is not modelled.
 */
module PlotData {
  import opened Basics
  import opened Records

  /** The record's timing block holds all three plotted metrics (the source
      also asks that the block be non-empty, which those keys imply). */
  predicate HasPoint(r: Record) {
    && r.outcome.Timed?
    && r.outcome.timings != map[]
    && PromptNKey in r.outcome.timings
    && PromptPerSecondKey in r.outcome.timings
    && PredictedPerSecondKey in r.outcome.timings
  }

  /** The records that contribute a point, in input order. */
  function Points(data: seq<Record>): (q: seq<Record>)
    ensures |q| <= |data|
    ensures forall k :: 0 <= k < |q| ==> HasPoint(q[k])
  {
    if |data| == 0 then []
    else
      var rest := Points(data[1..]);
      if HasPoint(data[0]) then [data[0]] + rest else rest
  }

  /** A record is among the points exactly when it occurs in the input and
      has the three metrics. */
  lemma {:induction false} PointsMembers(data: seq<Record>)
    ensures forall r :: r in Points(data) <==> r in data && HasPoint(r)
  {
    if |data| > 0 {
      PointsMembers(data[1..]);
      assert forall r :: r in data <==> r == data[0] || r in data[1..];
    }
  }

  /** Filtering commutes with concatenation: the points of a longer input
      are the points of its parts, in the same order. */
  lemma {:induction false} PointsAppend(a: seq<Record>, b: seq<Record>)
    ensures Points(a + b) == Points(a) + Points(b)
  {
    if |a| == 0 {
      assert a + b == b;
    } else {
      assert (a + b)[1..] == a[1..] + b;
      PointsAppend(a[1..], b);
    }
  }

  /** One record contributes a point exactly when it has the three metrics. */
  lemma PointsSingle(r: Record)
    ensures Points([r]) == if HasPoint(r) then [r] else []
  {
    assert [r][1..] == [];
  }

  /** The values of one metric over records that all hold it. */
  function Column(q: seq<Record>, key: string): (col: seq<real>)
    requires forall k :: 0 <= k < |q| ==> q[k].outcome.Timed? && key in q[k].outcome.timings
    ensures |col| == |q|
    ensures forall k :: 0 <= k < |q| ==> col[k] == q[k].outcome.timings[key]
  {
    seq(|q|, k requires 0 <= k < |q| => q[k].outcome.timings[key])
  }

  /** Projecting a concatenation projects each part. */
  lemma ColumnAppend(a: seq<Record>, b: seq<Record>, key: string)
    requires forall k :: 0 <= k < |a| ==> a[k].outcome.Timed? && key in a[k].outcome.timings
    requires forall k :: 0 <= k < |b| ==> b[k].outcome.Timed? && key in b[k].outcome.timings
    ensures Column(a + b, key) == Column(a, key) + Column(b, key)
  {
    assert forall k :: 0 <= k < |a + b| ==> (a + b)[k] == if k < |a| then a[k] else b[k - |a|];
  }

  /** The three parallel series handed to the chart. */
  datatype Series = Series(promptN: seq<real>, promptPerSecond: seq<real>, predictedPerSecond: seq<real>)

  /** The reference value of the series: each one is the projection of the
      contributing records onto its metric. */
  ghost predicate SeriesOf(data: seq<Record>, s: Series) {
    var q := Points(data);
    && s.promptN == Column(q, PromptNKey)
    && s.promptPerSecond == Column(q, PromptPerSecondKey)
    && s.predictedPerSecond == Column(q, PredictedPerSecondKey)
  }

  /** The extraction loop: walks the records once, appending to the three
      series together whenever a record has all three metrics. */
  method ExtractSeries(data: seq<Record>) returns (s: Series)
    ensures SeriesOf(data, s)
    ensures |s.promptN| == |s.promptPerSecond| == |s.predictedPerSecond| <= |data|
  {
    var promptN: seq<real> := [];
    var promptPerSecond: seq<real> := [];
    var predictedPerSecond: seq<real> := [];
    for i := 0 to |data|
      invariant SeriesOf(data[..i], Series(promptN, promptPerSecond, predictedPerSecond))
    {
      var r := data[i];
      assert data[..i + 1] == data[..i] + [r];
      PointsAppend(data[..i], [r]);
      PointsSingle(r);
      if r.outcome.Timed? && r.outcome.timings != map[] {
        var t := r.outcome.timings;
        if PromptNKey in t && PromptPerSecondKey in t && PredictedPerSecondKey in t {
          promptN := promptN + [t[PromptNKey]];
          promptPerSecond := promptPerSecond + [t[PromptPerSecondKey]];
          predictedPerSecond := predictedPerSecond + [t[PredictedPerSecondKey]];
        }
      }
    }
    assert data[..|data|] == data;
    s := Series(promptN, promptPerSecond, predictedPerSecond);
  }

  /** Extraction is order-preserving: the series of a concatenated input
      are the series of the first part followed by those of the second. */
  lemma SeriesAppend(a: seq<Record>, b: seq<Record>, sa: Series, sb: Series, s: Series)
    requires SeriesOf(a, sa) && SeriesOf(b, sb) && SeriesOf(a + b, s)
    ensures s.promptN == sa.promptN + sb.promptN
    ensures s.promptPerSecond == sa.promptPerSecond + sb.promptPerSecond
    ensures s.predictedPerSecond == sa.predictedPerSecond + sb.predictedPerSecond
  {
    PointsAppend(a, b);
    var qa, qb := Points(a), Points(b);
    ColumnAppend(qa, qb, PromptNKey);
    ColumnAppend(qa, qb, PromptPerSecondKey);
    ColumnAppend(qa, qb, PredictedPerSecondKey);
  }

  /** The printed range of one series. */
  datatype Range = Range(lo: real, hi: real)

  /** The printed summary statistics. */
  datatype Stats = Stats(points: nat, promptN: Range, promptPerSecond: Range, predictedPerSecond: Range)

  /** What the plotter does with a result list: reports that nothing can be
      plotted, or plots the series and prints their statistics. */
  datatype PlotOutcome = NoValidData | Plotted(series: Series, stats: Stats)

  /** `r` is the (min, max) pair of `s`: both ends occur in `s` and bound it. */
  ghost predicate IsRangeOf(r: Range, s: seq<real>) {
    && r.lo in s
    && r.hi in s
    && forall x :: x in s ==> r.lo <= x <= r.hi
  }

  /** `min(s)` and `max(s)` of a non-empty series. */
  function RangeOf(s: seq<real>): (r: Range)
    requires |s| > 0
    ensures IsRangeOf(r, s)
    ensures r.lo <= r.hi
  {
    Range(Min(s), Max(s))
  }

  /** The plotter: no qualifying record means an early return before any
      chart or statistics; otherwise the statistics describe the series. */
  method PlotBenchmarkResults(data: seq<Record>) returns (out: PlotOutcome)
    ensures out.NoValidData? <==> forall r :: r in data ==> !HasPoint(r)
    ensures out.Plotted? ==> SeriesOf(data, out.series)
    ensures out.Plotted? ==> out.stats.points == |out.series.promptN| > 0
    ensures out.Plotted? ==>
              && IsRangeOf(out.stats.promptN, out.series.promptN)
              && IsRangeOf(out.stats.promptPerSecond, out.series.promptPerSecond)
              && IsRangeOf(out.stats.predictedPerSecond, out.series.predictedPerSecond)
  {
    var s := ExtractSeries(data);
    PointsMembers(data);
    if |s.promptN| == 0 {
      return NoValidData;
    }
    var stats := Stats(|s.promptN|, RangeOf(s.promptN), RangeOf(s.promptPerSecond), RangeOf(s.predictedPerSecond));
    out := Plotted(s, stats);
    assert Points(data)[0] in data;
  }
}
