# bm_server benchmark sampler and plotter — Dafny model

The repository holds two small scripts. `benchmark.py` (the sampler) reads a
text file and picks a list of prefix lengths ("line counts"). For each count
it sends the first lines of the file as a prompt to a local inference server.
It keeps one result record per count, holding either the server's `timings`
block or the error text, and prints a summary line per record.
`plot_benchmark.py` (the plotter) reads such a record list back. It keeps the
records whose timing block has `prompt_n`, `prompt_per_second` and
`predicted_per_second`, turns them into three parallel series, plots them, and
prints the min/max range of each series.

This project models the pure list logic of both scripts:

- `basics.dfy` (`Basics`): an `Option` type, strictly increasing sequences,
  `''.join`, and `min`/`max` of a series.
- `line_counts.dfy` (`LineCounts`): the default line counts, i.e. the sorted
  set of `max(1, int(total * i/100))` for `i = 1..100`.
- `records.dfy` (`Records`): the result record. Its outcome is either a timing
  block or an error, never both.
- `sampler.dfy` (`Sampler`): the measurement loop. It clamps each count, slices
  the prompt, calls the server and appends one record per count. The server is
  an abstract function parameter.
- `summary.dfy` (`Summary`): the three-way summary line per record.
- `plot_data.dfy` (`PlotData`): the filter, the three parallel series, the
  early return when nothing qualifies, and the range statistics.
- `end_to_end.dfy` (`EndToEnd`): a worked run. A ten-line file is sampled at
  5 and 10 lines against a server that always returns the same timing block.
  The run is then summarised and plotted.

Each loop of the scripts is a method whose loop invariants tie it to a
declarative reference: `OneRecordPerCount` for the sampler, `SeriesOf` for the
extraction. The lemmas are stated over those references.

The model follows what the code does, including where it differs from what
one might expect of such a tool:

- There is no split-count parameter; 100 steps are hard-coded.
- An empty file is not rejected. Its default counts are `[1]`, which the clamp
  turns into one request with empty content and `lines_used = 0`
  (`EmptyFileRun`).
- Explicit `--line-counts` are used as given. They are neither sorted nor
  de-duplicated, and a negative count slices Python-style from the end.
- A missing file makes the loop return `None` (`Option.None` here).
- There is no request timeout and no error classification. Every exception
  becomes the record's `error` text.

## Model

| member | source | states |
|---|---|---|
| LineCounts.Candidate | benchmark.py:47-48 | the candidate `max(1, int(total * i/100))` of a step 1..100 is at least 1, and at most the file length when the file is non-empty |
| LineCounts.Candidates | benchmark.py:47-48 | there are 100 candidates, one per step, and a value occurs among them iff some step 1..100 produces it |
| LineCounts.SortedDistinct | benchmark.py:50 | the result of `sorted(set(xs))` is strictly increasing and no longer than the input, and is non-empty for non-empty input |
| LineCounts.SortedDistinctMembers | benchmark.py:50 | `sorted(set(xs))` holds exactly the values occurring in `xs` |
| Basics.StrictlyIncreasingUnique | benchmark.py:50 | two strictly increasing lists with the same elements are equal, so `sorted(set(xs))` is determined by the set of candidates |
| Sampler.TestPoints | benchmark.py:45-50 | definition without a contract: the caller's `line_counts` as given when present, else the default counts; stated through `Sampler.ProcessFileVersions`, `Sampler.DefaultRunCoversFile` and `Sampler.EmptyFileRun` |
| LineCounts.DefaultLineCounts | benchmark.py:45-50 | the default counts are strictly increasing, number between 1 and 100, are each at least 1, and for a non-empty file are each at most the file length |
| LineCounts.DefaultLineCountsMembers | benchmark.py:47-50 | de-duplication loses no candidate and adds none: a value is a default count iff it is a candidate |
| LineCounts.DefaultLineCountsLast | benchmark.py:47-50 | for a non-empty file the last default count is the file length (step 100 is the whole file) |
| LineCounts.DefaultLineCountsLongFile | benchmark.py:47-50 | with exact arithmetic, files of 100 lines or more have 100 distinct candidates, so there are exactly 100 default counts, in step order (the source's floating-point steps can lose some; see Left out) |
| LineCounts.DefaultLineCountsFiveLines | benchmark.py:47-50 | a five-line file collapses the 100 steps to the counts `[1, 2, 3, 4, 5]` |
| LineCounts.DefaultLineCountsEmptyFile | benchmark.py:45-50 | an empty file is not rejected; its only default count is 1 |
| Sampler.UsedCount | benchmark.py:55-56 | the count actually used is never above the file length; it equals the requested count when that fits and the file length otherwise |
| Sampler.Slice | benchmark.py:58 | `all_lines[:n]` is a prefix of the lines: the first `n` when `0 <= n <= len`, all lines when `n >= len`, all but the last `-n` when `n` is negative, and empty when `-n` exceeds the length |
| Sampler.PromptText | benchmark.py:58 | for a count within the file the prompt content is exactly the text of its first `n` lines, and for a larger count the whole file's text |
| Sampler.PromptIsFilePrefix | benchmark.py:58 | for every count, negative ones included, the prompt content is a prefix of the whole file's text |
| Basics.Join | benchmark.py:58 | definition without a contract: `''.join` of the lines; stated through `Sampler.PromptText`, `Sampler.PromptIsFilePrefix` and `Basics.JoinAppend` |
| Basics.JoinAppend | benchmark.py:58 | joining the lines of two consecutive blocks equals joining each block and concatenating |
| Sampler.OutcomeOf | benchmark.py:64-90 | definition without a contract: a returned reply gives its `timings`, defaulting to empty, and a raised call gives `str(e)`; stated through `Sampler.RecordFields` and `Sampler.EmptyFileRun` |
| Sampler.RecordFor | benchmark.py:54-91 | definition without a contract: the record appended for one count and call; stated through `Sampler.OneRecordPerCount`, hence `Sampler.MeasureCounts`, `Sampler.ProcessFileVersions` and `Sampler.RecordFields` |
| Sampler.MeasureCounts | benchmark.py:52-93 | the loop yields one record per count, in count order, each built from the clamped count, the prompt of that many lines and the server's reply to that request (the k-th call of the run) |
| Sampler.ProcessFileVersions | benchmark.py:31-93 | a missing file gives no result list; otherwise the list has one record per count, in count order, each built from the clamped count, the prompt of that many lines and the server's reply to that request (the k-th call of the run) |
| Sampler.RecordFields | benchmark.py:54-91 | record k names the file, has `lines_used` no larger than the file length (equal to count k when that fits), carries the run's `total_lines` and `max_tokens`, and holds timings (empty when the reply has none) iff the call returned, else the raised message |
| Sampler.DefaultRunCoversFile | benchmark.py:45-58 | with default counts and a non-empty file, the records' `lines_used` are strictly increasing, lie in 1..file length, and the last one is the whole file |
| Sampler.EmptyFileRun | benchmark.py:42-58 | with an empty file the default run makes exactly one request, with empty content, and records `lines_used = 0` |
| Summary.MetricOrZero | benchmark.py:134-135 | definition without a contract: `timings.get(key, 0)`; stated through `Summary.SummaryLineOf` |
| Summary.SummaryLineOf | benchmark.py:127-139 | each record gives an error line iff it failed, a timing line iff its timing block is non-empty, and the no-timing-data line otherwise; the timing line's total seconds times 1000 is `prompt_ms + predicted_ms`, a missing field counting as 0 |
| Summary.PrintSummary | benchmark.py:126-139 | the summary has one line per record, in record order |
| Summary.TallyCounts | benchmark.py:126-139 | the summary has as many error lines as failed calls, as many timing lines as records with a non-empty timing block, and as many no-timing-data lines as records whose call returned an empty block |
| PlotData.HasPoint | plot_benchmark.py:21-23 | definition without a contract: the timing block is present, non-empty and holds `prompt_n`, `prompt_per_second` and `predicted_per_second`; stated through `PlotData.Points`, `PlotData.PointsMembers` and `PlotData.PlotBenchmarkResults` |
| PlotData.Points | plot_benchmark.py:20-23 | the kept records are no more than the input records, and every kept record has a non-empty timing block holding all three metric keys |
| PlotData.PointsMembers | plot_benchmark.py:20-23 | a record is among the kept ones iff it occurs in the input and has the three metrics |
| PlotData.PointsAppend | plot_benchmark.py:20-26 | filtering a concatenation gives the filtered parts in the same order, i.e. the filter preserves input order |
| PlotData.PointsSingle | plot_benchmark.py:21-23 | a single record contributes itself iff it has the three metrics, and nothing otherwise |
| PlotData.ExtractSeries | plot_benchmark.py:16-26 | the three series are the in-order projections of the kept records onto `prompt_n`, `prompt_per_second` and `predicted_per_second`; they have equal length, at most the number of records |
| PlotData.SeriesAppend | plot_benchmark.py:20-26 | the series of a concatenated input are the series of the first part followed by those of the second |
| Basics.Min | plot_benchmark.py:75-77 | `min` of a non-empty series is an element of it and no larger than any element |
| Basics.Max | plot_benchmark.py:75-77 | `max` of a non-empty series is an element of it and no smaller than any element |
| PlotData.RangeOf | plot_benchmark.py:75-77 | the printed range of a non-empty series has both ends in the series, bounds every element, and its low end is at most its high end |
| PlotData.PlotBenchmarkResults | plot_benchmark.py:16-77 | nothing is plotted and no statistics are printed iff no record has the three metrics; otherwise the point count is the (positive) series length and each printed range is the min/max of its series |
| EndToEnd.TenLineRun | benchmark.py:54-137 | a ten-line file sampled at 5 and 10 lines against a fixed server gives two timing records, each summarised as Total 0.3 s, Prompt 0.1 s, Predicted 0.2 s |
| EndToEnd.PlottedRecordsAreTimed | plot_benchmark.py:20-23 | every record the plotter keeps gets a timing line in the sampler's summary (benchmark.py:131-137), so the plot has no more points than the summary has timing lines |
| EndToEnd.RepeatedCountIsNewCall | benchmark.py:54-64 | a count given twice makes two requests with the same prompt, and with a server whose second call fails, the first record holds timings and the second the error |
| EndToEnd.TenLinePlot | plot_benchmark.py:20-77 | plotting those two records gives series `[5, 5]`, `[50, 50]`, `[25, 25]` and ranges 50–50 and 25–25 |

## Left out

- `send_request` (HTTP POST with the fixed preamble, model name, `cache_prompt: false` and bearer header, then JSON decoding) is an abstract `Server` parameter. It also receives the number of the call within the run, so each request is a call of its own: a repeated or equally clamped count can get different timings or fail on one call only (`RepeatedCountIsNewCall`). A non-object JSON reply, on which `.get` raises, is folded into `Raised`.
- File existence and `readlines` are not modelled. The file is given as `Option<seq<string>>` of lines, each with its own terminator.
- `argparse`, `json.dump` to `--output`, every `print`, and matplotlib rendering (axes, legend, `show`, `savefig`) are input/output with no logic to verify.
- LineCounts.Candidate: the source computes `int(total * (i / 100.0))` in IEEE doubles, which can truncate one lower than exact arithmetic (100 × 0.29 gives 28.999…, so 28). The model uses exact integer `total * i / 100`, so a step's candidate can be one higher than the source's.
- LineCounts.DefaultLineCounts: because a step's count can be one lower in the source, the source's default list can lack values the model holds, can hold values the model lacks (57, 113 and 115 at 200 lines, where the model has 58, 114 and 116), and can be shorter (98 counts at 100 lines: steps 29 and 57 give 28 and 56, duplicating steps 28 and 56, and 29 and 58 are missing). The stated bounds, ordering and last element hold either way.
- LineCounts.DefaultLineCountsLongFile: "exactly 100 counts" holds of the exact-arithmetic model only; the source gives 98 counts at 100 lines.
- Timing values are exact reals. Floating-point rounding of the ms-to-seconds division is not modelled.
- Summary.SummaryLineOf: the `.2f` formatting of seconds is not modelled; the line carries the exact values.
- A `timings` field that is JSON `null` or not an object is not modelled. Timings are always a map from metric name to number.
- The plotter's input is modelled as a list of sampler records. Hand-written JSON with other shapes, such as a record holding both `error` and `timings`, is not modelled.
- The summary in `main` when the file is missing is not modelled. There the loop returns `None` and iterating over it fails.
- `KeyboardInterrupt` is not caught by the sampler's `except Exception`, so an interrupt aborts the run. Partial results are not modelled.
