/**
 The sampler's measurement loop (`process_file_versions` in benchmark.py).
 The file is given as its list of lines, each line keeping its own line
 terminator, or `None` when the file does not exist. The inference server
 is an abstract total function from (call number, prompt content, URL,
 max_tokens) to a reply; everything `send_request` does, and any exception
 raised while reading the reply, is folded into that function. The call
 number makes every request a call of its own: two requests with the same
 prompt may get different timings, or one may fail and the other not.
 */
module Sampler {
  import opened Basics
  import opened Records
  import LineCounts

  /** What one call of the server produced: a JSON object that may or may
      not hold a `timings` block, or an exception with its message. */
  datatype Reply = Replied(timings: Option<Timings>) | Raised(message: string)

  /** The server as seen by the sampler: (call number, content, url,
      max_tokens) -> reply. */
  type Server = (nat, string, string, int) -> Reply

  /** The line counts the loop walks: the caller's list as given (even an
      empty one), or the default percentages when there is none. */
  function TestPoints(total: nat, lineCounts: Option<seq<int>>): seq<int> {
    match lineCounts
    case Some(counts) => counts
    case None => LineCounts.DefaultLineCounts(total)
  }

  /** The clamp at the top of the loop body: a count above the file length
      becomes the file length; any other count, even a negative one, is
      kept. */
  function UsedCount(n: int, total: nat): (used: int)
    ensures used <= total
    ensures used == n || used == total
    ensures n <= total ==> used == n
    ensures n >= total ==> used == total
  {
    if n > total then total else n
  }

  /** Python's `xs[:n]`: the first `n` elements, where a negative `n`
      drops the last `-n` elements instead; a count past either end gives
      the whole list or nothing. */
  function Slice<T>(xs: seq<T>, n: int): (p: seq<T>)
    ensures p <= xs
    ensures 0 <= n <= |xs| ==> p == xs[..n]
    ensures n < 0 && |xs| + n >= 0 ==> p == xs[..|xs| + n]
    ensures n >= |xs| ==> p == xs
    ensures |xs| + n < 0 ==> p == []
  {
    if n >= |xs| then xs
    else if n >= 0 then xs[..n]
    else if |xs| + n >= 0 then xs[..|xs| + n]
    else []
  }

  /** The prompt content for a count: `''.join(all_lines[:n])`. For a count
      within the file it is exactly the text of the first `n` lines; for a
      larger count it is the whole file. */
  function PromptText(lines: seq<string>, n: int): (text: string)
    ensures 0 <= n <= |lines| ==> text == Join(lines[..n])
    ensures n >= |lines| ==> text == Join(lines)
  {
    Join(Slice(lines, n))
  }

  /** Whatever the count, even a negative one, the prompt content is a
      prefix of the whole file's text. */
  lemma PromptIsFilePrefix(lines: seq<string>, n: int)
    ensures PromptText(lines, n) <= Join(lines)
  {
    var p := Slice(lines, n);
    JoinPrefix(lines, |p|);
    assert lines[..|p|] == p;
  }

  /** The record field for a reply: `response.get('timings', {})` when the
      call returned, `str(e)` when it raised. */
  function OutcomeOf(reply: Reply): Outcome {
    match reply
    case Replied(t) => Timed(t.GetOr(map[]))
    case Raised(msg) => Failed(msg)
  }

  /** The record the loop appends as its `call`-th request, for the count
      `n` (before clamping). */
  function RecordFor(file: string, lines: seq<string>, url: string, maxTokens: int,
                     server: Server, call: nat, n: int): Record
  {
    var used := UsedCount(n, |lines|);
    Record(file, used, |lines|, maxTokens, OutcomeOf(server(call, PromptText(lines, used), url, maxTokens)))
  }

  /** `results` holds one record per count, in the order of the counts. */
  ghost predicate OneRecordPerCount(file: string, lines: seq<string>, url: string, maxTokens: int,
                                    server: Server, counts: seq<int>, results: seq<Record>)
  {
    && |results| == |counts|
    && forall k :: 0 <= k < |counts| ==> results[k] == RecordFor(file, lines, url, maxTokens, server, k, counts[k])
  }

  /** The loop over the counts: one request and one record per count, in
      order. */
  method MeasureCounts(file: string, lines: seq<string>, url: string, maxTokens: int,
                       counts: seq<int>, server: Server)
    returns (results: seq<Record>)
    ensures OneRecordPerCount(file, lines, url, maxTokens, server, counts, results)
  {
    var total := |lines|;
    results := [];
    for i := 0 to |counts|
      invariant OneRecordPerCount(file, lines, url, maxTokens, server, counts[..i], results)
    {
      var n := counts[i];
      if n > total {
        n := total;
      }
      var content := Join(Slice(lines, n));
      var record;
      match server(i, content, url, maxTokens) {
        case Replied(t) =>
          record := Record(file, n, total, maxTokens, Timed(t.GetOr(map[])));
        case Raised(msg) =>
          record := Record(file, n, total, maxTokens, Failed(msg));
      }
      assert counts[..i + 1] == counts[..i] + [counts[i]];
      results := results + [record];
    }
    assert counts[..|counts|] == counts;
  }

  /** `process_file_versions`: a missing file gives no result list at all;
      otherwise the default or given counts are measured in order, one
      record each. */
  method ProcessFileVersions(file: string, contents: Option<seq<string>>, url: string, maxTokens: int,
                             lineCounts: Option<seq<int>>, server: Server)
    returns (results: Option<seq<Record>>)
    ensures results.None? <==> contents.None?
    ensures contents.Some? ==>
              OneRecordPerCount(file, contents.value, url, maxTokens, server,
                                TestPoints(|contents.value|, lineCounts), results.value)
  {
    if contents.None? {
      return None;
    }
    var lines := contents.value;
    var records := MeasureCounts(file, lines, url, maxTokens, TestPoints(|lines|, lineCounts), server);
    return Some(records);
  }

  /** What each record of a run says: the clamped count (never above the
      file length, and the requested count whenever that fits), the run's
      file length and max_tokens, and a timing block exactly when the
      run's `k`-th server call, made with that prompt, returned. */
  lemma RecordFields(file: string, lines: seq<string>, url: string, maxTokens: int,
                     server: Server, counts: seq<int>, results: seq<Record>, k: int)
    requires OneRecordPerCount(file, lines, url, maxTokens, server, counts, results)
    requires 0 <= k < |results|
    ensures results[k].file == file
    ensures results[k].linesUsed <= |lines|
    ensures counts[k] <= |lines| ==> results[k].linesUsed == counts[k]
    ensures counts[k] > |lines| ==> results[k].linesUsed == |lines|
    ensures results[k].totalLines == |lines| && results[k].maxTokens == maxTokens
    ensures var reply := server(k, PromptText(lines, results[k].linesUsed), url, maxTokens);
            && (results[k].outcome.Timed? <==> reply.Replied?)
            && (reply.Replied? ==> results[k].outcome.timings == reply.timings.GetOr(map[]))
            && (reply.Raised? ==> results[k].outcome.error == reply.message)
  {
  }

  /** With the default counts and a non-empty file, the records' line counts
      climb strictly from at least 1 up to exactly the file length. */
  lemma DefaultRunCoversFile(file: string, lines: seq<string>, url: string, maxTokens: int,
                             server: Server, results: seq<Record>)
    requires |lines| >= 1
    requires OneRecordPerCount(file, lines, url, maxTokens, server, LineCounts.DefaultLineCounts(|lines|), results)
    ensures |results| >= 1
    ensures forall k :: 0 <= k < |results| ==> 1 <= results[k].linesUsed <= |lines|
    ensures forall j, k :: 0 <= j < k < |results| ==> results[j].linesUsed < results[k].linesUsed
    ensures results[|results| - 1].linesUsed == |lines|
  {
    var counts := LineCounts.DefaultLineCounts(|lines|);
    LineCounts.DefaultLineCountsLast(|lines|);
    forall k | 0 <= k < |results|
      ensures results[k].linesUsed == counts[k]
      ensures 1 <= counts[k] <= |lines|
    {
      assert counts[k] in counts;
    }
  }

  /** An empty file is not rejected: the default run sends one request with
      empty content and records zero lines used. */
  lemma EmptyFileRun(file: string, url: string, maxTokens: int, server: Server, results: seq<Record>)
    requires OneRecordPerCount(file, [], url, maxTokens, server, LineCounts.DefaultLineCounts(0), results)
    ensures |results| == 1
    ensures results[0].linesUsed == 0 && results[0].totalLines == 0
    ensures results[0].outcome == OutcomeOf(server(0, "", url, maxTokens))
  {
    LineCounts.DefaultLineCountsEmptyFile();
    assert RecordFor(file, [], url, maxTokens, server, 0, 1).linesUsed == 0;
  }
}
