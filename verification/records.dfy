/**
 The result record shared by the sampler (which writes a list of them)
 and the plotter (which reads that list back).
 */
module Records {

  /** The server's timing block: metric name to number. Numbers are exact
      reals here; the server's floating-point values are not modelled. */
  type Timings = map<string, real>

  const PromptMsKey := "prompt_ms"
  const PredictedMsKey := "predicted_ms"
  const PromptNKey := "prompt_n"
  const PromptPerSecondKey := "prompt_per_second"
  const PredictedPerSecondKey := "predicted_per_second"

  /** What one request produced: the `timings` field of a successful record
      (possibly the empty block) or the `error` field of a failed one. A
      record never carries both. */
  datatype Outcome = Timed(timings: Timings) | Failed(error: string)

  /** One entry of the sampler's result list. */
  datatype Record = Record(
    file: string,
    linesUsed: int,
    totalLines: nat,
    maxTokens: int,
    outcome: Outcome)
}
