/** The plugin boundary: what a job processor is given (InputData), what it
    returns (OutputData), and a loaded processor instance with its two
    operations, `reviewJob` (an estimate in milliseconds) and `processJob`. */
module Plugin {
  import opened Common

  /** The processor's input. `parameters` maps names to their `toString()` text. */
  datatype InputData = InputData(
    inputDataId: Option<int>,
    jobName: Option<string>,
    processorClassName: Option<string>,
    comment: Option<string>,
    notes: Option<string>,
    parameters: Option<map<string, string>>,
    inputFiles: Option<seq<string>>)

  /** The processor's output; `status` null means "no explicit status". */
  datatype OutputData = OutputData(
    inputDataId: Option<int>,
    outputNote: Option<string>,
    outputParameters: Option<map<string, string>>,
    outputFiles: Option<seq<string>>,
    status: Option<string>,
    mainErrorCode: Option<string>,
    mainErrorReason: Option<string>)

  /** `new OutputData()`: every field null. */
  const BlankOutput := OutputData(None, None, None, None, None, None, None)

  /** A loaded processor instance. `reviewJob` returns its estimate
      (`JobEstimate.maxTimeToProcessMillis`) or the message of the exception it
      throws; `processJob` is the output it returns when it runs to completion. */
  datatype Processor = Processor(
    reviewJob: InputData -> Result<int, Option<string>>,
    processJob: InputData -> OutputData)

  /** The text Java prints for a possibly-null string. */
  function Text(s: Option<string>): string {
    if s.Some? then s.value else "null"
  }
}
