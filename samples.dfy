/** `SimpleProcessor`, the smallest sample plugin, and what the engine records
    for the sample processors' outputs. `new Date().toString()` is given as
    the text `now`; the three-second sleep is the run's elapsed time. */
module Simple {
  import opened Common
  import opened Plugin
  import opened Records
  import opened Loader
  import opened Engine
  import opened Execution
  import Expense

  const SIMPLE_ESTIMATE_MS := 10000
  const SIMPLE_NOTE := "Job processed successfully by SimpleProcessor."

  /** `reviewJob`: ten seconds, whatever the input. */
  function SimpleReview(input: InputData): Result<int, Option<string>> {
    Ok(10000)
  }

  /** `processJob`: SUCCESS for the same input id, with the fixed note and the
      one parameter `processedAt`. */
  function SimpleProcess(input: InputData, now: string): (out: OutputData)
    ensures out.status == Some(SUCCESS) && out.inputDataId == input.inputDataId
    ensures out.mainErrorCode.None? && out.mainErrorReason.None? && out.outputFiles.None?
    ensures out.outputNote == Some(SIMPLE_NOTE)
    ensures out.outputParameters == Some(map["processedAt" := now])
  {
    BlankOutput.(inputDataId := input.inputDataId, status := Some("SUCCESS"),
                 outputNote := Some("Job processed successfully by SimpleProcessor."),
                 outputParameters := Some(map["processedAt" := now]))
  }

  /** The loaded instance, its clock reading `now`. */
  function SimpleProcessor(now: string): Processor {
    Processor(SimpleReview, input => SimpleProcess(input, now))
  }

  /** Loaded and run by the engine, a simple job that returns within 150% of
      its estimate (15 s; its own sleep is 3 s) ends SUCCESS with no error
      row; one that takes longer is cut off as TIMED_OUT. */
  lemma {:induction false} SimpleJobOutcome(job: JobRecord, input: InputData, now: string, elapsed: nat, end: Time)
    ensures var out := ExecuteOutcome(Ok(SimpleProcessor(now)), input, Finished(elapsed));
      var r := CompletedRecord(job, out, end);
      (elapsed <= 15000 ==> r.status == SUCCESS && r.mainErrorCode.None? && ErrorRows(job.id, out) == [])
      && (elapsed > 15000 ==> r.status == TIMED_OUT && ErrorRows(job.id, out) == [JobError(job.id, Some(TIMED_OUT), out.mainErrorReason)])
  {
    assert TimeoutMillis(SIMPLE_ESTIMATE_MS) == 15000;
  }

  /** An expense run that stops early is recorded FAILED with its own code
      as the job's error code and one error row carrying the reason. */
  lemma ExpenseStopRecorded(job: JobRecord, id: Option<int>, code: string, reason: string, end: Time)
    requires code in {Expense.NO_INPUT, Expense.EMPTY_DATA, Expense.PROCESSING_ERROR}
    ensures var out := Expense.Failure(id, code, reason);
      var r := CompletedRecord(job, out, end);
      r.status == FAILED && r.mainErrorCode == Some(code) && r.errorReason == Some(reason)
      && ErrorRows(job.id, out) == [JobError(job.id, Some(code), Some(reason))]
  {
    assert |code| > 0;
  }
}
