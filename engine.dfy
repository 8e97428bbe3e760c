/** `JobEngine` of the application: a resizable worker pool, a registry of the
    futures of running jobs (for monitoring and cancellation), and the
    execution of one job on a worker: load the processor, ask it for an
    estimate, run it with a deadline of 150% of that estimate, and turn each
    kind of failure into an error result. Threads and clocks are replaced by an
    explicit `RunEvent` saying how the deadline-bounded wait ended. */
module Engine {
  import opened Common
  import opened Plugin
  import opened Records
  import opened Loader

  const DEFAULT_POOL_SIZE := 5
  const MIN_POOL_SIZE := 1
  const MAX_POOL_SIZE := 50
  const POOL_SIZE_PARAM := "numberOfThreads"

  /** `loadThreadPoolSize`: the stored `numberOfThreads` clamped to [1, 50], or
      5 when the parameter is absent or its value is not an `int`. */
  function InitialPoolSize(param: Option<AppParam>): (n: int)
    ensures MIN_POOL_SIZE <= n <= MAX_POOL_SIZE
    ensures param.None? ==> n == DEFAULT_POOL_SIZE
    ensures param.Some? && ParseInt(param.value.value).None? ==> n == DEFAULT_POOL_SIZE
    ensures param.Some? && ParseInt(param.value.value).Some? ==>
      n == Clamp(ParseInt(param.value.value).value, MIN_POOL_SIZE, MAX_POOL_SIZE)
  {
    if param.None? then DEFAULT_POOL_SIZE
    else
      match ParseInt(param.value.value)
      case None => DEFAULT_POOL_SIZE
      case Some(size) => Max(1, Min(size, 50))
  }

  /** `(long) (estimate * 1.5)`: half again the estimate, truncated toward zero. */
  function TimeoutMillis(estimate: int): (t: int)
    ensures estimate >= 0 ==> 2 * t <= 3 * estimate < 2 * t + 2
    ensures estimate < 0 ==> 2 * t - 2 < 3 * estimate <= 2 * t
  {
    if estimate >= 0 then 3 * estimate / 2 else -(3 * -estimate / 2)
  }

  /** A non-negative estimate never shortens the deadline. */
  lemma TimeoutCoversEstimate(estimate: int)
    requires estimate >= 0
    ensures estimate <= TimeoutMillis(estimate) <= 2 * estimate
  {
  }

  /** How the deadline-bounded wait for `processJob` ended. */
  datatype RunEvent =
    | Finished(elapsedMillis: nat)     // processJob returned after this many milliseconds
    | Raised(message: Option<string>)  // the wait threw: the message of the ExecutionException
                                       // ("<exception class>: <message>" of what processJob threw)
                                       // or of the InterruptedException
    | WaitCancelled                    // the wait ended with a CancellationException

  /** `createErrorResult(status, reason)`: status and error code are the same word. */
  function ErrorResult(status: string, reason: string): (out: OutputData) {
    BlankOutput.(status := Some(status), mainErrorCode := Some(status), mainErrorReason := Some(reason))
  }

  /** The result of `execute`, given what loading yields and how the run ends. */
  function ExecuteOutcome(loaded: Result<Processor, LoadError>, input: InputData, run: RunEvent): OutputData {
    match loaded
    case Err(e) => ErrorResult(FAILED, "Internal Engine Error: " + Message(e))
    case Ok(p) =>
      match p.reviewJob(input)
      case Err(m) => ErrorResult(FAILED, "Internal Engine Error: " + Text(m))
      case Ok(estimate) =>
        match run
        case Finished(elapsed) =>
          if elapsed <= TimeoutMillis(estimate) then p.processJob(input)
          else ErrorResult(TIMED_OUT, "Execution exceeded allowed time: " + Text(input.processorClassName))
        case WaitCancelled => ErrorResult(CANCELLED, "Job was cancelled by user")
        case Raised(m) => ErrorResult(FAILED, "Internal Engine Error: " + Text(m))
  }

  /** Every result of `execute` is the processor's own output (it finished within
      150% of its estimate) or an error result whose error code is its status,
      one of TIMED_OUT, CANCELLED and FAILED. */
  lemma OutcomeIsOutputOrError(loaded: Result<Processor, LoadError>, input: InputData, run: RunEvent)
    ensures var out := ExecuteOutcome(loaded, input, run);
      (loaded.Ok? && loaded.value.reviewJob(input).Ok? && run.Finished?
        && run.elapsedMillis <= TimeoutMillis(loaded.value.reviewJob(input).value)
        && out == loaded.value.processJob(input))
      || (out.status.Some? && out.mainErrorCode == out.status
          && out.status.value in {TIMED_OUT, CANCELLED, FAILED} && out.mainErrorReason.Some?)
  {
  }

  /** A load failure is FAILED with the loader's message, whatever the run would have been. */
  lemma LoadFailureIsFailed(e: LoadError, input: InputData, run: RunEvent)
    ensures ExecuteOutcome(Err(e), input, run) == ErrorResult(FAILED, "Internal Engine Error: " + Message(e))
  {
  }

  /** The deadline: a run ending at or before floor(1.5 * estimate) keeps the
      processor's output, a later one is TIMED_OUT. */
  lemma DeadlineBoundary(p: Processor, input: InputData, elapsed: nat)
    requires p.reviewJob(input).Ok? && p.reviewJob(input).value >= 0
    ensures var e := p.reviewJob(input).value;
      var out := ExecuteOutcome(Ok(p), input, Finished(elapsed));
      (2 * elapsed <= 3 * e ==> out == p.processJob(input))
      && (2 * elapsed > 3 * e + 1 ==> out.status == Some(TIMED_OUT))
  {
  }

  /** `calculateTimeout`: the report for a loaded processor, or the fixed failure text. */
  function TimeoutReport(loaded: Result<Processor, LoadError>, input: InputData): string {
    if loaded.Err? then "Timeout calculation failed"
    else
      match loaded.value.reviewJob(input)
      case Err(_) => "Timeout calculation failed"
      case Ok(e) => "Estimate: " + IntToString(e) + "ms, Timeout: " + IntToString(TimeoutMillis(e)) + "ms (150%)"
  }

  /** The report names the estimate and a timeout that parse back to the numbers
      `execute` uses. */
  lemma TimeoutReportReadsBack(p: Processor, input: InputData)
    requires p.reviewJob(input).Ok?
    ensures var e := p.reviewJob(input).value;
      var prefix := "Estimate: " + IntToString(e) + "ms, Timeout: ";
      TimeoutReport(Ok(p), input) == prefix + IntToString(TimeoutMillis(e)) + "ms (150%)"
      && (LONG_MIN <= e <= LONG_MAX ==> ParseLong(Some(IntToString(e))) == Some(e))
  {
    var e := p.reviewJob(input).value;
    if LONG_MIN <= e <= LONG_MAX {
      ParseIntegerOfToString(e, LONG_MIN, LONG_MAX);
    }
  }

  /** A tracked future: `ticket` tells submissions apart, `done` is `isDone()`. */
  datatype Handle = Handle(ticket: nat, done: bool)

  /** `cancelJob(jobId)` on the registry: a tracked, unfinished future is
      cancelled and dropped; anything else is refused and changes nothing. */
  function CancelSpec(registry: map<int, Handle>, jobId: int): (bool, map<int, Handle>) {
    if jobId in registry && !registry[jobId].done then (true, registry - {jobId})
    else (false, registry)
  }

  /** After a cancel the job is no longer live: a second cancel is refused and
      leaves the registry as the first one left it. */
  lemma CancelTwiceRefused(registry: map<int, Handle>, jobId: int)
    ensures var (first, after) := CancelSpec(registry, jobId);
      CancelSpec(after, jobId) == (false, after)
      && (first <==> jobId in registry && !registry[jobId].done)
      && (forall id :: id != jobId ==> (id in after <==> id in registry))
  {
  }

  class JobEngine {
    /** The executor's core (= maximum) pool size. */
    var poolSize: int
    /** `activeJobs`: job id to the future running it. */
    var activeJobs: map<int, Handle>
    /** Futures submitted so far; the ticket of the next one. */
    var submitted: nat
    const loader: ProcessorLoader

    ghost predicate Valid()
      reads this, loader
    {
      MIN_POOL_SIZE <= poolSize <= MAX_POOL_SIZE
      && loader.Valid()
      && forall id :: id in activeJobs ==> activeJobs[id].ticket < submitted
    }

    /** `startup`: the pool starts at `loadThreadPoolSize()`, nothing tracked. */
    constructor(numberOfThreads: Option<AppParam>, loader: ProcessorLoader)
      requires loader.Valid()
      ensures Valid()
      ensures poolSize == InitialPoolSize(numberOfThreads) && activeJobs == map[] && submitted == 0
      ensures this.loader == loader
    {
      poolSize := InitialPoolSize(numberOfThreads);
      activeJobs := map[];
      submitted := 0;
      this.loader := loader;
    }

    /** `resizePool(newSize)` as written: `setCorePoolSize(n)` and then
        `setMaximumPoolSize(n)` for `n` = newSize clamped to [1, 50]. The
        executor is a fixed pool (core = maximum), and from Java 9 on
        `setCorePoolSize` throws `IllegalArgumentException` for a core above
        the maximum: a growing resize throws and leaves the pool as it was;
        shrinking, or the same size, takes effect. */
    method ResizePool(newSize: int) returns (ok: bool)
      requires Valid()
      modifies this
      ensures Valid()
      ensures ok <==> Clamp(newSize, MIN_POOL_SIZE, MAX_POOL_SIZE) <= old(poolSize)
      ensures ok ==> poolSize == Clamp(newSize, MIN_POOL_SIZE, MAX_POOL_SIZE)
      ensures !ok ==> poolSize == old(poolSize)
      ensures activeJobs == old(activeJobs) && submitted == old(submitted)
    {
      var n := Max(1, Min(newSize, 50));
      if n > poolSize {
        // setCorePoolSize(n): the maximum is still the old size
        return false;
      }
      poolSize := n;
      ok := true;
    }

    /** `resizePool(newSize)` as evidently intended: the maximum is set
        before the core when growing, so every clamped size takes effect. */
    method ResizePoolCorrected(newSize: int)
      requires Valid()
      modifies this
      ensures Valid()
      ensures poolSize == Clamp(newSize, MIN_POOL_SIZE, MAX_POOL_SIZE)
      ensures activeJobs == old(activeJobs) && submitted == old(submitted)
    {
      poolSize := Max(1, Min(newSize, 50));
    }

    method GetPoolSize() returns (n: int)
      requires Valid()
      ensures n == poolSize && MIN_POOL_SIZE <= n <= MAX_POOL_SIZE
    {
      n := poolSize;
    }

    /** `getActiveJobIds()`: the ids of tracked futures. */
    function ActiveJobIds(): set<int>
      reads this
    {
      activeJobs.Keys
    }

    /** `executeAsync`: submit a new future; track it under the job id when there is one. */
    method ExecuteAsync(jobId: Option<int>) returns (ticket: nat)
      requires Valid()
      modifies this
      ensures Valid()
      ensures ticket == old(submitted) && submitted == old(submitted) + 1
      ensures jobId.Some? ==> activeJobs == old(activeJobs)[jobId.value := Handle(ticket, false)]
      ensures jobId.None? ==> activeJobs == old(activeJobs)
      ensures poolSize == old(poolSize)
    {
      ticket := submitted;
      submitted := submitted + 1;
      if jobId.Some? {
        activeJobs := activeJobs[jobId.value := Handle(ticket, false)];
      }
    }

    /** The future with this ticket completes (`isDone()` becomes true). */
    method MarkDone(jobId: int, ticket: nat)
      requires Valid()
      modifies this
      ensures Valid()
      ensures jobId in old(activeJobs) && old(activeJobs[jobId].ticket) == ticket ==>
        activeJobs == old(activeJobs)[jobId := Handle(ticket, true)]
      ensures !(jobId in old(activeJobs) && old(activeJobs[jobId].ticket) == ticket) ==>
        activeJobs == old(activeJobs)
      ensures poolSize == old(poolSize) && submitted == old(submitted)
    {
      if jobId in activeJobs && activeJobs[jobId].ticket == ticket {
        activeJobs := activeJobs[jobId := Handle(ticket, true)];
      }
    }

    /** The `whenComplete` stage: `activeJobs.remove(jobId)`. */
    method Deregister(jobId: int)
      requires Valid()
      modifies this
      ensures Valid()
      ensures activeJobs == old(activeJobs) - {jobId}
      ensures poolSize == old(poolSize) && submitted == old(submitted)
    {
      activeJobs := activeJobs - {jobId};
    }

    /** `cancelJob(jobId)`. `cancel(true)` on an unfinished future succeeds. */
    method CancelJob(jobId: int) returns (cancelled: bool)
      requires Valid()
      modifies this
      ensures Valid()
      ensures (cancelled, activeJobs) == CancelSpec(old(activeJobs), jobId)
      ensures poolSize == old(poolSize) && submitted == old(submitted)
    {
      if jobId in activeJobs && !activeJobs[jobId].done {
        activeJobs := activeJobs - {jobId};
        return true;
      }
      return false;
    }

    /** `execute(inputData, jarPath, checksum)` on a worker thread. */
    method Execute(input: InputData, jarPath: string, checksum: Option<string>, env: Env, run: RunEvent)
      returns (out: OutputData)
      requires Valid()
      modifies loader
      ensures Valid()
      ensures var step := LoadSpec(old(loader.cache), old(loader.created), env, jarPath, input.processorClassName, checksum);
        out == ExecuteOutcome(step.result, input, run)
        && loader.cache == step.cache && loader.created == step.created
    {
      var loaded := loader.Load(jarPath, input.processorClassName, checksum, env);
      out := ExecuteOutcome(loaded, input, run);
    }

    /** `calculateTimeout(inputData, jarPath, checksum)`: never throws. */
    method CalculateTimeout(input: InputData, jarPath: string, checksum: Option<string>, env: Env)
      returns (report: string)
      requires Valid()
      modifies loader
      ensures Valid()
      ensures var step := LoadSpec(old(loader.cache), old(loader.created), env, jarPath, input.processorClassName, checksum);
        report == TimeoutReport(step.result, input)
        && loader.cache == step.cache && loader.created == step.created
    {
      var loaded := loader.Load(jarPath, input.processorClassName, checksum, env);
      report := TimeoutReport(loaded, input);
    }
  }
}
