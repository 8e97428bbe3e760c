/** The engines of the earlier code base. `JobEngine` runs a job as the
    application's engine does, but with a fixed pool of 5, no registry of
    running jobs, no CANCELLED outcome and no error code. `JobEngineService`
    loads the processor and asks for its estimate on the caller's thread, so
    those failures reach the caller, and only the run itself is submitted. */
module LegacyEngine {
  import opened Common
  import opened Plugin
  import opened Records
  import Loader
  import Engine
  import opened LegacyLoader

  const POOL_SIZE := 5

  /** `createErrorResult(status, reason)`: status and reason only, no error code. */
  function ErrorResult(status: string, reason: string): OutputData {
    BlankOutput.(status := Some(status), mainErrorReason := Some(reason))
  }

  /** `execute(inputData, jarPath)`: a cancelled wait is just another exception. */
  function ExecuteOutcome(loaded: Result<Processor, string>, input: InputData, run: Engine.RunEvent): OutputData {
    match loaded
    case Err(m) => ErrorResult(FAILED, "Internal Engine Error: " + m)
    case Ok(p) =>
      match p.reviewJob(input)
      case Err(m) => ErrorResult(FAILED, "Internal Engine Error: " + Text(m))
      case Ok(estimate) =>
        match run
        case Finished(elapsed) =>
          if elapsed <= Engine.TimeoutMillis(estimate) then p.processJob(input)
          else ErrorResult(TIMED_OUT, "Execution exceeded allowed time: " + Text(input.processorClassName))
        case WaitCancelled => ErrorResult(FAILED, "Internal Engine Error: null")
        case Raised(m) => ErrorResult(FAILED, "Internal Engine Error: " + Text(m))
  }

  /** Every result is the processor's output or a TIMED_OUT / FAILED result without error code. */
  lemma OutcomeHasNoErrorCode(loaded: Result<Processor, string>, input: InputData, run: Engine.RunEvent)
    ensures var out := ExecuteOutcome(loaded, input, run);
      (loaded.Ok? && out == loaded.value.processJob(input))
      || (out.mainErrorCode.None? && out.status.Some? && out.status.value in {TIMED_OUT, FAILED})
  {
  }

  /** The earlier engine reaches the application's status in every case but a
      cancelled wait, which it reports as FAILED rather than CANCELLED; it never
      sets the error code the application sets. */
  lemma AgreesWithCurrentEngine(p: Processor, input: InputData, run: Engine.RunEvent)
    ensures var cur := Engine.ExecuteOutcome(Ok(p), input, run);
      var old_ := ExecuteOutcome(Ok(p), input, run);
      (run.WaitCancelled? && p.reviewJob(input).Ok? ==> cur.status == Some(CANCELLED) && old_.status == Some(FAILED))
      && (!(run.WaitCancelled? && p.reviewJob(input).Ok?) ==>
            cur.status == old_.status && cur.mainErrorReason == old_.mainErrorReason
            && (cur != p.processJob(input) ==> old_ == cur.(mainErrorCode := None)))
  {
  }

  class JobEngine {
    const poolSize: int
    /** Futures submitted so far; nothing tracks them afterwards. */
    var submitted: nat
    const loader: LegacyLoader.ProcessorLoader

    ghost predicate Valid()
      reads this, loader
    {
      poolSize == POOL_SIZE && loader.Valid()
    }

    /** `startup`: the pool size is fixed at 5. */
    constructor(loader: LegacyLoader.ProcessorLoader)
      requires loader.Valid()
      ensures Valid() && submitted == 0 && this.loader == loader
    {
      poolSize := POOL_SIZE;
      submitted := 0;
      this.loader := loader;
    }

    /** `executeAsync`: submit the work; no registry is kept. */
    method ExecuteAsync() returns (ticket: nat)
      requires Valid()
      modifies this
      ensures Valid()
      ensures ticket == old(submitted) && submitted == old(submitted) + 1
    {
      ticket := submitted;
      submitted := submitted + 1;
    }

    method Execute(input: InputData, jarPath: string, env: Loader.Env, run: Engine.RunEvent)
      returns (out: OutputData)
      requires Valid()
      modifies loader
      ensures Valid()
      ensures var step := LoadSpec(old(loader.cache), old(loader.created), env, jarPath, input.processorClassName);
        out == ExecuteOutcome(step.result, input, run)
        && loader.cache == step.cache && loader.created == step.created
    {
      var loaded := loader.Load(jarPath, input.processorClassName, env);
      out := ExecuteOutcome(loaded, input, run);
    }
  }

  /** What `submitJob` hands to the pool: the loaded processor and its timeout. */
  datatype Submission = Submission(processor: Processor, timeoutMillis: int)

  /** Why `submitJob` throws before submitting anything. */
  datatype SubmitError = LoadError(error: DynamicError) | EstimateError(message: Option<string>)

  /** The part of `submitJob` that runs on the caller: load, `acceptJob`, timeout. */
  function SubmitSpec(loaded: Result<Processor, DynamicError>, input: InputData): Result<Submission, SubmitError> {
    match loaded
    case Err(e) => Err(LoadError(e))
    case Ok(p) =>
      match p.reviewJob(input)
      case Err(m) => Err(EstimateError(m))
      case Ok(e) => Ok(Submission(p, Engine.TimeoutMillis(e)))
  }

  /** The submitted task: the processor's output within the timeout, otherwise
      TIMED_OUT naming the timeout, or FAILED carrying the exception's message. */
  function RunSubmitted(s: Submission, input: InputData, run: Engine.RunEvent): OutputData {
    match run
    case Finished(elapsed) =>
      if elapsed <= s.timeoutMillis then s.processor.processJob(input)
      else BlankOutput.(status := Some(TIMED_OUT),
                        mainErrorReason := Some("Execution exceeded 150% of estimate: " + IntToString(s.timeoutMillis) + "ms"))
    case WaitCancelled => BlankOutput.(status := Some(FAILED), mainErrorReason := None)
    case Raised(m) => BlankOutput.(status := Some(FAILED), mainErrorReason := m)
  }

  /** The service and the earlier engine give a processor the same deadline and
      keep its output under the same condition. */
  lemma SameDeadlineAsEngine(p: Processor, input: InputData, elapsed: nat)
    requires p.reviewJob(input).Ok?
    ensures var s := SubmitSpec(Ok(p), input);
      var a := RunSubmitted(s.value, input, Engine.Finished(elapsed));
      var b := ExecuteOutcome(Ok(p), input, Engine.Finished(elapsed));
      s.Ok? && s.value.timeoutMillis == Engine.TimeoutMillis(p.reviewJob(input).value)
      && (elapsed <= s.value.timeoutMillis ==> a == p.processJob(input) && b == p.processJob(input))
      && (elapsed > s.value.timeoutMillis ==> a.status == Some(TIMED_OUT) && b.status == Some(TIMED_OUT))
  {
  }

  class JobEngineService {
    /** The pool size stays at its initial 5: resizing is not implemented. */
    var poolSize: int
    var submitted: nat
    const classLoaderService: DynamicClassLoaderService

    ghost predicate Valid()
      reads this, classLoaderService
    {
      poolSize == POOL_SIZE && classLoaderService.Valid()
    }

    constructor(service: DynamicClassLoaderService)
      requires service.Valid()
      ensures Valid() && submitted == 0 && classLoaderService == service
    {
      poolSize := POOL_SIZE;
      submitted := 0;
      classLoaderService := service;
    }

    /** `submitJob(inputData, jarPath)`: a load or estimate failure is thrown to
        the caller and nothing is submitted. */
    method SubmitJob(input: InputData, jarPath: string, env: Loader.Env)
      returns (r: Result<Submission, SubmitError>, ticket: nat)
      requires Valid()
      modifies this, classLoaderService
      ensures Valid()
      ensures var step := DynamicLoadSpec(old(classLoaderService.cache), old(classLoaderService.created),
                                          env, jarPath, input.processorClassName);
        r == SubmitSpec(step.result, input)
        && classLoaderService.cache == step.cache && classLoaderService.created == step.created
      ensures r.Ok? ==> ticket == old(submitted) && submitted == old(submitted) + 1
      ensures r.Err? ==> submitted == old(submitted)
    {
      var loaded := classLoaderService.LoadProcessor(jarPath, input.processorClassName, env);
      r := SubmitSpec(loaded, input);
      ticket := submitted;
      if r.Ok? {
        submitted := submitted + 1;
      }
    }

    /** `updateThreadPoolSize(newSize)`: only logs the request. */
    method UpdateThreadPoolSize(newSize: int)
      requires Valid()
      modifies this
      ensures Valid()
      ensures poolSize == old(poolSize) == POOL_SIZE && submitted == old(submitted)
    {
    }
  }
}
