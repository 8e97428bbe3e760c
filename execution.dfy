/** `JobExecutionService`: the coordinator the trigger calls when a job's time
    arrives. It admits only SCHEDULED jobs, resolves the processor jar, marks
    the job RUNNING, hands it to the engine, and, when the engine's future
    completes, writes the terminal state and the error rows. The two
    completion stages chained on the future (`thenAccept`, `exceptionally`)
    become the explicit events `Complete`, `Crash` and `CancelExecution`; the
    job record each stage captured is kept in `pending`. */
module Execution {
  import opened Common
  import opened Plugin
  import opened Records
  import opened Loader
  import opened Engine

  const PROCESSOR_DIR := "./processors/"
  const JAR_SUFFIX := ".jar"

  /** `s.substring(s.lastIndexOf('.') + 1)`: what follows the last '.', or all of `s`. */
  function AfterLastDot(s: string): (r: string)
    ensures '.' !in r
    ensures EndsWith(s, r)
    ensures r == s || s[|s| - |r| - 1] == '.'
    decreases |s|
  {
    if |s| == 0 then []
    else if s[|s| - 1] == '.' then []
    else
      var init := s[..|s| - 1];
      var r0 := AfterLastDot(init);
      assert s[|s| - |r0| - 1..] == init[|init| - |r0|..] + [s[|s| - 1]];
      r0 + [s[|s| - 1]]
  }

  /** Where the processor for a job comes from. */
  datatype JarChoice = JarChoice(jarPath: string, checksum: Option<string>)

  /** Lines 60-71 of `runJob`: the registered definition's jar and checksum,
      else `./processors/<last segment>.jar` without checksum. `None` is the
      `NullPointerException` of a job without class name and definition. */
  function ResolveJar(processors: map<string, ProcessorDefinition>, className: Option<string>): Option<JarChoice> {
    if className.Some? && className.value in processors then
      Some(JarChoice(processors[className.value].jarPath, processors[className.value].checksum))
    else if className.None? then None
    else Some(JarChoice(PROCESSOR_DIR + AfterLastDot(className.value) + JAR_SUFFIX, None))
  }

  /** An unregistered class is looked for in `./processors/`, in a jar named
      after its simple name, and without a checksum. */
  lemma DefaultJarPath(processors: map<string, ProcessorDefinition>, className: string)
    requires className !in processors
    ensures var j := ResolveJar(processors, Some(className));
      j.Some? && j.value.checksum.None?
      && var name := j.value.jarPath[|PROCESSOR_DIR|..|j.value.jarPath| - |JAR_SUFFIX|];
      StartsWith(j.value.jarPath, PROCESSOR_DIR) && EndsWith(j.value.jarPath, JAR_SUFFIX)
      && '.' !in name && EndsWith(className, name)
      && (name == className || className[|className| - |name| - 1] == '.')
  {
    var name := AfterLastDot(className);
    var path := PROCESSOR_DIR + name + JAR_SUFFIX;
    assert path[|PROCESSOR_DIR|..|path| - |JAR_SUFFIX|] == name;
  }

  /** The processor's input built from the record and its file rows (lines 79-94). */
  function BuildInput(job: JobRecord, rows: seq<InputDataFile>): (input: InputData) {
    var files := FilesOf(rows, job.id);
    InputData(Some(job.id), job.jobName, job.processorClassName, job.comment, job.notes, None,
              if |files| > 0 then Some(seq(|files|, k requires 0 <= k < |files| => files[k].filePath)) else None)
  }

  /** The input carries the job's own fields, and its file list is present
      exactly when the job has file rows, listing their paths in row order. */
  lemma BuildInputFields(job: JobRecord, rows: seq<InputDataFile>)
    ensures var input := BuildInput(job, rows);
      var files := FilesOf(rows, job.id);
      input.inputDataId == Some(job.id) && input.jobName == job.jobName
      && input.processorClassName == job.processorClassName && input.comment == job.comment
      && input.notes == job.notes && input.parameters.None?
      && (input.inputFiles.Some? <==> |files| > 0)
      && (input.inputFiles.Some? ==>
            |input.inputFiles.value| == |files|
            && forall k :: 0 <= k < |files| ==> input.inputFiles.value[k] == files[k].filePath)
  {
  }

  /** Lines 74-75: RUNNING, started now. */
  function StartedRecord(job: JobRecord, now: Time): JobRecord {
    job.(status := RUNNING, startTime := Some(now))
  }

  /** The `thenAccept` stage: the output's status (SUCCESS when it has none),
      its error code and reason, ended now. */
  function CompletedRecord(job: JobRecord, out: OutputData, now: Time): JobRecord {
    job.(endTime := Some(now), status := if out.status.Some? then out.status.value else SUCCESS,
         mainErrorCode := out.mainErrorCode, errorReason := out.mainErrorReason)
  }

  /** The error rows `thenAccept` appends: one exactly when the code is non-empty. */
  function ErrorRows(jobId: int, out: OutputData): seq<JobError> {
    if out.mainErrorCode.Some? && |out.mainErrorCode.value| > 0 then
      [JobError(jobId, out.mainErrorCode, out.mainErrorReason)]
    else []
  }

  /** The `exceptionally` stage: FAILED with code ENGINE_ERROR, ended now. */
  function FailedRecord(job: JobRecord, message: Option<string>, now: Time): JobRecord {
    job.(endTime := Some(now), status := FAILED, mainErrorCode := Some(ENGINE_ERROR), errorReason := message)
  }

  /** What `runJob` does with a job id, read off the store. */
  datatype Decision = Skip | Throw | Start(job: JobRecord, jar: JarChoice)

  function Decide(jobs: map<int, JobRecord>, processors: map<string, ProcessorDefinition>, jobId: int): Decision {
    if jobId !in jobs || jobs[jobId].status != SCHEDULED then Skip
    else
      match ResolveJar(processors, jobs[jobId].processorClassName)
      case None => Throw
      case Some(jar) => Start(jobs[jobId], jar)
  }

  /** Only SCHEDULED jobs start: once a job has been started, running it again does nothing. */
  lemma StartedJobIsNotRestarted(jobs: map<int, JobRecord>, processors: map<string, ProcessorDefinition>, jobId: int, now: Time)
    requires Decide(jobs, processors, jobId).Start?
    ensures Decide(jobs[jobId := StartedRecord(jobs[jobId], now)], processors, jobId) == Skip
  {
  }

  /** A completed job ends with the processor's own status (SUCCESS if none) or
      with one of the engine's error statuses; every engine error leaves exactly
      one error row whose code is the job's final status. */
  lemma CompletionStatus(job: JobRecord, loaded: Result<Processor, LoadError>, input: InputData, run: RunEvent, now: Time)
    ensures var out := ExecuteOutcome(loaded, input, run);
      var r := CompletedRecord(job, out, now);
      var rows := ErrorRows(job.id, out);
      r.endTime == Some(now) && r.startTime == job.startTime
      && ((loaded.Ok? && out == loaded.value.processJob(input)
           && r.status == (if out.status.Some? then out.status.value else SUCCESS))
          || (r.status in {TIMED_OUT, CANCELLED, FAILED}
              && rows == [JobError(job.id, Some(r.status), out.mainErrorReason)]
              && r.mainErrorCode == Some(r.status)))
  {
    OutcomeIsOutputOrError(loaded, input, run);
  }

  /** The state a submitted job's completion stages hold on to. */
  datatype Pending = Pending(job: JobRecord, input: InputData, jar: JarChoice, ticket: nat)

  /** What a call of `runJob` amounts to. */
  datatype RunJobResult = Skipped | Threw(message: Option<string>) | Submitted(ticket: nat)

  /** The tables a job's execution does not touch are as they were. */
  twostate predicate CatalogUnchanged(db: Database)
    reads db
  {
    db.order == old(db.order) && db.nextJobId == old(db.nextJobId)
    && db.processors == old(db.processors) && db.nextProcessorId == old(db.nextProcessorId)
    && db.inputFiles == old(db.inputFiles) && db.inputParams == old(db.inputParams)
    && db.appParams == old(db.appParams)
  }

  class JobExecutionService {
    const db: Database
    const engine: JobEngine
    /** The jobs whose future has not completed yet, with what their stages captured. */
    var pending: map<int, Pending>

    /** A pending job's stored record is the one its stages captured, RUNNING. */
    ghost predicate Captured(id: int)
      reads this, db
    {
      id in pending && id in db.jobs && db.jobs[id] == pending[id].job && pending[id].job.status == RUNNING
    }

    ghost predicate Valid()
      reads this, db, engine, engine.loader
    {
      db.Valid() && engine.Valid()
      && pending.Keys == engine.activeJobs.Keys
      && forall id :: id in pending ==> Captured(id) && engine.activeJobs[id] == Handle(pending[id].ticket, false)
    }

    constructor(db: Database, engine: JobEngine)
      requires db.Valid() && engine.Valid() && engine.activeJobs == map[]
      ensures Valid() && this.db == db && this.engine == engine && pending == map[]
    {
      this.db := db;
      this.engine := engine;
      pending := map[];
    }

    /** `runJob(jobId)`, called by the trigger when the job's time arrives. */
    method RunJob(jobId: int, now: Time) returns (r: RunJobResult)
      requires Valid()
      modifies this, db, engine
      ensures Valid()
      ensures match Decide(old(db.jobs), old(db.processors), jobId)
        case Skip => r == Skipped && db.jobs == old(db.jobs) && pending == old(pending)
                     && engine.activeJobs == old(engine.activeJobs) && engine.submitted == old(engine.submitted)
        case Throw => r == Threw(None) && db.jobs == old(db.jobs) && pending == old(pending)
                      && engine.activeJobs == old(engine.activeJobs) && engine.submitted == old(engine.submitted)
        case Start(job, jar) =>
          var started := StartedRecord(job, now);
          r == Submitted(old(engine.submitted))
          && db.jobs == old(db.jobs)[jobId := started]
          && pending == old(pending)[jobId := Pending(started, BuildInput(job, old(db.inputFiles)), jar, old(engine.submitted))]
          && engine.activeJobs == old(engine.activeJobs)[jobId := Handle(old(engine.submitted), false)]
          && engine.submitted == old(engine.submitted) + 1
      ensures CatalogUnchanged(db) && db.jobErrors == old(db.jobErrors)
      ensures engine.poolSize == old(engine.poolSize)
    {
      if jobId !in db.jobs {
        return Skipped;
      }
      var job := db.jobs[jobId];
      if job.status != SCHEDULED {
        return Skipped;
      }
      var jar: JarChoice;
      if job.processorClassName.Some? && job.processorClassName.value in db.processors {
        var def := db.processors[job.processorClassName.value];
        jar := JarChoice(def.jarPath, def.checksum);
      } else if job.processorClassName.None? {
        return Threw(None);
      } else {
        jar := JarChoice(PROCESSOR_DIR + AfterLastDot(job.processorClassName.value) + JAR_SUFFIX, None);
      }
      var ticket := Launch(jobId, jar, now);
      r := Submitted(ticket);
    }

    /** A scheduled job that passed the checks of `runJob`: it is saved RUNNING
        with its start time and handed to the engine with its input. */
    method Launch(jobId: int, jar: JarChoice, now: Time) returns (ticket: int)
      requires Valid() && jobId in db.jobs && db.jobs[jobId].status == SCHEDULED
      modifies this, db, engine
      ensures Valid()
      ensures var started := StartedRecord(old(db.jobs[jobId]), now);
        ticket == old(engine.submitted)
        && db.jobs == old(db.jobs)[jobId := started]
        && pending == old(pending)[jobId := Pending(started, BuildInput(old(db.jobs[jobId]), old(db.inputFiles)), jar, ticket)]
        && engine.activeJobs == old(engine.activeJobs)[jobId := Handle(ticket, false)]
        && engine.submitted == old(engine.submitted) + 1
      ensures CatalogUnchanged(db) && db.jobErrors == old(db.jobErrors)
      ensures engine.poolSize == old(engine.poolSize)
    {
      var job := db.jobs[jobId];
      var input := BuildInput(job, db.inputFiles);
      job := StartedRecord(job, now);
      db.SaveJob(job);
      ticket := engine.ExecuteAsync(input.inputDataId);
      pending := pending[jobId := Pending(job, input, jar, ticket)];
    }

    /** The job's future completes normally: the worker runs `execute` (loading
        the processor in `env`, the run ending as `run`), then the stages run. */
    method Complete(jobId: int, env: Env, run: RunEvent, now: Time)
      requires Valid()
      modifies this, db, engine, engine.loader
      ensures Valid()
      ensures jobId !in old(pending) ==>
        db.jobs == old(db.jobs) && db.jobErrors == old(db.jobErrors) && pending == old(pending)
        && engine.activeJobs == old(engine.activeJobs)
        && engine.loader.cache == old(engine.loader.cache) && engine.loader.created == old(engine.loader.created)
      ensures jobId in old(pending) ==>
        var p := old(pending[jobId]);
        var step := LoadSpec(old(engine.loader.cache), old(engine.loader.created), env,
                             p.jar.jarPath, p.input.processorClassName, p.jar.checksum);
        var out := ExecuteOutcome(step.result, p.input, run);
        db.jobs == old(db.jobs)[jobId := CompletedRecord(p.job, out, now)]
        && db.jobErrors == old(db.jobErrors) + ErrorRows(jobId, out)
        && pending == old(pending) - {jobId}
        && engine.activeJobs == old(engine.activeJobs) - {jobId}
        && engine.loader.cache == step.cache && engine.loader.created == step.created
      ensures CatalogUnchanged(db)
      ensures engine.poolSize == old(engine.poolSize) && engine.submitted == old(engine.submitted)
    {
      if jobId !in pending {
        return;
      }
      var p := pending[jobId];
      var out := engine.Execute(p.input, p.jar.jarPath, p.jar.checksum, env, run);
      Settle(jobId, out, now);
    }

    /** `whenComplete` drops the registry entry and `thenAccept` writes the
        output. Both depend on the same future, in either order; the two
        effects touch different state, so the end state is the same. */
    method Settle(jobId: int, out: OutputData, now: Time)
      requires Valid() && jobId in pending
      modifies this, db, engine
      ensures Valid()
      ensures db.jobs == old(db.jobs)[jobId := CompletedRecord(old(pending[jobId]).job, out, now)]
      ensures db.jobErrors == old(db.jobErrors) + ErrorRows(jobId, out)
      ensures pending == old(pending) - {jobId}
      ensures engine.activeJobs == old(engine.activeJobs) - {jobId}
      ensures CatalogUnchanged(db)
      ensures engine.poolSize == old(engine.poolSize) && engine.submitted == old(engine.submitted)
    {
      engine.MarkDone(jobId, pending[jobId].ticket);
      engine.Deregister(jobId);
      StoreOutput(jobId, out, now);
    }

    /** The `thenAccept` stage of a job whose registry entry is already gone. */
    method StoreOutput(jobId: int, out: OutputData, now: Time)
      requires db.Valid() && engine.Valid()
      requires jobId in pending && jobId !in engine.activeJobs
      requires pending.Keys - {jobId} == engine.activeJobs.Keys
      requires forall id :: id in pending ==> Captured(id)
      requires forall id :: id in pending && id != jobId ==> engine.activeJobs[id] == Handle(pending[id].ticket, false)
      modifies this, db
      ensures Valid()
      ensures db.jobs == old(db.jobs)[jobId := CompletedRecord(old(pending[jobId]).job, out, now)]
      ensures db.jobErrors == old(db.jobErrors) + ErrorRows(jobId, out)
      ensures pending == old(pending) - {jobId}
      ensures CatalogUnchanged(db)
    {
      var p := pending[jobId];
      assert Captured(jobId);
      pending := pending - {jobId};
      db.SaveJob(CompletedRecord(p.job, out, now));
      if out.mainErrorCode.Some? && |out.mainErrorCode.value| > 0 {
        db.AppendJobError(JobError(jobId, out.mainErrorCode, out.mainErrorReason));
      }
    }

    /** The `exceptionally` stage of a job whose registry entry is already gone. */
    method FailPending(jobId: int, message: Option<string>, now: Time)
      requires db.Valid() && engine.Valid()
      requires jobId in pending && jobId !in engine.activeJobs
      requires pending.Keys - {jobId} == engine.activeJobs.Keys
      requires forall id :: id in pending ==> Captured(id)
      requires forall id :: id in pending && id != jobId ==> engine.activeJobs[id] == Handle(pending[id].ticket, false)
      modifies this, db
      ensures Valid()
      ensures db.jobs == old(db.jobs)[jobId := FailedRecord(old(pending[jobId]).job, message, now)]
      ensures db.jobErrors == old(db.jobErrors) + [JobError(jobId, Some(ENGINE_ERROR), message)]
      ensures pending == old(pending) - {jobId}
      ensures CatalogUnchanged(db)
    {
      var p := pending[jobId];
      assert Captured(jobId);
      pending := pending - {jobId};
      db.SaveJob(FailedRecord(p.job, message, now));
      db.AppendJobError(JobError(jobId, Some(ENGINE_ERROR), message));
    }

    /** The job's future completes exceptionally (an error escaping `execute`):
        `whenComplete` drops the registry entry, `exceptionally` records FAILED. */
    method Crash(jobId: int, message: Option<string>, now: Time)
      requires Valid()
      modifies this, db, engine
      ensures Valid()
      ensures jobId !in old(pending) ==>
        db.jobs == old(db.jobs) && db.jobErrors == old(db.jobErrors) && pending == old(pending)
        && engine.activeJobs == old(engine.activeJobs)
      ensures jobId in old(pending) ==>
        db.jobs == old(db.jobs)[jobId := FailedRecord(old(pending[jobId]).job, message, now)]
        && db.jobErrors == old(db.jobErrors) + [JobError(jobId, Some(ENGINE_ERROR), message)]
        && pending == old(pending) - {jobId}
        && engine.activeJobs == old(engine.activeJobs) - {jobId}
      ensures CatalogUnchanged(db)
      ensures engine.poolSize == old(engine.poolSize) && engine.submitted == old(engine.submitted)
    {
      if jobId !in pending {
        return;
      }
      engine.MarkDone(jobId, pending[jobId].ticket);
      engine.Deregister(jobId);
      FailPending(jobId, message, now);
    }

    /** `jobEngine.cancelJob(jobId)` as the controllers call it. Cancelling the
        future completes it with a `CancellationException`, which runs the
        `exceptionally` stage at once: the job is recorded FAILED / ENGINE_ERROR
        with the message of the wrapping `CompletionException`. */
    method CancelExecution(jobId: int, now: Time) returns (cancelled: bool)
      requires Valid()
      modifies this, db, engine
      ensures Valid()
      ensures (cancelled, engine.activeJobs) == CancelSpec(old(engine.activeJobs), jobId)
      ensures !cancelled ==> db.jobs == old(db.jobs) && db.jobErrors == old(db.jobErrors) && pending == old(pending)
      ensures cancelled ==>
        jobId in old(pending) && jobId in db.jobs
        && db.jobs == old(db.jobs)[jobId := FailedRecord(old(pending[jobId]).job, Some(CANCELLATION_MESSAGE), now)]
        && db.jobErrors == old(db.jobErrors) + [JobError(jobId, Some(ENGINE_ERROR), Some(CANCELLATION_MESSAGE))]
        && pending == old(pending) - {jobId}
      ensures CatalogUnchanged(db)
      ensures engine.poolSize == old(engine.poolSize) && engine.submitted == old(engine.submitted)
    {
      cancelled := engine.CancelJob(jobId);
      if cancelled {
        FailPending(jobId, Some(CANCELLATION_MESSAGE), now);
      }
    }
  }

  /** `getMessage()` of the `CompletionException` wrapping a bare `CancellationException`. */
  const CANCELLATION_MESSAGE := "java.util.concurrent.CancellationException"
}
