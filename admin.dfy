/** `AdminController` (the `/api/admin` endpoints): setting an application
    parameter (resizing the pool at once when it is `numberOfThreads`),
    reporting the engine's state, and cancelling a job by id. */
module Admin {
  import opened Common
  import opened Records
  import opened Engine
  import opened Execution
  import opened Loader

  /** `findById(name).orElse(new AppParam())` with the name and value set and
      the description replaced only when one is given. */
  function SetParamRow(params: map<string, AppParam>, name: string, value: string, description: Option<string>): (p: AppParam)
    ensures p.name == name && p.value == Some(value)
    ensures description.Some? ==> p.description == description
    ensures description.None? && name in params ==> p.description == params[name].description
    ensures description.None? && name !in params ==> p.description.None?
  {
    var base := if name in params then params[name] else AppParam(name, None, None);
    base.(name := name, value := Some(value), description := if description.Some? then description else base.description)
  }

  /** The request's failure when a growing resize throws: an
      `IllegalArgumentException` without a message reaches Spring's error
      handler; this text stands in for that response. */
  const RESIZE_REFUSED := "java.lang.IllegalArgumentException"

  /** Whether `setParam` resizes the pool: the name is `numberOfThreads` and
      the value is an `int`. */
  predicate Resizes(name: string, value: string) {
    name == POOL_SIZE_PARAM && ParseInt(Some(value)).Some?
  }

  /** The row `setParam` stores for `numberOfThreads` makes a restart start
      the pool at the clamped value: the size the corrected resize gives the
      live pool, and the one the as-written resize gives when it shrinks. */
  lemma ResizeMatchesRestart(params: map<string, AppParam>, value: string, description: Option<string>)
    requires Resizes(POOL_SIZE_PARAM, value)
    ensures var p := SetParamRow(params, POOL_SIZE_PARAM, value, description);
      InitialPoolSize(Some(p)) == Clamp(ParseInt(Some(value)).value, MIN_POOL_SIZE, MAX_POOL_SIZE)
  {
  }

  class AdminController {
    const db: Database
    const svc: JobExecutionService

    ghost predicate Valid()
      reads this, db, svc, svc.db, svc.engine, svc.engine.loader
    {
      svc.db == db && svc.Valid()
    }

    constructor(svc: JobExecutionService)
      requires svc.Valid()
      ensures Valid() && this.svc == svc && db == svc.db
    {
      this.svc := svc;
      db := svc.db;
    }

    /** `setParam(name, value, description)` as written: the row is saved
        (and committed) first; then an `int` value for `numberOfThreads`
        resizes the pool. A growing resize throws `IllegalArgumentException`,
        which only the `NumberFormatException` catch could have stopped, so the
        request fails with the row saved and the pool unchanged. */
    method SetParam(name: string, value: string, description: Option<string>) returns (r: Result<AppParam, string>)
      requires Valid()
      modifies db, svc.engine
      ensures Valid()
      ensures db.appParams == old(db.appParams)[name := SetParamRow(old(db.appParams), name, value, description)]
      ensures !Resizes(name, value) ==>
        r == Ok(SetParamRow(old(db.appParams), name, value, description))
        && svc.engine.poolSize == old(svc.engine.poolSize)
      ensures Resizes(name, value) && Clamp(ParseInt(Some(value)).value, MIN_POOL_SIZE, MAX_POOL_SIZE) <= old(svc.engine.poolSize) ==>
        r == Ok(SetParamRow(old(db.appParams), name, value, description))
        && svc.engine.poolSize == Clamp(ParseInt(Some(value)).value, MIN_POOL_SIZE, MAX_POOL_SIZE)
      ensures Resizes(name, value) && Clamp(ParseInt(Some(value)).value, MIN_POOL_SIZE, MAX_POOL_SIZE) > old(svc.engine.poolSize) ==>
        r == Err(RESIZE_REFUSED) && svc.engine.poolSize == old(svc.engine.poolSize)
      ensures svc.engine.activeJobs == old(svc.engine.activeJobs) && svc.engine.submitted == old(svc.engine.submitted)
      ensures db.jobs == old(db.jobs) && db.order == old(db.order) && db.nextJobId == old(db.nextJobId)
      ensures db.processors == old(db.processors) && db.nextProcessorId == old(db.nextProcessorId)
      ensures db.inputFiles == old(db.inputFiles) && db.inputParams == old(db.inputParams) && db.jobErrors == old(db.jobErrors)
    {
      var param := SetParamRow(db.appParams, name, value, description);
      db.SaveParam(param);
      if name == POOL_SIZE_PARAM {
        var size := ParseInt(Some(value));
        if size.Some? {
          var ok := svc.engine.ResizePool(size.value);
          if !ok {
            return Err(RESIZE_REFUSED);
          }
        }
      }
      r := Ok(param);
    }

    /** `setParam` with the corrected resize: every `int` value for
        `numberOfThreads` takes effect at once. */
    method SetParamCorrected(name: string, value: string, description: Option<string>) returns (param: AppParam)
      requires Valid()
      modifies db, svc.engine
      ensures Valid()
      ensures param == SetParamRow(old(db.appParams), name, value, description)
      ensures db.appParams == old(db.appParams)[name := param]
      ensures Resizes(name, value) ==>
        svc.engine.poolSize == Clamp(ParseInt(Some(value)).value, MIN_POOL_SIZE, MAX_POOL_SIZE)
      ensures !Resizes(name, value) ==> svc.engine.poolSize == old(svc.engine.poolSize)
      ensures svc.engine.activeJobs == old(svc.engine.activeJobs) && svc.engine.submitted == old(svc.engine.submitted)
      ensures db.jobs == old(db.jobs) && db.order == old(db.order) && db.nextJobId == old(db.nextJobId)
      ensures db.processors == old(db.processors) && db.nextProcessorId == old(db.nextProcessorId)
      ensures db.inputFiles == old(db.inputFiles) && db.inputParams == old(db.inputParams) && db.jobErrors == old(db.jobErrors)
    {
      param := SetParamRow(db.appParams, name, value, description);
      db.SaveParam(param);
      if name == POOL_SIZE_PARAM {
        var size := ParseInt(Some(value));
        if size.Some? {
          svc.engine.ResizePoolCorrected(size.value);
        }
      }
    }

    /** `engineStatus()`: the pool size and the ids of the tracked jobs. */
    method EngineStatus() returns (poolSize: int, activeJobIds: set<int>)
      requires Valid()
      ensures MIN_POOL_SIZE <= poolSize <= MAX_POOL_SIZE && poolSize == svc.engine.poolSize
      ensures activeJobIds == svc.pending.Keys
    {
      poolSize := svc.engine.GetPoolSize();
      activeJobIds := svc.engine.ActiveJobIds();
    }

    /** `cancelJob(jobId)`: no status guard. When the engine cancels, the job's
        `exceptionally` stage has already recorded it FAILED (ENGINE_ERROR, the
        cancellation message); this then marks it CANCELLED with an end time,
        keeping that reason. The result echoes the id and the flag. */
    method CancelJob(jobId: int, now: Time) returns (echoedId: int, cancelled: bool)
      requires Valid()
      modifies svc, db, svc.engine
      ensures Valid()
      ensures echoedId == jobId
      ensures (cancelled, svc.engine.activeJobs) == CancelSpec(old(svc.engine.activeJobs), jobId)
      ensures !cancelled ==> db.jobs == old(db.jobs) && db.jobErrors == old(db.jobErrors)
      ensures cancelled ==>
        jobId in old(db.jobs)
        && db.jobs == old(db.jobs)[jobId := AdminCancelled(old(db.jobs[jobId]), now)]
        && db.jobErrors == old(db.jobErrors) + [JobError(jobId, Some(ENGINE_ERROR), Some(CANCELLATION_MESSAGE))]
      ensures db.order == old(db.order) && db.nextJobId == old(db.nextJobId) && db.processors == old(db.processors)
      ensures db.inputFiles == old(db.inputFiles) && db.inputParams == old(db.inputParams) && db.appParams == old(db.appParams)
    {
      assert forall id :: id in svc.pending ==> svc.pending[id].job == db.jobs[id];
      cancelled := svc.CancelExecution(jobId, now);
      if cancelled && jobId in db.jobs {
        var job := db.jobs[jobId];
        db.SaveJob(job.(status := CANCELLED, endTime := Some(now)));
      }
      echoedId := jobId;
    }
  }

  /** The record after an admin cancel: what the `exceptionally` stage wrote,
      then CANCELLED, ended now; reason and code stay the engine's. */
  function AdminCancelled(job: JobRecord, now: Time): (r: JobRecord)
    ensures r.id == job.id && r.status == CANCELLED && r.endTime == Some(now)
    ensures r.errorReason == Some(CANCELLATION_MESSAGE) && r.mainErrorCode == Some(ENGINE_ERROR)
    ensures r.startTime == job.startTime
  {
    FailedRecord(job, Some(CANCELLATION_MESSAGE), now).(status := CANCELLED, endTime := Some(now))
  }

  /** As written: on a freshly started engine (pool 5, no stored size),
      `setParam("numberOfThreads", n)` for 5 < n <= 50 fails, the pool stays
      at 5, and the stored row makes a restart start at n. */
  method GrowPool(n: int) returns (r: Result<AppParam, string>, livePool: int, restartPool: int)
    requires 5 < n <= MAX_POOL_SIZE
    ensures r.Err? && livePool == 5 && restartPool == n && livePool != restartPool
  {
    var loader := new ProcessorLoader();
    var engine := new JobEngine(None, loader);
    var db := new Database();
    var svc := new JobExecutionService(db, engine);
    var admin := new AdminController(svc);
    ParseIntegerOfToString(n, INT_MIN, INT_MAX);
    r := admin.SetParam(POOL_SIZE_PARAM, IntToString(n), None);
    livePool := engine.poolSize;
    restartPool := InitialPoolSize(Some(db.appParams[POOL_SIZE_PARAM]));
  }

  /** The same request with the corrected resize: the live pool is n, the
      size a restart would read. */
  method GrowPoolCorrected(n: int) returns (livePool: int, restartPool: int)
    requires 5 < n <= MAX_POOL_SIZE
    ensures livePool == n && restartPool == n
  {
    var loader := new ProcessorLoader();
    var engine := new JobEngine(None, loader);
    var db := new Database();
    var svc := new JobExecutionService(db, engine);
    var admin := new AdminController(svc);
    ParseIntegerOfToString(n, INT_MIN, INT_MAX);
    var param := admin.SetParamCorrected(POOL_SIZE_PARAM, IntToString(n), None);
    livePool := engine.poolSize;
    restartPool := InitialPoolSize(Some(db.appParams[POOL_SIZE_PARAM]));
  }
}

/** `DataSeeder`: on start-up, an empty parameter table receives the four
    default parameters; a table with any row is left alone. */
module Seeding {
  import opened Common
  import opened Records
  import opened Engine

  /** The defaults: name, value, description. */
  const DEFAULTS: seq<(string, string, string)> := [
    ("numberOfThreads", "5", "Thread pool size"),
    ("processorJarDirectory", "./processors", "Directory for processor JARs"),
    ("inputFileDirectory", "./inputFiles", "Directory for input files"),
    ("outputFileDirectory", "./outputFiles", "Directory for output files")
  ]

  function DefaultRow(d: (string, string, string)): AppParam {
    AppParam(d.0, Some(d.1), Some(d.2))
  }

  /** The rows the seed saves, by name. */
  function Seeded(defaults: seq<(string, string, string)>): map<string, AppParam> {
    if |defaults| == 0 then map[]
    else
      var d := defaults[|defaults| - 1];
      Seeded(defaults[..|defaults| - 1])[d.0 := DefaultRow(d)]
  }

  /** The table after `run`: the defaults when it was empty, else as it was. */
  function AfterRun(params: map<string, AppParam>): map<string, AppParam> {
    if |params| == 0 then Seeded(DEFAULTS) else params
  }

  /** The seeded table holds exactly the four defaults, each with its own value
      and description, and a pool seeded this way starts with 5 threads. */
  lemma SeededDefaults()
    ensures var s := Seeded(DEFAULTS);
      s.Keys == {"numberOfThreads", "processorJarDirectory", "inputFileDirectory", "outputFileDirectory"}
      && s["numberOfThreads"] == AppParam("numberOfThreads", Some("5"), Some("Thread pool size"))
      && s["processorJarDirectory"] == AppParam("processorJarDirectory", Some("./processors"), Some("Directory for processor JARs"))
      && s["inputFileDirectory"] == AppParam("inputFileDirectory", Some("./inputFiles"), Some("Directory for input files"))
      && s["outputFileDirectory"] == AppParam("outputFileDirectory", Some("./outputFiles"), Some("Directory for output files"))
      && InitialPoolSize(Some(s[POOL_SIZE_PARAM])) == DEFAULT_POOL_SIZE
  {
    var n, p, i, o := "numberOfThreads", "processorJarDirectory", "inputFileDirectory", "outputFileDirectory";
    assert n[0] == 'n' && p[0] == 'p' && i[0] == 'i' && o[0] == 'o';
    assert DEFAULTS[..1][..0] == [];
    assert Seeded(DEFAULTS[..1]) == map[n := DefaultRow(DEFAULTS[0])];
    assert DEFAULTS[..2][..1] == DEFAULTS[..1];
    assert Seeded(DEFAULTS[..2]) == map[n := DefaultRow(DEFAULTS[0]), p := DefaultRow(DEFAULTS[1])];
    assert DEFAULTS[..3][..2] == DEFAULTS[..2];
    assert Seeded(DEFAULTS[..3]) == map[n := DefaultRow(DEFAULTS[0]), p := DefaultRow(DEFAULTS[1]), i := DefaultRow(DEFAULTS[2])];
    assert DEFAULTS[..4][..3] == DEFAULTS[..3] && DEFAULTS[..4] == DEFAULTS;
    ParseIntegerOfToString(5, INT_MIN, INT_MAX);
    assert IntToString(5) == "5";
  }

  /** Running the seeder again changes nothing: it seeds at most once. */
  lemma RunIsIdempotent(params: map<string, AppParam>)
    ensures AfterRun(AfterRun(params)) == AfterRun(params)
  {
    SeededDefaults();
    assert "numberOfThreads" in Seeded(DEFAULTS);
  }

  /** `run`: seed when `count() == 0`. */
  method Run(db: Database)
    requires db.Valid()
    modifies db
    ensures db.Valid()
    ensures db.appParams == AfterRun(old(db.appParams))
    ensures db.jobs == old(db.jobs) && db.order == old(db.order) && db.nextJobId == old(db.nextJobId)
    ensures db.processors == old(db.processors) && db.nextProcessorId == old(db.nextProcessorId)
    ensures db.inputFiles == old(db.inputFiles) && db.inputParams == old(db.inputParams) && db.jobErrors == old(db.jobErrors)
  {
    if |db.appParams| == 0 {
      Seed(db);
    }
  }

  /** `seed`: save each default; `Map.of` fixes no order, so the loop takes the
      order of `DEFAULTS`, and the names being distinct the table is the same either way. */
  method Seed(db: Database)
    requires db.Valid() && db.appParams == map[]
    modifies db
    ensures db.Valid()
    ensures db.appParams == Seeded(DEFAULTS)
    ensures db.jobs == old(db.jobs) && db.order == old(db.order) && db.nextJobId == old(db.nextJobId)
    ensures db.processors == old(db.processors) && db.nextProcessorId == old(db.nextProcessorId)
    ensures db.inputFiles == old(db.inputFiles) && db.inputParams == old(db.inputParams) && db.jobErrors == old(db.jobErrors)
  {
    for i := 0 to |DEFAULTS|
      invariant db.Valid() && db.appParams == Seeded(DEFAULTS[..i])
      invariant db.jobs == old(db.jobs) && db.order == old(db.order) && db.nextJobId == old(db.nextJobId)
      invariant db.processors == old(db.processors) && db.nextProcessorId == old(db.nextProcessorId)
      invariant db.inputFiles == old(db.inputFiles) && db.inputParams == old(db.inputParams) && db.jobErrors == old(db.jobErrors)
    {
      assert DEFAULTS[..i + 1][..i] == DEFAULTS[..i];
      db.SaveParam(DefaultRow(DEFAULTS[i]));
    }
    assert DEFAULTS[..|DEFAULTS|] == DEFAULTS;
  }
}
