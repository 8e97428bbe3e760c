# jobProcessor — a verified model of the job scheduler core

jobProcessor is a Spring Boot service that runs user jobs on pluggable
processors. A user schedules a job through `JobController`: the request is
validated, stored as a `JobRecord` (status SCHEDULED) with its uploaded input
files and JSON parameters, and registered with Quartz under the keys
`job-<id>` and `trigger-<id>`. When the trigger fires, `ScheduledJobTrigger`
calls `JobExecutionService.runJob`. That method resolves the processor's jar
(from its `ProcessorDefinition`, or the default `./processors/<Simple>.jar`),
marks the job RUNNING and submits it to `JobEngine`. The engine loads the
processor through `ProcessorLoader`, which first checks the jar's SHA-256
when a checksum is registered and keeps one class loader per jar. It asks
the processor for an estimate and allows 150% of it before reporting
TIMED_OUT. The outcome is written back to the job, and an error row is added
when there is an error code. Users can cancel a running job or re-run a job.

On startup, `MissedJobRecovery` restarts SCHEDULED jobs whose time has
passed, and `DataSeeder` fills the application parameters when the table is
empty. `ProcessorController` and `AdminController` maintain processor
definitions and parameters (uploading a jar evicts its cached loader, and
setting `numberOfThreads` resizes the pool, which as written can only shrink it). `DownloadController` lists and
serves job output files.

Two sample processors are modelled: `SimpleProcessor` and
`ExpenseTrackerProcessor`, which splits CSV or pipe-separated expense files
and files each row under the first category whose keyword its description
mentions. Also modelled are the single-slot `SmallJobService` (with its twin
in `smallapp`), and the older engine and loader under `src/`
(`JobEngineService`, `DynamicClassLoaderService`), each stated against the
current one.

The project has one module per source component:

- `Plugin` holds the processor interface, with `InputData` and `OutputData` as values.
- `Records` holds the database: a class whose fields are the tables.
- `Loader` and `LegacyLoader` hold the processor loaders.
- `Engine` and `LegacyEngine` hold the job engines.
- `Execution`, `Recovery`, `Quartz` and `ScheduledTrigger` hold the execution side.
- `Jobs`, `Processors`, `Admin`, `Seeding` and `Downloads` hold the web controllers and the seeder.
- `SmallJobs`, `Expense` and `Simple` hold the small scheduler and the two sample processors.
- `Checksum`, `Listing` and `Common` are shared helpers.

Services that update their fields are classes with `modifies` clauses. Each
method is tied to a pure function of the old state (`LoadSpec`, `CancelSpec`,
`Decide`, `AfterRecovery`, `ExecuteOutcome`…), and the lemmas are proved
about those functions.

Things outside the program become parameters:

- `now` is the clock.
- `Env` holds the files on disk, SHA-256 and class lookup in a jar.
- `RunEvent` says how an asynchronous run ended: finished after some elapsed time, cancelled while waiting, or raised an exception.
- A `failure` field of the Quartz store says whether Quartz throws.

## Model

| member | source | states |
|---|---|---|
| Common.Clamp | app/src/main/java/com/sel2in/jobProc/service/JobEngine.java:61-66 | the result lies in [lo, hi], is x when x is in range, lo below it and hi above it |
| Common.UnsafeClassNameIff | app/src/main/java/com/sel2in/jobProc/controller/JobController.java:128 | a class name is refused exactly when it contains '/', '\\' or two consecutive dots |
| Common.TrimEmpty | app/src/main/java/com/sel2in/jobProc/controller/JobController.java:122 | `trim()` is empty exactly when every character is at most ' ' |
| Common.ParseInteger | app/src/main/java/com/sel2in/jobProc/service/JobEngine.java:48 | a parsed value lies in the type's range |
| Common.NatToStringValue | app/src/main/java/com/sel2in/jobProc/service/JobEngine.java:48 | the decimal digits written for n read back as n |
| Common.ParseIntegerOfToString | app/src/main/java/com/sel2in/jobProc/service/JobEngine.java:48 | parsing the decimal text of an in-range integer gives it back (round trip) |
| Common.NormalizePath | app/src/main/java/com/sel2in/jobProc/controller/JobController.java:163 | the path string a Unix `Path` holds: no doubled '/', no trailing '/' except the root, absolute iff the input is, empty iff the input is |
| Common.NormalizePathIdempotent | app/src/main/java/com/sel2in/jobProc/controller/JobController.java:163 | normalising a path twice is normalising it once |
| Common.Resolve | app/src/main/java/com/sel2in/jobProc/controller/JobController.java:163 | `dir.resolve(name)`: an empty name gives `dir`, an absolute name replaces `dir`, any other name, normalised, is joined onto `dir` (`JoinPath`, with no doubled '/' after the root) |
| Common.ResolvePlainAndAbsolute | app/src/main/java/com/sel2in/jobProc/controller/ProcessorController.java:83 | a plain file name lands directly inside the directory; an absolute name resolves the same whatever the directory |
| Checksum.Unsigned | app/src/main/java/com/sel2in/jobProc/service/ProcessorLoader.java:78-84 | `b & 0xff` is in [0, 256) and congruent to b modulo 256 |
| Checksum.HexEncode | app/src/main/java/com/sel2in/jobProc/service/ProcessorLoader.java:78-84 | the loop builds exactly the hex text of the digest |
| Checksum.HexShape | app/src/main/java/com/sel2in/jobProc/service/ProcessorLoader.java:78-84 | the hex text has two characters per byte, all lower-case hex digits |
| Checksum.UnhexHex | app/src/main/java/com/sel2in/jobProc/service/ProcessorLoader.java:78-84 | the hex text decodes back to the digest (round trip) |
| Checksum.HexIsLowerCase | app/src/main/java/com/sel2in/jobProc/service/ProcessorLoader.java:32-38 | lower-casing the computed hex changes nothing |
| Checksum.ChecksumAcceptedIff | app/src/main/java/com/sel2in/jobProc/service/ProcessorLoader.java:32-38 | a non-blank expected checksum is accepted iff it equals the computed hex ignoring case |
| Loader.ProcessorLoader.CalculateChecksum | app/src/main/java/com/sel2in/jobProc/service/ProcessorLoader.java:69-88 | a readable jar gives the hex of its SHA-256; an unreadable one gives the checksum error |
| Loader.ProcessorLoader.Load | app/src/main/java/com/sel2in/jobProc/service/ProcessorLoader.java:31-67 | result, cache and loader count are those of `LoadSpec` on the old cache |
| Loader.ProcessorLoader.EvictCache | app/src/main/java/com/sel2in/jobProc/service/ProcessorLoader.java:90-100 | the jar's loader leaves the cache and is closed, and nothing else changes |
| Loader.GateFailureLeavesCache | app/src/main/java/com/sel2in/jobProc/service/ProcessorLoader.java:32-38 | a failed checksum gate returns its error before any loader is created |
| Loader.MissingJarNotCached | app/src/main/java/com/sel2in/jobProc/service/ProcessorLoader.java:41-55 | a missing jar fails and is not cached |
| Loader.LoadedInstance | app/src/main/java/com/sel2in/jobProc/service/ProcessorLoader.java:57-62 | past the gate, loading returns p iff the jar's class is a processor instance p |
| Loader.OneLoaderPerJar | app/src/main/java/com/sel2in/jobProc/service/ProcessorLoader.java:41-55 | two loads of one jar share the loader created by the first |
| Loader.LoadKeepsCacheValid | app/src/main/java/com/sel2in/jobProc/service/ProcessorLoader.java:41-55 | loading keeps the cache valid, changes only the requested jar's entry, and creates at most one loader |
| Loader.EvictThenLoadIsFresh | app/src/main/java/com/sel2in/jobProc/service/ProcessorLoader.java:90-100 | after eviction, the next load of the jar uses a new loader different from every earlier one |
| Engine.InitialPoolSize | app/src/main/java/com/sel2in/jobProc/service/JobEngine.java:44-56 | pool size in [1, 50]; 5 when the parameter is absent or not an int, else the clamped value |
| Engine.TimeoutMillis | app/src/main/java/com/sel2in/jobProc/service/JobEngine.java:141 | `(long)(e * 1.5)`: 2t ≤ 3e < 2t + 2 for e ≥ 0, truncated toward zero for e < 0 |
| Engine.TimeoutCoversEstimate | app/src/main/java/com/sel2in/jobProc/service/JobEngine.java:141 | the timeout is at least the estimate and at most twice it |
| Engine.OutcomeIsOutputOrError | app/src/main/java/com/sel2in/jobProc/service/JobEngine.java:132-158 | the result is the processor's own output within the deadline, else TIMED_OUT, CANCELLED or FAILED with the same error code and a reason |
| Engine.LoadFailureIsFailed | app/src/main/java/com/sel2in/jobProc/service/JobEngine.java:148-157 | a load failure becomes FAILED with "Internal Engine Error: " and the loader's message |
| Engine.DeadlineBoundary | app/src/main/java/com/sel2in/jobProc/service/JobEngine.java:141-147 | within 150% of the estimate the output is returned; more than that plus half a millisecond gives TIMED_OUT |
| Engine.TimeoutReportReadsBack | app/src/main/java/com/sel2in/jobProc/service/JobEngine.java:95-107 | the report carries the estimate and the timeout in decimal, and the estimate text parses back |
| Engine.CancelTwiceRefused | app/src/main/java/com/sel2in/jobProc/service/JobEngine.java:113-123 | cancel succeeds iff the job is registered and not done; a second cancel is refused; other jobs stay registered |
| Engine.JobEngine.constructor | app/src/main/java/com/sel2in/jobProc/service/JobEngine.java:44-56 | the pool starts at `InitialPoolSize` of the stored parameter, with no active jobs |
| Engine.JobEngine.ResizePool | app/src/main/java/com/sel2in/jobProc/service/JobEngine.java:61-66 | on the fixed pool, a clamped size above the current one is refused (`setCorePoolSize` throws) and the pool is unchanged; otherwise the pool becomes the clamped size; the registry is unchanged |
| Engine.JobEngine.ResizePoolCorrected | app/src/main/java/com/sel2in/jobProc/service/JobEngine.java:61-66 | with the maximum set first, the pool always becomes the size clamped to [1, 50] |
| Engine.JobEngine.GetPoolSize | app/src/main/java/com/sel2in/jobProc/service/JobEngine.java:68-70 | returns the pool size, always in [1, 50] |
| Engine.JobEngine.ExecuteAsync | app/src/main/java/com/sel2in/jobProc/service/JobEngine.java:80-89 | a run with an id is registered under it as a live handle; one without an id is not |
| Engine.JobEngine.MarkDone | app/src/main/java/com/sel2in/jobProc/service/JobEngine.java:86 | completion marks the job's own handle done, and leaves a newer handle for the same id alone |
| Engine.JobEngine.Deregister | app/src/main/java/com/sel2in/jobProc/service/JobEngine.java:86 | the completed job leaves the registry |
| Engine.JobEngine.CancelJob | app/src/main/java/com/sel2in/jobProc/service/JobEngine.java:113-123 | answer and new registry are `CancelSpec` of the old registry |
| Engine.JobEngine.Execute | app/src/main/java/com/sel2in/jobProc/service/JobEngine.java:132-158 | output is `ExecuteOutcome` of what `LoadSpec` loads; the loader cache moves as `LoadSpec` says |
| Engine.JobEngine.CalculateTimeout | app/src/main/java/com/sel2in/jobProc/service/JobEngine.java:95-107 | the report is `TimeoutReport` of the loaded processor, or the failure text |
| LegacyLoader.AgreesWithCurrentLoader | src/main/java/com/sel2in/jobProc/service/ProcessorLoader.java:23-51 | without a checksum the old loader caches and answers like the current one; its error is the fixed load message |
| LegacyLoader.ProcessorLoader.constructor | src/main/java/com/sel2in/jobProc/service/ProcessorLoader.java:23-51 | the loader starts with an empty cache |
| LegacyLoader.ProcessorLoader.Load | src/main/java/com/sel2in/jobProc/service/ProcessorLoader.java:23-51 | result and cache are those of the old loader's `LoadSpec` |
| LegacyLoader.ProcessorLoader.EvictCache | src/main/java/com/sel2in/jobProc/service/ProcessorLoader.java:53-63 | the jar's loader leaves the cache and is closed |
| LegacyLoader.DynamicCachesLikeLoader | src/main/java/com/sel2in/jobProc/service/DynamicClassLoaderService.java:16-31 | the dynamic service caches and succeeds exactly like the old loader |
| LegacyLoader.DynamicTrustsCache | src/main/java/com/sel2in/jobProc/service/DynamicClassLoaderService.java:16-31 | a cached jar is used even after its file has gone |
| LegacyLoader.DynamicClassLoaderService.constructor | src/main/java/com/sel2in/jobProc/service/DynamicClassLoaderService.java:16-31 | the service starts with an empty cache |
| LegacyLoader.DynamicClassLoaderService.LoadProcessor | src/main/java/com/sel2in/jobProc/service/DynamicClassLoaderService.java:16-31 | result and cache are `DynamicLoadSpec` of the old cache |
| LegacyLoader.DynamicClassLoaderService.ClearCache | src/main/java/com/sel2in/jobProc/service/DynamicClassLoaderService.java:33-35 | the jar leaves the cache |
| LegacyEngine.OutcomeHasNoErrorCode | src/main/java/com/sel2in/jobProc/service/JobEngine.java:43-74 | the old engine returns the processor's output, or TIMED_OUT or FAILED without an error code |
| LegacyEngine.AgreesWithCurrentEngine | src/main/java/com/sel2in/jobProc/service/JobEngine.java:43-67 | a cancelled wait is FAILED here but CANCELLED in the current engine; otherwise same status and reason, with no code |
| LegacyEngine.JobEngine.constructor | src/main/java/com/sel2in/jobProc/service/JobEngine.java:23-30 | the engine starts with no submissions |
| LegacyEngine.JobEngine.ExecuteAsync | src/main/java/com/sel2in/jobProc/service/JobEngine.java:39-41 | each submission gets the next ticket |
| LegacyEngine.JobEngine.Execute | src/main/java/com/sel2in/jobProc/service/JobEngine.java:43-67 | output is the old `ExecuteOutcome` of what the old loader loads |
| LegacyEngine.SameDeadlineAsEngine | src/main/java/com/sel2in/jobProc/service/JobEngineService.java:29-52 | the service's timeout is the engine's 150% and both cut a run off at the same point |
| LegacyEngine.JobEngineService.constructor | src/main/java/com/sel2in/jobProc/service/JobEngineService.java:23-27 | the service starts with no submissions |
| LegacyEngine.JobEngineService.SubmitJob | src/main/java/com/sel2in/jobProc/service/JobEngineService.java:29-52 | load and estimate failures are returned without a submission; otherwise the job is submitted with its 150% timeout |
| LegacyEngine.JobEngineService.UpdateThreadPoolSize | src/main/java/com/sel2in/jobProc/service/JobEngineService.java:54-57 | the pool stays at 5, whatever size is asked for |
| Records.FindByStatusSound | app/src/main/java/com/sel2in/jobProc/repo/JobRepository.java:9 | `findByStatus` returns exactly the stored jobs with that status, in insertion (id) order |
| Records.FilesOf | app/src/main/java/com/sel2in/jobProc/repo/InputDataFileRepository.java:11 | exactly the job's rows: every row returned belongs to the job, and every row of the job is returned |
| Records.FilesOfAppend | app/src/main/java/com/sel2in/jobProc/repo/InputDataFileRepository.java:11 | table order is kept: rows of the job stored earlier come before those stored later |
| Records.Database.InsertJob | app/src/main/java/com/sel2in/jobProc/controller/JobController.java:145-153 | the record is stored under a fresh id and every other table is unchanged |
| Records.Database.SaveJob | app/src/main/java/com/sel2in/jobProc/service/JobExecutionService.java:73-76 | the stored record is replaced and every other table is unchanged |
| Records.Database.AppendJobError | app/src/main/java/com/sel2in/jobProc/service/JobExecutionService.java:104-111 | the error row is appended and every other table is unchanged |
| Records.Database.AppendInputFile | app/src/main/java/com/sel2in/jobProc/controller/JobController.java:155-174 | the file row is appended and every other table is unchanged |
| Records.Database.AppendInputParam | app/src/main/java/com/sel2in/jobProc/controller/JobController.java:176-199 | the parameter row is appended and every other table is unchanged |
| Records.Database.SaveProcessor | app/src/main/java/com/sel2in/jobProc/entity/ProcessorDefinition.java:14-44 | a definition with no stored id is inserted with a fresh id and both timestamps, unless its class name is taken; one with a stored id is merged into that row (`Merged`), unless its class name belongs to another row; every other table is unchanged |
| Records.Merged | app/src/main/java/com/sel2in/jobProc/entity/ProcessorDefinition.java:26-44 | a merge keeps the stored `createdTs`; `updatedTs` is stamped when a column changed, and an unchanged row stays exactly as stored |
| Records.Database.DeleteProcessor | app/src/main/java/com/sel2in/jobProc/controller/ProcessorController.java:113-120 | the definition is removed and every other table is unchanged |
| Records.Database.SaveParam | app/src/main/java/com/sel2in/jobProc/controller/AdminController.java:38-44 | the parameter is stored under its name and every other table is unchanged |
| Execution.AfterLastDot | app/src/main/java/com/sel2in/jobProc/service/JobExecutionService.java:69-70 | the part after the last dot has no dot and is a suffix of the name |
| Execution.DefaultJarPath | app/src/main/java/com/sel2in/jobProc/service/JobExecutionService.java:59-71 | an unregistered class runs from `./processors/<simple name>.jar` without a checksum |
| Execution.BuildInputFields | app/src/main/java/com/sel2in/jobProc/service/JobExecutionService.java:78-94 | the input copies the job's id, name, class, comment and notes; it lists the job's file paths, or none |
| Execution.StartedJobIsNotRestarted | app/src/main/java/com/sel2in/jobProc/service/JobExecutionService.java:54-76 | once marked RUNNING, a job is skipped by the next trigger |
| Execution.CompletionStatus | app/src/main/java/com/sel2in/jobProc/service/JobExecutionService.java:97-111 | the record takes the output's status (SUCCESS when null); an engine error gives its status as code and one error row |
| Execution.JobExecutionService.RunJob | app/src/main/java/com/sel2in/jobProc/service/JobExecutionService.java:43-95 | missing or non-SCHEDULED jobs are skipped, and a null class throws; otherwise the job becomes RUNNING and is submitted with its input and jar |
| Execution.JobExecutionService.Launch | app/src/main/java/com/sel2in/jobProc/service/JobExecutionService.java:73-95 | the job becomes RUNNING and is registered with the engine |
| Execution.JobExecutionService.Complete | app/src/main/java/com/sel2in/jobProc/service/JobExecutionService.java:97-113 | the completed run's record and error rows follow `ExecuteOutcome`, and the job leaves the engine |
| Execution.JobExecutionService.Settle | app/src/main/java/com/sel2in/jobProc/service/JobExecutionService.java:97-111 | the record becomes `CompletedRecord` and the error rows are appended |
| Execution.JobExecutionService.StoreOutput | app/src/main/java/com/sel2in/jobProc/service/JobExecutionService.java:97-111 | the output is stored once the engine has let the job go |
| Execution.JobExecutionService.FailPending | app/src/main/java/com/sel2in/jobProc/service/JobExecutionService.java:114-130 | the record becomes FAILED with ENGINE_ERROR and the exception message, plus one error row |
| Execution.JobExecutionService.Crash | app/src/main/java/com/sel2in/jobProc/service/JobExecutionService.java:114-130 | a run that raises is recorded FAILED with ENGINE_ERROR and one error row; unknown ids change nothing |
| Execution.JobExecutionService.CancelExecution | app/src/main/java/com/sel2in/jobProc/service/JobExecutionService.java:114-130 | a successful engine cancel runs the `exceptionally` stage: FAILED, ENGINE_ERROR, one row |
| Recovery.AttemptedAreDue | app/src/main/java/com/sel2in/jobProc/service/MissedJobRecovery.java:32-43 | exactly the scheduled jobs whose time is before now are attempted |
| Recovery.CountedAmongAttempted | app/src/main/java/com/sel2in/jobProc/service/MissedJobRecovery.java:32-43 | the recovered count never exceeds the number attempted |
| Recovery.AfterRecoveryEffect | app/src/main/java/com/sel2in/jobProc/service/MissedJobRecovery.java:32-43 | each recoverable job ends RUNNING from now, and every other job is unchanged |
| Recovery.DecideScheduled | app/src/main/java/com/sel2in/jobProc/service/MissedJobRecovery.java:36-41 | a scheduled job is started when it names a class, and throws otherwise |
| Recovery.RecoverOne | app/src/main/java/com/sel2in/jobProc/service/MissedJobRecovery.java:36-41 | a due job is counted iff `runJob` does not throw, and is then started |
| Recovery.RecoverMissedJobs | app/src/main/java/com/sel2in/jobProc/service/MissedJobRecovery.java:27-50 | the jobs tried, the count and the new records are those of the `findByStatus` list; one submission per recovered job |
| Quartz.KeysIdentifyJob | app/src/main/java/com/sel2in/jobProc/controller/JobController.java:255-269 | `job-<id>` and `trigger-<id>` keys are equal iff the ids are, and never equal each other |
| Quartz.Scheduler.ScheduleJob | app/src/main/java/com/sel2in/jobProc/controller/JobController.java:255-269 | a duplicate key or a failing store is an error that changes nothing; otherwise the job and trigger are stored |
| Quartz.Scheduler.UnscheduleJob | app/src/main/java/com/sel2in/jobProc/controller/JobController.java:242 | the trigger is removed and its orphaned job detail goes with it |
| Quartz.Scheduler.Fired | app/src/main/java/com/sel2in/jobProc/service/ScheduledJobTrigger.java:22-25 | a fired one-shot trigger yields its job id and leaves the store |
| Quartz.Scheduler.DeleteJob | app/src/main/java/com/sel2in/jobProc/controller/JobController.java:243 | the job detail and its triggers are removed |
| Quartz.WithoutTriggerKeepsOthers | app/src/main/java/com/sel2in/jobProc/controller/JobController.java:240-246 | removing one job's trigger keeps every other job's trigger |
| ScheduledTrigger.Fire | app/src/main/java/com/sel2in/jobProc/service/ScheduledJobTrigger.java:22-25 | the fired trigger's job is run exactly as `runJob` decides |
| Jobs.RunAt | app/src/main/java/com/sel2in/jobProc/controller/JobController.java:135-143 | the run time is the requested time or now + 30 s, whichever is later |
| Jobs.RunAtRespectsRequest | app/src/main/java/com/sel2in/jobProc/controller/JobController.java:135-143 | the run time is in the future; a day or hour delay is taken as asked |
| Jobs.ValidationErrorIff | app/src/main/java/com/sel2in/jobProc/controller/JobController.java:121-130 | a request is accepted iff both names are non-blank and the class name is safe |
| Jobs.FileRowsSpec | app/src/main/java/com/sel2in/jobProc/controller/JobController.java:155-174 | one row per non-empty upload, stored at `<root>/<id>` resolved against the name (`Resolve`: an absolute name is kept as it is), and nothing else |
| Jobs.StoredPrefix | app/src/main/java/com/sel2in/jobProc/controller/JobController.java:176-199 | parameters are stored up to the first null value |
| Jobs.ParamRow | app/src/main/java/com/sel2in/jobProc/controller/JobController.java:176-199 | a parameter row is typed NUMBER iff the JSON value is a number |
| Jobs.RowsUpTo | app/src/main/java/com/sel2in/jobProc/controller/JobController.java:176-199 | the k-th stored row is the row of the k-th entry |
| Jobs.KeysAdded | app/src/main/java/com/sel2in/jobProc/controller/JobController.java:204-212 | adding a job's key pair keeps the keys matched with the job table |
| Jobs.NoKeysForNewJob | app/src/main/java/com/sel2in/jobProc/controller/JobController.java:204-212 | a job not yet stored has no Quartz keys |
| Jobs.ClampPage | app/src/main/java/com/sel2in/jobProc/controller/JobController.java:64-66 | the page is at least 0 and the size is in [1, 100], with 50 replacing a size below 1 and 100 one above 100 |
| Jobs.ReverseIsPermutation | app/src/main/java/com/sel2in/jobProc/controller/JobController.java:72-74 | sorting by id descending only reorders: reversing twice is the identity, and the records are the same multiset |
| Jobs.PageIsNewestFirst | app/src/main/java/com/sel2in/jobProc/controller/JobController.java:72-74 | a page holds at most `size` stored jobs in strictly decreasing id order, and page 0 starts with the newest |
| Jobs.DescendingRun | app/src/main/java/com/sel2in/jobProc/controller/JobController.java:72-74 | a run read backwards from the id order is strictly decreasing |
| Jobs.NewestFirstAt | app/src/main/java/com/sel2in/jobProc/controller/JobController.java:72-74 | page k starts at offset k·size from the newest job |
| Jobs.PageAt | app/src/main/java/com/sel2in/jobProc/controller/JobController.java:72-74 | a page is the slice starting at min(page·size, n), at most `size` long |
| Jobs.ListedOutputsAreFirst | app/src/main/java/com/sel2in/jobProc/controller/JobController.java:333-352 | at most three regular files, sorted, and no unlisted file sorts before a listed one |
| Jobs.SortedPrefixFirst | app/src/main/java/com/sel2in/jobProc/controller/JobController.java:340-341 | a prefix of a sorted list is sorted and comes before the rest |
| Jobs.JobController.Schedule | app/src/main/java/com/sel2in/jobProc/controller/JobController.java:110-215 | invalid requests change nothing; otherwise a SCHEDULED record with its files, parameters and Quartz keys, or SCHEDULE_FAILED when Quartz throws |
| Jobs.JobController.CreateJob | app/src/main/java/com/sel2in/jobProc/controller/JobController.java:145-212 | the new job, its rows and its Quartz registration |
| Jobs.JobController.AddRows | app/src/main/java/com/sel2in/jobProc/controller/JobController.java:155-199 | the job's file rows and parameter rows are appended |
| Jobs.JobController.Insert | app/src/main/java/com/sel2in/jobProc/controller/JobController.java:145-153 | the record is stored under a fresh id with no keys yet |
| Jobs.JobController.Register | app/src/main/java/com/sel2in/jobProc/controller/JobController.java:204-212 | registers the key pair, or marks the job SCHEDULE_FAILED with the Quartz message |
| Jobs.JobController.AddKeys | app/src/main/java/com/sel2in/jobProc/controller/JobController.java:255-269 | stores the job detail and trigger unless the store fails |
| Jobs.JobController.MarkScheduleFailed | app/src/main/java/com/sel2in/jobProc/controller/JobController.java:208-211 | status SCHEDULE_FAILED with the notes "Quartz error: …" |
| Jobs.JobController.SaveUploads | app/src/main/java/com/sel2in/jobProc/controller/JobController.java:155-174 | appends `FileRows` of the uploads |
| Jobs.JobController.SaveParams | app/src/main/java/com/sel2in/jobProc/controller/JobController.java:176-199 | appends `ParamRows` of the entries |
| Jobs.JobController.RunNow | app/src/main/java/com/sel2in/jobProc/controller/JobController.java:222-253 | unknown job, or a status other than SCHEDULED/FAILED, changes nothing; otherwise SCHEDULED at now + 3 s, and the keys are replaced or the Quartz error is reported |
| Jobs.JobController.Reschedule | app/src/main/java/com/sel2in/jobProc/controller/JobController.java:240-252 | the old keys are replaced by a fresh pair at the new time, or the Quartz error is reported |
| Jobs.JobController.ClearKeys | app/src/main/java/com/sel2in/jobProc/controller/JobController.java:242-243 | the job's trigger and job detail are removed |
| Jobs.JobController.CancelJob | app/src/main/java/com/sel2in/jobProc/controller/JobController.java:275-308 | succeeds iff the job is RUNNING and the engine cancels it; then CANCELLED with the user's reason; the three messages as written |
| Jobs.JobController.GetStatus | app/src/main/java/com/sel2in/jobProc/controller/JobController.java:59-75 | the default page is every job in insertion order; any other page comes newest first |
| Jobs.JobController.GetJobFiles | app/src/main/java/com/sel2in/jobProc/controller/JobController.java:314-356 | links to the first three input rows and to `ListedOutputs` of the output folder, none when it is missing |
| Jobs.UserCancelled | app/src/main/java/com/sel2in/jobProc/controller/JobController.java:294-298 | CANCELLED with end time and "Job cancelled by user"; the code ENGINE_ERROR stays from the cancelled run |
| Jobs.ClearedKeys | app/src/main/java/com/sel2in/jobProc/controller/JobController.java:240-246 | after unscheduling a job's trigger, no other trigger points at its job detail |
| Processors.ClassNameErrorIff | app/src/main/java/com/sel2in/jobProc/controller/ProcessorController.java:38-44 | a class name is accepted iff it is non-blank and safe |
| Processors.ProcessorController.Add | app/src/main/java/com/sel2in/jobProc/controller/ProcessorController.java:34-51 | refused names change nothing; without a stored id, a new class is inserted and a registered class breaks the unique constraint; with a stored id, the body is merged into that row (new class name, jar and checksum, stored `createdTs`, `updatedTs` now) unless its class name belongs to another row |
| Processors.ProcessorController.AddCorrected | app/src/main/java/com/sel2in/jobProc/controller/ProcessorController.java:34-51 | a valid definition is upserted, keeping id and `createdTs` for a known class |
| Processors.ProcessorController.Register | app/src/main/java/com/sel2in/jobProc/controller/ProcessorController.java:102-108 | the stored row becomes `Upserted`: the class is inserted, or its row keeps id and `createdTs` and is only re-stamped when jar or checksum changed |
| Processors.ProcessorController.UploadJar | app/src/main/java/com/sel2in/jobProc/controller/ProcessorController.java:60-111 | refusals change nothing; otherwise the jar is written at `./processors` resolved against its original name, its loader evicted, and it is registered (`Upserted`) with its SHA-256 hex and the message; an identical re-upload leaves the row as it was |
| Processors.ProcessorController.Remove | app/src/main/java/com/sel2in/jobProc/controller/ProcessorController.java:113-120 | the definition goes and its jar's loader is evicted |
| Processors.Upserted | app/src/main/java/com/sel2in/jobProc/controller/ProcessorController.java:102-108 | a known class keeps id and `createdTs`, and is stamped `updatedTs` only when jar or checksum changed (otherwise it is the stored row); a new one gets a fresh id and both timestamps |
| Processors.ReuploadChangesNothing | app/src/main/java/com/sel2in/jobProc/controller/ProcessorController.java:102-108 | registering the same jar and checksum again, later, leaves the stored row as the first registration left it |
| Admin.SetParamRow | app/src/main/java/com/sel2in/jobProc/controller/AdminController.java:38-44 | the parameter gets the value; the description is replaced only when one is given |
| Admin.ResizeMatchesRestart | app/src/main/java/com/sel2in/jobProc/controller/AdminController.java:47-54 | the stored `numberOfThreads` makes a restart start at the clamped value: the size the corrected resize, or a shrinking one, gives the live pool |
| Admin.AdminController.SetParam | app/src/main/java/com/sel2in/jobProc/controller/AdminController.java:35-57 | the parameter is always upserted; a numeric `numberOfThreads` that does not grow the pool resizes it (clamped), and one that grows it fails the request with the pool unchanged |
| Admin.AdminController.SetParamCorrected | app/src/main/java/com/sel2in/jobProc/controller/AdminController.java:35-57 | with the corrected resize, a numeric `numberOfThreads` always sets the pool to the clamped value |
| Admin.GrowPool | app/src/main/java/com/sel2in/jobProc/controller/AdminController.java:47-54 | on a fresh engine, asking for n in (5, 50] fails; the live pool stays 5 while a restart would start at n |
| Admin.GrowPoolCorrected | app/src/main/java/com/sel2in/jobProc/controller/AdminController.java:47-54 | with the corrected resize the live pool is n, the size a restart would read |
| Admin.AdminController.EngineStatus | app/src/main/java/com/sel2in/jobProc/controller/AdminController.java:61-68 | reports the pool size in [1, 50] and the jobs in flight |
| Admin.AdminController.CancelJob | app/src/main/java/com/sel2in/jobProc/controller/AdminController.java:72-87 | echoes the id; a successful cancel marks the job CANCELLED at now |
| Admin.AdminCancelled | app/src/main/java/com/sel2in/jobProc/controller/AdminController.java:77-80 | CANCELLED with the end time; the code and reason stay those of the cancelled run |
| Seeding.SeededDefaults | app/src/main/java/com/sel2in/jobProc/service/DataSeeder.java:35-40 | the four defaults with their values and descriptions; the pool reads 5 |
| Seeding.RunIsIdempotent | app/src/main/java/com/sel2in/jobProc/service/DataSeeder.java:25-32 | running the seeder twice equals running it once |
| Seeding.Run | app/src/main/java/com/sel2in/jobProc/service/DataSeeder.java:25-32 | an empty parameter table is seeded, and a non-empty one is left alone |
| Seeding.Seed | app/src/main/java/com/sel2in/jobProc/service/DataSeeder.java:34-50 | the table becomes the seeded defaults |
| Listing.NameLeTotal | app/src/main/java/com/sel2in/jobProc/controller/DownloadController.java:86 | the name order compares any two names |
| Listing.NameLeTransitive | app/src/main/java/com/sel2in/jobProc/controller/DownloadController.java:86 | the name order is transitive |
| Listing.NameLeAntisymmetric | app/src/main/java/com/sel2in/jobProc/controller/DownloadController.java:86 | names ordered both ways are equal |
| Listing.SortByNameCorrect | app/src/main/java/com/sel2in/jobProc/controller/DownloadController.java:84-88 | the sort is sorted by name and a permutation of its input |
| Listing.RegularFiles | app/src/main/java/com/sel2in/jobProc/controller/JobController.java:338 | exactly the non-directory entries |
| Listing.Take | app/src/main/java/com/sel2in/jobProc/controller/JobController.java:341 | the first min(n, length) elements |
| Downloads.GuessContentType | app/src/main/java/com/sel2in/jobProc/controller/DownloadController.java:172-187 | the type is one of the thirteen known types |
| Downloads.ContentTypeByTable | app/src/main/java/com/sel2in/jobProc/controller/DownloadController.java:172-187 | the type is that of the first matching suffix in the table, else octet-stream |
| Downloads.GuessIcon | app/src/main/java/com/sel2in/jobProc/controller/DownloadController.java:189-198 | one of six icons; the globe exactly for HTML and the red book exactly for PDF |
| Downloads.GuessesIgnoreCase | app/src/main/java/com/sel2in/jobProc/controller/DownloadController.java:172-198 | type and icon do not depend on the case of the name |
| Downloads.EscIsPerCharacter | app/src/main/java/com/sel2in/jobProc/controller/DownloadController.java:200-202 | the four chained replaces escape each character on its own |
| Downloads.EscIsSafe | app/src/main/java/com/sel2in/jobProc/controller/DownloadController.java:200-202 | escaped text has no '<', '>' or '"' |
| Downloads.Disposition | app/src/main/java/com/sel2in/jobProc/controller/DownloadController.java:140-141 | the header starts with "inline;" iff the file is shown inline, else "attachment;" |
| Downloads.ServeFile | app/src/main/java/com/sel2in/jobProc/controller/DownloadController.java:119-143 | 400 iff either part has "..", 404 iff the path is not a regular file, else the file with its guessed type |
| Downloads.ServeInputFile | app/src/main/java/com/sel2in/jobProc/controller/DownloadController.java:148-168 | the same checks on the input folder, always inline |
| Downloads.InlineTypes | app/src/main/java/com/sel2in/jobProc/controller/DownloadController.java:135-136 | of the known types, text/*, PDF and image/* are exactly the inline ones |
| Downloads.ServedInlineIff | app/src/main/java/com/sel2in/jobProc/controller/DownloadController.java:134-141 | a served output file is inline iff its guessed type is one of the inline types |
| Downloads.JobRow | app/src/main/java/com/sel2in/jobProc/controller/DownloadController.java:92-104 | folders get a trailing "/" and the folder icon; files get their icon and size; the name is escaped |
| Downloads.RowsFor | app/src/main/java/com/sel2in/jobProc/controller/DownloadController.java:92-104 | one row per entry, in order |
| Downloads.ListJob | app/src/main/java/com/sel2in/jobProc/controller/DownloadController.java:74-114 | 404 without the folder; else one row per entry in name order, and the notice iff the folder is empty |
| Downloads.ListJobOrdered | app/src/main/java/com/sel2in/jobProc/controller/DownloadController.java:84-88 | the rows are in name order and cover every entry once |
| Downloads.Directories | app/src/main/java/com/sel2in/jobProc/controller/DownloadController.java:45-48 | exactly the directory entries |
| Downloads.ListRoot | app/src/main/java/com/sel2in/jobProc/controller/DownloadController.java:36-69 | one row per job folder in name order with its entry count; the notice when there are none |
| Downloads.RootListsFolders | app/src/main/java/com/sel2in/jobProc/controller/DownloadController.java:45-48 | the root lists every folder exactly, sorted |
| SmallJobs.PrependKeepsRecentFirst | app/src/main/java/com/sel2in/jobProc/small/SmallJobService.java:52-56 | the new item comes first and the history keeps at most five, dropping the oldest |
| SmallJobs.JobHistory.constructor | app/src/main/java/com/sel2in/jobProc/small/SmallJobService.java:26-29 | a new entry is "Scheduled" at its time, with nothing else set |
| SmallJobs.SmallJobService.constructor | app/src/main/java/com/sel2in/jobProc/small/SmallJobService.java:32-43 | status "Not Set", empty history, sleep 20 s and random sleep 0 |
| SmallJobs.SmallJobService.CancelSchedule | app/src/main/java/com/sel2in/jobProc/small/SmallJobService.java:62-73 | the pending entry is marked Cancelled; status Idle, no time, no current entry |
| SmallJobs.SmallJobService.SetSchedule | app/src/main/java/com/sel2in/jobProc/small/SmallJobService.java:45-60 | cancels the previous schedule, prepends a fresh entry, and records the time and sleeps |
| SmallJobs.SmallJobService.Begin | app/src/main/java/com/sel2in/jobProc/small/SmallJobService.java:77-81 | Working, and the current entry gets its start time |
| SmallJobs.SmallJobService.End | app/src/main/java/com/sel2in/jobProc/small/SmallJobService.java:84-118 | the entry takes the outcome and end time; the service is reset to Idle unconditionally, as written |
| SmallJobs.SmallJobService.EndCorrected | app/src/main/java/com/sel2in/jobProc/small/SmallJobService.java:110-118 | the service is reset only when the run's entry is still the current one |
| SmallJobs.SmallJobService.Finish | app/src/main/java/com/sel2in/jobProc/small/SmallJobService.java:96-109 | Ran, Interrupted or Error with the exception message |
| SmallJobs.SmallJobService.GetHistory | app/src/main/java/com/sel2in/jobProc/small/SmallJobService.java:129-131 | the history, at most five entries |
| SmallJobs.RescheduleDuringRun | app/src/main/java/com/sel2in/jobProc/small/SmallJobService.java:110-117 | rescheduling during a run, as written, leaves Idle with a task pending, and the next run's entry stays "Scheduled" |
| SmallJobs.RescheduleDuringRunCorrected | app/src/main/java/com/sel2in/jobProc/small/SmallJobService.java:110-117 | with the correction, the new schedule survives and its run records Ran |
| Expense.SplitLine | samples/src/main/java/com/sel2in/jobProc/samples/ExpenseTrackerProcessor.java:264-282 | the loop yields exactly `SplitFields` |
| Expense.ScanQuotes | samples/src/main/java/com/sel2in/jobProc/samples/ExpenseTrackerProcessor.java:271-272 | the scan is inside quotes iff it has seen an odd number of '"' |
| Expense.FieldCount | samples/src/main/java/com/sel2in/jobProc/samples/ExpenseTrackerProcessor.java:273-280 | fields = separators outside quotes + 1 |
| Expense.ScanParts | samples/src/main/java/com/sel2in/jobProc/samples/ExpenseTrackerProcessor.java:273-275 | one finished part per unquoted separator |
| Expense.FieldsConcat | samples/src/main/java/com/sel2in/jobProc/samples/ExpenseTrackerProcessor.java:269-281 | the fields concatenate to the line without quotes and unquoted separators |
| Expense.AmountText | samples/src/main/java/com/sel2in/jobProc/samples/ExpenseTrackerProcessor.java:253 | only digits, dots and minus signs remain |
| Expense.DetectSeparator | samples/src/main/java/com/sel2in/jobProc/samples/ExpenseTrackerProcessor.java:227-229 | '|' iff the second line (the only one, if alone) contains one, else ',' |
| Expense.RowEntry | samples/src/main/java/com/sel2in/jobProc/samples/ExpenseTrackerProcessor.java:246-256 | at most one entry, and only from a line with three or more fields |
| Expense.ParseFile | samples/src/main/java/com/sel2in/jobProc/samples/ExpenseTrackerProcessor.java:222-262 | the loop yields exactly `ParsedEntries` |
| Expense.ParseScanReadsDataLines | samples/src/main/java/com/sel2in/jobProc/samples/ExpenseTrackerProcessor.java:231-247 | the entries are the rows of the non-blank lines after an optional first header |
| Expense.ParsedEntriesAreDataRows | samples/src/main/java/com/sel2in/jobProc/samples/ExpenseTrackerProcessor.java:222-262 | `parseFile` reads exactly the data lines with the detected separator |
| Expense.AnyKeywordIff | samples/src/main/java/com/sel2in/jobProc/samples/ExpenseTrackerProcessor.java:308-312 | the keyword loop matches iff the description mentions some keyword |
| Expense.FirstCategorySpec | samples/src/main/java/com/sel2in/jobProc/samples/ExpenseTrackerProcessor.java:305-315 | Other iff no category is mentioned; otherwise the first mentioned category |
| Expense.CategorizeSpec | samples/src/main/java/com/sel2in/jobProc/samples/ExpenseTrackerProcessor.java:305-315 | the same for the eight fixed categories, on the lower-cased description |
| Expense.LabelsAreCategories | samples/src/main/java/com/sel2in/jobProc/samples/ExpenseTrackerProcessor.java:141-148 | the totals' keys are the eight categories then Other, all distinct |
| Expense.CategorizeLabels | samples/src/main/java/com/sel2in/jobProc/samples/ExpenseTrackerProcessor.java:150-153 | every description falls under one of the labels |
| Expense.TotalsCoverAmounts | samples/src/main/java/com/sel2in/jobProc/samples/ExpenseTrackerProcessor.java:150-156 | summing the per-label totals gives the sum of all amounts |
| Expense.GrandTotalIsAllAmounts | samples/src/main/java/com/sel2in/jobProc/samples/ExpenseTrackerProcessor.java:156 | the grand total is the sum of all parsed amounts |
| Expense.CategoriesFound | samples/src/main/java/com/sel2in/jobProc/samples/ExpenseTrackerProcessor.java:179-182 | exactly the labels whose total is positive |
| Expense.ReviewJob | samples/src/main/java/com/sel2in/jobProc/samples/ExpenseTrackerProcessor.java:76-94 | 60 s without a usable `sleep`; with one, 60 s plus 105% of it truncated toward zero (within one millisecond): at least 60 s + sleep for sleep ≥ 0, at most 60 s + sleep for a negative sleep |
| Expense.ProcessJob | samples/src/main/java/com/sel2in/jobProc/samples/ExpenseTrackerProcessor.java:96-216 | NO_INPUT without files, PROCESSING_ERROR on a read error, EMPTY_DATA without entries; otherwise every entry categorized |
| Expense.ReadFiles | samples/src/main/java/com/sel2in/jobProc/samples/ExpenseTrackerProcessor.java:128-131 | the loop yields exactly `ReadAll` |
| Expense.CategorizeAll | samples/src/main/java/com/sel2in/jobProc/samples/ExpenseTrackerProcessor.java:150-154 | the loop yields each entry's category |
| Expense.ReadAllStops | samples/src/main/java/com/sel2in/jobProc/samples/ExpenseTrackerProcessor.java:126-131 | the first file that fails to read ends the run with its error |
| Simple.SimpleProcess | samples/src/main/java/com/sel2in/jobProc/samples/SimpleProcessor.java:23-45 | SUCCESS for the same id with the fixed note and `processedAt` |
| Simple.SimpleJobOutcome | samples/src/main/java/com/sel2in/jobProc/samples/SimpleProcessor.java:17-21 | a simple job is SUCCESS with no error row within 15 s, and TIMED_OUT after |
| Simple.ExpenseStopRecorded | samples/src/main/java/com/sel2in/jobProc/samples/ExpenseTrackerProcessor.java:118-138 | an expense run that stops early is recorded FAILED with its code and one error row |

## Left out

- Threads and timing: `CompletableFuture` runs, `future.get` with its timeout, and interrupts are not modelled. How a run ends is given as a `RunEvent`, and completion, crash and cancel are separate method calls.
- The clock is left out. `now` is an integer parameter; `LocalDateTime` text, time zones and the conversion to Quartz `Date` are abstract.
- File system and multipart uploads: directory listings, files on disk and uploaded bytes are given as values. `Files.readAllLines` is a `FileReader` function, and writing a jar is returned as the (path, bytes) written.
- SHA-256 and reflection (`URLClassLoader`, `Class.forName`, `newInstance`) are not modelled: they are functions in `Env`.
- Quartz and Spring's `TaskScheduler` are not modelled. Quartz is reduced to its key–trigger store, and the small service's task to its state (none, pending, fired).
- JSON parsing of the `inputData` field is not modelled. It arrives as an already parsed list of entries, and the catch for malformed JSON is not modelled.
- Hibernate's persistence context: each controller is assumed to save the record the `exceptionally` stage has just merged, because cancel runs that stage in the request thread.
- `Expense.ReviewJob`: `(long)(sleep * 1.05)` is computed exactly, without double rounding, so the overhead is stated only within one millisecond of 105% of the sleep. Amounts are reals, and `Double.parseDouble` is a parameter.
- The expense report: `parseDate`, the HTML/SVG report, `DecimalFormat`, the output note, `outputFiles`, `outputParameters` and the configurable sleep are not modelled. They are presentation or timing, and the entries, categories and totals they show are modelled.
- `buildHtml`, and the HTML around listing rows, are not modelled; rows and pages are records.
- `JobController.getStats`, `JobEngine.getActiveCount` and the reflection-based thread count are not modelled. They are reporting only.
- `JobRecord.createdTs` and the processor definition's `active` flag are not modelled. Nothing in the core reads them.
- `SmallJobService.getStatus` and `getScheduledTime` are not given methods of their own. They are plain getters, and the fields are public in the model.
- The random sleep of the small service is not modelled; it only affects timing.
- `misc/LogCleaner.java`, the UI scripts, `SecurityConfig`, the application mains, `smallapp/ScheduleController.java` and the `src/` `JobController` are not part of this model. They are wiring or are outside the scheduler core.
- Integer widths: ids and times are unbounded. Only the `int` and `long` ranges that `parseInt` and `parseLong` enforce are modelled, and the `long` overflow of `estimate * 1.5` for estimates near 2^63 is not.
- `Common.ToLower` lowers ASCII letters only; Java's full Unicode case mapping is not modelled.
- `Common.ParseInteger` accepts ASCII digits only. `Integer.parseInt` and `Long.parseLong` also accept any other Unicode decimal digit (for example Arabic-Indic "١٢" reads as 12); those strings are refused here.
- `Listing.NameLe` compares code points (Dafny's `char`), while `String.compareTo` compares UTF-16 code units. Names mixing characters above U+FFFF with ones in U+E000–U+FFFF (say U+FF61 and U+1F600) therefore sort the other way round here.
- `Plugin.Processor`: `processJob` always returns an output, never null. In the source a null output makes `output.getStatus()` at app/src/main/java/com/sel2in/jobProc/service/JobExecutionService.java:99 throw, and the `exceptionally` stage then records FAILED with ENGINE_ERROR; that path is not modelled.
- `Plugin.InputData`: a parameter value is never null. In the source a null `sleep` value makes `params.get("sleep").toString()` at samples/src/main/java/com/sel2in/jobProc/samples/ExpenseTrackerProcessor.java:84 throw a `NullPointerException` that its `NumberFormatException` catch does not handle; that path is not modelled.
- `Plugin.OutputData` has a `mainErrorCode` field. The class at app/src/main/java/com/sel2in/jobProc/processor/OutputData.java:9-20 declares no such field, although app/src/main/java/com/sel2in/jobProc/service/JobExecutionService.java:99-108, app/src/main/java/com/sel2in/jobProc/service/JobEngine.java:163 and the expense processor call its accessors; the model assumes the field those calls imply. `jobId`, `outputCommand`, `jobStartDateTime` and `jobEndDateTime` are dropped because nothing in the core reads them.
- `Quartz.Scheduler` fails or succeeds as a whole: its `failure` field is fixed for the duration of one request. So `Jobs.JobController.Reschedule`, `Jobs.JobController.ClearKeys` and `Jobs.JobController.RunNow` are all-or-nothing. In the source, `unscheduleJob`, `deleteJob` and `scheduleQuartzJob` are three calls (app/src/main/java/com/sel2in/jobProc/controller/JobController.java:240-247), and a throw from the second or third leaves the SCHEDULED row without a trigger; that state is not modelled.
- `Records.FindByStatus` and `Jobs.InOrder` return rows in insertion (id) order. `findByStatus` and `findAll` have no ORDER BY, so the database chooses their order; the model fixes insertion order, and `GetStatus` and `RecoverMissedJobs` inherit it.
- `Jobs.JobController.SaveUploads` and `Processors.ProcessorController.UploadJar` compute the resolved path but do not model writing to it: a name that resolves to the directory itself (an empty name), or one holding a NUL character (`InvalidPathException`), yields a row or a registration where the source throws.
- `Records.ProcessorDefinition` has a `checksum` column. The entity at app/src/main/java/com/sel2in/jobProc/entity/ProcessorDefinition.java:12-45 declares no such field, although app/src/main/java/com/sel2in/jobProc/controller/ProcessorController.java:107 calls `setChecksum` and app/src/main/java/com/sel2in/jobProc/service/JobExecutionService.java:66 calls `getChecksum`; the model assumes the nullable column those calls imply.
- `Processors.DefinitionBody` carries the id, class name, jar path and checksum of the posted JSON. Posted `createdTs`, `updatedTs` and `active` are taken as absent: `add` overwrites or `@PrePersist` stamps the timestamps, and `active` is not modelled.

## Findings

| source | as written | input that shows it | evidently intended | confidence | as-written member | corrected member |
|---|---|---|---|---|---|---|
| app/src/main/java/com/sel2in/jobProc/small/SmallJobService.java:110-117 | the `finally` block (also at smallapp/src/main/java/com/example/smallapp/JobService.java:107-115) resets status, time and current entry even when `setSchedule` ran during the run | `setSchedule(t1)`; the run begins; `setSchedule(t2)`; the run ends | keep the new schedule; its task is still pending, so status should read "Scheduled at t2" and its run should record Ran | not executed | SmallJobs.RescheduleDuringRun | SmallJobs.RescheduleDuringRunCorrected |
| app/src/main/java/com/sel2in/jobProc/controller/ProcessorController.java:46-49 | `add` saves the posted definition; a body without an id (or with an id no row has) is inserted, so an existing `className` gives a duplicate that breaks the unique constraint at app/src/main/java/com/sel2in/jobProc/entity/ProcessorDefinition.java:20 | `add` with the `className` of a registered processor and no `id` | an update of the existing definition that keeps its id and `createdTs`, as `uploadJar` does | not executed | Processors.ProcessorController.Add | Processors.ProcessorController.AddCorrected |
| app/src/main/java/com/sel2in/jobProc/service/JobEngine.java:64-65 | `resizePool` calls `setCorePoolSize` before `setMaximumPoolSize` on a pool built by `newFixedThreadPool` (core = maximum); from Java 9 on the first call throws `IllegalArgumentException` when the new core exceeds the maximum, so the pool can never grow, while `setParam` has already saved the new value | `setParam("numberOfThreads", "10")` with the pool at 5 | set the maximum first when growing, so the live pool matches the stored value | not executed | Admin.GrowPool | Admin.GrowPoolCorrected |
