/** The persisted entities (job records, processor definitions, job errors,
    input rows, application parameters) and the repositories that store them,
    one `Database` object holding every table. Times are whole seconds on one
    clock; the clock itself is a parameter of the operations that read it. */
module Records {
  import opened Common

  type Time = int

  const SCHEDULED := "SCHEDULED"
  const RUNNING := "RUNNING"
  const SUCCESS := "SUCCESS"
  const FAILED := "FAILED"
  const TIMED_OUT := "TIMED_OUT"
  const CANCELLED := "CANCELLED"
  const SCHEDULE_FAILED := "SCHEDULE_FAILED"
  const ENGINE_ERROR := "ENGINE_ERROR"

  /** A row of the job table (`JobRecord`). */
  datatype JobRecord = JobRecord(
    id: int,
    jobName: Option<string>,
    processorClassName: Option<string>,
    comment: Option<string>,
    notes: Option<string>,
    submitted: Option<Time>,
    scheduledRunTime: Option<Time>,
    status: string,
    startTime: Option<Time>,
    endTime: Option<Time>,
    mainErrorCode: Option<string>,
    errorReason: Option<string>)

  /** A registered processor (`ProcessorDefinition`); `id` is null until first saved. */
  datatype ProcessorDefinition = ProcessorDefinition(
    id: Option<int>,
    className: string,
    jarPath: string,
    checksum: Option<string>,
    createdTs: Option<Time>,
    updatedTs: Option<Time>)

  /** A row of the error table (`JobError`). */
  datatype JobError = JobError(jobId: int, reasonCode: Option<string>, reasonString: Option<string>)

  /** An uploaded input file of a job (`InputDataFile`). */
  datatype InputDataFile = InputDataFile(inputDataId: int, fileName: string, filePath: string, fileSize: int)

  /** The value of one input parameter: a JSON number is stored as NUMBER, anything else as STRING. */
  datatype ParamValue = NumberValue(number: real) | StringValue(text: string)

  /** An input parameter of a job (`InputDataParam`). */
  datatype InputDataParam = InputDataParam(inputDataId: int, paramName: string, value: ParamValue)

  function ParamType(v: ParamValue): string {
    if v.NumberValue? then "NUMBER" else "STRING"
  }

  /** A configuration entry (`AppParam`), keyed by name. */
  datatype AppParam = AppParam(name: string, value: Option<string>, description: Option<string>)

  /** `findByStatus`: the records with that status, in insertion order. */
  function FindByStatus(jobs: map<int, JobRecord>, order: seq<int>, status: string): seq<JobRecord>
    requires forall i :: 0 <= i < |order| ==> order[i] in jobs
  {
    if |order| == 0 then []
    else
      var rest := FindByStatus(jobs, order[1..], status);
      if jobs[order[0]].status == status then [jobs[order[0]]] + rest else rest
  }

  predicate StrictlyIncreasing(s: seq<int>) {
    forall i, j :: 0 <= i < j < |s| ==> s[i] < s[j]
  }

  /** What `findByStatus` returns: stored records with that status, in
      increasing id order, and every such record. */
  lemma {:induction false} FindByStatusSound(jobs: map<int, JobRecord>, order: seq<int>, status: string)
    requires forall i :: 0 <= i < |order| ==> order[i] in jobs && jobs[order[i]].id == order[i]
    requires StrictlyIncreasing(order)
    ensures var r := FindByStatus(jobs, order, status);
      (forall k :: 0 <= k < |r| ==> r[k].id in jobs && jobs[r[k].id] == r[k] && r[k].status == status && r[k].id in order)
      && (forall k, l :: 0 <= k < l < |r| ==> r[k].id < r[l].id)
      && (forall i :: 0 <= i < |order| && jobs[order[i]].status == status ==> jobs[order[i]] in r)
  {
    if |order| > 0 {
      FindByStatusSound(jobs, order[1..], status);
      var rest := FindByStatus(jobs, order[1..], status);
      assert forall k :: 0 <= k < |rest| ==> rest[k].id in order[1..];
    }
  }

  /** `findByInputDataId`: the rows of one job, in insertion order. Every
      row returned belongs to the job, and every row of the job is returned. */
  function FilesOf(rows: seq<InputDataFile>, jobId: int): (r: seq<InputDataFile>)
    ensures forall k :: 0 <= k < |r| ==> r[k] in rows && r[k].inputDataId == jobId
    ensures forall e :: e in rows && e.inputDataId == jobId ==> e in r
    ensures |r| <= |rows|
  {
    if |rows| == 0 then []
    else (if rows[0].inputDataId == jobId then [rows[0]] else []) + FilesOf(rows[1..], jobId)
  }

  /** The table order is kept: the job's rows among earlier rows come before
      its rows among later ones, so an appended row is returned last. */
  lemma {:induction false} FilesOfAppend(a: seq<InputDataFile>, b: seq<InputDataFile>, jobId: int)
    ensures FilesOf(a + b, jobId) == FilesOf(a, jobId) + FilesOf(b, jobId)
    decreases |a|
  {
    if |a| > 0 {
      assert (a + b)[1..] == a[1..] + b;
      FilesOfAppend(a[1..], b, jobId);
    } else {
      assert a + b == b;
    }
  }

  /** The stand-in for the driver's unique-constraint message. */
  const UNIQUE_CLASS_NAME := "could not execute statement; unique constraint on class_name violated"

  /** Some stored definition has this (non-null) id. */
  predicate HoldsId(processors: map<string, ProcessorDefinition>, id: Option<int>) {
    id.Some? && exists c :: c in processors && processors[c].id == id
  }

  /** The flush's dirty check: an updatable column differs from the stored row. */
  predicate Dirty(stored: ProcessorDefinition, def: ProcessorDefinition) {
    stored.className != def.className || stored.jarPath != def.jarPath
    || stored.checksum != def.checksum || stored.updatedTs != def.updatedTs
  }

  /** The row a merge leaves: the new values, the stored creation time, and
      `updatedTs` stamped by `@PreUpdate` only when something changed. */
  function Merged(stored: ProcessorDefinition, def: ProcessorDefinition, now: Time): (m: ProcessorDefinition)
    ensures m.id == def.id && m.className == def.className && m.jarPath == def.jarPath && m.checksum == def.checksum
    ensures m.createdTs == stored.createdTs
    ensures Dirty(stored, def) ==> m.updatedTs == Some(now)
    ensures !Dirty(stored, def) ==> m == stored.(id := def.id)
  {
    def.(createdTs := stored.createdTs, updatedTs := if Dirty(stored, def) then Some(now) else def.updatedTs)
  }

  class Database {
    /** The job table by id, and the ids in insertion (= id) order. */
    var jobs: map<int, JobRecord>
    var order: seq<int>
    var nextJobId: int
    /** The processor table, keyed by its unique class name. */
    var processors: map<string, ProcessorDefinition>
    var nextProcessorId: int
    var inputFiles: seq<InputDataFile>
    var inputParams: seq<InputDataParam>
    var jobErrors: seq<JobError>
    var appParams: map<string, AppParam>

    ghost predicate Valid()
      reads this
    {
      && 1 <= nextJobId
      && (forall id :: id in jobs ==> jobs[id].id == id && id < nextJobId)
      && (forall i :: 0 <= i < |order| ==> order[i] in jobs)
      && (forall id :: id in jobs ==> id in order)
      && StrictlyIncreasing(order)
      && (forall c :: c in processors ==>
            processors[c].className == c && processors[c].id.Some? && processors[c].id.value < nextProcessorId
            && processors[c].createdTs.Some? && processors[c].updatedTs.Some?)
      && (forall c, d :: c in processors && d in processors && processors[c].id == processors[d].id ==> c == d)
      && (forall n :: n in appParams ==> appParams[n].name == n)
    }

    constructor()
      ensures Valid()
      ensures jobs == map[] && order == [] && processors == map[] && inputFiles == []
      ensures inputParams == [] && jobErrors == [] && appParams == map[]
    {
      jobs := map[];
      order := [];
      nextJobId := 1;
      processors := map[];
      nextProcessorId := 1;
      inputFiles := [];
      inputParams := [];
      jobErrors := [];
      appParams := map[];
    }

    /** `jobRepository.save` of a new record: the identity column assigns the next id. */
    method InsertJob(r: JobRecord) returns (saved: JobRecord)
      requires Valid()
      modifies this
      ensures Valid()
      ensures saved == r.(id := old(nextJobId)) && saved.id !in old(jobs)
      ensures jobs == old(jobs)[saved.id := saved] && order == old(order) + [saved.id]
      ensures nextJobId == old(nextJobId) + 1
      ensures processors == old(processors) && nextProcessorId == old(nextProcessorId)
      ensures inputFiles == old(inputFiles) && inputParams == old(inputParams)
      ensures jobErrors == old(jobErrors) && appParams == old(appParams)
    {
      saved := r.(id := nextJobId);
      jobs := jobs[saved.id := saved];
      order := order + [saved.id];
      nextJobId := nextJobId + 1;
    }

    /** `jobRepository.save` of a stored record: overwrite the row with this value. */
    method SaveJob(r: JobRecord)
      requires Valid() && r.id in jobs
      modifies this
      ensures Valid()
      ensures jobs == old(jobs)[r.id := r] && order == old(order) && nextJobId == old(nextJobId)
      ensures processors == old(processors) && nextProcessorId == old(nextProcessorId)
      ensures inputFiles == old(inputFiles) && inputParams == old(inputParams)
      ensures jobErrors == old(jobErrors) && appParams == old(appParams)
    {
      jobs := jobs[r.id := r];
    }

    method AppendJobError(e: JobError)
      requires Valid()
      modifies this
      ensures Valid()
      ensures jobErrors == old(jobErrors) + [e]
      ensures jobs == old(jobs) && order == old(order) && nextJobId == old(nextJobId)
      ensures processors == old(processors) && nextProcessorId == old(nextProcessorId)
      ensures inputFiles == old(inputFiles) && inputParams == old(inputParams) && appParams == old(appParams)
    {
      jobErrors := jobErrors + [e];
    }

    method AppendInputFile(f: InputDataFile)
      requires Valid()
      modifies this
      ensures Valid()
      ensures inputFiles == old(inputFiles) + [f]
      ensures jobs == old(jobs) && order == old(order) && nextJobId == old(nextJobId)
      ensures processors == old(processors) && nextProcessorId == old(nextProcessorId)
      ensures inputParams == old(inputParams) && jobErrors == old(jobErrors) && appParams == old(appParams)
    {
      inputFiles := inputFiles + [f];
    }

    method AppendInputParam(p: InputDataParam)
      requires Valid()
      modifies this
      ensures Valid()
      ensures inputParams == old(inputParams) + [p]
      ensures jobs == old(jobs) && order == old(order) && nextJobId == old(nextJobId)
      ensures processors == old(processors) && nextProcessorId == old(nextProcessorId)
      ensures inputFiles == old(inputFiles) && jobErrors == old(jobErrors) && appParams == old(appParams)
    {
      inputParams := inputParams + [p];
    }

    /** `processorRepository.save`. A definition whose id is null, or names no
        stored row, is inserted under the next id (`@PrePersist` stamps both
        times). A definition carrying a stored row's id is merged into that
        row: `createdTs` is a non-updatable column, and `@PreUpdate` stamps
        `updatedTs` only when the flush finds a changed column. Either way the
        unique class-name column refuses a second row with the same name. */
    method SaveProcessor(def: ProcessorDefinition, now: Time) returns (r: Result<ProcessorDefinition, string>)
      requires Valid()
      modifies this
      ensures Valid()
      ensures !HoldsId(old(processors), def.id) && def.className in old(processors) ==>
        r.Err? && processors == old(processors) && nextProcessorId == old(nextProcessorId)
      ensures !HoldsId(old(processors), def.id) && def.className !in old(processors) ==>
        r == Ok(def.(id := Some(old(nextProcessorId)), createdTs := Some(now), updatedTs := Some(now)))
        && processors == old(processors)[def.className := r.value]
        && nextProcessorId == old(nextProcessorId) + 1
      ensures forall c :: c in old(processors) && old(processors)[c].id == def.id ==>
        if def.className != c && def.className in old(processors) then
          r.Err? && processors == old(processors) && nextProcessorId == old(nextProcessorId)
        else
          r == Ok(Merged(old(processors)[c], def, now))
          && processors == (old(processors) - {c})[def.className := r.value]
          && nextProcessorId == old(nextProcessorId)
      ensures jobs == old(jobs) && order == old(order) && nextJobId == old(nextJobId)
      ensures inputFiles == old(inputFiles) && inputParams == old(inputParams)
      ensures jobErrors == old(jobErrors) && appParams == old(appParams)
    {
      if HoldsId(processors, def.id) {
        var c :| c in processors && processors[c].id == def.id;
        if def.className != c && def.className in processors {
          return Err(UNIQUE_CLASS_NAME);
        }
        var stored := Merged(processors[c], def, now);
        processors := (processors - {c})[def.className := stored];
        r := Ok(stored);
      } else {
        if def.className in processors {
          return Err(UNIQUE_CLASS_NAME);
        }
        var stored := def.(id := Some(nextProcessorId), createdTs := Some(now), updatedTs := Some(now));
        processors := processors[def.className := stored];
        nextProcessorId := nextProcessorId + 1;
        r := Ok(stored);
      }
    }

    method DeleteProcessor(className: string)
      requires Valid()
      modifies this
      ensures Valid()
      ensures processors == old(processors) - {className} && nextProcessorId == old(nextProcessorId)
      ensures jobs == old(jobs) && order == old(order) && nextJobId == old(nextJobId)
      ensures inputFiles == old(inputFiles) && inputParams == old(inputParams)
      ensures jobErrors == old(jobErrors) && appParams == old(appParams)
    {
      processors := processors - {className};
    }

    method SaveParam(p: AppParam)
      requires Valid()
      modifies this
      ensures Valid()
      ensures appParams == old(appParams)[p.name := p]
      ensures jobs == old(jobs) && order == old(order) && nextJobId == old(nextJobId)
      ensures processors == old(processors) && nextProcessorId == old(nextProcessorId)
      ensures inputFiles == old(inputFiles) && inputParams == old(inputParams) && jobErrors == old(jobErrors)
    {
      appParams := appParams[p.name := p];
    }
  }
}
