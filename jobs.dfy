/** `JobController` (the `/api/job` endpoints): scheduling a job with its
    uploaded files and JSON parameters, rescheduling it to run now, cancelling
    it, paging through the job table, and listing a job's files. The clock is
    the `now` parameter, the uploaded files and the job's output directory
    are given as values, and the JSON text arrives already parsed. */
module Jobs {
  import opened Common
  import opened Records
  import opened Engine
  import opened Execution
  import opened Quartz
  import opened Listing

  const MIN_DELAY_SECONDS := 30
  const RUN_NOW_DELAY_SECONDS := 3
  const DEFAULT_PAGE_SIZE := 50
  const MAX_PAGE_SIZE := 100
  const MAX_LISTED_FILES := 3
  const USER_CANCEL_REASON := "Job cancelled by user"

  // ------------------------------------------------------------- scheduling

  /** A negative delay component counts as zero. */
  function ClampDelay(d: int): (r: nat)
    ensures d >= 0 ==> r == d
    ensures d < 0 ==> r == 0
  {
    if d < 0 then 0 else d
  }

  /** `now.plusDays(d).plusHours(h).plusMinutes(m)` with clamped components, in seconds. */
  function Requested(now: Time, days: int, hours: int, minutes: int): Time {
    now + ClampDelay(days) * 86400 + ClampDelay(hours) * 3600 + ClampDelay(minutes) * 60
  }

  /** The run time: the requested time, or 30 seconds from now if that is earlier. */
  function RunAt(now: Time, days: int, hours: int, minutes: int): (t: Time)
    ensures t >= now + MIN_DELAY_SECONDS && t >= Requested(now, days, hours, minutes)
    ensures t == now + MIN_DELAY_SECONDS || t == Requested(now, days, hours, minutes)
  {
    var requested := Requested(now, days, hours, minutes);
    var earliest := now + MIN_DELAY_SECONDS;
    if requested < earliest then earliest else requested
  }

  /** A job never runs sooner than 30 seconds after submission, and a request
      of at least that much delay is kept exactly; the default one minute runs
      a minute from now. */
  lemma RunAtRespectsRequest(now: Time, days: int, hours: int, minutes: int)
    ensures RunAt(now, days, hours, minutes) > now
    ensures ClampDelay(days) > 0 || ClampDelay(hours) > 0 ==>
      RunAt(now, days, hours, minutes) == Requested(now, days, hours, minutes)
    ensures RunAt(now, 0, 0, 1) == now + 60
    ensures RunAt(now, -5, -5, -5) == now + MIN_DELAY_SECONDS
  {
  }

  /** The fields of `schedule` that fail validation, in the order they are checked. */
  function ValidationError(jobName: Option<string>, className: Option<string>): Option<string> {
    if BlankOrNull(jobName) then Some("jobName cannot be empty")
    else if BlankOrNull(className) then Some("processorClassName cannot be empty")
    else if UnsafeClassName(className.value) then Some("processorClassName contains invalid characters (/, \\, ..)")
    else None
  }

  /** A request passes validation exactly when both names are present and
      non-blank and the class name holds no '/', '\' or "..". */
  lemma ValidationErrorIff(jobName: Option<string>, className: Option<string>)
    ensures ValidationError(jobName, className).None? <==>
      jobName.Some? && className.Some?
      && (exists i :: 0 <= i < |jobName.value| && jobName.value[i] > ' ')
      && (exists i :: 0 <= i < |className.value| && className.value[i] > ' ')
      && '/' !in className.value && '\\' !in className.value
      && (forall i :: 0 <= i < |className.value| - 1 ==> !(className.value[i] == '.' && className.value[i + 1] == '.'))
  {
    if jobName.Some? {
      TrimEmpty(jobName.value);
    }
    if className.Some? {
      TrimEmpty(className.value);
      UnsafeClassNameIff(className.value);
    }
  }

  /** The record `schedule` saves. */
  function NewJob(jobName: Option<string>, className: Option<string>, comment: Option<string>, now: Time, runAt: Time): JobRecord {
    JobRecord(0, jobName, className, comment, None, Some(now), Some(runAt), SCHEDULED, None, None, None, None)
  }

  /** One uploaded file: its original name and its size in bytes. */
  datatype Upload = Upload(fileName: string, size: int)

  /** `Paths.get(inputFileDirectory, id).resolve(name).toAbsolutePath()`, with the
      absolute form of the input directory (slashes collapsed, "." kept) given as `inputRoot`. */
  function StoredPath(inputRoot: string, jobId: int, fileName: string): string {
    Resolve(inputRoot + "/" + IntToString(jobId), fileName)
  }

  /** The rows the upload loop saves: one per non-empty file, in upload order. */
  function FileRows(jobId: int, inputRoot: string, uploads: seq<Upload>): seq<InputDataFile> {
    if |uploads| == 0 then []
    else
      var u := uploads[|uploads| - 1];
      FileRows(jobId, inputRoot, uploads[..|uploads| - 1])
      + (if u.size == 0 then [] else [InputDataFile(jobId, u.fileName, StoredPath(inputRoot, jobId, u.fileName), u.size)])
  }

  /** Every saved row belongs to the job and is a non-empty upload stored
      under the job's directory, and every non-empty upload has its row. */
  lemma {:induction false} FileRowsSpec(jobId: int, inputRoot: string, uploads: seq<Upload>)
    ensures var rows := FileRows(jobId, inputRoot, uploads);
      |rows| <= |uploads|
      && (forall k :: 0 <= k < |rows| ==>
            rows[k].inputDataId == jobId && rows[k].fileSize != 0
            && rows[k].filePath == StoredPath(inputRoot, jobId, rows[k].fileName)
            && Upload(rows[k].fileName, rows[k].fileSize) in uploads)
      && (forall u :: u in uploads && u.size != 0 ==>
            InputDataFile(jobId, u.fileName, StoredPath(inputRoot, jobId, u.fileName), u.size) in rows)
  {
    if |uploads| > 0 {
      var init := uploads[..|uploads| - 1];
      FileRowsSpec(jobId, inputRoot, init);
      assert uploads == init + [uploads[|uploads| - 1]];
    }
  }

  /** A parsed JSON value: null, a number, or anything else with its `toString()`. */
  datatype JsonValue = JsonNull | JsonNumber(number: real) | JsonOther(text: string)

  /** How many entries the parameter loop saves: a null value throws
      `NullPointerException`, which ends the loop. */
  function StoredPrefix(entries: seq<(string, JsonValue)>): (n: nat)
    ensures n <= |entries|
    ensures forall k :: 0 <= k < n ==> !entries[k].1.JsonNull?
    ensures n < |entries| ==> entries[n].1.JsonNull?
  {
    if |entries| == 0 || entries[0].1.JsonNull? then 0 else 1 + StoredPrefix(entries[1..])
  }

  /** A number is stored as NUMBER, anything else as STRING. */
  function ParamRow(jobId: int, entry: (string, JsonValue)): (p: InputDataParam)
    requires !entry.1.JsonNull?
    ensures p.inputDataId == jobId && p.paramName == entry.0
    ensures ParamType(p.value) == "NUMBER" <==> entry.1.JsonNumber?
  {
    InputDataParam(jobId, entry.0,
                   if entry.1.JsonNumber? then NumberValue(entry.1.number) else StringValue(entry.1.text))
  }

  /** The rows `put` stores: one per entry up to the first null value. */
  function ParamRows(jobId: int, entries: seq<(string, JsonValue)>): seq<InputDataParam> {
    RowsUpTo(jobId, entries, StoredPrefix(entries))
  }

  /** The rows of the first `n` entries, in entry order. */
  function RowsUpTo(jobId: int, entries: seq<(string, JsonValue)>, n: nat): (r: seq<InputDataParam>)
    requires n <= |entries| && forall k :: 0 <= k < n ==> !entries[k].1.JsonNull?
    ensures |r| == n && forall k :: 0 <= k < n ==> r[k] == ParamRow(jobId, entries[k])
  {
    if n == 0 then [] else RowsUpTo(jobId, entries, n - 1) + [ParamRow(jobId, entries[n - 1])]
  }

  /** A job's Quartz keys are its own: each stored job detail carries the id
      its key names, that id is a stored job, and each trigger is named after
      the job it starts. */
  ghost predicate KeysMatchJobs(scheduler: Scheduler, jobs: map<int, JobRecord>)
    reads scheduler
  {
    KeyMaps(scheduler.jobs, scheduler.triggers, jobs)
  }

  /** `KeysMatchJobs` on the scheduler's two maps. */
  predicate KeyMaps(details: map<Key, int>, triggers: map<Key, Trigger>, jobs: map<int, JobRecord>) {
    (forall k :: k in details ==> k == JobKeyOf(details[k]) && details[k] in jobs)
    && (forall t :: t in triggers ==>
          triggers[t].jobKey in details && t == TriggerKeyOf(details[triggers[t].jobKey]))
  }

  /** Storing a stored job's detail and trigger under its own keys keeps the
      keys matching the jobs. */
  lemma KeysAdded(details: map<Key, int>, triggers: map<Key, Trigger>, jobs: map<int, JobRecord>, id: int, at: int)
    requires KeyMaps(details, triggers, jobs) && id in jobs
    ensures KeyMaps(details[JobKeyOf(id) := id], triggers[TriggerKeyOf(id) := Trigger(JobKeyOf(id), at)], jobs)
  {
    if JobKeyOf(id) in details {
      KeysIdentifyJob(id, details[JobKeyOf(id)]);
    }
  }

  /** The record `scheduleQuartzJob`'s catch block saves. */
  function ScheduleFailed(job: JobRecord, reason: string): JobRecord {
    job.(status := SCHEDULE_FAILED, notes := Some("Quartz error: " + reason))
  }

  function RescheduledMessage(jobId: int): string {
    "Job " + IntToString(jobId) + " rescheduled to run in 3 seconds"
  }

  function RescheduleError(reason: string): string {
    "Error rescheduling job: " + reason
  }

  /** Removing a key and storing it again is storing it. */
  lemma RemoveThenSet<K, V>(m: map<K, V>, k: K, v: V)
    ensures (m - {k})[k := v] == m[k := v]
  {
  }

  /** A job without a stored job detail has no trigger either. */
  lemma NoKeysForNewJob(scheduler: Scheduler, jobs: map<int, JobRecord>, id: int)
    requires KeysMatchJobs(scheduler, jobs) && id !in jobs
    ensures JobKeyOf(id) !in scheduler.jobs && TriggerKeyOf(id) !in scheduler.triggers
  {
    if JobKeyOf(id) in scheduler.jobs {
      KeysIdentifyJob(id, scheduler.jobs[JobKeyOf(id)]);
    }
    if TriggerKeyOf(id) in scheduler.triggers {
      KeysIdentifyJob(id, scheduler.jobs[scheduler.triggers[TriggerKeyOf(id)].jobKey]);
    }
  }

  // ----------------------------------------------------------------- paging

  /** `getStatus`'s clamps: page below 0 becomes 0, size below 1 becomes 50, above 100 becomes 100. */
  function ClampPage(page: int, size: int): (r: (nat, nat))
    ensures 1 <= r.1 <= MAX_PAGE_SIZE
    ensures r.0 == Max(page, 0)
    ensures 1 <= size <= MAX_PAGE_SIZE ==> r.1 == size
    ensures size < 1 ==> r.1 == DEFAULT_PAGE_SIZE
    ensures size > MAX_PAGE_SIZE ==> r.1 == MAX_PAGE_SIZE
  {
    (if page < 0 then 0 else page,
     if size < 1 then DEFAULT_PAGE_SIZE else if size > MAX_PAGE_SIZE then MAX_PAGE_SIZE else size)
  }

  /** `findAll()`: the stored records in insertion order. */
  function InOrder(jobs: map<int, JobRecord>, order: seq<int>): (r: seq<JobRecord>)
    requires forall i :: 0 <= i < |order| ==> order[i] in jobs
    ensures |r| == |order| && forall i :: 0 <= i < |order| ==> r[i] == jobs[order[i]]
  {
    seq(|order|, i requires 0 <= i < |order| => jobs[order[i]])
  }

  function Reverse<T>(s: seq<T>): (r: seq<T>)
    ensures |r| == |s| && forall i :: 0 <= i < |s| ==> r[i] == s[|s| - 1 - i]
  {
    seq(|s|, i requires 0 <= i < |s| => s[|s| - 1 - i])
  }

  /** Reversing twice gives the input back, and a reversal neither loses nor
      adds an element: `Sort.by(DESC, "id")` only reorders the records. */
  lemma {:induction false} ReverseIsPermutation<T>(s: seq<T>)
    ensures Reverse(Reverse(s)) == s
    ensures multiset(Reverse(s)) == multiset(s)
    decreases |s|
  {
    if |s| > 0 {
      var n := |s|;
      ReverseIsPermutation(s[..n - 1]);
      assert Reverse(s) == [s[n - 1]] + Reverse(s[..n - 1]);
      assert s == s[..n - 1] + [s[n - 1]];
    }
  }

  /** `PageRequest.of(page, size)`: the page'th run of `size` elements. */
  function Page<T>(s: seq<T>, page: nat, size: nat): seq<T> {
    s[Min(page * size, |s|)..Min(page * size + size, |s|)]
  }

  /** A page sorted by id descending holds at most `size` stored records,
      newest first; the first page starts with the newest job. */
  lemma PageIsNewestFirst(jobs: map<int, JobRecord>, order: seq<int>, page: nat, size: nat)
    requires forall i :: 0 <= i < |order| ==> order[i] in jobs && jobs[order[i]].id == order[i]
    requires StrictlyIncreasing(order)
    ensures var r := Page(Reverse(InOrder(jobs, order)), page, size);
      |r| <= size
      && (forall k :: 0 <= k < |r| ==> r[k].id in jobs && jobs[r[k].id] == r[k])
      && (forall k, l :: 0 <= k < l < |r| ==> r[k].id > r[l].id)
      && (page == 0 && |r| > 0 ==> forall id :: id in order ==> id <= r[0].id)
  {
    var lo := NewestFirstAt(jobs, order, page, size);
    DescendingRun(jobs, order, Page(Reverse(InOrder(jobs, order)), page, size), lo);
  }

  /** Records taken from the end of an increasing id order, walking back, have
      decreasing ids; a run from the very end starts with the largest. */
  lemma DescendingRun(jobs: map<int, JobRecord>, order: seq<int>, r: seq<JobRecord>, lo: nat)
    requires forall i :: 0 <= i < |order| ==> order[i] in jobs && jobs[order[i]].id == order[i]
    requires StrictlyIncreasing(order)
    requires lo + |r| <= |order| && forall k :: 0 <= k < |r| ==> r[k] == jobs[order[|order| - 1 - (lo + k)]]
    ensures forall k :: 0 <= k < |r| ==> r[k].id in jobs && jobs[r[k].id] == r[k]
    ensures forall k, l :: 0 <= k < l < |r| ==> r[k].id > r[l].id
    ensures lo == 0 && |r| > 0 ==> forall id :: id in order ==> id <= r[0].id
  {
    var n := |order|;
    forall k, l | 0 <= k < l < |r| ensures r[k].id > r[l].id {
      assert r[k].id == order[n - 1 - (lo + k)] && r[l].id == order[n - 1 - (lo + l)];
    }
    if lo == 0 && |r| > 0 {
      assert r[0].id == order[n - 1];
    }
  }

  /** The k'th record of a page of the reversed listing is the job stored
      `lo + k` places from the end of `order`. */
  lemma NewestFirstAt(jobs: map<int, JobRecord>, order: seq<int>, page: nat, size: nat) returns (lo: nat)
    requires forall i :: 0 <= i < |order| ==> order[i] in jobs
    ensures var r := Page(Reverse(InOrder(jobs, order)), page, size);
      |r| <= size && lo + |r| <= |order| && (page == 0 ==> lo == 0)
      && forall k :: 0 <= k < |r| ==> r[k] == jobs[order[|order| - 1 - (lo + k)]]
  {
    lo := PageAt(Reverse(InOrder(jobs, order)), page, size);
  }

  /** The page'th page is the run of `s` starting at `lo`, at most `size` long. */
  lemma PageAt<T>(s: seq<T>, page: nat, size: nat) returns (lo: nat)
    ensures var p := Page(s, page, size);
      |p| <= size && lo + |p| <= |s| && lo == Min(page * size, |s|)
      && forall k :: 0 <= k < |p| ==> p[k] == s[lo + k]
  {
    lo := Min(page * size, |s|);
  }

  // ------------------------------------------------------------ file links

  /** One `{name, url}` entry of `getJobFiles`. */
  datatype FileLink = FileLink(name: string, url: string)

  function InputLink(jobId: int, fileName: string): FileLink {
    FileLink(fileName, "/dwn/input/" + IntToString(jobId) + "/" + fileName)
  }

  function OutputLink(jobId: int, fileName: string): FileLink {
    FileLink(fileName, "/dwn/" + IntToString(jobId) + "/" + fileName)
  }

  /** The output files `getJobFiles` shows: the regular files, sorted, the first three. */
  function ListedOutputs(entries: seq<DirEntry>): seq<DirEntry> {
    Take(SortByName(RegularFiles(entries)), MAX_LISTED_FILES)
  }

  /** The listed outputs are regular files of the directory, in name order, and
      no unlisted regular file sorts before any of them. */
  lemma ListedOutputsAreFirst(entries: seq<DirEntry>)
    ensures var files := ListedOutputs(entries);
      |files| <= MAX_LISTED_FILES && SortedByName(files)
      && (forall k :: 0 <= k < |files| ==> files[k] in entries && !files[k].isDirectory)
      && (forall e :: e in entries && !e.isDirectory && e !in files ==>
            forall k :: 0 <= k < |files| ==> NameLe(files[k].name, e.name))
  {
    var regular := RegularFiles(entries);
    var sorted := SortByName(regular);
    SortByNameCorrect(regular);
    var files := Take(sorted, MAX_LISTED_FILES);
    SortedPrefixFirst(sorted, MAX_LISTED_FILES);
    forall k | 0 <= k < |files| ensures files[k] in entries && !files[k].isDirectory {
      assert files[k] == sorted[k] && sorted[k] in multiset(regular);
    }
    forall e | e in entries && !e.isDirectory
      ensures e in sorted
    {
      assert e in multiset(regular);
    }
  }

  /** The first `n` entries of a name-sorted listing are sorted, and every
      entry left out sorts after each of them. */
  lemma SortedPrefixFirst(sorted: seq<DirEntry>, n: nat)
    requires SortedByName(sorted)
    ensures var files := Take(sorted, n);
      SortedByName(files)
      && forall e :: e in sorted && e !in files ==>
           forall k :: 0 <= k < |files| ==> NameLe(files[k].name, e.name)
  {
    var files := Take(sorted, n);
    forall e | e in sorted && e !in files
      ensures forall k :: 0 <= k < |files| ==> NameLe(files[k].name, e.name)
    {
      var j :| 0 <= j < |sorted| && sorted[j] == e;
      assert j >= |files|;
      forall k | 0 <= k < |files| ensures NameLe(files[k].name, e.name) {
        assert files[k] == sorted[k];
      }
    }
  }

  /** The job's scheduling request as it arrives. */
  datatype ScheduleRequest = ScheduleRequest(
    jobName: Option<string>,
    processorClassName: Option<string>,
    comment: Option<string>,
    delayDays: int,
    delayHours: int,
    delayMinutes: int,
    inputData: Option<seq<(string, JsonValue)>>,   // None: absent, blank, or not a JSON object
    files: seq<Upload>)

  /** A controller stays valid when only the rows beside the job table change. */
  twostate lemma ValidAcrossDb(c: JobController)
    requires old(c.Valid()) && c.db.Valid() && c.db.jobs == old(c.db.jobs)
    requires unchanged(c.svc, c.svc.engine, c.svc.engine.loader, c.scheduler)
    ensures c.Valid()
  {
  }

  class JobController {
    const db: Database
    const svc: JobExecutionService
    const scheduler: Scheduler
    /** The absolute form of `jobproc.inputFileDirectory`. */
    const inputRoot: string

    ghost predicate Valid()
      reads this, db, svc, svc.db, svc.engine, svc.engine.loader, scheduler
    {
      svc.db == db && svc.Valid() && scheduler.Valid() && KeysMatchJobs(scheduler, db.jobs)
    }

    constructor(svc: JobExecutionService, scheduler: Scheduler, inputRoot: string)
      requires svc.Valid() && scheduler.Valid() && scheduler.jobs == map[] && scheduler.triggers == map[]
      ensures Valid() && db == svc.db && this.svc == svc && this.scheduler == scheduler
      ensures this.inputRoot == inputRoot
    {
      db := svc.db;
      this.svc := svc;
      this.scheduler := scheduler;
      this.inputRoot := inputRoot;
    }

    /** `schedule(...)`: validate, save the SCHEDULED record, its file rows and
        parameter rows, then register the Quartz job and trigger; if Quartz
        refuses, the record becomes SCHEDULE_FAILED. */
    method Schedule(req: ScheduleRequest, now: Time) returns (r: Result<JobRecord, string>)
      requires Valid()
      modifies db, scheduler
      ensures Valid()
      ensures var err := ValidationError(req.jobName, req.processorClassName);
        err.Some? ==> r == Err(err.value) && db.jobs == old(db.jobs) && db.inputFiles == old(db.inputFiles)
                      && db.inputParams == old(db.inputParams)
                      && scheduler.jobs == old(scheduler.jobs) && scheduler.triggers == old(scheduler.triggers)
      ensures var err := ValidationError(req.jobName, req.processorClassName);
        var id := old(db.nextJobId);
        var runAt := RunAt(now, req.delayDays, req.delayHours, req.delayMinutes);
        var job := NewJob(req.jobName, req.processorClassName, req.comment, now, runAt).(id := id);
        err.None? ==>
          id !in old(db.jobs)
          && (old(scheduler.failure).None? ==>
                r == Ok(job)
                && scheduler.jobs == old(scheduler.jobs)[JobKeyOf(id) := id]
                && scheduler.triggers == old(scheduler.triggers)[TriggerKeyOf(id) := Trigger(JobKeyOf(id), runAt)])
          && (old(scheduler.failure).Some? ==>
                r == Ok(ScheduleFailed(job, old(scheduler.failure).value))
                && scheduler.jobs == old(scheduler.jobs) && scheduler.triggers == old(scheduler.triggers))
          && db.jobs == old(db.jobs)[id := r.value]
          && db.inputFiles == old(db.inputFiles) + FileRows(id, inputRoot, req.files)
          && db.inputParams == old(db.inputParams) + (if req.inputData.Some? then ParamRows(id, req.inputData.value) else [])
      ensures db.processors == old(db.processors) && db.jobErrors == old(db.jobErrors) && db.appParams == old(db.appParams)
      ensures scheduler.failure == old(scheduler.failure)
    {
      if BlankOrNull(req.jobName) {
        return Err("jobName cannot be empty");
      }
      if BlankOrNull(req.processorClassName) {
        return Err("processorClassName cannot be empty");
      }
      if UnsafeClassName(req.processorClassName.value) {
        return Err("processorClassName contains invalid characters (/, \\, ..)");
      }
      var job := CreateJob(req, now);
      r := Ok(job);
    }

    /** A request that passed validation: the record, its file and parameter
        rows, then the Quartz registration. */
    method CreateJob(req: ScheduleRequest, now: Time) returns (job: JobRecord)
      requires Valid()
      modifies db, scheduler
      ensures Valid()
      ensures var id := old(db.nextJobId);
        var runAt := RunAt(now, req.delayDays, req.delayHours, req.delayMinutes);
        var created := NewJob(req.jobName, req.processorClassName, req.comment, now, runAt).(id := id);
        id !in old(db.jobs)
        && (old(scheduler.failure).None? ==>
              job == created
              && scheduler.jobs == old(scheduler.jobs)[JobKeyOf(id) := id]
              && scheduler.triggers == old(scheduler.triggers)[TriggerKeyOf(id) := Trigger(JobKeyOf(id), runAt)])
        && (old(scheduler.failure).Some? ==>
              job == ScheduleFailed(created, old(scheduler.failure).value)
              && scheduler.jobs == old(scheduler.jobs) && scheduler.triggers == old(scheduler.triggers))
        && db.jobs == old(db.jobs)[id := job]
        && db.inputFiles == old(db.inputFiles) + FileRows(id, inputRoot, req.files)
        && db.inputParams == old(db.inputParams) + (if req.inputData.Some? then ParamRows(id, req.inputData.value) else [])
      ensures db.processors == old(db.processors) && db.jobErrors == old(db.jobErrors) && db.appParams == old(db.appParams)
      ensures scheduler.failure == old(scheduler.failure)
    {
      var runAt := RunAt(now, req.delayDays, req.delayHours, req.delayMinutes);
      job := Insert(NewJob(req.jobName, req.processorClassName, req.comment, now, runAt));
      AddRows(job.id, req);
      job := Register(job);
    }

    /** The new job's file rows, then its parameter rows when there is an object. */
    method AddRows(jobId: int, req: ScheduleRequest)
      requires Valid()
      modifies db
      ensures Valid()
      ensures db.inputFiles == old(db.inputFiles) + FileRows(jobId, inputRoot, req.files)
      ensures db.inputParams == old(db.inputParams) + (if req.inputData.Some? then ParamRows(jobId, req.inputData.value) else [])
      ensures db.jobs == old(db.jobs) && db.order == old(db.order) && db.nextJobId == old(db.nextJobId)
      ensures db.processors == old(db.processors) && db.jobErrors == old(db.jobErrors) && db.appParams == old(db.appParams)
    {
      SaveUploads(jobId, req.files);
      if req.inputData.Some? {
        SaveParams(jobId, req.inputData.value);
      }
      ValidAcrossDb(this);
    }

    /** `jobRepository.save` of a new record: it takes the next id, which no
        stored job, running job or Quartz key uses yet. */
    method Insert(record: JobRecord) returns (job: JobRecord)
      requires Valid()
      modifies db
      ensures Valid()
      ensures job == record.(id := old(db.nextJobId)) && job.id !in old(db.jobs) && job.id !in svc.pending
      ensures JobKeyOf(job.id) !in scheduler.jobs && TriggerKeyOf(job.id) !in scheduler.triggers
      ensures db.jobs == old(db.jobs)[job.id := job] && db.nextJobId == old(db.nextJobId) + 1
      ensures db.processors == old(db.processors) && db.nextProcessorId == old(db.nextProcessorId)
      ensures db.inputFiles == old(db.inputFiles) && db.inputParams == old(db.inputParams)
      ensures db.jobErrors == old(db.jobErrors) && db.appParams == old(db.appParams)
    {
      job := db.InsertJob(record);
      NoKeysForNewJob(scheduler, old(db.jobs), job.id);
    }

    /** `scheduleQuartzJob` for a freshly saved job, and the SCHEDULE_FAILED
        record when Quartz refuses. */
    method Register(job: JobRecord) returns (saved: JobRecord)
      requires Valid() && job.id in db.jobs && db.jobs[job.id] == job && job.status == SCHEDULED
      requires job.scheduledRunTime.Some?
      requires JobKeyOf(job.id) !in scheduler.jobs && TriggerKeyOf(job.id) !in scheduler.triggers
      modifies db, scheduler
      ensures Valid()
      ensures old(scheduler.failure).None? ==>
        saved == job
        && scheduler.jobs == old(scheduler.jobs)[JobKeyOf(job.id) := job.id]
        && scheduler.triggers == old(scheduler.triggers)[TriggerKeyOf(job.id) := Trigger(JobKeyOf(job.id), job.scheduledRunTime.value)]
      ensures old(scheduler.failure).Some? ==>
        saved == ScheduleFailed(job, old(scheduler.failure).value)
        && scheduler.jobs == old(scheduler.jobs) && scheduler.triggers == old(scheduler.triggers)
      ensures db.jobs == old(db.jobs)[job.id := saved]
      ensures db.order == old(db.order) && db.nextJobId == old(db.nextJobId) && db.processors == old(db.processors)
      ensures db.inputFiles == old(db.inputFiles) && db.inputParams == old(db.inputParams)
      ensures db.jobErrors == old(db.jobErrors) && db.appParams == old(db.appParams)
      ensures scheduler.failure == old(scheduler.failure)
    {
      assert job.id !in svc.pending;
      saved := job;
      var error := AddKeys(job.id, job.scheduledRunTime.value);
      if error.Some? {
        saved := MarkScheduleFailed(job, error.value);
      }
    }

    /** `scheduler.scheduleJob(jobDetail, trigger)` under the job's own keys. */
    method AddKeys(jobId: int, at: int) returns (error: Option<string>)
      requires Valid() && jobId in db.jobs
      requires JobKeyOf(jobId) !in scheduler.jobs && TriggerKeyOf(jobId) !in scheduler.triggers
      modifies scheduler
      ensures Valid() && error == old(scheduler.failure) && scheduler.failure == old(scheduler.failure)
      ensures error.None? ==>
        scheduler.jobs == old(scheduler.jobs)[JobKeyOf(jobId) := jobId]
        && scheduler.triggers == old(scheduler.triggers)[TriggerKeyOf(jobId) := Trigger(JobKeyOf(jobId), at)]
      ensures error.Some? ==> scheduler.jobs == old(scheduler.jobs) && scheduler.triggers == old(scheduler.triggers)
    {
      KeysAdded(scheduler.jobs, scheduler.triggers, db.jobs, jobId, at);
      error := scheduler.ScheduleJob(JobKeyOf(jobId), jobId, TriggerKeyOf(jobId), at);
    }

    /** The catch block of `scheduleQuartzJob`: the record saved as SCHEDULE_FAILED. */
    method MarkScheduleFailed(job: JobRecord, reason: string) returns (saved: JobRecord)
      requires Valid() && job.id in db.jobs && job.id !in svc.pending
      modifies db
      ensures Valid()
      ensures saved == ScheduleFailed(job, reason) && db.jobs == old(db.jobs)[job.id := saved]
      ensures db.order == old(db.order) && db.nextJobId == old(db.nextJobId) && db.processors == old(db.processors)
      ensures db.inputFiles == old(db.inputFiles) && db.inputParams == old(db.inputParams)
      ensures db.jobErrors == old(db.jobErrors) && db.appParams == old(db.appParams)
    {
      saved := ScheduleFailed(job, reason);
      db.SaveJob(saved);
    }

    /** The upload loop: one row per non-empty file. */
    method SaveUploads(jobId: int, uploads: seq<Upload>)
      requires db.Valid()
      modifies db
      ensures db.Valid()
      ensures db.inputFiles == old(db.inputFiles) + FileRows(jobId, inputRoot, uploads)
      ensures db.jobs == old(db.jobs) && db.order == old(db.order) && db.nextJobId == old(db.nextJobId)
      ensures db.processors == old(db.processors) && db.inputParams == old(db.inputParams)
      ensures db.jobErrors == old(db.jobErrors) && db.appParams == old(db.appParams)
    {
      for i := 0 to |uploads|
        invariant db.Valid()
        invariant db.inputFiles == old(db.inputFiles) + FileRows(jobId, inputRoot, uploads[..i])
        invariant db.jobs == old(db.jobs) && db.order == old(db.order) && db.nextJobId == old(db.nextJobId)
        invariant db.processors == old(db.processors) && db.inputParams == old(db.inputParams)
        invariant db.jobErrors == old(db.jobErrors) && db.appParams == old(db.appParams)
      {
        assert uploads[..i + 1][..i] == uploads[..i];
        var u := uploads[i];
        if u.size != 0 {
          db.AppendInputFile(InputDataFile(jobId, u.fileName, StoredPath(inputRoot, jobId, u.fileName), u.size));
        }
      }
      assert uploads[..|uploads|] == uploads;
    }

    /** The parameter loop over the parsed JSON object, ended by the first null value. */
    method SaveParams(jobId: int, entries: seq<(string, JsonValue)>)
      requires db.Valid()
      modifies db
      ensures db.Valid()
      ensures db.inputParams == old(db.inputParams) + ParamRows(jobId, entries)
      ensures db.jobs == old(db.jobs) && db.order == old(db.order) && db.nextJobId == old(db.nextJobId)
      ensures db.processors == old(db.processors) && db.inputFiles == old(db.inputFiles)
      ensures db.jobErrors == old(db.jobErrors) && db.appParams == old(db.appParams)
    {
      var i := 0;
      while i < |entries| && !entries[i].1.JsonNull?
        invariant i <= |entries| && forall k :: 0 <= k < i ==> !entries[k].1.JsonNull?
        invariant db.Valid()
        invariant db.inputParams == old(db.inputParams) + RowsUpTo(jobId, entries, i)
        invariant db.jobs == old(db.jobs) && db.order == old(db.order) && db.nextJobId == old(db.nextJobId)
        invariant db.processors == old(db.processors) && db.inputFiles == old(db.inputFiles)
        invariant db.jobErrors == old(db.jobErrors) && db.appParams == old(db.appParams)
      {
        db.AppendInputParam(ParamRow(jobId, entries[i]));
        i := i + 1;
      }
      assert i == StoredPrefix(entries);
    }

    /** `runNow(jobId)`: a SCHEDULED or FAILED job is saved SCHEDULED to run in
        three seconds, then its Quartz trigger and job are replaced. The record
        is saved before Quartz is asked, so it stays rescheduled even when
        Quartz refuses. */
    method RunNow(jobId: int, now: Time) returns (message: string)
      requires Valid()
      modifies db, scheduler
      ensures Valid()
      ensures jobId !in old(db.jobs) ==>
        message == "Job not found" && db.jobs == old(db.jobs)
        && scheduler.jobs == old(scheduler.jobs) && scheduler.triggers == old(scheduler.triggers)
      ensures jobId in old(db.jobs) && old(db.jobs[jobId].status) != SCHEDULED && old(db.jobs[jobId].status) != FAILED ==>
        message == "Job is in status " + old(db.jobs[jobId].status) + ", cannot trigger run now"
        && db.jobs == old(db.jobs)
        && scheduler.jobs == old(scheduler.jobs) && scheduler.triggers == old(scheduler.triggers)
      ensures jobId in old(db.jobs) && (old(db.jobs[jobId].status) == SCHEDULED || old(db.jobs[jobId].status) == FAILED) ==>
        var runAt := now + RUN_NOW_DELAY_SECONDS;
        db.jobs == old(db.jobs)[jobId := old(db.jobs[jobId]).(status := SCHEDULED, scheduledRunTime := Some(runAt))]
        && (old(scheduler.failure).None? ==>
              message == RescheduledMessage(jobId)
              && scheduler.jobs == old(scheduler.jobs)[JobKeyOf(jobId) := jobId]
              && scheduler.triggers == old(scheduler.triggers)[TriggerKeyOf(jobId) := Trigger(JobKeyOf(jobId), runAt)])
        && (old(scheduler.failure).Some? ==>
              message == RescheduleError(old(scheduler.failure).value)
              && scheduler.jobs == old(scheduler.jobs) && scheduler.triggers == old(scheduler.triggers))
      ensures db.order == old(db.order) && db.nextJobId == old(db.nextJobId) && db.processors == old(db.processors)
      ensures db.inputFiles == old(db.inputFiles) && db.inputParams == old(db.inputParams)
      ensures db.jobErrors == old(db.jobErrors) && db.appParams == old(db.appParams)
      ensures scheduler.failure == old(scheduler.failure)
    {
      if jobId !in db.jobs {
        return "Job not found";
      }
      var job := db.jobs[jobId];
      if job.status != SCHEDULED && job.status != FAILED {
        return "Job is in status " + job.status + ", cannot trigger run now";
      }
      var runAt := now + RUN_NOW_DELAY_SECONDS;
      assert jobId !in svc.pending;
      db.SaveJob(job.(status := SCHEDULED, scheduledRunTime := Some(runAt)));
      message := Reschedule(jobId, runAt);
    }

    /** The Quartz half of `runNow`: drop the job's trigger and job detail, then
        schedule them afresh; the first exception ends it. */
    method Reschedule(jobId: int, runAt: Time) returns (message: string)
      requires scheduler.Valid() && KeysMatchJobs(scheduler, db.jobs) && jobId in db.jobs
      modifies scheduler
      ensures scheduler.Valid() && KeysMatchJobs(scheduler, db.jobs)
      ensures old(scheduler.failure).None? ==>
        message == RescheduledMessage(jobId)
        && scheduler.jobs == old(scheduler.jobs)[JobKeyOf(jobId) := jobId]
        && scheduler.triggers == old(scheduler.triggers)[TriggerKeyOf(jobId) := Trigger(JobKeyOf(jobId), runAt)]
      ensures old(scheduler.failure).Some? ==>
        message == RescheduleError(old(scheduler.failure).value)
        && scheduler.jobs == old(scheduler.jobs) && scheduler.triggers == old(scheduler.triggers)
      ensures scheduler.failure == old(scheduler.failure)
    {
      var cleared := ClearKeys(jobId);
      if cleared.Err? {
        return RescheduleError(cleared.error);
      }
      KeysAdded(scheduler.jobs, scheduler.triggers, db.jobs, jobId, runAt);
      RemoveThenSet(old(scheduler.jobs), JobKeyOf(jobId), jobId);
      RemoveThenSet(old(scheduler.triggers), TriggerKeyOf(jobId), Trigger(JobKeyOf(jobId), runAt));
      var error := scheduler.ScheduleJob(JobKeyOf(jobId), jobId, TriggerKeyOf(jobId), runAt);
      // A store that has just answered does not fail on the next call, so
      // `scheduleJob` does not reach the catch block here.
      assert error.None?;
      message := RescheduledMessage(jobId);
    }

    /** `unscheduleJob` then `deleteJob`: the job's trigger and job detail go. */
    method ClearKeys(jobId: int) returns (r: Result<(), string>)
      requires scheduler.Valid() && KeysMatchJobs(scheduler, db.jobs) && jobId in db.jobs
      modifies scheduler
      ensures scheduler.Valid() && KeysMatchJobs(scheduler, db.jobs)
      ensures scheduler.failure == old(scheduler.failure)
      ensures old(scheduler.failure).Some? ==>
        r == Err(old(scheduler.failure).value)
        && scheduler.jobs == old(scheduler.jobs) && scheduler.triggers == old(scheduler.triggers)
      ensures old(scheduler.failure).None? ==>
        r.Ok? && scheduler.jobs == old(scheduler.jobs) - {JobKeyOf(jobId)}
        && scheduler.triggers == old(scheduler.triggers) - {TriggerKeyOf(jobId)}
    {
      var unscheduled := scheduler.UnscheduleJob(TriggerKeyOf(jobId));
      if unscheduled.Err? {
        return Err(unscheduled.error);
      }
      ghost var jobs0, triggers0 := old(scheduler.jobs), old(scheduler.triggers);
      ClearedKeys(jobs0, triggers0, jobId);
      if TriggerKeyOf(jobId) in triggers0 {
        KeysIdentifyJob(jobs0[triggers0[TriggerKeyOf(jobId)].jobKey], jobId);
        assert triggers0[TriggerKeyOf(jobId)].jobKey == JobKeyOf(jobId);
      }
      assert scheduler.triggers == triggers0 - {TriggerKeyOf(jobId)};
      var deleted := scheduler.DeleteJob(JobKeyOf(jobId));
      // As above: the store does not fail on the call after a successful one.
      assert deleted.Ok?;
      assert scheduler.triggers == triggers0 - {TriggerKeyOf(jobId)};
      r := Ok(());
    }

    /** `cancelJob(jobId)`: only a RUNNING job whose future is still live is
        cancelled. Cancelling runs the job's `exceptionally` stage at once
        (FAILED, ENGINE_ERROR, one error row), which writes through to the
        record this method then marks CANCELLED by the user. */
    method CancelJob(jobId: int, now: Time) returns (success: bool, message: string)
      requires Valid()
      modifies svc, db, svc.engine
      ensures Valid()
      ensures jobId !in old(db.jobs) ==> !success && message == "Job not found"
      ensures jobId in old(db.jobs) && old(db.jobs[jobId].status) != RUNNING ==>
        !success && message == "Job is not running (status: " + old(db.jobs[jobId].status) + ")"
      ensures success <==>
        jobId in old(db.jobs) && old(db.jobs[jobId].status) == RUNNING && CancelSpec(old(svc.engine.activeJobs), jobId).0
      ensures jobId in old(db.jobs) && old(db.jobs[jobId].status) == RUNNING && !success ==>
        message == "Failed to cancel job " + IntToString(jobId)
      ensures !success ==> db.jobs == old(db.jobs) && db.jobErrors == old(db.jobErrors)
      ensures success ==>
        message == "Job " + IntToString(jobId) + " cancelled successfully"
        && db.jobs == old(db.jobs)[jobId := UserCancelled(old(db.jobs[jobId]), now)]
        && db.jobErrors == old(db.jobErrors) + [JobError(jobId, Some(ENGINE_ERROR), Some(CANCELLATION_MESSAGE))]
        && svc.pending == old(svc.pending) - {jobId}
      ensures svc.engine.activeJobs == CancelSpec(old(svc.engine.activeJobs), jobId).1
      ensures db.order == old(db.order) && db.nextJobId == old(db.nextJobId) && db.processors == old(db.processors)
      ensures db.inputFiles == old(db.inputFiles) && db.inputParams == old(db.inputParams) && db.appParams == old(db.appParams)
    {
      if jobId !in db.jobs {
        return false, "Job not found";
      }
      var job := db.jobs[jobId];
      if job.status != RUNNING {
        return false, "Job is not running (status: " + job.status + ")";
      }
      assert jobId in svc.pending ==> svc.pending[jobId].job == job;
      var cancelled := svc.CancelExecution(jobId, now);
      if cancelled {
        job := db.jobs[jobId];
        db.SaveJob(job.(status := CANCELLED, endTime := Some(now), errorReason := Some(USER_CANCEL_REASON)));
        return true, "Job " + IntToString(jobId) + " cancelled successfully";
      }
      return false, "Failed to cancel job " + IntToString(jobId);
    }

    /** `getStatus(page, size)`: after the clamps, the default (0, 50) is every
        job in insertion order; any other pair a page of the jobs newest first. */
    method GetStatus(page: int, size: int) returns (r: seq<JobRecord>)
      requires Valid()
      ensures var (p, s) := ClampPage(page, size);
        (p == 0 && s == DEFAULT_PAGE_SIZE ==> r == InOrder(db.jobs, db.order))
        && (!(p == 0 && s == DEFAULT_PAGE_SIZE) ==> r == Page(Reverse(InOrder(db.jobs, db.order)), p, s))
    {
      var p := page;
      var s := size;
      if p < 0 { p := 0; }
      if s < 1 { s := DEFAULT_PAGE_SIZE; }
      if s > MAX_PAGE_SIZE { s := MAX_PAGE_SIZE; }
      if p == 0 && s == DEFAULT_PAGE_SIZE {
        return InOrder(db.jobs, db.order);
      }
      r := Page(Reverse(InOrder(db.jobs, db.order)), p, s);
    }

    /** `getJobFiles(jobId)`: links to the first three input rows of the job, in
        stored order, and to the first three regular files of its output
        directory (`None` when the directory does not exist), in name order. */
    method GetJobFiles(jobId: int, outputDir: Option<seq<DirEntry>>) returns (inputs: seq<FileLink>, outputs: seq<FileLink>)
      requires Valid()
      ensures var rows := FilesOf(db.inputFiles, jobId);
        |inputs| == Min(|rows|, MAX_LISTED_FILES)
        && forall k :: 0 <= k < |inputs| ==> inputs[k] == InputLink(jobId, rows[k].fileName)
      ensures outputDir.None? ==> outputs == []
      ensures outputDir.Some? ==>
        var files := ListedOutputs(outputDir.value);
        |outputs| == |files| && forall k :: 0 <= k < |files| ==> outputs[k] == OutputLink(jobId, files[k].name)
    {
      var rows := FilesOf(db.inputFiles, jobId);
      inputs := [];
      var i := 0;
      while i < Min(|rows|, MAX_LISTED_FILES)
        invariant i <= Min(|rows|, MAX_LISTED_FILES) && |inputs| == i
        invariant forall k :: 0 <= k < i ==> inputs[k] == InputLink(jobId, rows[k].fileName)
      {
        inputs := inputs + [InputLink(jobId, rows[i].fileName)];
        i := i + 1;
      }
      outputs := [];
      if outputDir.Some? {
        var files := ListedOutputs(outputDir.value);
        for j := 0 to |files|
          invariant |outputs| == j
          invariant forall k :: 0 <= k < j ==> outputs[k] == OutputLink(jobId, files[k].name)
        {
          outputs := outputs + [OutputLink(jobId, files[j].name)];
        }
      }
    }
  }

  /** The record after a user cancel: what the `exceptionally` stage wrote
      (FAILED, ENGINE_ERROR), overwritten with CANCELLED, the end time and the
      user's reason; the error code stays ENGINE_ERROR. */
  function UserCancelled(job: JobRecord, now: Time): (r: JobRecord)
    ensures r.id == job.id && r.status == CANCELLED && r.endTime == Some(now)
    ensures r.errorReason == Some(USER_CANCEL_REASON) && r.mainErrorCode == Some(ENGINE_ERROR)
    ensures r.startTime == job.startTime && r.scheduledRunTime == job.scheduledRunTime
  {
    FailedRecord(job, Some(CANCELLATION_MESSAGE), now).(status := CANCELLED, endTime := Some(now), errorReason := Some(USER_CANCEL_REASON))
  }

  /** After `unscheduleJob` of a job's trigger, the store holds no trigger for
      that job, so `deleteJob` removes its job detail only. */
  lemma ClearedKeys(jobs: map<Key, int>, triggers: map<Key, Trigger>, jobId: int)
    requires forall t :: t in triggers ==> triggers[t].jobKey in jobs && t == TriggerKeyOf(jobs[triggers[t].jobKey])
    requires forall k :: k in jobs ==> k == JobKeyOf(jobs[k])
    ensures forall t :: t in triggers && t != TriggerKeyOf(jobId) ==> triggers[t].jobKey != JobKeyOf(jobId)
  {
    forall t | t in triggers && t != TriggerKeyOf(jobId) ensures triggers[t].jobKey != JobKeyOf(jobId) {
      var other := jobs[triggers[t].jobKey];
      KeysIdentifyJob(other, jobId);
    }
  }
}
