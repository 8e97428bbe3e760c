/** `MissedJobRecovery`: when the application is ready, every SCHEDULED job
    whose run time has already passed (the server was down at the time) is run
    at once, and the calls of `runJob` that return normally are counted. */
module Recovery {
  import opened Common
  import opened Records
  import opened Execution

  /** The job's time has passed: it has a run time strictly before now. */
  predicate Due(job: JobRecord, now: Time) {
    job.scheduledRunTime.Some? && job.scheduledRunTime.value < now
  }

  /** A due job that `runJob` starts rather than failing on a missing class name. */
  predicate Recoverable(job: JobRecord, now: Time) {
    Due(job, now) && job.processorClassName.Some?
  }

  /** The ids `runJob` is called with, in the order of the snapshot. */
  function Attempted(scheduled: seq<JobRecord>, now: Time): seq<int> {
    if |scheduled| == 0 then []
    else
      var init := Attempted(scheduled[..|scheduled| - 1], now);
      if Due(scheduled[|scheduled| - 1], now) then init + [scheduled[|scheduled| - 1].id] else init
  }

  /** The number of `runJob` calls that return normally. */
  function RecoveredCount(scheduled: seq<JobRecord>, now: Time): nat {
    if |scheduled| == 0 then 0
    else RecoveredCount(scheduled[..|scheduled| - 1], now) + (if Recoverable(scheduled[|scheduled| - 1], now) then 1 else 0)
  }

  /** The job table after the loop has gone through `scheduled`. */
  function AfterRecovery(jobs: map<int, JobRecord>, scheduled: seq<JobRecord>, now: Time): map<int, JobRecord> {
    if |scheduled| == 0 then jobs
    else
      var m := AfterRecovery(jobs, scheduled[..|scheduled| - 1], now);
      var job := scheduled[|scheduled| - 1];
      if Recoverable(job, now) then m[job.id := StartedRecord(job, now)] else m
  }

  predicate DistinctIds(s: seq<JobRecord>) {
    forall k, l :: 0 <= k < l < |s| ==> s[k].id != s[l].id
  }

  /** A job the loop has not reached, or that is not in the snapshot, is as it was. */
  lemma {:induction false} AfterRecoveryFrame(jobs: map<int, JobRecord>, scheduled: seq<JobRecord>, now: Time, id: int)
    requires forall k :: 0 <= k < |scheduled| ==> scheduled[k].id != id
    ensures id in AfterRecovery(jobs, scheduled, now) <==> id in jobs
    ensures id in jobs ==> AfterRecovery(jobs, scheduled, now)[id] == jobs[id]
  {
    if |scheduled| > 0 {
      AfterRecoveryFrame(jobs, scheduled[..|scheduled| - 1], now, id);
    }
  }

  /** Every job of the snapshot is started exactly when it is recoverable; the
      others keep their stored record. */
  lemma {:induction false} AfterRecoveryEffect(jobs: map<int, JobRecord>, scheduled: seq<JobRecord>, now: Time, k: int)
    requires DistinctIds(scheduled) && 0 <= k < |scheduled| && scheduled[k].id in jobs
    ensures var m := AfterRecovery(jobs, scheduled, now);
      scheduled[k].id in m
      && m[scheduled[k].id] == (if Recoverable(scheduled[k], now) then StartedRecord(scheduled[k], now) else jobs[scheduled[k].id])
  {
    var n := |scheduled| - 1;
    if k == n {
      AfterRecoveryFrame(jobs, scheduled[..n], now, scheduled[k].id);
    } else {
      AfterRecoveryEffect(jobs, scheduled[..n], now, k);
    }
  }

  /** The ids attempted are exactly those of the due jobs of the snapshot. */
  lemma {:induction false} AttemptedAreDue(scheduled: seq<JobRecord>, now: Time)
    ensures var a := Attempted(scheduled, now);
      |a| <= |scheduled|
      && (forall x :: x in a <==> exists k :: 0 <= k < |scheduled| && scheduled[k].id == x && Due(scheduled[k], now))
  {
    if |scheduled| > 0 {
      var n := |scheduled| - 1;
      AttemptedAreDue(scheduled[..n], now);
      var a := Attempted(scheduled, now);
      forall x | x in a
        ensures exists k :: 0 <= k < |scheduled| && scheduled[k].id == x && Due(scheduled[k], now)
      {
        if x in Attempted(scheduled[..n], now) {
          var k :| 0 <= k < n && scheduled[..n][k].id == x && Due(scheduled[..n][k], now);
          assert scheduled[k] == scheduled[..n][k];
        } else {
          assert scheduled[n].id == x;
        }
      }
      forall x | exists k :: 0 <= k < |scheduled| && scheduled[k].id == x && Due(scheduled[k], now)
        ensures x in a
      {
        var k :| 0 <= k < |scheduled| && scheduled[k].id == x && Due(scheduled[k], now);
        if k < n {
          assert scheduled[..n][k] == scheduled[k];
        }
      }
    }
  }

  /** Only due jobs can be counted, so the count never exceeds the attempts. */
  lemma {:induction false} CountedAmongAttempted(scheduled: seq<JobRecord>, now: Time)
    ensures RecoveredCount(scheduled, now) <= |Attempted(scheduled, now)|
  {
    if |scheduled| > 0 {
      CountedAmongAttempted(scheduled[..|scheduled| - 1], now);
    }
  }

  /** A stored SCHEDULED job is started exactly when it names a class; `runJob`
      throws for one that names none. */
  lemma DecideScheduled(jobs: map<int, JobRecord>, processors: map<string, ProcessorDefinition>, job: JobRecord)
    requires job.id in jobs && jobs[job.id] == job && job.status == SCHEDULED
    ensures job.processorClassName.Some? ==> Decide(jobs, processors, job.id).Start? && Decide(jobs, processors, job.id).job == job
    ensures job.processorClassName.None? ==> Decide(jobs, processors, job.id) == Throw
  {
  }

  /** The loop's bookkeeping after one more job of a snapshot with increasing
      ids: that job is unchanged so far, and each summary grows by its part. */
  lemma RecoveryStep(jobs: map<int, JobRecord>, scheduled: seq<JobRecord>, i: int, now: Time)
    requires 0 <= i < |scheduled|
    requires forall k, l :: 0 <= k < l < |scheduled| ==> scheduled[k].id < scheduled[l].id
    ensures var job, p := scheduled[i], scheduled[..i];
      (job.id in AfterRecovery(jobs, p, now) <==> job.id in jobs)
      && (job.id in jobs ==> AfterRecovery(jobs, p, now)[job.id] == jobs[job.id])
      && Attempted(scheduled[..i + 1], now) == Attempted(p, now) + (if Due(job, now) then [job.id] else [])
      && RecoveredCount(scheduled[..i + 1], now) == RecoveredCount(p, now) + (if Recoverable(job, now) then 1 else 0)
      && AfterRecovery(jobs, scheduled[..i + 1], now)
         == if Recoverable(job, now) then AfterRecovery(jobs, p, now)[job.id := StartedRecord(job, now)] else AfterRecovery(jobs, p, now)
  {
    assert scheduled[..i + 1][..i] == scheduled[..i];
    assert forall k :: 0 <= k < |scheduled[..i]| ==> scheduled[..i][k].id != scheduled[i].id;
    AfterRecoveryFrame(jobs, scheduled[..i], now, scheduled[i].id);
  }

  /** One due job of the snapshot: `runJob` starts it when it names a class
      (counted) and throws, leaving it as it was, when it names none. */
  method RecoverOne(svc: JobExecutionService, job: JobRecord, now: Time) returns (counted: bool)
    requires svc.Valid() && job.id in svc.db.jobs && svc.db.jobs[job.id] == job && job.status == SCHEDULED
    requires Due(job, now)
    modifies svc, svc.db, svc.engine
    ensures svc.Valid()
    ensures counted == Recoverable(job, now)
    ensures svc.db.jobs == if counted then old(svc.db.jobs)[job.id := StartedRecord(job, now)] else old(svc.db.jobs)
    ensures svc.engine.submitted == old(svc.engine.submitted) + (if counted then 1 else 0)
    ensures svc.db.jobErrors == old(svc.db.jobErrors) && CatalogUnchanged(svc.db)
  {
    DecideScheduled(svc.db.jobs, svc.db.processors, job);
    var r := svc.RunJob(job.id, now);
    counted := !r.Threw?;
  }

  /** `recoverMissedJobs()` over the SCHEDULED jobs of the store. */
  method RecoverMissedJobs(svc: JobExecutionService, now: Time) returns (recovered: nat, ghost attempted: seq<int>)
    requires svc.Valid()
    modifies svc, svc.db, svc.engine
    ensures svc.Valid()
    ensures var scheduled := FindByStatus(old(svc.db.jobs), old(svc.db.order), SCHEDULED);
      attempted == Attempted(scheduled, now)
      && recovered == RecoveredCount(scheduled, now)
      && svc.db.jobs == AfterRecovery(old(svc.db.jobs), scheduled, now)
      && svc.engine.submitted == old(svc.engine.submitted) + recovered
    ensures svc.db.jobErrors == old(svc.db.jobErrors) && CatalogUnchanged(svc.db)
  {
    FindByStatusSound(svc.db.jobs, svc.db.order, SCHEDULED);
    var scheduled := FindByStatus(svc.db.jobs, svc.db.order, SCHEDULED);
    ghost var jobs0 := svc.db.jobs;
    recovered := 0;
    attempted := [];
    for i := 0 to |scheduled|
      invariant svc.Valid()
      invariant attempted == Attempted(scheduled[..i], now)
      invariant recovered == RecoveredCount(scheduled[..i], now)
      invariant svc.db.jobs == AfterRecovery(jobs0, scheduled[..i], now)
      invariant svc.engine.submitted == old(svc.engine.submitted) + recovered
      invariant svc.db.jobErrors == old(svc.db.jobErrors) && CatalogUnchanged(svc.db)
    {
      var job := scheduled[i];
      RecoveryStep(jobs0, scheduled, i, now);
      if job.scheduledRunTime.Some? && job.scheduledRunTime.value < now {
        var counted := RecoverOne(svc, job, now);
        if counted {
          recovered := recovered + 1;
        }
        attempted := attempted + [job.id];
      }
    }
    assert scheduled[..|scheduled|] == scheduled;
  }

  /** An illustration only, adding nothing to `AttemptedAreDue` and
      `AfterRecoveryEffect`: of three SCHEDULED jobs due ten and five minutes
      ago and in five minutes, the first two run and the third waits for its
      trigger. */
  lemma MissedJobsExample(a: JobRecord, b: JobRecord, c: JobRecord, now: Time)
    requires a.scheduledRunTime == Some(now - 600) && b.scheduledRunTime == Some(now - 300)
    requires c.scheduledRunTime == Some(now + 300)
    requires a.processorClassName.Some? && b.processorClassName.Some? && c.processorClassName.Some?
    ensures Attempted([a, b, c], now) == [a.id, b.id]
    ensures RecoveredCount([a, b, c], now) == 2
  {
    assert [a][..0] == [];
    assert Attempted([a], now) == [a.id] && RecoveredCount([a], now) == 1;
    assert [a, b][..1] == [a];
    assert Attempted([a, b], now) == [a.id, b.id] && RecoveredCount([a, b], now) == 2;
    assert [a, b, c][..2] == [a, b];
  }
}
