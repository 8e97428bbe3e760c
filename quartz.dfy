/** The part of the Quartz scheduler the application uses: a store of job
    details (each carrying a job id in its data map) and of one-shot triggers,
    both named in the group "jobproc". Whatever makes the store refuse work
    (a failing job store) is the `failure` field. */
module Quartz {
  import opened Common

  const GROUP := "jobproc"

  /** A `JobKey` or `TriggerKey`: a name within a group. */
  datatype Key = Key(name: string, group: string)

  /** `new TriggerKey("trigger-" + jobId, "jobproc")`. */
  function TriggerKeyOf(jobId: int): Key {
    Key("trigger-" + IntToString(jobId), GROUP)
  }

  /** `new JobKey("job-" + jobId, "jobproc")`. */
  function JobKeyOf(jobId: int): Key {
    Key("job-" + IntToString(jobId), GROUP)
  }

  /** Keys name their job: two jobs never share a trigger key or a job key,
      and no trigger key is a job key. */
  lemma {:induction false} KeysIdentifyJob(a: int, b: int)
    ensures TriggerKeyOf(a) == TriggerKeyOf(b) <==> a == b
    ensures JobKeyOf(a) == JobKeyOf(b) <==> a == b
    ensures TriggerKeyOf(a) != JobKeyOf(b)
  {
    var lo := Min(a, b);
    var hi := Max(a, b);
    ParseIntegerOfToString(a, lo, hi);
    ParseIntegerOfToString(b, lo, hi);
    if TriggerKeyOf(a) == TriggerKeyOf(b) {
      assert IntToString(a) == TriggerKeyOf(a).name[8..];
      assert IntToString(b) == TriggerKeyOf(b).name[8..];
    }
    if JobKeyOf(a) == JobKeyOf(b) {
      assert IntToString(a) == JobKeyOf(a).name[4..];
      assert IntToString(b) == JobKeyOf(b).name[4..];
    }
    assert TriggerKeyOf(a).name[0] == 't' && JobKeyOf(b).name[0] == 'j';
  }

  /** A one-shot trigger: the job it starts and when. */
  datatype Trigger = Trigger(jobKey: Key, fireAt: int)

  /** The message of the `ObjectAlreadyExistsException` for a job key. */
  function JobExistsMessage(k: Key): string {
    "Unable to store Job : '" + k.group + "." + k.name + "', because one already exists with this identification."
  }

  class Scheduler {
    /** Stored job details, with the job id of their data map. */
    var jobs: map<Key, int>
    var triggers: map<Key, Trigger>
    /** When present, every operation throws a `SchedulerException` with this message. */
    var failure: Option<string>

    /** Every trigger starts a stored job. */
    ghost predicate Valid()
      reads this
    {
      forall t :: t in triggers ==> triggers[t].jobKey in jobs
    }

    constructor(failure: Option<string>)
      ensures Valid() && jobs == map[] && triggers == map[] && this.failure == failure
    {
      jobs := map[];
      triggers := map[];
      this.failure := failure;
    }

    /** `scheduleJob(jobDetail, trigger)`: stores both, refusing a job key that
        is already stored (a trigger of a stored job implies its job is stored). */
    method ScheduleJob(jobKey: Key, jobId: int, triggerKey: Key, fireAt: int) returns (error: Option<string>)
      requires Valid()
      modifies this
      ensures Valid() && failure == old(failure)
      ensures old(failure).Some? ==> error == old(failure) && jobs == old(jobs) && triggers == old(triggers)
      ensures old(failure).None? && jobKey in old(jobs) ==>
        error == Some(JobExistsMessage(jobKey)) && jobs == old(jobs) && triggers == old(triggers)
      ensures old(failure).None? && jobKey !in old(jobs) && triggerKey in old(triggers) ==>
        error.Some? && jobs == old(jobs) && triggers == old(triggers)
      ensures old(failure).None? && jobKey !in old(jobs) && triggerKey !in old(triggers) ==>
        error.None? && jobs == old(jobs)[jobKey := jobId]
        && triggers == old(triggers)[triggerKey := Trigger(jobKey, fireAt)]
    {
      if failure.Some? {
        return failure;
      }
      if jobKey in jobs {
        return Some(JobExistsMessage(jobKey));
      }
      if triggerKey in triggers {
        return Some("Unable to store Trigger with name: '" + triggerKey.name + "' and group: '"
                    + triggerKey.group + "', because one already exists with this identification.");
      }
      jobs := jobs[jobKey := jobId];
      triggers := triggers[triggerKey := Trigger(jobKey, fireAt)];
      error := None;
    }

    /** The store after removing a trigger: a job left without triggers is
        not durable and goes with it. */
    function WithoutTrigger(triggerKey: Key): (map<Key, int>, map<Key, Trigger>)
      reads this
    {
      var rest := triggers - {triggerKey};
      if triggerKey in triggers && (forall t :: t in rest ==> rest[t].jobKey != triggers[triggerKey].jobKey) then
        (jobs - {triggers[triggerKey].jobKey}, rest)
      else (jobs, rest)
    }

    /** `unscheduleJob(triggerKey)`: whether the trigger was found. */
    method UnscheduleJob(triggerKey: Key) returns (r: Result<bool, string>)
      requires Valid()
      modifies this
      ensures Valid() && failure == old(failure)
      ensures old(failure).Some? ==> r == Err(old(failure).value) && jobs == old(jobs) && triggers == old(triggers)
      ensures old(failure).None? ==>
        r == Ok(triggerKey in old(triggers)) && (jobs, triggers) == old(WithoutTrigger(triggerKey))
    {
      if failure.Some? {
        return Err(failure.value);
      }
      r := Ok(triggerKey in triggers);
      jobs, triggers := WithoutTrigger(triggerKey).0, WithoutTrigger(triggerKey).1;
    }

    /** A one-shot trigger has fired: it is removed (and its job detail with
        it), and the job id of the job's data map is handed to the job. */
    method Fired(triggerKey: Key) returns (jobId: int)
      requires Valid() && triggerKey in triggers
      modifies this
      ensures Valid() && failure == old(failure)
      ensures jobId == old(jobs[triggers[triggerKey].jobKey])
      ensures (jobs, triggers) == old(WithoutTrigger(triggerKey))
    {
      jobId := jobs[triggers[triggerKey].jobKey];
      jobs, triggers := WithoutTrigger(triggerKey).0, WithoutTrigger(triggerKey).1;
    }

    /** `deleteJob(jobKey)`: the job and all its triggers; whether it was found. */
    method DeleteJob(jobKey: Key) returns (r: Result<bool, string>)
      requires Valid()
      modifies this
      ensures Valid() && failure == old(failure)
      ensures old(failure).Some? ==> r == Err(old(failure).value) && jobs == old(jobs) && triggers == old(triggers)
      ensures old(failure).None? ==>
        r == Ok(jobKey in old(jobs)) && jobs == old(jobs) - {jobKey}
        && triggers == map t | t in old(triggers) && old(triggers)[t].jobKey != jobKey :: old(triggers)[t]
    {
      if failure.Some? {
        return Err(failure.value);
      }
      r := Ok(jobKey in jobs);
      triggers := map t | t in triggers && triggers[t].jobKey != jobKey :: triggers[t];
      jobs := jobs - {jobKey};
    }
  }

  /** Removing one job's trigger keeps every other job's trigger. */
  lemma WithoutTriggerKeepsOthers(s: Scheduler, a: int, b: int)
    requires a != b
    ensures TriggerKeyOf(b) in s.triggers ==>
      TriggerKeyOf(b) in s.WithoutTrigger(TriggerKeyOf(a)).1
      && s.WithoutTrigger(TriggerKeyOf(a)).1[TriggerKeyOf(b)] == s.triggers[TriggerKeyOf(b)]
  {
    KeysIdentifyJob(a, b);
  }
}

/** `ScheduledJobTrigger`: the Quartz job that runs when a job's trigger fires
    and hands the job id of its data map to `runJob`. */
module ScheduledTrigger {
  import opened Common
  import opened Records
  import opened Execution
  import opened Quartz

  /** The trigger fires at or after its time: the one-shot trigger is removed
      (and its job detail with it), then `runJob(jobId)` runs. */
  method Fire(scheduler: Scheduler, svc: JobExecutionService, triggerKey: Key, now: Time) returns (r: RunJobResult)
    requires scheduler.Valid() && svc.Valid()
    requires triggerKey in scheduler.triggers && scheduler.triggers[triggerKey].fireAt <= now
    modifies scheduler, svc, svc.db, svc.engine
    ensures scheduler.Valid() && svc.Valid()
    ensures (scheduler.jobs, scheduler.triggers) == old(scheduler.WithoutTrigger(triggerKey))
    ensures scheduler.failure == old(scheduler.failure)
    ensures var jobId := old(scheduler.jobs[scheduler.triggers[triggerKey].jobKey]);
      match Decide(old(svc.db.jobs), old(svc.db.processors), jobId)
      case Skip => r == Skipped && svc.db.jobs == old(svc.db.jobs) && svc.pending == old(svc.pending)
      case Throw => r == Threw(None) && svc.db.jobs == old(svc.db.jobs) && svc.pending == old(svc.pending)
      case Start(job, jar) =>
        r == Submitted(old(svc.engine.submitted))
        && svc.db.jobs == old(svc.db.jobs)[jobId := StartedRecord(job, now)]
        && svc.pending.Keys == old(svc.pending.Keys) + {jobId}
    ensures CatalogUnchanged(svc.db) && svc.db.jobErrors == old(svc.db.jobErrors)
  {
    var jobId := scheduler.Fired(triggerKey);
    r := svc.RunJob(jobId, now);
  }
}
