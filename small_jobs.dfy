/** The single-slot scheduler of the "small" pages: `SmallJobService`, whose
    twin `JobService` of the stand-alone small application is the same code
    with other log lines, so one class models both. One job can be scheduled
    at a time; each schedule adds an entry at the front of a history of at
    most five entries, and the entry of the scheduled run is updated in
    place as the run goes. The `TaskScheduler` firing, the sleep and the
    end of a run are explicit calls: `Begin` is the first synchronized block
    of `executeJob`, `End` its `finally` block. */
module SmallJobs {
  import opened Common
  import opened Records

  const HISTORY_LIMIT := 5
  const DEFAULT_SLEEP_SECONDS := 20

  /** The service's `status` text: "Not Set", "Scheduled at <time> (<zone>)",
      "Working" or "Idle". */
  datatype ServiceStatus = NotSet | ScheduledAt(time: Time, zone: string) | Working | Idle

  /** A history entry's `status` text. */
  datatype ItemStatus = Scheduled | Cancelled | Ran | Interrupted | Error

  /** `scheduledTask`: none, a task not yet started, or a task that has fired
      (the field keeps the future after it fires). */
  datatype TaskState = NoTask | Pending | Fired

  /** How the sleeping part of a run ended. */
  datatype RunOutcome = Completed | InterruptedWith(message: Option<string>) | FailedWith(message: Option<string>)

  function OutcomeStatus(outcome: RunOutcome): ItemStatus {
    match outcome
    case Completed => Ran
    case InterruptedWith(_) => Interrupted
    case FailedWith(_) => Error
  }

  /** `history.add(0, item)` then, past five entries, `remove(size - 1)`. */
  function Prepend(item: JobHistory, history: seq<JobHistory>): (h: seq<JobHistory>)
  {
    var added := [item] + history;
    if |added| > HISTORY_LIMIT then added[..|added| - 1] else added
  }

  /** On a history of at most five entries the new entry goes first, the old
      ones follow in order, the oldest is dropped on overflow, and at most
      five remain. */
  lemma PrependKeepsRecentFirst(item: JobHistory, history: seq<JobHistory>)
    requires |history| <= HISTORY_LIMIT
    ensures var h := Prepend(item, history);
      |h| == Min(|history| + 1, HISTORY_LIMIT) && h[0] == item && h[1..] == history[..|h| - 1]
  {
  }

  /** One history entry, shared between the history list, the service's
      current item and the run that holds it. */
  class JobHistory {
    var scheduledTime: Time
    var status: ItemStatus
    var error: Option<string>
    var actualStart: Option<Time>
    var actualEnd: Option<Time>

    constructor(scheduledTime: Time)
      ensures this.scheduledTime == scheduledTime && status == Scheduled
      ensures error.None? && actualStart.None? && actualEnd.None?
    {
      this.scheduledTime := scheduledTime;
      status := Scheduled;
      error := None;
      actualStart := None;
      actualEnd := None;
    }
  }

  class SmallJobService {
    /** `ZoneId.systemDefault()`. */
    const zone: string
    var task: TaskState
    var status: ServiceStatus
    var scheduledTime: Option<Time>
    var sleepSeconds: int
    var randomSleepSeconds: int
    var history: seq<JobHistory>
    var current: JobHistory?

    ghost predicate Valid()
      reads this
    {
      |history| <= HISTORY_LIMIT
    }

    /** A task that has not fired owns the slot: its entry is the current
      item and the first of the history, it is still "Scheduled" and not
      started, and the status and scheduled time show its time. */
    ghost predicate Consistent()
      reads this, current
    {
      Valid()
      && (task.Pending? ==>
            current != null && |history| > 0 && history[0] == current
            && current.status == Scheduled && current.actualStart.None?
            && scheduledTime == Some(current.scheduledTime)
            && status == ScheduledAt(current.scheduledTime, zone))
    }

    constructor(zone: string)
      ensures Consistent() && this.zone == zone
      ensures status == NotSet && history == [] && current == null && task == NoTask && scheduledTime.None?
      ensures sleepSeconds == DEFAULT_SLEEP_SECONDS && randomSleepSeconds == 0
    {
      this.zone := zone;
      task := NoTask;
      status := NotSet;
      scheduledTime := None;
      sleepSeconds := DEFAULT_SLEEP_SECONDS;
      randomSleepSeconds := 0;
      history := [];
      current := null;
    }

    /** `cancelSchedule()`: with a task, cancel it (a started run is not
        interrupted) and mark the current item "Cancelled" if it is still
        "Scheduled"; in every case the slot is emptied and the status Idle. */
    method CancelSchedule()
      requires Valid()
      modifies this, current
      ensures Consistent()
      ensures task == NoTask && status == Idle && scheduledTime.None? && current == null
      ensures history == old(history)
      ensures sleepSeconds == old(sleepSeconds) && randomSleepSeconds == old(randomSleepSeconds)
      ensures old(current) != null ==>
        old(current).status ==
          (if old(task) != NoTask && old(current.status) == Scheduled then Cancelled else old(current.status))
        && unchanged(old(current)`scheduledTime, old(current)`error, old(current)`actualStart, old(current)`actualEnd)
    {
      if task != NoTask {
        task := NoTask;
        if current != null && current.status == Scheduled {
          current.status := Cancelled;
        }
      }
      scheduledTime := None;
      status := Idle;
      current := null;
    }

    /** `setSchedule(time, sleep, randomSleep)`: cancel first, then a fresh
        "Scheduled" entry becomes the current item and the first of the
        history, and a task is scheduled for `time`. */
    method SetSchedule(time: Time, sleep: int, randomSleep: int)
      requires Valid()
      modifies this, current
      ensures Consistent()
      ensures task == Pending && fresh(current)
      ensures current.scheduledTime == time && current.status == Scheduled && current.error.None? && current.actualEnd.None?
      ensures history == Prepend(current, old(history))
      ensures status == ScheduledAt(time, zone) && scheduledTime == Some(time)
      ensures sleepSeconds == sleep && randomSleepSeconds == randomSleep
      ensures old(current) != null ==>
        old(current).status ==
          (if old(task) != NoTask && old(current.status) == Scheduled then Cancelled else old(current.status))
        && unchanged(old(current)`scheduledTime, old(current)`error, old(current)`actualStart, old(current)`actualEnd)
    {
      CancelSchedule();
      scheduledTime := Some(time);
      sleepSeconds := sleep;
      randomSleepSeconds := randomSleep;
      status := ScheduledAt(time, zone);
      var item := new JobHistory(time);
      current := item;
      history := [item] + history;
      if |history| > HISTORY_LIMIT {
        history := history[..|history| - 1];
      }
      task := Pending;
    }

    /** The scheduled run fires: the first synchronized block of `executeJob` sets
        "Working" and stamps the start on the current item, which the run
        keeps as `item`. */
    method Begin(now: Time) returns (item: JobHistory?)
      requires Valid() && task.Pending?
      modifies this, current
      ensures Consistent()
      ensures item == old(current)
      ensures item != null ==>
        item.actualStart == Some(now) && item.status == old(item.status)
        && unchanged(item`scheduledTime, item`error, item`actualEnd)
      ensures task == Fired && status == Working
      ensures current == old(current) && history == old(history) && scheduledTime == old(scheduledTime)
      ensures sleepSeconds == old(sleepSeconds) && randomSleepSeconds == old(randomSleepSeconds)
    {
      task := Fired;
      status := Working;
      item := current;
      if item != null {
        item.actualStart := Some(now);
      }
    }

    /** The end of a run as written: the outcome goes on the run's item, and
        the `finally` block empties the slot whatever it holds now. */
    method End(item: JobHistory?, outcome: RunOutcome, now: Time)
      requires Valid()
      modifies this, item
      ensures Valid()
      ensures status == Idle && scheduledTime.None? && current == null
      ensures task == old(task) && history == old(history)
      ensures sleepSeconds == old(sleepSeconds) && randomSleepSeconds == old(randomSleepSeconds)
      ensures item != null ==>
        item.status == OutcomeStatus(outcome) && item.actualEnd == Some(now)
        && item.error == (if outcome.Completed? then old(item.error) else outcome.message)
        && item.actualStart == old(item.actualStart) && item.scheduledTime == old(item.scheduledTime)
    {
      Finish(item, outcome);
      status := Idle;
      scheduledTime := None;
      if item != null {
        item.actualEnd := Some(now);
      }
      current := null;
    }

    /** The end of a run as evidently intended: the slot is emptied only when
        it still holds this run's item, so a schedule made while the run was
        sleeping keeps its entry, its status and its time. */
    method EndCorrected(item: JobHistory?, outcome: RunOutcome, now: Time)
      requires Consistent()
      requires item != null ==> item.actualStart.Some?
      modifies this, item
      ensures Consistent()
      ensures old(current) == item ==> status == Idle && scheduledTime.None? && current == null
      ensures old(current) != item ==>
        status == old(status) && scheduledTime == old(scheduledTime) && current == old(current)
      ensures task == old(task) && history == old(history)
      ensures sleepSeconds == old(sleepSeconds) && randomSleepSeconds == old(randomSleepSeconds)
      ensures item != null ==>
        item.status == OutcomeStatus(outcome) && item.actualEnd == Some(now)
        && item.error == (if outcome.Completed? then old(item.error) else outcome.message)
        && item.actualStart == old(item.actualStart) && item.scheduledTime == old(item.scheduledTime)
    {
      Finish(item, outcome);
      if current == item {
        status := Idle;
        scheduledTime := None;
        current := null;
      }
      if item != null {
        item.actualEnd := Some(now);
      }
    }

    /** The `try`/`catch` part: "Ran", or "Interrupted"/"Error" with the
        exception's message. */
    method Finish(item: JobHistory?, outcome: RunOutcome)
      modifies item
      ensures item != null ==>
        item.status == OutcomeStatus(outcome)
        && item.error == (if outcome.Completed? then old(item.error) else outcome.message)
        && unchanged(item`scheduledTime, item`actualStart, item`actualEnd)
    {
      if item != null {
        match outcome
        case Completed =>
          item.status := Ran;
        case InterruptedWith(message) =>
          item.status := Interrupted;
          item.error := message;
        case FailedWith(message) =>
          item.status := Error;
          item.error := message;
      }
    }

    /** `getHistory()`: a copy of the list, which later schedules do not change. */
    method GetHistory() returns (h: seq<JobHistory>)
      requires Valid()
      ensures h == history && |h| <= HISTORY_LIMIT
    {
      h := history;
    }
  }

  /** A schedule made while a run sleeps, as written: when the run ends, the
      new task is still pending but the service reads "Idle" with no time
      and no current item, and when that task fires it runs with no item, so
      the new entry stays "Scheduled" for good. */
  method RescheduleDuringRun(zone: string, t1: Time, t2: Time, now: Time)
    returns (statusAfterRun: ServiceStatus, timeAfterRun: Option<Time>, pendingAfterRun: bool,
             secondRunHasItem: bool, secondEntry: ItemStatus)
    ensures statusAfterRun == Idle && timeAfterRun.None? && pendingAfterRun
    ensures !secondRunHasItem && secondEntry == Scheduled
  {
    var svc := new SmallJobService(zone);
    svc.SetSchedule(t1, 0, 0);
    var first := svc.Begin(now);
    svc.SetSchedule(t2, 0, 0);
    var second := svc.current;
    svc.End(first, Completed, now);
    statusAfterRun, timeAfterRun, pendingAfterRun := svc.status, svc.scheduledTime, svc.task.Pending?;
    var item := svc.Begin(now);
    secondRunHasItem := item != null;
    svc.End(item, Completed, now);
    secondEntry := second.status;
  }

  /** The same sequence with the corrected end: the second schedule survives
      the first run's end, and its own run records "Ran" on its entry. */
  method RescheduleDuringRunCorrected(zone: string, t1: Time, t2: Time, now: Time)
    returns (statusAfterRun: ServiceStatus, timeAfterRun: Option<Time>, pendingAfterRun: bool,
             secondRunHasItem: bool, secondEntry: ItemStatus)
    ensures statusAfterRun == ScheduledAt(t2, zone) && timeAfterRun == Some(t2) && pendingAfterRun
    ensures secondRunHasItem && secondEntry == Ran
  {
    var svc := new SmallJobService(zone);
    svc.SetSchedule(t1, 0, 0);
    var first := svc.Begin(now);
    svc.SetSchedule(t2, 0, 0);
    var second := svc.current;
    svc.EndCorrected(first, Completed, now);
    statusAfterRun, timeAfterRun, pendingAfterRun := svc.status, svc.scheduledTime, svc.task.Pending?;
    var item := svc.Begin(now);
    secondRunHasItem := item != null;
    svc.EndCorrected(item, Completed, now);
    secondEntry := second.status;
  }
}
