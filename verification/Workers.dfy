/** The worker's polling turn with its concurrency permits, and the entry points that start backups. */
module Workers {
  import opened Wrappers
  import opened Jobs
  import opened Leases

  /** The preflight jobs whose final failure fails the document. */
  const FatalTypes: set<JobType> := {TextExtraction, Ocr}

  function OpenPreflight(jobs: JobTable, d: DocId): set<JobId> {
    set id | id in jobs && jobs[id].doc == Some(d) && jobs[id].kind in FatalTypes + {MetadataSuggestion} && jobs[id].status in {Queued, Running}
  }

  predicate EndsPreparation(jobs: JobTable, job: JobId, d: DocId) {
    && job in jobs && jobs[job].status == Failed && jobs[job].doc == Some(d)
    && (jobs[job].kind in FatalTypes || (jobs[job].kind == MetadataSuggestion && OpenPreflight(jobs, d) == {}))
  }

  class Worker {
    const queue: JobQueue
    const id: WorkerId
    const concurrency: nat
    var permits: nat
    var running: multiset<JobId>

    ghost predicate Valid()
      reads this
    {
      permits + |running| == concurrency
    }

    constructor (queue: JobQueue, id: WorkerId, concurrency: nat)
      ensures Valid() && running == multiset{}
      ensures this.queue == queue && this.id == id && this.concurrency == concurrency
    {
      this.queue, this.id, this.concurrency := queue, id, concurrency;
      permits, running := concurrency, multiset{};
    }

    /** `_poll_jobs` up to the start of the executor: a permit is held exactly while a job is. */
    method PollJobs(now: Time, staleAfter: nat, ready: bool, ocrLocked: bool) returns (claimed: Option<JobId>)
      requires Valid()
      modifies this, queue`jobs
      ensures Valid()
      ensures claimed.Some? ==> ready && !ocrLocked && old(permits) > 0 && running == old(running) + multiset{claimed.value}
      ensures claimed.None? ==> running == old(running) && permits == old(permits)
      ensures !ready ==> queue.jobs == old(queue.jobs)
      ensures ready && claimed.None? ==> queue.jobs == RequeueStale(old(queue.jobs), now, staleAfter)
      ensures claimed.Some? ==>
        var swept := RequeueStale(old(queue.jobs), now, staleAfter);
        && (exists active :: FirstEligible(swept, queue.docs, now, active, claimed.value))
        && queue.jobs == swept[claimed.value := Claimed(swept[claimed.value], id, now)]
      ensures ready && !ocrLocked && old(permits) > 0 && claimed.None? ==>
        exists active :: IsActive(queue.jobs, queue.docs, now, active) && forall k :: !Eligible(queue.jobs, queue.docs, now, active, k)
    {
      if !ready {
        return None;
      }
      queue.RequeueStaleRunning(now, staleAfter);
      if ocrLocked {
        return None;
      }
      if permits == 0 {
        return None;
      }
      permits := permits - 1;
      ghost var active;
      claimed, active := queue.ClaimNext(now, id);
      if claimed.None? {
        permits := permits + 1;
        return;
      }
      running := running + multiset{claimed.value};
    }

    /**
      The end of an executor: complete or fail the job, then give the permit back. A preflight job that fails for good
      ends the preparation of its document, unless it was optional and other preflight jobs of the document are open.
     */
    method FinishJob(job: JobId, succeeded: bool, delay: Option<int>, now: Time) returns (r: Result<Job, QueueError>)
      requires Valid() && job in running
      modifies this, queue`jobs, queue`docs
      ensures Valid() && permits == old(permits) + 1 && running == old(running) - multiset{job}
      ensures job in old(queue.jobs) ==>
        queue.jobs == old(queue.jobs)[job :=
          if succeeded then Finished(old(queue.jobs)[job]) else FailedRow(old(queue.jobs)[job], now, delay)]
      ensures forall d :: d in queue.docs <==> d in old(queue.docs)
      ensures forall d :: d in queue.docs ==>
        queue.docs[d] == if !succeeded && EndsPreparation(queue.jobs, job, d) then old(queue.docs)[d].(preparing := false) else old(queue.docs)[d]
    {
      if succeeded {
        r := queue.CompleteJob(job);
      } else {
        r := queue.FailJob(job, now, delay);
        if r.Ok? && r.value.status == Failed && r.value.doc.Some? && r.value.doc.value in queue.docs && r.value.kind in FatalTypes + {MetadataSuggestion} {
          var d := r.value.doc.value;
          if r.value.kind == MetadataSuggestion {
            if OpenPreflight(queue.jobs, d) == {} {
              queue.docs := queue.docs[d := queue.docs[d].(preparing := false)];
            }
          } else {
            queue.docs := queue.docs[d := queue.docs[d].(preparing := false)];
          }
        }
      }
      running := running - multiset{job};
      permits := permits + 1;
    }
  }

  // ---------------------------------------------------------------- backups

  datatype BackupError = NotReady | NoRecord | AlreadyActive | Unavailable | TooManyRows

  /** Who asks: an administrator for a backup, the schedule, or an administrator for the check of a recorded bundle. */
  datatype Request = Manual(ready: bool) | Scheduled | Verify(recordExists: bool)

  datatype Policy = Policy(enabled: bool, nextRunAt: Option<Time>)

  /** `has_active_backup_job`: a query that fails when it finds more than one row. */
  method HasActiveBackupJob(queue: JobQueue) returns (r: Result<bool, BackupError>)
    ensures |ActiveBackups(queue.jobs)| >= 2 ==> r == Err(TooManyRows)
    ensures |ActiveBackups(queue.jobs)| < 2 ==> r == Ok(ActiveBackups(queue.jobs) != {})
  {
    var rows := ActiveBackups(queue.jobs);
    if |rows| > 1 {
      return Err(TooManyRows);
    }
    r := Ok(|rows| == 1);
  }

  lemma AtMostOneRow(jobs: JobTable)
    requires OneBackupIn(jobs)
    ensures |ActiveBackups(jobs)| <= 1
  {
    var rows := ActiveBackups(jobs);
    if rows != {} {
      var a :| a in rows;
      assert rows == {a};
    }
  }

  lemma StartKeepsOneBackup(jobs: JobTable, id: JobId, job: Job)
    requires OneBackupIn(jobs) && ActiveBackups(jobs) == {} && id !in jobs && job.maxRetries == 0
    ensures OneBackupIn(jobs[id := job])
  {
    var after := ActiveBackups(jobs[id := job]);
    forall a, b | a in after && b in after
      ensures a == b
    {
      assert a != id ==> a in ActiveBackups(jobs);
      assert b != id ==> b in ActiveBackups(jobs);
    }
  }

  /** The refusal that comes before the exclusion check. */
  function EarlyRefusal(request: Request): Option<BackupError> {
    match request
    case Manual(ready) => if ready then None else Some(NotReady)
    case Verify(recordExists) => if recordExists then None else Some(NoRecord)
    case Scheduled => None
  }

  /**
    A request to back up or verify. The exclusion check never meets two rows, a request is
    refused exactly when the instance is not ready, the record is missing, a job is active or the
    repository is not available, and exclusion holds afterwards.
   */
  method RequestBackup(queue: JobQueue, request: Request, healthy: bool, now: Time) returns (r: Result<JobId, BackupError>)
    requires OneBackupIn(queue.jobs) && forall k :: k in queue.jobs ==> k < queue.nextId
    modifies queue`jobs, queue`nextId
    ensures OneBackupIn(queue.jobs) && forall k :: k in queue.jobs ==> k < queue.nextId
    ensures EarlyRefusal(request).Some? ==> r == Err(EarlyRefusal(request).value)
    ensures EarlyRefusal(request).None? ==>
      && (r == Err(AlreadyActive) <==> old(ActiveBackups(queue.jobs)) != {})
      && (r == Err(Unavailable) <==> old(ActiveBackups(queue.jobs)) == {} && !request.Verify? && !healthy)
      && (r.Err? ==> r.error in {AlreadyActive, Unavailable})
    ensures r.Err? ==> queue.jobs == old(queue.jobs)
    ensures r.Ok? ==> r.value !in old(queue.jobs) && ActiveBackups(queue.jobs) == {r.value}
    ensures r.Ok? ==>
      && queue.jobs[r.value].kind == (if request.Verify? then BackupVerify else Backup) && queue.jobs[r.value].maxRetries == 0
      && queue.jobs[r.value].priority == (match request case Manual(_) => 50 case Verify(_) => 60 case Scheduled => 80)
    ensures r.Ok? ==>
      queue.jobs == Apply(State(old(queue.jobs), map[], now, map[], 0), StartBackup(r.value, request.Verify?, request.Manual?)).jobs
  {
    if request.Manual? && !request.ready {
      return Err(NotReady);
    }
    if request.Verify? && !request.recordExists {
      return Err(NoRecord);
    }
    AtMostOneRow(queue.jobs);
    var active := HasActiveBackupJob(queue);
    if active.Err? {
      assert false;
      return Err(TooManyRows);
    }
    if active.value {
      return Err(AlreadyActive);
    }
    if !request.Verify? && !healthy {
      return Err(Unavailable);
    }
    var id := queue.EnqueueJob(if request.Verify? then BackupVerify else Backup, None,
                               if request.Verify? then 60 else if request.Manual? then 50 else 80, 0, now);
    StartKeepsOneBackup(old(queue.jobs), id, queue.jobs[id]);
    assert forall k :: k in ActiveBackups(queue.jobs) && k != id ==> k in old(ActiveBackups(queue.jobs));
    assert id in ActiveBackups(queue.jobs);
    r := Ok(id);
  }

  /** The schedule is looked at when the instance is ready and the last look is at least thirty seconds ago. */
  predicate Looks(ready: bool, lastRun: int, clock: int) {
    ready && (lastRun == 0 || clock - lastRun >= 30)
  }

  predicate Due(policy: Policy, now: Time) {
    policy.enabled && policy.nextRunAt.Some? && policy.nextRunAt.value <= now
  }

  /**
    `_poll_backup_schedule`: a due run is started, or skipped to the next time if one is active. `clock` is the
    monotonic clock of the process, `lastRun` its value at the last look, zero before the first.
   */
  method PollBackupSchedule(
    queue: JobQueue, policy: Policy, nextRun: Time, ready: bool, healthy: bool, now: Time, lastRun: int, clock: int)
    returns (policy': Policy, lastRun': int, started: Option<JobId>)
    requires OneBackupIn(queue.jobs) && forall k :: k in queue.jobs ==> k < queue.nextId
    modifies queue`jobs, queue`nextId
    ensures OneBackupIn(queue.jobs) && forall k :: k in queue.jobs ==> k < queue.nextId
    ensures lastRun' == if Looks(ready, lastRun, clock) then clock else lastRun
    ensures started.Some? <==>
      Looks(ready, lastRun, clock) && Due(policy, now) && healthy && old(ActiveBackups(queue.jobs)) == {}
    ensures started.None? ==> queue.jobs == old(queue.jobs)
    ensures started.Some? ==> ActiveBackups(queue.jobs) == {started.value}
    ensures policy' ==
      if Looks(ready, lastRun, clock) && Due(policy, now) && (old(ActiveBackups(queue.jobs)) != {} || healthy)
      then policy.(nextRunAt := Some(nextRun)) else policy
  {
    if !ready {
      return policy, lastRun, None;
    }
    if lastRun != 0 && clock - lastRun < 30 {
      return policy, lastRun, None;
    }
    lastRun' := clock;
    if !policy.enabled || policy.nextRunAt.None? {
      return policy, lastRun', None;
    }
    if now < policy.nextRunAt.value {
      return policy, lastRun', None;
    }
    var r := RequestBackup(queue, Scheduled, healthy, now);
    match r
    case Ok(id) => return policy.(nextRunAt := Some(nextRun)), lastRun', Some(id);
    case Err(e) =>
      if e == AlreadyActive {
        return policy.(nextRunAt := Some(nextRun)), lastRun', None;
      }
      return policy, lastRun', None;
  }
}
