/**
  The background job queue: what each operation does to a job row, and which job a worker may
  claim next. Times are whole seconds.
 */
module Jobs {
  import opened Wrappers

  type JobId = nat
  type DocId = nat
  type WorkerId = nat
  type OwnerId = nat
  type Time = int

  datatype JobType =
    | TextExtraction | Ocr | Thumbnail | MetadataSuggestion | Indexing | Embedding | Classification | Summary
    | Backup | BackupVerify

  datatype Status = Queued | Running | Completed | Failed | Cancelled

  datatype Job = Job(
    kind: JobType, status: Status, doc: Option<DocId>, priority: int, createdAt: Time,
    retryCount: nat, maxRetries: nat, availableAt: Option<Time>,
    lockedBy: Option<WorkerId>, lockedAt: Option<Time>)

  /** `preparing` stands for a processing status of pending or processing. */
  datatype Doc = Doc(owner: OwnerId, inbox: bool, trashed: bool, preparing: bool, added: Time, created: Time)

  type JobTable = map<JobId, Job>
  type DocTable = map<DocId, Doc>

  const PreflightTypes: set<JobType> := {TextExtraction, Ocr, Thumbnail, MetadataSuggestion}

  // ---------------------------------------------------------------- row updates

  function Claimed(j: Job, worker: WorkerId, now: Time): Job {
    j.(status := Running, lockedBy := Some(worker), lockedAt := Some(now), availableAt := None)
  }

  /** A job cancelled while it ran stays cancelled. */
  function Finished(j: Job): Job {
    if j.status == Cancelled then j else j.(status := Completed, availableAt := None, lockedBy := None)
  }

  /** A failure is retried, at lower priority, while retries remain; the status before is not looked at. */
  function FailedRow(j: Job, now: Time, delay: Option<int>): Job {
    var failed := j.(retryCount := j.retryCount + 1, lockedBy := None);
    if failed.retryCount <= j.maxRetries then
      failed.(status := Queued, lockedAt := None,
              priority := if j.priority + 5 < 1000 then j.priority + 5 else 1000,
              availableAt := if delay.Some? && delay.value > 0 then Some(now + delay.value) else None)
    else failed.(status := Failed, availableAt := None)
  }

  function CancelledRow(j: Job): Job {
    if j.status in {Completed, Cancelled} then j
    else j.(status := Cancelled, lockedBy := None, availableAt := None)
  }

  function Touched(j: Job, now: Time): Job {
    if j.status == Running then j.(lockedAt := Some(now)) else j
  }

  function Requeued(j: Job): Job {
    j.(status := Queued, lockedBy := None, lockedAt := None, availableAt := None)
  }

  predicate IsStale(j: Job, now: Time, olderThan: nat) {
    j.status == Running && j.lockedAt.Some? && j.lockedAt.value < now - olderThan
  }

  predicate OnTrashed(docs: DocTable, j: Job) {
    j.doc.Some? && j.doc.value in docs && docs[j.doc.value].trashed
  }

  function TrashCancelled(docs: DocTable, j: Job): Job {
    if j.status in {Queued, Running} && OnTrashed(docs, j)
    then j.(status := Cancelled, lockedBy := None, lockedAt := None, availableAt := None)
    else j
  }

  function RequeueStale(jobs: JobTable, now: Time, olderThan: nat): JobTable {
    map id | id in jobs :: if IsStale(jobs[id], now, olderThan) then Requeued(jobs[id]) else jobs[id]
  }

  function RequeueAll(jobs: JobTable): JobTable {
    map id | id in jobs :: if jobs[id].status == Running then Requeued(jobs[id]) else jobs[id]
  }

  function CancelTrashed(jobs: JobTable, docs: DocTable): JobTable {
    map id | id in jobs :: TrashCancelled(docs, jobs[id])
  }

  /** Only what a claim wrote is taken back; the job itself stays as it is. */
  predicate OnlyUnlocked(j: Job, j': Job) {
    && j'.lockedBy == None && j'.lockedAt == None && j'.availableAt == None
    && j == j'.(status := j.status, lockedBy := j.lockedBy, lockedAt := j.lockedAt, availableAt := j.availableAt)
  }

  predicate Available(j: Job, now: Time) {
    j.status == Queued && (j.availableAt.None? || j.availableAt.value <= now)
  }

  /**
    Whether a failure ends a job depends on its retries alone: a cancelled job can be requeued. A retried job is five
    steps further back, never beyond 1000, and can be claimed once the delay is over; a failed one never.
   */
  lemma FailureRequeues(j: Job, now: Time, delay: Option<int>)
    ensures var failed := FailedRow(j, now, delay);
      && (failed.status == Queued <==> j.retryCount < j.maxRetries) && failed.status in {Queued, Failed}
      && failed.retryCount == j.retryCount + 1 && failed.lockedBy == None
      && (forall t :: Available(failed, t) <==> j.retryCount < j.maxRetries && (delay.Some? && delay.value > 0 ==> now + delay.value <= t))
      && (failed.status == Failed ==> failed.priority == j.priority)
      && (failed.status == Queued ==> failed.priority <= 1000 && (j.priority <= 995 ==> failed.priority == j.priority + 5))
      && (failed.status == Queued && j.priority >= 995 ==> failed.priority == 1000)
      && (failed.status == Queued ==> failed.lockedAt == None)
      && failed.kind == j.kind && failed.doc == j.doc && failed.createdAt == j.createdAt && failed.maxRetries == j.maxRetries
    ensures j.maxRetries == 0 ==> FailedRow(CancelledRow(j), now, delay).status == Failed
  {
  }

  /** A claim starts a lock and a heartbeat renews it: the job is stale exactly when more than the threshold has passed since. */
  lemma RefreshedLock(j: Job, worker: WorkerId, now: Time, to: Time, olderThan: nat)
    ensures IsStale(Claimed(j, worker, now), to, olderThan) <==> to > now + olderThan
    ensures IsStale(Touched(j, now), to, olderThan) <==> j.status == Running && to > now + olderThan
    ensures Claimed(j, worker, now).status == Running && Claimed(j, worker, now).lockedBy == Some(worker)
    ensures Touched(j, now).(lockedAt := j.lockedAt) == j
  {
  }

  /** How a job ends: completed unless it was cancelled before, cancelled unless it was completed before; either is for good. */
  lemma EndedRows(j: Job)
    ensures Finished(j).status == if j.status == Cancelled then Cancelled else Completed
    ensures CancelledRow(j).status == if j.status == Completed then Completed else Cancelled
    ensures Finished(CancelledRow(j)).status == CancelledRow(j).status && CancelledRow(Finished(j)) == Finished(j)
    ensures j.status != Cancelled ==> Finished(j).lockedBy == None
    ensures forall t :: !Available(Finished(j), t) && !Available(CancelledRow(j), t)
  {
  }

  // ---------------------------------------------------------------- claiming

  /** A document still being prepared in the inbox. */
  predicate Preparing(docs: DocTable, d: DocId) {
    d in docs && docs[d].inbox && !docs[d].trashed && docs[d].preparing
  }

  /** A job subject to the gate that lets one preparing document through at a time. */
  predicate Gated(docs: DocTable, j: Job) {
    j.kind in PreflightTypes && j.doc.Some? && Preparing(docs, j.doc.value)
  }

  function RunningDocs(jobs: JobTable, docs: DocTable): set<DocId> {
    set id | id in jobs && jobs[id].status == Running && Gated(docs, jobs[id]) :: jobs[id].doc.value
  }

  function WaitingDocs(jobs: JobTable, docs: DocTable, now: Time): set<DocId> {
    set id | id in jobs && Available(jobs[id], now) && Gated(docs, jobs[id]) :: jobs[id].doc.value
  }

  predicate LexLe(a: (int, int), b: (int, int)) {
    a.0 < b.0 || (a.0 == b.0 && a.1 <= b.1)
  }

  function Age(docs: DocTable, d: DocId): (Time, Time) {
    if d in docs then (docs[d].added, docs[d].created) else (0, 0)
  }

  function Rank(jobs: JobTable, id: JobId): (int, Time) {
    if id in jobs then (jobs[id].priority, jobs[id].createdAt) else (0, 0)
  }

  /** The order of the queue: by priority number, then by creation. */
  predicate ComesBefore(a: Job, b: Job) {
    a.priority < b.priority || (a.priority == b.priority && a.createdAt <= b.createdAt)
  }

  predicate AddedBefore(a: Doc, b: Doc) {
    a.added < b.added || (a.added == b.added && a.created <= b.created)
  }

  predicate Oldest(docs: DocTable, among: set<DocId>, d: DocId) {
    d in among && forall e :: e in among ==> LexLe(Age(docs, d), Age(docs, e))
  }

  /** The document that owns the preflight pipeline: a running one if any, else the oldest waiting. */
  predicate IsActive(jobs: JobTable, docs: DocTable, now: Time, active: Option<DocId>) {
    var running, waiting := RunningDocs(jobs, docs), WaitingDocs(jobs, docs, now);
    match active
    case None => running == {} && waiting == {}
    case Some(d) => if running != {} then Oldest(docs, running, d) else Oldest(docs, waiting, d)
  }

  predicate Eligible(jobs: JobTable, docs: DocTable, now: Time, active: Option<DocId>, id: JobId) {
    && id in jobs
    && Available(jobs[id], now)
    && !OnTrashed(docs, jobs[id])
    && (Gated(docs, jobs[id]) ==> active == jobs[id].doc)
  }

  /** A job the queue may hand out: eligible, and first by priority and creation time. */
  predicate FirstEligible(jobs: JobTable, docs: DocTable, now: Time, active: Option<DocId>, id: JobId) {
    && Eligible(jobs, docs, now, active, id)
    && forall k :: k in jobs && Eligible(jobs, docs, now, active, k) ==> LexLe(Rank(jobs, id), Rank(jobs, k))
  }

  /**
    Work conservation: the queue hands out nothing exactly when every available job on an
    untrashed document is a preflight job held back by a running one, on another document that
    is still being prepared.
   */
  lemma NothingClaimable(jobs: JobTable, docs: DocTable, now: Time, active: Option<DocId>)
    requires IsActive(jobs, docs, now, active)
    ensures (forall id :: !Eligible(jobs, docs, now, active, id)) <==>
            (forall id :: id in jobs && Available(jobs[id], now) && !OnTrashed(docs, jobs[id]) ==>
              (Gated(docs, jobs[id]) && active.Some? && active.value in RunningDocs(jobs, docs) && jobs[id].doc != active))
  {
    if forall id :: !Eligible(jobs, docs, now, active, id) {
      forall id | id in jobs && Available(jobs[id], now) && !OnTrashed(docs, jobs[id])
        ensures Gated(docs, jobs[id]) && active.Some? && active.value in RunningDocs(jobs, docs) && jobs[id].doc != active
      {
        assert !Eligible(jobs, docs, now, active, id);
        assert jobs[id].doc.value in WaitingDocs(jobs, docs, now);
        if RunningDocs(jobs, docs) == {} {
          var k :| k in jobs && Available(jobs[k], now) && Gated(docs, jobs[k]) && jobs[k].doc == active;
          assert Eligible(jobs, docs, now, active, k);
        }
      }
    }
  }

  /** Claiming for a document other than the running ones cannot happen while one runs. */
  lemma ClaimKeepsOneDocument(jobs: JobTable, docs: DocTable, now: Time, active: Option<DocId>, id: JobId)
    requires IsActive(jobs, docs, now, active) && Eligible(jobs, docs, now, active, id)
    requires Gated(docs, jobs[id]) && RunningDocs(jobs, docs) != {}
    ensures jobs[id].doc.value in RunningDocs(jobs, docs)
  {
  }

  lemma {:induction false} OldestExists(docs: DocTable, among: set<DocId>)
    requires among != {}
    ensures exists d :: Oldest(docs, among, d)
  {
    var x :| x in among;
    if among == {x} {
      assert Oldest(docs, among, x);
    } else {
      var rest := among - {x};
      OldestExists(docs, rest);
      var y :| Oldest(docs, rest, y);
      var d := if LexLe(Age(docs, x), Age(docs, y)) then x else y;
      assert forall e :: e in among ==> e == x || e in rest;
      assert Oldest(docs, among, d);
    }
  }

  predicate First(jobs: JobTable, among: set<JobId>, id: JobId) {
    id in among && forall k :: k in among ==> LexLe(Rank(jobs, id), Rank(jobs, k))
  }

  lemma {:induction false} FirstExists(jobs: JobTable, among: set<JobId>)
    requires among != {}
    ensures exists id :: First(jobs, among, id)
  {
    var x :| x in among;
    if among == {x} {
      assert First(jobs, among, x);
    } else {
      var rest := among - {x};
      FirstExists(jobs, rest);
      var y :| First(jobs, rest, y);
      var id := if LexLe(Rank(jobs, x), Rank(jobs, y)) then x else y;
      assert forall k :: k in among ==> k == x || k in rest;
      assert First(jobs, among, id);
    }
  }

  // ---------------------------------------------------------------- the queue as it runs

  datatype QueueError = NotFound | MultipleRows

  class JobQueue {
    var jobs: JobTable
    var docs: DocTable
    var nextId: JobId

    constructor (docs: DocTable)
      ensures jobs == map[] && this.docs == docs && nextId == 0
    {
      jobs, this.docs, nextId := map[], docs, 0;
    }

    method EnqueueJob(kind: JobType, doc: Option<DocId>, priority: int, maxRetries: nat, now: Time) returns (id: JobId)
      requires forall k :: k in jobs ==> k < nextId
      modifies `jobs, `nextId
      ensures id !in old(jobs) && (forall k :: k in jobs ==> k < nextId)
      ensures jobs == old(jobs)[id := Job(kind, Queued, doc, priority, now, 0, maxRetries, None, None, None)]
    {
      id := nextId;
      jobs := jobs[id := Job(kind, Queued, doc, priority, now, 0, maxRetries, None, None, None)];
      nextId := nextId + 1;
    }

    /** `_active_inbox_preflight_document_id`. */
    method ActivePreflightDocument(now: Time) returns (active: Option<DocId>)
      ensures IsActive(jobs, docs, now, active)
      ensures active.Some? ==>
        var running, waiting := RunningDocs(jobs, docs), WaitingDocs(jobs, docs, now);
        && active.value in docs && active.value in (if running != {} then running else waiting)
        && (forall d :: d in running ==> d in docs && AddedBefore(docs[active.value], docs[d]))
        && (running == {} ==> forall d :: d in waiting ==> d in docs && AddedBefore(docs[active.value], docs[d]))
    {
      var running := RunningDocs(jobs, docs);
      if running != {} {
        OldestExists(docs, running);
        var d :| d in running && Oldest(docs, running, d);
        return Some(d);
      }
      var waiting := WaitingDocs(jobs, docs, now);
      if waiting != {} {
        OldestExists(docs, waiting);
        var d :| d in waiting && Oldest(docs, waiting, d);
        return Some(d);
      }
      active := None;
    }

    /** `claim_next`. */
    method ClaimNext(now: Time, worker: WorkerId) returns (claimed: Option<JobId>, ghost active: Option<DocId>)
      modifies `jobs
      ensures IsActive(old(jobs), docs, now, active)
      ensures claimed.None? ==> jobs == old(jobs) && forall id :: !Eligible(jobs, docs, now, active, id)
      ensures claimed.Some? ==>
        && FirstEligible(old(jobs), docs, now, active, claimed.value)
        && (forall k :: k in jobs && Eligible(old(jobs), docs, now, active, k) ==>
            ComesBefore(old(jobs)[claimed.value], old(jobs)[k]))
        && jobs == old(jobs)[claimed.value := Claimed(old(jobs)[claimed.value], worker, now)]
    {
      var allowed := ActivePreflightDocument(now);
      active := allowed;
      var eligible := set id | id in jobs && Eligible(jobs, docs, now, allowed, id);
      if eligible == {} {
        forall id
          ensures !Eligible(jobs, docs, now, active, id)
        {
          assert id !in eligible;
        }
        return None, active;
      }
      FirstExists(jobs, eligible);
      var id :| id in eligible && First(jobs, eligible, id);
      assert forall k :: k in jobs && Eligible(jobs, docs, now, allowed, k) ==> k in eligible;
      jobs := jobs[id := Claimed(jobs[id], worker, now)];
      claimed := Some(id);
    }

    method CompleteJob(id: JobId) returns (r: Result<Job, QueueError>)
      modifies `jobs
      ensures if id in old(jobs) then r == Ok(Finished(old(jobs)[id])) && jobs == old(jobs)[id := Finished(old(jobs)[id])]
              else r == Err(NotFound) && jobs == old(jobs)
      ensures id in old(jobs) ==> jobs[id].status == if old(jobs)[id].status == Cancelled then Cancelled else Completed
    {
      if id !in jobs {
        return Err(NotFound);
      }
      var job := jobs[id];
      if job.status != Cancelled {
        job := job.(status := Completed, availableAt := None, lockedBy := None);
        jobs := jobs[id := job];
      }
      assert id in old(jobs) ==> jobs == old(jobs)[id := Finished(old(jobs)[id])];
      r := Ok(job);
    }

    method TouchJobLock(id: JobId, now: Time)
      modifies `jobs
      ensures jobs == if id in old(jobs) then old(jobs)[id := Touched(old(jobs)[id], now)] else old(jobs)
      ensures id in jobs && jobs[id].status == Running ==>
        jobs[id].lockedAt == Some(now) && forall to, olderThan :: IsStale(jobs[id], to, olderThan) <==> to > now + olderThan
      ensures id in jobs && jobs[id].status != Running ==> jobs == old(jobs)
    {
      if id in jobs && jobs[id].status == Running {
        jobs := jobs[id := jobs[id].(lockedAt := Some(now))];
      }
    }

    method FailJob(id: JobId, now: Time, delay: Option<int>) returns (r: Result<Job, QueueError>)
      modifies `jobs
      ensures if id in old(jobs) then
          var failed := FailedRow(old(jobs)[id], now, delay);
          r == Ok(failed) && jobs == old(jobs)[id := failed]
        else r == Err(NotFound) && jobs == old(jobs)
    {
      if id !in jobs {
        return Err(NotFound);
      }
      var job := jobs[id];
      job := job.(retryCount := job.retryCount + 1);
      if job.retryCount <= job.maxRetries {
        job := job.(status := Queued, lockedBy := None, lockedAt := None);
        job := job.(priority := if job.priority + 5 < 1000 then job.priority + 5 else 1000);
        if delay.Some? && delay.value > 0 {
          job := job.(availableAt := Some(now + delay.value));
        } else {
          job := job.(availableAt := None);
        }
      } else {
        job := job.(status := Failed, lockedBy := None, availableAt := None);
      }
      jobs := jobs[id := job];
      r := Ok(job);
    }

    /** `get_job`: with an owner given, only jobs on that owner's documents are found. */
    predicate Visible(id: JobId, owner: Option<OwnerId>)
      reads this
    {
      id in jobs && (owner.Some? ==> jobs[id].doc.Some? && jobs[id].doc.value in docs && docs[jobs[id].doc.value].owner == owner.value)
    }

    /** `cancel_job`: a finished or cancelled job stays as it is, any other loses its lock and is cancelled. */
    method CancelJob(id: JobId, owner: Option<OwnerId>) returns (r: Result<Job, QueueError>)
      modifies `jobs
      ensures if old(Visible(id, owner))
        then r == Ok(CancelledRow(old(jobs)[id])) && jobs == old(jobs)[id := CancelledRow(old(jobs)[id])]
        else r == Err(NotFound) && jobs == old(jobs)
    {
      if !Visible(id, owner) {
        return Err(NotFound);
      }
      var job := jobs[id];
      if job.status != Completed && job.status != Cancelled {
        job := job.(status := Cancelled, lockedBy := None, availableAt := None);
        jobs := jobs[id := job];
      }
      assert jobs == old(jobs)[id := CancelledRow(old(jobs)[id])];
      r := Ok(job);
    }

    /**
      `requeue_stale_running`, one bulk update: afterwards no lock is stale, the jobs whose lock was stale can be
      claimed again at once, and no other row changes.
     */
    method RequeueStaleRunning(now: Time, olderThan: nat)
      modifies `jobs
      ensures jobs.Keys == old(jobs).Keys
      ensures forall id :: id in jobs ==> !IsStale(jobs[id], now, olderThan)
      ensures forall id :: id in jobs && !IsStale(old(jobs)[id], now, olderThan) ==> jobs[id] == old(jobs)[id]
      ensures forall id :: id in jobs && IsStale(old(jobs)[id], now, olderThan) ==>
        Available(jobs[id], now) && OnlyUnlocked(old(jobs)[id], jobs[id])
      ensures jobs == RequeueStale(old(jobs), now, olderThan)
    {
      jobs := map id | id in jobs :: if IsStale(jobs[id], now, olderThan) then Requeued(jobs[id]) else jobs[id];
    }

    /**
      `requeue_all_running` and `cancel_jobs_for_trashed_documents`, as a worker starts: afterwards nothing runs, no
      queued job sits on a trashed document, the jobs that ran on other documents can be claimed at once, and only
      jobs that ran or were queued on a trashed document have changed.
     */
    method Startup()
      modifies `jobs
      ensures jobs.Keys == old(jobs).Keys
      ensures forall id :: id in jobs ==> jobs[id].status != Running
      ensures forall id :: id in jobs && OnTrashed(docs, jobs[id]) ==> jobs[id].status != Queued
      ensures forall id :: id in jobs ==>
        var was := old(jobs)[id];
        if was.status in {Queued, Running} && OnTrashed(docs, was) then jobs[id].status == Cancelled && OnlyUnlocked(was, jobs[id])
        else if was.status == Running then jobs[id].status == Queued && OnlyUnlocked(was, jobs[id])
        else jobs[id] == was
      ensures jobs == CancelTrashed(RequeueAll(old(jobs)), docs)
    {
      jobs := RequeueAll(jobs);
      jobs := CancelTrashed(jobs, docs);
    }
  }
}
