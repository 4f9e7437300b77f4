/**
  The lease protocol over whole runs: workers claim jobs, refresh their locks, finish or die,
  while users cancel jobs, stale locks are requeued, documents change and time passes. Each
  committed service call is one step.
 */
module Leases {
  import opened Wrappers
  import opened Jobs

  type ExecId = nat

  /** A live executor: the coroutine of one worker that runs one job. */
  datatype Lease = Lease(job: JobId, worker: WorkerId)

  datatype State = State(jobs: JobTable, docs: DocTable, now: Time, live: map<ExecId, Lease>, staleAfter: nat)

  datatype Event =
    | Enqueue(id: JobId, kind: JobType, target: Option<DocId>, priority: int, maxRetries: nat)
    | StartBackup(id: JobId, verify: bool, manual: bool)
    | Claim(exec: ExecId, worker: WorkerId, job: JobId)
    | Heartbeat(exec: ExecId)
    | Complete(exec: ExecId)
    | Fail(exec: ExecId, delay: Option<int>)
    | Crash(exec: ExecId)
    | Cancel(id: JobId)
    | SweepStale
    | SweepTrashed
    | Restart
    | ChangeDoc(changed: DocId, row: Doc)
    | Tick(to: Time)

  predicate IsBackup(j: Job) {
    j.kind == Backup || j.kind == BackupVerify
  }

  predicate ActiveBackup(j: Job) {
    IsBackup(j) && (j.status == Queued || j.status == Running)
  }

  function ActiveBackups(jobs: JobTable): set<JobId> {
    set id | id in jobs && ActiveBackup(jobs[id])
  }

  function NewJob(kind: JobType, doc: Option<DocId>, priority: int, maxRetries: nat, now: Time): Job {
    Job(kind, Queued, doc, priority, now, 0, maxRetries, None, None, None)
  }

  /** Every live executor whose job still runs has refreshed its lock within the stale threshold. */
  ghost predicate Fresh(s: State) {
    forall e :: e in s.live && s.live[e].job in s.jobs && s.jobs[s.live[e].job].status == Running ==>
      s.jobs[s.live[e].job].lockedAt.Some? && s.now - s.jobs[s.live[e].job].lockedAt.value <= s.staleAfter
  }

  /** A running preflight job sits on the document. */
  ghost predicate RunsPreflight(jobs: JobTable, d: DocId) {
    exists id :: id in jobs && jobs[id].status == Running && jobs[id].kind in PreflightTypes && jobs[id].doc == Some(d)
  }

  /** What can happen next: the code's own guards and nothing else. */
  ghost predicate Possible(s: State, e: Event) {
    match e
    case Enqueue(id, kind, _, _, _) => id !in s.jobs && kind != Backup && kind != BackupVerify
    case StartBackup(id, _, _) => id !in s.jobs && ActiveBackups(s.jobs) == {}
    case Claim(exec, _, job) =>
      exec !in s.live && exists active :: IsActive(s.jobs, s.docs, s.now, active) && FirstEligible(s.jobs, s.docs, s.now, active, job)
    case Heartbeat(exec) => exec in s.live
    case Complete(exec) => exec in s.live
    case Fail(exec, _) => exec in s.live
    case Crash(exec) => exec in s.live
    case Cancel(id) => id in s.jobs
    case Tick(to) => s.now <= to
    case _ => true
  }

  /** Sweeps must not meet the stale lock of a live executor, nor restarts the running job of one. */
  ghost predicate SparesLeases(s: State, e: Event) {
    match e
    case SweepStale => forall x :: x in s.live && s.live[x].job in s.jobs ==> !IsStale(s.jobs[s.live[x].job], s.now, s.staleAfter)
    case Restart =>
      forall x :: x in s.live && s.live[x].job in s.jobs && s.jobs[s.live[x].job].status == Running ==>
        OnTrashed(s.docs, s.jobs[s.live[x].job])
    case _ => true
  }

  /** A document must not return to preparation with a preflight job running while another document's runs. */
  ghost predicate SparesGate(s: State, e: Event) {
    e.ChangeDoc? && !Preparing(s.docs, e.changed) && Preparing(s.docs[e.changed := e.row], e.changed) && RunsPreflight(s.jobs, e.changed)
    ==> forall a :: RunsGated(s, a) ==> s.jobs[a].doc == Some(e.changed)
  }

  function UpdateRow(jobs: JobTable, id: JobId, f: Job -> Job): JobTable {
    if id in jobs then jobs[id := f(jobs[id])] else jobs
  }

  function Apply(s: State, e: Event): State {
    match e
    case Enqueue(id, kind, doc, priority, maxRetries) =>
      s.(jobs := s.jobs[id := NewJob(kind, doc, priority, maxRetries, s.now)])
    case StartBackup(id, verify, manual) =>
      s.(jobs := s.jobs[id := NewJob(if verify then BackupVerify else Backup, None,
                                     if verify then 60 else if manual then 50 else 80, 0, s.now)])
    case Claim(exec, worker, job) =>
      s.(jobs := UpdateRow(s.jobs, job, j => Claimed(j, worker, s.now)), live := s.live[exec := Lease(job, worker)])
    case Heartbeat(exec) =>
      if exec in s.live then s.(jobs := UpdateRow(s.jobs, s.live[exec].job, j => Touched(j, s.now))) else s
    case Complete(exec) =>
      if exec in s.live then s.(jobs := UpdateRow(s.jobs, s.live[exec].job, Finished), live := s.live - {exec}) else s
    case Fail(exec, delay) =>
      if exec in s.live then
        s.(jobs := UpdateRow(s.jobs, s.live[exec].job, j => FailedRow(j, s.now, delay)), live := s.live - {exec})
      else s
    case Crash(exec) => s.(live := s.live - {exec})
    case Cancel(id) => s.(jobs := UpdateRow(s.jobs, id, CancelledRow))
    case SweepStale => s.(jobs := RequeueStale(s.jobs, s.now, s.staleAfter))
    case SweepTrashed => s.(jobs := CancelTrashed(s.jobs, s.docs))
    case Restart => s.(jobs := CancelTrashed(RequeueAll(s.jobs), s.docs))
    case ChangeDoc(d, row) => s.(docs := s.docs[d := row])
    case Tick(to) => s.(now := to)
  }

  function After(s: State, events: seq<Event>): State
    decreases |events|
  {
    if events == [] then s else After(Apply(s, events[0]), events[1..])
  }

  ghost predicate Run(s: State, events: seq<Event>)
    decreases |events|
  {
    events == [] || (Possible(s, events[0]) && Run(Apply(s, events[0]), events[1..]))
  }

  /** No step of the run takes a job from a live executor or lets a second document through the gate. */
  ghost predicate Careful(s: State, events: seq<Event>)
    decreases |events|
  {
    events == [] || (SparesLeases(s, events[0]) && SparesGate(s, events[0]) && Careful(Apply(s, events[0]), events[1..]))
  }

  // ---------------------------------------------------------------- lease safety

  /** No job has two live executors. */
  ghost predicate OneExecutor(s: State) {
    forall a, b :: a in s.live && b in s.live && s.live[a].job == s.live[b].job ==> a == b
  }

  /** The job of a live executor runs under the lock of its worker, or was cancelled. */
  ghost predicate LockHeld(s: State) {
    forall x :: x in s.live ==> LockOf(s, x)
  }

  ghost predicate LockOf(s: State, x: ExecId)
    requires x in s.live
  {
    && s.live[x].job in s.jobs
    && s.jobs[s.live[x].job].status in {Running, Cancelled}
    && (s.jobs[s.live[x].job].status == Running ==> s.jobs[s.live[x].job].lockedBy == Some(s.live[x].worker))
  }

  ghost predicate LeaseSafe(s: State) {
    OneExecutor(s) && LockHeld(s)
  }

  ghost predicate RunsGated(s: State, id: JobId) {
    id in s.jobs && s.jobs[id].status == Running && Gated(s.docs, s.jobs[id])
  }

  /** At most one document has running preflight jobs while it is being prepared. */
  ghost predicate OneDocument(s: State) {
    forall a, b :: RunsGated(s, a) && RunsGated(s, b) ==> s.jobs[a].doc == s.jobs[b].doc
  }

  ghost predicate OneActiveBackup(jobs: JobTable) {
    forall a, b :: a in ActiveBackups(jobs) && b in ActiveBackups(jobs) ==> a == b
  }

  /** At most one backup or verification is queued or running, and none of them may retry. */
  ghost predicate OneBackupIn(jobs: JobTable) {
    OneActiveBackup(jobs) && forall id :: id in jobs && IsBackup(jobs[id]) ==> jobs[id].maxRetries == 0
  }

  ghost predicate Safe(s: State) {
    LeaseSafe(s) && OneDocument(s) && OneBackupIn(s.jobs)
  }

  /** Only a claim sets a job running; no step changes what a job is or which document it is for. */
  lemma OnlyClaimsRun(s: State, e: Event)
    requires Possible(s, e) && !e.Claim?
    ensures var s' := Apply(s, e);
      forall id :: id in s'.jobs && s'.jobs[id].status == Running ==>
        && id in s.jobs && s.jobs[id].status == Running
        && s'.jobs[id].kind == s.jobs[id].kind && s'.jobs[id].doc == s.jobs[id].doc
        && s'.jobs[id].lockedBy == s.jobs[id].lockedBy
  {
    hide IsActive, Gated, RunsPreflight;
  }

  /** The row of a live executor stays running under its lock or is cancelled. */
  lemma LiveRowsStay(s: State, e: Event, x: ExecId)
    requires LeaseSafe(s) && Possible(s, e) && SparesLeases(s, e)
    requires x in s.live && x in Apply(s, e).live
    ensures var s', id := Apply(s, e), s.live[x].job;
      && s'.live[x] == s.live[x]
      && id in s'.jobs && s'.jobs[id].status in {Running, Cancelled}
      && (s'.jobs[id].status == Running ==> s.jobs[id].status == Running && s'.jobs[id].lockedBy == s.jobs[id].lockedBy)
  {
    hide IsActive, Gated, RunsPreflight;
  }

  /** Every lock refreshed within the threshold spares the sweep; nobody alive spares the restart. */
  lemma FreshSparesLeases(s: State)
    ensures Fresh(s) ==> SparesLeases(s, SweepStale)
    ensures s.live == map[] ==> SparesLeases(s, Restart)
  {
  }

  /** A stale sweep keeps the leases exactly when no live executor's lock is stale. */
  lemma SweepKeepsLeases(s: State)
    requires LeaseSafe(s)
    ensures LeaseSafe(Apply(s, SweepStale)) <==> SparesLeases(s, SweepStale)
  {
  }

  /** A restart keeps the leases exactly when every running job of a live executor sits on a trashed document. */
  lemma RestartKeepsLeases(s: State)
    requires LeaseSafe(s)
    ensures LeaseSafe(Apply(s, Restart)) <==> SparesLeases(s, Restart)
  {
  }

  /** Lease safety is kept by exactly the steps that spare the leases. */
  lemma StepLeaseSafe(s: State, e: Event)
    requires LeaseSafe(s) && Possible(s, e)
    ensures LeaseSafe(Apply(s, e)) <==> SparesLeases(s, e)
  {
    if e.SweepStale? {
      SweepKeepsLeases(s);
    } else if e.Restart? {
      RestartKeepsLeases(s);
    } else {
      LeasesKept(s, e);
    }
  }

  lemma LeasesKept(s: State, e: Event)
    requires LeaseSafe(s) && Possible(s, e) && SparesLeases(s, e)
    ensures LeaseSafe(Apply(s, e))
  {
    var s' := Apply(s, e);
    LiveByClaim(s, e);
    if e.Claim? {
      NoExecutorYet(s, e);
    }
    hide Apply, Possible, SparesLeases;
    assert OneExecutor(s');
    forall x | x in s'.live
      ensures LockOf(s', x)
    {
      if x in s.live && s'.live[x] == s.live[x] {
        LiveRowsStay(s, e, x);
        assert LockOf(s, x);
      }
    }
  }

  /** Only a claim adds an executor, and it adds one whose job runs under its worker's lock. */
  lemma LiveByClaim(s: State, e: Event)
    requires Possible(s, e)
    ensures var s' := Apply(s, e);
      forall x :: x in s'.live && !(x in s.live && s'.live[x] == s.live[x]) ==>
        && e.Claim? && x == e.exec && s'.live[x] == Lease(e.job, e.worker)
        && e.job in s'.jobs && s'.jobs[e.job].status == Running && s'.jobs[e.job].lockedBy == Some(e.worker)
  {
    hide IsActive, Gated, RunsPreflight, OnTrashed;
  }

  /** A queued job has no live executor, so a claim gives it its first. */
  lemma NoExecutorYet(s: State, e: Event)
    requires LeaseSafe(s) && Possible(s, e) && e.Claim?
    ensures e.job in s.jobs && s.jobs[e.job].status == Queued
    ensures forall x :: x in s.live ==> s.live[x].job != e.job
  {
    hide IsActive, Gated, RunsPreflight;
  }

  /** The gate is kept by exactly the steps that spare it. */
  lemma StepOneDocument(s: State, e: Event)
    requires OneDocument(s) && Possible(s, e)
    ensures OneDocument(Apply(s, e)) <==> SparesGate(s, e)
  {
    if e.Claim? {
      ClaimKeepsGate(s, e);
    } else if e.ChangeDoc? {
      ChangeKeepsGate(s, e.changed, e.row);
    } else {
      OthersKeepGate(s, e);
    }
  }

  lemma ClaimKeepsGate(s: State, e: Event)
    requires OneDocument(s) && Possible(s, e) && e.Claim?
    ensures OneDocument(Apply(s, e))
  {
    var s' := Apply(s, e);
    var active :| IsActive(s.jobs, s.docs, s.now, active) && FirstEligible(s.jobs, s.docs, s.now, active, e.job);
    hide IsActive, FirstEligible;
    forall a | RunsGated(s', a) && a != e.job && Gated(s.docs, s.jobs[e.job])
      ensures s'.jobs[a].doc == s'.jobs[e.job].doc
    {
      assert RunsGated(s, a);
      assert s.jobs[a].doc.value in RunningDocs(s.jobs, s.docs);
      EligibleIsFirst(s, active, e.job);
      ClaimKeepsOneDocument(s.jobs, s.docs, s.now, active, e.job);
      var b :| RunsGated(s, b) && s.jobs[b].doc == s.jobs[e.job].doc;
    }
    assert forall a :: RunsGated(s', a) && a != e.job ==> RunsGated(s, a);
  }

  lemma EligibleIsFirst(s: State, active: Option<DocId>, id: JobId)
    requires FirstEligible(s.jobs, s.docs, s.now, active, id)
    ensures Eligible(s.jobs, s.docs, s.now, active, id)
  {
  }

  lemma OthersKeepGate(s: State, e: Event)
    requires OneDocument(s) && Possible(s, e) && !e.Claim? && !e.ChangeDoc?
    ensures OneDocument(Apply(s, e))
  {
    var s' := Apply(s, e);
    OnlyClaimsRun(s, e);
    assert s'.docs == s.docs;
    hide Apply, Possible;
    forall a | RunsGated(s', a)
      ensures RunsGated(s, a) && s'.jobs[a].doc == s.jobs[a].doc
    {
    }
  }

  lemma ChangeKeepsGate(s: State, d: DocId, row: Doc)
    requires OneDocument(s)
    ensures OneDocument(Apply(s, ChangeDoc(d, row))) <==> SparesGate(s, ChangeDoc(d, row))
  {
    var s' := Apply(s, ChangeDoc(d, row));
    forall a
      ensures RunsGated(s', a) && s.jobs[a].doc != Some(d) <==> RunsGated(s, a) && s.jobs[a].doc != Some(d)
    {
    }
    if !Preparing(s.docs, d) && Preparing(s'.docs, d) && RunsPreflight(s.jobs, d) {
      var b :| b in s.jobs && s.jobs[b].status == Running && s.jobs[b].kind in PreflightTypes && s.jobs[b].doc == Some(d);
      assert RunsGated(s', b);
      if OneDocument(s') {
        forall a | RunsGated(s, a)
          ensures s.jobs[a].doc == Some(d)
        {
          assert s.jobs[a].doc != Some(d) ==> RunsGated(s', a);
        }
      }
    } else {
      forall a | RunsGated(s', a)
        ensures RunsGated(s, a)
      {
        assert s.jobs[a].doc == Some(d) ==> RunsPreflight(s.jobs, d);
      }
    }
  }

  // ---------------------------------------------------------------- backups

  /** The step is the failure of a backup that may be tried again while another one is active. */
  ghost predicate RevivesBackup(s: State, e: Event) {
    && e.Fail? && e.exec in s.live && s.live[e.exec].job in s.jobs
    && IsBackup(s.jobs[s.live[e.exec].job]) && s.jobs[s.live[e.exec].job].retryCount < s.jobs[s.live[e.exec].job].maxRetries
    && exists k :: k in ActiveBackups(s.jobs) && k != s.live[e.exec].job
  }

  /** What a step does to the active backups. */
  lemma ActiveBackupsAfter(s: State, e: Event, id: JobId)
    requires Possible(s, e) && id in ActiveBackups(Apply(s, e).jobs)
    ensures || id in ActiveBackups(s.jobs)
            || (e.StartBackup? && e.id == id)
            || (e.Fail? && s.live[e.exec].job == id && id in s.jobs && IsBackup(s.jobs[id]) && s.jobs[id].retryCount < s.jobs[id].maxRetries)
  {
    hide IsActive, Gated, RunsPreflight, OnTrashed;
  }

  /** Exclusion of backups is lost by exactly one kind of step, whatever the retry limits are. */
  lemma StepOneActiveBackup(s: State, e: Event)
    requires OneActiveBackup(s.jobs) && Possible(s, e)
    ensures OneActiveBackup(Apply(s, e).jobs) <==> !RevivesBackup(s, e)
  {
    var s' := Apply(s, e);
    if RevivesBackup(s, e) {
      var k :| k in ActiveBackups(s.jobs) && k != s.live[e.exec].job;
      assert k in ActiveBackups(s'.jobs) && s.live[e.exec].job in ActiveBackups(s'.jobs);
    } else {
      assert e.StartBackup? ==> ActiveBackups(s.jobs) == {};
      hide Apply, Possible;
      forall a, b | a in ActiveBackups(s'.jobs) && b in ActiveBackups(s'.jobs)
        ensures a == b
      {
        ActiveBackupsAfter(s, e, a);
        ActiveBackupsAfter(s, e, b);
      }
    }
  }

  /** Backups are only ever enqueued without retries, so exclusion is kept by every step. */
  lemma StepOneBackup(s: State, e: Event)
    requires OneBackupIn(s.jobs) && Possible(s, e)
    ensures OneBackupIn(Apply(s, e).jobs)
  {
    StepOneActiveBackup(s, e);
    hide IsActive, Gated, RunsPreflight, OnTrashed, OneActiveBackup;
  }

  // ---------------------------------------------------------------- whole runs

  /** Before anything ran: no executor, no running job, no backup job. */
  ghost predicate Initial(s: State) {
    && s.live == map[]
    && forall id :: id in s.jobs ==> s.jobs[id].status != Running && !IsBackup(s.jobs[id])
  }

  ghost predicate SafeThroughout(s: State, events: seq<Event>)
    decreases |events|
  {
    Safe(s) && (events == [] || SafeThroughout(Apply(s, events[0]), events[1..]))
  }

  /**
    A run is safe in every state exactly when all its steps are careful: no job has two live executors and a running
    job with one is locked by it; the running preflight jobs of preparing documents belong to one document; at most
    one backup or verification job is active.
   */
  lemma {:induction false} RunsAreSafe(s: State, events: seq<Event>)
    requires Safe(s) && Run(s, events)
    ensures SafeThroughout(s, events) <==> Careful(s, events)
    decreases |events|
  {
    hide LeaseSafe, OneDocument, OneBackupIn, Possible, SparesLeases, SparesGate, Apply;
    if events != [] {
      var s' := Apply(s, events[0]);
      StepLeaseSafe(s, events[0]);
      StepOneDocument(s, events[0]);
      StepOneBackup(s, events[0]);
      if Safe(s') {
        RunsAreSafe(s', events[1..]);
      } else {
        assert !SafeThroughout(s', events[1..]);
      }
    }
  }

  lemma {:induction false} SafeAtTheEnd(s: State, events: seq<Event>)
    requires SafeThroughout(s, events)
    ensures Safe(After(s, events))
    decreases |events|
  {
    if events != [] {
      SafeAtTheEnd(Apply(s, events[0]), events[1..]);
    }
  }

  /** From a start with nothing running, every careful run ends safe. */
  lemma ReachableIsSafe(s: State, events: seq<Event>)
    requires Initial(s) && Run(s, events) && Careful(s, events)
    ensures Safe(After(s, events))
  {
    assert Safe(s);
    RunsAreSafe(s, events);
    SafeAtTheEnd(s, events);
  }

  // ---------------------------------------------------------------- heartbeats

  /** A heartbeat renews the lock: it is stale exactly when more than the threshold has passed since. */
  lemma HeartbeatRenews(s: State, x: ExecId, to: Time)
    requires x in s.live && s.live[x].job in s.jobs && s.now <= to
    ensures var id, later := s.live[x].job, Apply(Apply(s, Heartbeat(x)), Tick(to));
      IsStale(later.jobs[id], to, s.staleAfter) <==> s.jobs[id].status == Running && to > s.now + s.staleAfter
  {
  }

  /** So does a claim. */
  lemma ClaimLocks(s: State, x: ExecId, worker: WorkerId, id: JobId, to: Time)
    requires Possible(s, Claim(x, worker, id)) && s.now <= to
    ensures var later := Apply(Apply(s, Claim(x, worker, id)), Tick(to));
      && id in later.jobs && later.jobs[id].status == Running && later.jobs[id].lockedBy == Some(worker)
      && (IsStale(later.jobs[id], to, s.staleAfter) <==> to > s.now + s.staleAfter)
  {
    hide IsActive, LexLe;
  }

  /** When each executor last claimed or sent a heartbeat. */
  function Contacts(s: State, seen: map<ExecId, Time>, e: Event): map<ExecId, Time> {
    match e
    case Claim(x, _, _) => seen[x := s.now]
    case Heartbeat(x) => seen[x := s.now]
    case _ => seen
  }

  /** No restart, and at a sweep every live executor has been in contact within the threshold. */
  ghost predicate InContact(s: State, seen: map<ExecId, Time>, e: Event) {
    && !e.Restart?
    && (e.SweepStale? ==> forall x :: x in s.live ==> x in seen && s.now - seen[x] <= s.staleAfter)
  }

  ghost predicate AlwaysInContact(s: State, seen: map<ExecId, Time>, events: seq<Event>)
    decreases |events|
  {
    events == [] || (InContact(s, seen, events[0]) && AlwaysInContact(Apply(s, events[0]), Contacts(s, seen, events[0]), events[1..]))
  }

  /** The lock of a running job is no older than the last contact of its executor. */
  ghost predicate LockedSince(s: State, seen: map<ExecId, Time>) {
    forall x :: x in s.live && x in seen && s.live[x].job in s.jobs && s.jobs[s.live[x].job].status == Running ==>
      s.jobs[s.live[x].job].lockedAt.Some? && s.jobs[s.live[x].job].lockedAt.value >= seen[x]
  }

  lemma ContactSpares(s: State, seen: map<ExecId, Time>, e: Event)
    requires LockedSince(s, seen) && InContact(s, seen, e)
    ensures SparesLeases(s, e)
  {
  }

  lemma ContactsKept(s: State, seen: map<ExecId, Time>, e: Event)
    requires LeaseSafe(s) && Possible(s, e) && LockedSince(s, seen) && InContact(s, seen, e)
    ensures LockedSince(Apply(s, e), Contacts(s, seen, e))
  {
    hide IsActive, FirstEligible, Eligible, ActiveBackups;
    ContactSpares(s, seen, e);
    var s', seen' := Apply(s, e), Contacts(s, seen, e);
    LiveByClaim(s, e);
    forall x | x in s'.live && x in seen' && s'.live[x].job in s'.jobs && s'.jobs[s'.live[x].job].status == Running
      ensures s'.jobs[s'.live[x].job].lockedAt.Some? && s'.jobs[s'.live[x].job].lockedAt.value >= seen'[x]
    {
      if x in s.live && s'.live[x] == s.live[x] {
        OldContactKept(s, seen, e, x);
      }
    }
  }

  lemma OldContactKept(s: State, seen: map<ExecId, Time>, e: Event, x: ExecId)
    requires LeaseSafe(s) && Possible(s, e) && LockedSince(s, seen) && SparesLeases(s, e) && InContact(s, seen, e)
    requires x in s.live && x in Apply(s, e).live && Apply(s, e).live[x] == s.live[x] && x in Contacts(s, seen, e)
    requires s.live[x].job in Apply(s, e).jobs && Apply(s, e).jobs[s.live[x].job].status == Running
    ensures var row := Apply(s, e).jobs[s.live[x].job]; row.lockedAt.Some? && row.lockedAt.value >= Contacts(s, seen, e)[x]
  {
    LiveRowsStay(s, e, x);
    hide IsActive, FirstEligible, Eligible, ActiveBackups, SparesLeases;
    assert LockOf(s, x);
    if e.Claim? {
      NoExecutorYet(s, e);
    }
  }

  ghost predicate LeaseSafeThroughout(s: State, events: seq<Event>)
    decreases |events|
  {
    LeaseSafe(s) && (events == [] || LeaseSafeThroughout(Apply(s, events[0]), events[1..]))
  }

  /**
    What heartbeats are for: over every run without restarts in which each live executor has claimed or sent a
    heartbeat within the threshold before each stale sweep, no job ever has two executors and locks are held.
   */
  lemma {:induction false} HeartbeatsKeepLeases(s: State, seen: map<ExecId, Time>, events: seq<Event>)
    requires LeaseSafe(s) && LockedSince(s, seen) && Run(s, events) && AlwaysInContact(s, seen, events)
    ensures LeaseSafeThroughout(s, events)
    decreases |events|
  {
    if events != [] {
      ContactSpares(s, seen, events[0]);
      StepLeaseSafe(s, events[0]);
      ContactsKept(s, seen, events[0]);
      HeartbeatsKeepLeases(Apply(s, events[0]), Contacts(s, seen, events[0]), events[1..]);
    }
  }

  /** From a start with nobody at work, no contact has to be assumed. */
  lemma HeartbeatsFromTheStart(s: State, events: seq<Event>)
    requires Initial(s) && Run(s, events) && AlwaysInContact(s, map[], events)
    ensures LeaseSafeThroughout(s, events)
  {
    HeartbeatsKeepLeases(s, map[], events);
  }

  // ---------------------------------------------------------------- completed jobs

  /** The end of an executor completes its job, unless the job was cancelled. */
  lemma CompleteFinishes(s: State, x: ExecId)
    requires LeaseSafe(s) && x in s.live
    ensures var id, s' := s.live[x].job, Apply(s, Complete(x));
      && x !in s'.live && !HasExecutor(s', id)
      && s'.jobs[id].status == if s.jobs[id].status == Cancelled then Cancelled else Completed
  {
    assert LockOf(s, x);
    EndedRows(s.jobs[s.live[x].job]);
  }

  ghost predicate StaysCompleted(s: State, events: seq<Event>, id: JobId)
    decreases |events|
  {
    && id in s.jobs && s.jobs[id].status == Completed
    && (events == [] || StaysCompleted(Apply(s, events[0]), events[1..], id))
  }

  lemma CompletedStep(s: State, e: Event, id: JobId)
    requires LeaseSafe(s) && Possible(s, e) && id in s.jobs && s.jobs[id].status == Completed
    ensures id in Apply(s, e).jobs && Apply(s, e).jobs[id].status == Completed
  {
    hide IsActive, ActiveBackups;
    assert forall x :: x in s.live ==> LockOf(s, x);
  }

  /** A completed job is never run again: it stays completed over every run that stays lease safe. */
  lemma {:induction false} CompletedIsFinal(s: State, events: seq<Event>, id: JobId)
    requires Run(s, events) && LeaseSafeThroughout(s, events) && id in s.jobs && s.jobs[id].status == Completed
    ensures StaysCompleted(s, events, id)
    decreases |events|
  {
    if events != [] {
      CompletedStep(s, events[0], id);
      CompletedIsFinal(Apply(s, events[0]), events[1..], id);
    }
  }

  // ---------------------------------------------------------------- cancelled jobs

  /** The step is the failure of an executor of the job. */
  predicate FailureOf(s: State, e: Event, id: JobId) {
    e.Fail? && e.exec in s.live && s.live[e.exec].job == id
  }

  /** What can become of a cancelled job in one step: only the failure of its own executor moves it. */
  lemma CancelledStep(s: State, e: Event, id: JobId)
    requires Possible(s, e) && id in s.jobs && s.jobs[id].status == Cancelled
    ensures var s' := Apply(s, e);
      && id in s'.jobs
      && (s'.jobs[id].status == Cancelled <==> !FailureOf(s, e, id))
      && (s'.jobs[id].status == Queued <==> FailureOf(s, e, id) && s.jobs[id].retryCount < s.jobs[id].maxRetries)
      && s'.jobs[id].status in {Cancelled, Queued, Failed}
  {
    hide IsActive, Gated, RunsPreflight, OnTrashed;
  }

  ghost predicate NeverFails(s: State, events: seq<Event>, id: JobId)
    decreases |events|
  {
    events == [] || (!FailureOf(s, events[0], id) && NeverFails(Apply(s, events[0]), events[1..], id))
  }

  ghost predicate StaysCancelled(s: State, events: seq<Event>, id: JobId)
    decreases |events|
  {
    && id in s.jobs && s.jobs[id].status == Cancelled
    && (events == [] || StaysCancelled(Apply(s, events[0]), events[1..], id))
  }

  /** Over a run, a cancelled job stays cancelled exactly when no executor of it fails. */
  lemma {:induction false} CancelledUnlessItFails(s: State, events: seq<Event>, id: JobId)
    requires Run(s, events) && id in s.jobs && s.jobs[id].status == Cancelled
    ensures StaysCancelled(s, events, id) <==> NeverFails(s, events, id)
    decreases |events|
  {
    hide Possible, Apply, FailureOf;
    if events != [] {
      CancelledStep(s, events[0], id);
      if !FailureOf(s, events[0], id) {
        CancelledUnlessItFails(Apply(s, events[0]), events[1..], id);
      }
    }
  }

  ghost predicate HasExecutor(s: State, id: JobId) {
    exists x :: x in s.live && s.live[x].job == id
  }

  /** A cancelled job without an executor never gets one again. */
  lemma NoNewExecutor(s: State, e: Event, id: JobId)
    requires Possible(s, e) && id in s.jobs && s.jobs[id].status == Cancelled && !HasExecutor(s, id)
    ensures !HasExecutor(Apply(s, e), id) && !FailureOf(s, e, id)
  {
    hide IsActive, Gated, RunsPreflight, OnTrashed;
  }

  lemma {:induction false} NeverFailsWithoutExecutor(s: State, events: seq<Event>, id: JobId)
    requires Run(s, events) && id in s.jobs && s.jobs[id].status == Cancelled && !HasExecutor(s, id)
    ensures NeverFails(s, events, id)
    decreases |events|
  {
    hide Possible, Apply, FailureOf, HasExecutor;
    if events != [] {
      NoNewExecutor(s, events[0], id);
      CancelledStep(s, events[0], id);
      NeverFailsWithoutExecutor(Apply(s, events[0]), events[1..], id);
    }
  }

  /** Cancelling is final, over every run to come, exactly when no executor of the job is alive. */
  lemma CancelIsFinal(s: State, id: JobId)
    requires id in s.jobs && s.jobs[id].status == Cancelled
    ensures (forall events :: Run(s, events) ==> StaysCancelled(s, events, id)) <==> !HasExecutor(s, id)
  {
    if HasExecutor(s, id) {
      var x :| x in s.live && s.live[x].job == id;
      var events := [Fail(x, None)];
      assert Run(Apply(s, events[0]), events[1..]);
      assert Run(s, events);
      CancelledUnlessItFails(s, events, id);
    } else {
      forall events | Run(s, events)
        ensures StaysCancelled(s, events, id)
      {
        NeverFailsWithoutExecutor(s, events, id);
        CancelledUnlessItFails(s, events, id);
      }
    }
  }

  // ---------------------------------------------------------------- runs that break the promises

  function SampleState(job: Job): State {
    State(map[0 := job], map[], 0, map[], 600)
  }

  function SampleJob(maxRetries: nat): Job {
    NewJob(Indexing, None, 100, maxRetries, 0)
  }

  lemma FirstIsClaimable(s: State, exec: ExecId, worker: WorkerId)
    requires s.docs == map[] && exec !in s.live
    requires forall id :: id in s.jobs <==> id == 0
    requires Available(s.jobs[0], s.now) && s.jobs[0].doc == None
    ensures Possible(s, Claim(exec, worker, 0))
    ensures forall x :: x in s.live && s.live[x].job == 0 ==> !OneExecutor(Apply(s, Claim(exec, worker, 0)))
  {
    assert IsActive(s.jobs, s.docs, s.now, None);
    assert FirstEligible(s.jobs, s.docs, s.now, None, 0);
    var s' := Apply(s, Claim(exec, worker, 0));
    assert s'.live[exec].job == 0;
    assert forall x :: x in s.live ==> s'.live[x] == s.live[x];
  }

  /** The sample run: one worker has claimed the only job at time 0. */
  function SampleClaimed(): State {
    State(map[0 := Claimed(SampleJob(3), 10, 0)], map[], 0, map[1 := Lease(0, 10)], 600)
  }

  lemma SampleClaim()
    ensures Initial(SampleState(SampleJob(3))) && Possible(SampleState(SampleJob(3)), Claim(1, 10, 0))
    ensures Apply(SampleState(SampleJob(3)), Claim(1, 10, 0)) == SampleClaimed()
  {
    FirstIsClaimable(SampleState(SampleJob(3)), 1, 10);
  }

  lemma TwoSteps(s: State, a: Event, b: Event)
    requires Possible(s, a) && Possible(Apply(s, a), b)
    ensures Run(s, [a, b]) && After(s, [a, b]) == Apply(Apply(s, a), b)
  {
    hide Apply, Possible;
    assert [a, b][1..] == [b] && [b][1..] == [];
    assert Run(Apply(s, a), [b]) && After(Apply(s, a), [b]) == Apply(Apply(s, a), b);
  }

  /** A run from the start in which a worker claims a job and what follows gives the job a second executor. */
  ghost predicate BreaksLease(between: Event) {
    var s0, s1 := SampleState(SampleJob(3)), SampleClaimed();
    && Run(s0, [Claim(1, 10, 0), Tick(601)]) && After(s0, [Claim(1, 10, 0), Tick(601)]) == s1.(now := 601)
    && Run(s1.(now := 601), [between, Claim(2, 20, 0)]) && !SparesLeases(s1.(now := 601), between)
    && !OneExecutor(After(s1.(now := 601), [between, Claim(2, 20, 0)]))
  }

  /** A lock left untouched for longer than the threshold ends in two executors on one job. */
  lemma LateHeartbeatBreaksLease()
    ensures BreaksLease(SweepStale)
  {
    TakenAgain(SweepStale);
  }

  /** A worker that starts while another is at work requeues that worker's running job. */
  lemma RestartBreaksLease()
    ensures BreaksLease(Restart)
  {
    TakenAgain(Restart);
  }

  lemma TakenAgain(between: Event)
    requires between in {SweepStale, Restart}
    ensures BreaksLease(between)
  {
    var s0, s1 := SampleState(SampleJob(3)), SampleClaimed();
    SampleClaim();
    TwoSteps(s0, Claim(1, 10, 0), Tick(601));
    var late := s1.(now := 601);
    assert 1 in late.live;
    var s2 := Apply(late, between);
    assert s2.live[1].job == 0;
    FirstIsClaimable(s2, 2, 20);
    TwoSteps(late, between, Claim(2, 20, 0));
  }

  /** Cancelling is not final: the executor of a cancelled job may still requeue it by failing. */
  lemma CancelledJobRuns()
    ensures var s2 := Apply(SampleClaimed(), Cancel(0));
      && Possible(SampleClaimed(), Cancel(0)) && s2.jobs[0].status == Cancelled && HasExecutor(s2, 0)
      && Possible(s2, Fail(1, None)) && Apply(s2, Fail(1, None)).jobs[0].status == Queued
  {
    var s2 := Apply(SampleClaimed(), Cancel(0));
    assert 1 in s2.live && s2.live[1].job == 0;
  }

  /** With retries allowed, a cancelled backup that fails would come back beside a newer one. */
  lemma RetryingBackupBreaksExclusion()
    ensures var s0 := SampleState(SampleJob(1).(kind := Backup));
      var s2 := Apply(Apply(s0, Claim(1, 10, 0)), Cancel(0));
      var s3 := Apply(s2, StartBackup(1, false, true));
      && Possible(s2, StartBackup(1, false, true)) && OneActiveBackup(s3.jobs)
      && RevivesBackup(s3, Fail(1, None)) && ActiveBackups(Apply(s3, Fail(1, None)).jobs) == {0, 1}
  {
    var s2 := Apply(Apply(SampleState(SampleJob(1).(kind := Backup)), Claim(1, 10, 0)), Cancel(0));
    var s3 := Apply(s2, StartBackup(1, false, true));
    assert ActiveBackups(s2.jobs) == {};
    assert ActiveBackups(s3.jobs) == {1};
  }

  /** A document that returns to preparation with a preflight job running breaks the gate. */
  lemma ReturningDocumentBreaksGate(s: State, a: JobId, b: JobId, d: DocId, row: Doc)
    requires OneDocument(s) && RunsGated(s, a) && s.jobs[a].doc != Some(d)
    requires b in s.jobs && s.jobs[b].status == Running && s.jobs[b].kind in PreflightTypes && s.jobs[b].doc == Some(d)
    requires Preparing(map[d := row], d)
    ensures !SparesGate(s, ChangeDoc(d, row)) && !OneDocument(Apply(s, ChangeDoc(d, row)))
  {
    assert RunsPreflight(s.jobs, d);
    assert Preparing(s.docs, d) ==> RunsGated(s, b);
    ChangeKeepsGate(s, d, row);
  }
}
