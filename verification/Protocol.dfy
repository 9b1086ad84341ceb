/**
 The protocol as eight kinds of committed change to the tables.

 Every transaction of the service, the recovery sweep and the worker endpoints commits
 at most one of these per row it works on; `Guard` is what must hold when it does.
 */
module Protocol {
  import opened Tables

  /** How an attempt ended and what its job becomes. */
  datatype Ending = Ending(
    status: Status, outcome: Outcome, output: Option<Json>, error: Option<string>,
    finishedAt: real, availableAt: real)

  datatype Effect =
    | NoEffect
    | AddJob(id: JobId, job: Job)
    | AddAttempt(token: Token, attempt: Attempt, at: real)
    | MarkStarted(token: Token, startedAt: real, at: real)
    | Extend(token: Token, expiresAt: real)
    | EndAttempt(token: Token, ending: Ending, at: real)
    | CancelWaiting(id: JobId, at: real)
    | PutWorker(workerId: WorkerId, worker: Worker)

  /** Writes a job row whose status just changed, and logs the change. */
  function Move(db: Database, id: JobId, job: Job): Database {
    db.(jobs := db.jobs[id := job], events := db.events + [Event(id, Entered(job.status))])
  }

  function Ended(a: Attempt, e: Ending): Attempt {
    a.(finishedAt := Some(e.finishedAt), outcome := Some(e.outcome), output := e.output, error := e.error)
  }

  /** Names rows that exist. */
  predicate Refers(db: Database, e: Effect) {
    match e
    case NoEffect => true
    case AddJob(_, _) => true
    case AddAttempt(_, a, _) => a.jobId in db.jobs
    case MarkStarted(t, _, _) => t in db.attempts && db.attempts[t].jobId in db.jobs
    case Extend(t, _) => t in db.attempts
    case EndAttempt(t, _, _) => t in db.attempts && db.attempts[t].jobId in db.jobs
    case CancelWaiting(id, _) => id in db.jobs
    case PutWorker(_, _) => true
  }

  function Apply(db: Database, e: Effect): Database
    requires Refers(db, e)
  {
    match e
    case NoEffect => db
    case AddJob(id, job) =>
      db.(jobs := db.jobs[id := job],
          events := db.events + [Event(id, Submitted), Event(id, Entered(Queued))])
    case AddAttempt(t, a, at) =>
      var job := db.jobs[a.jobId];
      Move(db.(attempts := db.attempts[t := a]), a.jobId,
           job.(status := Leased, attemptCount := a.fence, updatedAt := at))
    case MarkStarted(t, startedAt, at) =>
      var a := db.attempts[t];
      Move(db.(attempts := db.attempts[t := a.(startedAt := Some(startedAt))]), a.jobId,
           db.jobs[a.jobId].(status := Running, updatedAt := at))
    case Extend(t, expiresAt) =>
      db.(attempts := db.attempts[t := db.attempts[t].(expiresAt := expiresAt)])
    case EndAttempt(t, e, at) =>
      var a := db.attempts[t];
      Move(db.(attempts := db.attempts[t := Ended(a, e)],
               results := if e.status.RetryWait? then db.results
                          else db.results[a.jobId := ResultRow(e.output, e.error)]),
           a.jobId,
           db.jobs[a.jobId].(status := e.status, availableAt := e.availableAt, updatedAt := at))
    case CancelWaiting(id, at) =>
      Move(db, id, db.jobs[id].(status := Cancelled, updatedAt := at))
    case PutWorker(w, worker) => db.(workers := db.workers[w := worker])
  }

  // Guards. `now` is the clock before the transaction and `later` the clock after it.

  ghost predicate AddJobOk(cfg: Config, db: Database, id: JobId, job: Job, now: real, later: real) {
    && id !in db.jobs
    && DefinitionOk(job.def)
    && job.status.Queued? && job.attemptCount == 0
    && now <= job.createdAt <= later && job.updatedAt == job.createdAt
    && job.availableAt == (if job.def.scheduledAt.Some? then job.def.scheduledAt.value else job.createdAt)
    && job.serial == |db.jobs|
    && (forall j :: !KeyTaken(db, job.key, j))
    && (job.def.dependsOn.Some? ==>
          job.def.dependsOn.value in db.jobs && !Broken(db.jobs[job.def.dependsOn.value].status))
    && |ActiveJobs(db)| < cfg.queueLimit
    && |CreatedSince(db, job.createdAt - 60.0)| < cfg.submissionsPerMinute
  }

  ghost predicate AddAttemptOk(cfg: Config, db: Database, t: Token, a: Attempt, at: real, now: real, later: real) {
    && t !in db.attempts
    && a.jobId in db.jobs
    && (var job := db.jobs[a.jobId];
        && Waiting(job.status)
        && job.availableAt <= a.claimedAt
        && ParentReady(db, job.def)
        && a.fence == job.attemptCount + 1)
    && a.workerId in db.workers
    && (var w := db.workers[a.workerId];
        && w.state.Healthy? && 0 <= a.slot < w.capacity && a.epoch == w.epoch
        && db.jobs[a.jobId].def.task in w.capabilities)
    && a.outcome.None? && a.output.None? && a.error.None? && a.startedAt.None? && a.finishedAt.None?
    && now <= a.claimedAt <= at <= later
    && a.expiresAt == a.claimedAt + cfg.lease
    && (forall u :: !HasClaim(db, a.claimId, u))
    && (forall u :: !HoldsSlot(db, a.workerId, a.slot, u))
  }

  ghost predicate MarkStartedOk(db: Database, t: Token, startedAt: real, at: real, now: real, later: real) {
    && Unfinished(db, t)
    && db.attempts[t].jobId in db.jobs
    && db.jobs[db.attempts[t].jobId].status.Leased?
    && now < db.attempts[t].expiresAt
    && now <= startedAt <= at <= later
  }

  ghost predicate ExtendOk(cfg: Config, db: Database, t: Token, expiresAt: real, now: real, later: real) {
    && Unfinished(db, t)
    && db.attempts[t].jobId in db.jobs
    && db.attempts[t].startedAt.Some?
    && now < db.attempts[t].expiresAt
    && now < expiresAt <= later + cfg.lease
    && expiresAt <= db.attempts[t].startedAt.value + db.jobs[db.attempts[t].jobId].def.timeout + 5.0
  }

  ghost predicate EndAttemptOk(db: Database, t: Token, e: Ending, at: real, now: real, later: real) {
    && Unfinished(db, t)
    && db.attempts[t].jobId in db.jobs
    && now <= e.finishedAt <= at <= later
    && (var a := db.attempts[t];
        var job := db.jobs[a.jobId];
        && Owned(job.status)
        && (if e.outcome.LeaseExpired? then a.expiresAt <= e.finishedAt
            else job.status.Running? && now < a.expiresAt)
        && (if e.outcome.Completed? then e.status.Succeeded? && e.output.Some? && e.error.None?
            else !e.status.Succeeded? && e.output.None? && e.error.Some?)
        && (e.outcome.LeaseExpired? ==> !e.status.Failed?)
        && match e.status {
             case RetryWait =>
               && job.attemptCount <= job.def.maxRetries
               && e.finishedAt + LeastDelay(job.def, job.attemptCount) <= e.availableAt
               && e.availableAt <= e.finishedAt + 5400.0
             case DeadLetter => job.attemptCount > job.def.maxRetries && e.availableAt == job.availableAt
             case Failed => e.availableAt == job.availableAt
             case Succeeded => e.availableAt == job.availableAt
             case _ => false
           })
  }

  predicate CancelWaitingOk(db: Database, id: JobId, at: real, now: real, later: real) {
    id in db.jobs && Waiting(db.jobs[id].status) && now <= at <= later
  }

  /** The worker-row moves: first registration, replayed registration, takeover,
      heartbeat, drain and failure detection. */
  predicate PutWorkerOk(cfg: Config, db: Database, id: WorkerId, w: Worker, now: real, later: real) {
    w.lastSeen <= later &&
    if id !in db.workers then
      w.state.Healthy? && !w.drainRequested && w.epoch == 0
    else
      var was := db.workers[id];
      || TakesOver(was, w, now)
      || (Keeps(was, w) &&
          (|| (w.drainRequested == was.drainRequested && now <= w.lastSeen
               && w.state == if was.drainRequested then Draining else Healthy)
           || (w.drainRequested && w.state.Draining? && !was.state.Dead? && w.lastSeen == was.lastSeen)
           || (w.drainRequested == was.drainRequested && w.lastSeen == was.lastSeen
               && !was.state.Dead? && Declined(cfg, was.state, w, later))))
  }

  predicate TakesOver(was: Worker, w: Worker, now: real) {
    && was.state.Dead? && w.session != was.session
    && w.state.Healthy? && !w.drainRequested && now <= w.lastSeen && w.epoch == was.epoch + 1
  }

  predicate Keeps(was: Worker, w: Worker) {
    && w.session == was.session && w.epoch == was.epoch
    && w.capacity == was.capacity && w.capabilities == was.capabilities
  }

  predicate Declined(cfg: Config, from: WorkerState, w: Worker, later: real) {
    || (w.state.Dead? && w.lastSeen + cfg.deadAfter <= later)
    || (w.state.Suspect? && !from.Draining? && w.lastSeen + cfg.suspectAfter < later)
  }

  ghost predicate Guard(cfg: Config, db: Database, e: Effect, now: real, later: real) {
    now <= later &&
    match e
    case NoEffect => true
    case AddJob(id, job) => AddJobOk(cfg, db, id, job, now, later)
    case AddAttempt(t, a, at) => AddAttemptOk(cfg, db, t, a, at, now, later)
    case MarkStarted(t, startedAt, at) => MarkStartedOk(db, t, startedAt, at, now, later)
    case Extend(t, expiresAt) => ExtendOk(cfg, db, t, expiresAt, now, later)
    case EndAttempt(t, e, at) => EndAttemptOk(db, t, e, at, now, later)
    case CancelWaiting(id, at) => CancelWaitingOk(db, id, at, now, later)
    case PutWorker(w, worker) => PutWorkerOk(cfg, db, w, worker, now, later)
  }

  lemma GuardRefers(cfg: Config, db: Database, e: Effect, now: real, later: real)
    requires Guard(cfg, db, e, now, later)
    ensures Refers(db, e)
  {
  }
}
