/**
 What each operation answers and which change it commits, as a function of the tables,
 the request and the clock readings. A rejected request commits nothing: every exception
 rolls its transaction back.
 */
module Operations {
  import opened Tables
  import opened Protocol
  import opened Scheduler

  datatype Failure = Conflict | Missing | Saturated | Invalid | Unauthorized

  datatype Reply =
    | Accepted(job: JobId, created: bool)
    | Assigned(job: JobId, token: Token)
    | NoWork
    | Done
    | Renewed(expiresAt: real)
    | WorkerIs(state: WorkerState)
    | Rejected(error: Failure)

  datatype Decision = Decision(effect: Effect, reply: Reply)

  function Reject(e: Failure): Decision { Decision(NoEffect, Rejected(e)) }

  const LEASE_EXPIRED_ERROR := "Lease expired; execution outcome unknown"

  // service.py

  ghost function Admit(cfg: Config, db: Database, key: Option<string>, def: Definition, id: JobId,
                       at: Readings): Decision {
    if exists j: JobId :: KeyTaken(db, key, j) then
      var j: JobId :| KeyTaken(db, key, j);
      if db.jobs[j].def != def then Reject(Conflict) else Decision(NoEffect, Accepted(j, false))
    else if |ActiveJobs(db)| >= cfg.queueLimit
         || |CreatedSince(db, at.first - 60.0)| >= cfg.submissionsPerMinute then Reject(Saturated)
    else if def.dependsOn.Some? && def.dependsOn.value !in db.jobs then Reject(Invalid)
    else if def.dependsOn.Some? && Broken(db.jobs[def.dependsOn.value].status) then Reject(Conflict)
    else
      var available := if def.scheduledAt.Some? then def.scheduledAt.value else at.first;
      Decision(AddJob(id, Job(def, key, Queued, 0, available, at.first, at.first, |db.jobs|)), Accepted(id, true))
  }

  function NewAttempt(cfg: Config, db: Database, j: JobId, w: WorkerId, slot: int, c: ClaimId, t: real): Attempt
    requires j in db.jobs && w in db.workers
  {
    Attempt(j, w, slot, c, db.jobs[j].attemptCount + 1, t + cfg.lease,
            None, None, None, None, None, t, db.workers[w].epoch)
  }

  /** New work for a free slot: only a healthy worker gets the head of the queue. */
  ghost function ClaimNew(cfg: Config, db: Database, w: WorkerId, slot: int, c: ClaimId, token: Token,
                          locked: set<JobId>, at: Readings): Decision
    requires w in db.workers
  {
    if !db.workers[w].state.Healthy? then Decision(NoEffect, NoWork)
    else
      var head := Head(cfg.policy, db, db.workers[w].capabilities, at.first, locked);
      if head.None? then Decision(NoEffect, NoWork)
      else
        Decision(AddAttempt(token, NewAttempt(cfg, db, head.value, w, slot, c, at.first), at.second),
                 Assigned(head.value, token))
  }

  ghost function Claim(cfg: Config, db: Database, w: WorkerId, slot: int, claimId: Option<ClaimId>,
                       freshClaim: ClaimId, token: Token, locked: set<JobId>, at: Readings): Decision
  {
    if w !in db.workers then Reject(Missing)
    else if slot < 0 || slot >= db.workers[w].capacity then Reject(Invalid)
    else if claimId.Some? && exists t: Token :: HasClaim(db, claimId.value, t) then
      var t: Token :| HasClaim(db, claimId.value, t);
      var a := db.attempts[t];
      if a.workerId != w || a.slot != slot then Reject(Conflict)
      else if a.finishedAt.Some? then Reject(Conflict)
      else if a.jobId !in db.jobs then Reject(Missing)
      else Decision(NoEffect, Assigned(a.jobId, t))
    else if exists t: Token :: HoldsSlot(db, w, slot, t) then
      var t: Token :| HoldsSlot(db, w, slot, t);
      var a := db.attempts[t];
      if claimId.Some? && a.claimId != claimId.value then Reject(Conflict)
      else if a.jobId !in db.jobs then Reject(Missing)
      else Decision(NoEffect, Assigned(a.jobId, t))
    else ClaimNew(cfg, db, w, slot, if claimId.Some? then claimId.value else freshClaim, token, locked, at)
  }

  /** The assignment names this worker's attempt at this job. */
  predicate Belongs(db: Database, j: JobId, w: WorkerId, t: Token) {
    t in db.attempts && db.attempts[t].jobId == j && db.attempts[t].workerId == w
  }

  /** The attempt is current, unfinished, and its lease has not run out at time `now`. */
  predicate Current(db: Database, j: JobId, t: Token, now: real)
    requires j in db.jobs && t in db.attempts
  {
    && db.attempts[t].finishedAt.None?
    && db.attempts[t].fence == db.jobs[j].attemptCount
    && now < db.attempts[t].expiresAt
  }

  function Start(db: Database, j: JobId, w: WorkerId, t: Token, at: Readings): Decision {
    if j !in db.jobs then Reject(Missing)
    else if !Belongs(db, j, w, t) || !Current(db, j, t, at.first) then Reject(Conflict)
    else if db.jobs[j].status.Running? then Decision(NoEffect, Done)
    else if !db.jobs[j].status.Leased? then Reject(Conflict)
    else Decision(MarkStarted(t, at.second, at.third), Done)
  }

  function Renew(cfg: Config, db: Database, j: JobId, w: WorkerId, t: Token, at: Readings): Decision {
    if j !in db.jobs then Reject(Missing)
    else if !Belongs(db, j, w, t) || !Current(db, j, t, at.first) then Reject(Conflict)
    else if db.attempts[t].startedAt.None? then Reject(Conflict)
    else
      var expiry := Min(at.second + cfg.lease,
                        db.attempts[t].startedAt.value + (db.jobs[j].def.timeout + 5.0));
      if expiry <= at.second then Reject(Conflict)
      else Decision(Extend(t, expiry), Renewed(expiry))
  }

  function FailAttempt(job: Job, t: Token, error: string, retryable: bool, outcome: Outcome,
                       jitter: real, finishedAt: real, at: real): Effect
  {
    var status := if retryable && job.attemptCount <= job.def.maxRetries then RetryWait
                  else if retryable then DeadLetter else Failed;
    var available := if status.RetryWait? then finishedAt + RetryDelay(job.def, job.attemptCount, jitter)
                     else job.availableAt;
    EndAttempt(t, Ending(status, outcome, None, Some(error), finishedAt, available), at)
  }

  /** A finished attempt acknowledges a repeat of exactly what it recorded. */
  predicate SameCompletion(a: Attempt, output: Option<Json>, error: Option<string>) {
    && (a.outcome == Some(Completed) || a.outcome == Some(Errored))
    && a.output == output && a.error == error
  }

  function Finish(db: Database, j: JobId, w: WorkerId, t: Token, output: Option<Json>, error: Option<string>,
                  retryable: bool, jitter: real, at: Readings): Decision
  {
    if j !in db.jobs then Reject(Missing)
    else if !Belongs(db, j, w, t) then Reject(Conflict)
    else if db.attempts[t].finishedAt.Some? then
      if SameCompletion(db.attempts[t], output, error) then Decision(NoEffect, Done) else Reject(Conflict)
    else if !Current(db, j, t, at.first) || !Current(db, j, t, at.second) then Reject(Conflict)
    else if !db.jobs[j].status.Running? then Reject(Conflict)
    else if error.Some? then
      Decision(FailAttempt(db.jobs[j], t, error.value, retryable, Errored, jitter, at.third, at.fourth), Done)
    else
      var ending := Ending(Succeeded, Completed, output, None, at.third, db.jobs[j].availableAt);
      Decision(EndAttempt(t, ending, at.fourth), Done)
  }

  function Cancel(db: Database, j: JobId, at: Readings): Decision {
    if j !in db.jobs then Reject(Missing)
    else if db.jobs[j].status.Cancelled? then Decision(NoEffect, Done)
    else if !Waiting(db.jobs[j].status) then Reject(Conflict)
    else Decision(CancelWaiting(j, at.first), Done)
  }

  // recovery.py, one row of a sweep at a time

  /** One row of the expiry loop: `j` is any job of a possibly stale candidate list. */
  ghost function Expire(db: Database, j: JobId, jitter: real, at: Readings): Decision {
    if j in db.jobs && exists t: Token :: HoldsJob(db, j, t) then
      var t: Token :| HoldsJob(db, j, t);
      if db.attempts[t].expiresAt <= at.first then
        Decision(FailAttempt(db.jobs[j], t, LEASE_EXPIRED_ERROR, true, LeaseExpired, jitter, at.second, at.third), Done)
      else Decision(NoEffect, Done)
    else Decision(NoEffect, Done)
  }

  /** One row of the dependants loop. */
  function CancelChild(db: Database, j: JobId, at: Readings): Decision {
    if Blocked(db, j) then Decision(CancelWaiting(j, at.first), Done) else Decision(NoEffect, Done)
  }

  /** The row of a worker as failure detection at time `t` leaves it. */
  function Detected(cfg: Config, row: Worker, t: real): Worker {
    if row.state.Dead? || !(row.lastSeen < t - cfg.suspectAfter) then row
    else
      var state := if t - row.lastSeen >= cfg.deadAfter then Dead else Suspect;
      if row.state.Draining? && state.Suspect? then row else row.(state := state)
  }

  /** One row of worker failure detection. */
  function Detect(cfg: Config, db: Database, w: WorkerId, at: Readings): Decision {
    if w !in db.workers || Detected(cfg, db.workers[w], at.first) == db.workers[w] then Decision(NoEffect, Done)
    else Decision(PutWorker(w, Detected(cfg, db.workers[w], at.first)), Done)
  }

  // api.py, the worker row

  /** `began` is when the transaction started; a first registration records it as last seen. */
  function Register(db: Database, w: WorkerId, session: Session, capacity: nat, capabilities: set<string>,
                    began: real, at: Readings): Decision
  {
    if w !in db.workers then
      Decision(PutWorker(w, Worker(Healthy, capacity, capabilities, session, false, began, 0)), Done)
    else
      var row := db.workers[w];
      if row.session == session then
        if row.state.Dead? then
          Decision(PutWorker(w, row.(lastSeen := at.first, state := Returning(row))), Done)
        else Decision(NoEffect, Done)
      else if !row.state.Dead? then Reject(Conflict)
      else
        Decision(PutWorker(w, Worker(Healthy, capacity, capabilities, session, false, at.first, row.epoch + 1)), Done)
  }

  /** The state of a worker that shows signs of life again. */
  function Returning(row: Worker): WorkerState {
    if row.drainRequested then Draining else Healthy
  }

  function Heartbeat(db: Database, w: WorkerId, session: Session, at: Readings): Decision {
    if !Authorized(db, w, session) then Reject(Unauthorized)
    else
      var row := db.workers[w];
      Decision(PutWorker(w, row.(lastSeen := at.first, state := Returning(row))), WorkerIs(Returning(row)))
  }

  function Drain(db: Database, w: WorkerId): Decision {
    if w !in db.workers then Reject(Missing)
    else if db.workers[w].state.Dead? then Reject(Conflict)
    else Decision(PutWorker(w, db.workers[w].(state := Draining, drainRequested := true)), WorkerIs(Draining))
  }
}
