/**
 What every job request is granted, and what it writes: exact conditions and exact rows, said
 of the tables alone. The deciding functions, the claim order and the status classes are not
 mentioned here, so a wrong one among them would contradict these lemmas.
 */
module Grants {
  import opened Tables
  import opened Scheduler
  import opened Operations
  import opened Invariant
  import opened Runs

  // Submissions

  /** Jobs that count against the queue limit. */
  function InQueue(db: Database): (r: set<JobId>) {
    set j | j in db.jobs && db.jobs[j].status in {Queued, RetryWait, Leased, Running}
  }

  /** Jobs that count against the rate at time `t`. */
  function LastMinute(db: Database, t: real): (r: set<JobId>) {
    set j | j in db.jobs && t - 60.0 <= db.jobs[j].createdAt
  }

  /** A submission under a key that no job has is accepted exactly when the queue and the last
      minute have room and its parent, if any, exists and has not failed; each failing condition
      gives its own refusal, the limits first. */
  lemma AdmissionExact(cfg: Config, s: State, a: Action, s': State)
    requires Next(cfg, s, a, s') && a.DoSubmit?
    requires a.key.Some? ==> forall j :: j in s.db.jobs ==> s.db.jobs[j].key != a.key
    ensures var reply := Decide(cfg, s.db, a).reply;
            var full := |InQueue(s.db)| >= cfg.queueLimit || |LastMinute(s.db, a.at.first)| >= cfg.submissionsPerMinute;
            var p := a.def.dependsOn;
            && (reply == Rejected(Saturated) <==> full)
            && (reply == Rejected(Invalid) <==> !full && p.Some? && p.value !in s.db.jobs)
            && (reply == Rejected(Conflict) <==> && !full && p.Some? && p.value in s.db.jobs
                                                 && s.db.jobs[p.value].status in {Failed, DeadLetter, Cancelled})
            && (reply == Accepted(a.id, true) <==>
                  && !full && (p.Some? ==> && p.value in s.db.jobs
                                           && s.db.jobs[p.value].status !in {Failed, DeadLetter, Cancelled}))
            && (reply.Accepted? || s'.db == s.db)
  {
    assert InQueue(s.db) == ActiveJobs(s.db);
    assert LastMinute(s.db, a.at.first) == CreatedSince(s.db, a.at.first - 60.0);
    assert forall j :: !KeyTaken(s.db, a.key, j);
  }

  /** What a new job looks like: queued, untried, due at its schedule or at once, logged twice. */
  lemma AdmittedRow(cfg: Config, s: State, a: Action, s': State)
    requires Next(cfg, s, a, s') && a.DoSubmit? && Decide(cfg, s.db, a).reply == Accepted(a.id, true)
    ensures a.id !in s.db.jobs && a.id in s'.db.jobs
    ensures s'.db == s.db.(jobs := s.db.jobs[a.id := s'.db.jobs[a.id]],
                           events := s.db.events + [Event(a.id, Submitted), Event(a.id, Entered(Queued))])
    ensures var job := s'.db.jobs[a.id];
            && job.def == a.def && job.key == a.key && job.status == Queued && job.attemptCount == 0
            && job.createdAt == job.updatedAt == a.at.first
            && job.availableAt == match a.def.scheduledAt { case Some(t) => t case None => a.at.first }
  {
  }

  // Claims

  /** A job that a worker with these capabilities may be given at time `t`. */
  predicate Due(db: Database, capabilities: set<string>, t: real, j: JobId) {
    && j in db.jobs && db.jobs[j].status in {Queued, RetryWait}
    && db.jobs[j].availableAt <= t && db.jobs[j].def.task in capabilities
    && (var p := db.jobs[j].def.dependsOn; p.Some? ==> p.value in db.jobs && db.jobs[p.value].status == Succeeded)
  }

  /** First come, first served; under the other policies a greater priority goes first. */
  predicate Sooner(policy: Policy, db: Database, j: JobId, k: JobId)
    requires j in db.jobs && k in db.jobs
  {
    var a, b := db.jobs[j], db.jobs[k];
    var earlier := a.createdAt < b.createdAt || (a.createdAt == b.createdAt && j < k);
    if policy == Fifo then earlier
    else a.def.priority > b.def.priority || (a.def.priority == b.def.priority && earlier)
  }

  /** The session is current, the slot exists and is free, and the claim ID is new. */
  ghost predicate AsksForNewWork(db: Database, a: Action)
    requires a.DoClaim?
  {
    && a.worker in db.workers && db.workers[a.worker].session == a.session
    && 0 <= a.slot < db.workers[a.worker].capacity
    && (forall t :: t in db.attempts ==> db.attempts[t].claimId != a.claimId)
    && (forall t | t in db.attempts && db.attempts[t].finishedAt == None ::
          db.attempts[t].workerId != a.worker || db.attempts[t].slot != a.slot)
  }

  ghost predicate HasWork(db: Database, a: Action)
    requires a.DoClaim? && a.worker in db.workers
  {
    && db.workers[a.worker].state == Healthy
    && exists j :: j !in a.locked && Due(db, db.workers[a.worker].capabilities, a.at.first, j)
  }

  lemma AsksExact(db: Database, a: Action)
    requires a.DoClaim?
    ensures AsksForNewWork(db, a) <==>
              && Authorized(db, a.worker, a.session) && 0 <= a.slot < db.workers[a.worker].capacity
              && (forall t :: !HasClaim(db, a.claimId, t)) && (forall t :: !HoldsSlot(db, a.worker, a.slot, t))
  {
    if forall t :: !HasClaim(db, a.claimId, t) {
      forall t | t in db.attempts ensures db.attempts[t].claimId != a.claimId {
        assert !HasClaim(db, a.claimId, t);
      }
    }
    if forall t :: !HoldsSlot(db, a.worker, a.slot, t) {
      forall t | t in db.attempts && db.attempts[t].finishedAt == None
        ensures db.attempts[t].workerId != a.worker || db.attempts[t].slot != a.slot
      {
        assert !HoldsSlot(db, a.worker, a.slot, t);
      }
    }
  }

  lemma DueExact(db: Database, capabilities: set<string>, t: real, locked: set<JobId>)
    ensures Candidates(db, capabilities, t, locked)
         == set j | j in db.jobs && j !in locked && Due(db, capabilities, t, j)
  {
  }

  /** New work is created exactly when it is asked for and there is some; it is refused with an
      empty answer exactly when it is asked for and there is none. */
  lemma ClaimCreatesExactly(cfg: Config, s: State, a: Action, s': State)
    requires Next(cfg, s, a, s') && a.DoClaim?
    ensures a.token in s'.db.attempts <==> AsksForNewWork(s.db, a) && HasWork(s.db, a)
    ensures Decide(cfg, s.db, a).reply == NoWork <==> AsksForNewWork(s.db, a) && !HasWork(s.db, a)
    ensures a.token !in s'.db.attempts ==> s'.db == s.db
  {
    AsksExact(s.db, a);
    if AsksForNewWork(s.db, a) {
      var capabilities := s.db.workers[a.worker].capabilities;
      DueExact(s.db, capabilities, a.at.first, a.locked);
      if j :| j !in a.locked && Due(s.db, capabilities, a.at.first, j) {
        assert j in Candidates(s.db, capabilities, a.at.first, a.locked);
      } else {
        assert Candidates(s.db, capabilities, a.at.first, a.locked) == {};
      }
    }
  }

  /** The job taken is the first of all that are due and not locked, in the policy's order. */
  lemma ClaimTakesFirst(cfg: Config, s: State, a: Action, s': State)
    requires Next(cfg, s, a, s') && a.DoClaim? && a.token in s'.db.attempts
    ensures a.worker in s.db.workers
    ensures var capabilities := s.db.workers[a.worker].capabilities;
            var k := s'.db.attempts[a.token].jobId;
            && k !in a.locked && Due(s.db, capabilities, a.at.first, k)
            && forall j :: j !in a.locked && j != k && Due(s.db, capabilities, a.at.first, j) ==>
                 Sooner(cfg.policy, s.db, k, j)
  {
    ClaimCreatesExactly(cfg, s, a, s');
    var w := s.db.workers[a.worker];
    DueExact(s.db, w.capabilities, a.at.first, a.locked);
    var k := s'.db.attempts[a.token].jobId;
    var pool := Candidates(s.db, w.capabilities, a.at.first, a.locked);
    assert First(cfg.policy, s.db, pool, k);
    forall j | j !in a.locked && j != k && Due(s.db, w.capabilities, a.at.first, j)
      ensures Sooner(cfg.policy, s.db, k, j)
    {
      assert j in pool;
      assert Before(cfg.policy, s.db, k, j);
    }
  }

  /** What a claim writes: the next fence, a full lease, and a LEASED job. */
  lemma ClaimedRows(cfg: Config, s: State, a: Action, s': State)
    requires Next(cfg, s, a, s') && a.DoClaim? && a.token in s'.db.attempts
    ensures var row := s'.db.attempts[a.token];
            var j := row.jobId;
            && Decide(cfg, s.db, a).reply == Assigned(j, a.token)
            && j in s.db.jobs && a.worker in s.db.workers && a.token !in s.db.attempts
            && row.workerId == a.worker && row.slot == a.slot && row.claimId == a.claimId
            && row.fence == s.db.jobs[j].attemptCount + 1
            && row.claimedAt == a.at.first && row.expiresAt == a.at.first + cfg.lease
            && row.startedAt == row.finishedAt == None && row.outcome == None
            && row.output == None && row.error == None && row.epoch == s.db.workers[a.worker].epoch
            && var job := s.db.jobs[j].(status := Leased, attemptCount := s.db.jobs[j].attemptCount + 1,
                                        updatedAt := a.at.second);
               s'.db == s.db.(attempts := s.db.attempts[a.token := row], jobs := s.db.jobs[j := job],
                              events := s.db.events + [Event(j, Entered(Leased))])
  {
  }

  /** Why a claim is refused, and which assignment a repeated one gets. */
  lemma ClaimRefusals(cfg: Config, db: Database, a: Action)
    requires AttemptsOk(db) && ClaimsUnique(db) && SlotsUnique(db) && a.DoClaim?
    ensures var reply := Decide(cfg, db, a).reply;
            var known := a.worker in db.workers && db.workers[a.worker].session == a.session;
            var inRange := known && 0 <= a.slot < db.workers[a.worker].capacity;
            && (reply == Rejected(Unauthorized) <==> !known)
            && (reply == Rejected(Invalid) <==> known && !inRange)
            && (inRange ==> forall t | t in db.attempts && db.attempts[t].claimId == a.claimId ::
                  var row := db.attempts[t];
                  reply == if row.workerId == a.worker && row.slot == a.slot && row.finishedAt == None
                           then Assigned(row.jobId, t) else Rejected(Conflict))
            && (inRange && !AsksForNewWork(db, a)
                && (forall t :: t in db.attempts ==> db.attempts[t].claimId != a.claimId) ==>
                  reply == Rejected(Conflict))
  {
    AsksExact(db, a);
    if Authorized(db, a.worker, a.session) && 0 <= a.slot < db.workers[a.worker].capacity {
      forall t | t in db.attempts && db.attempts[t].claimId == a.claimId ensures HasClaim(db, a.claimId, t) {
      }
    }
  }

  // Start, renew

  /** A first start, and nothing else, moves the job to RUNNING. */
  lemma StartedRows(cfg: Config, s: State, a: Action, s': State)
    requires Next(cfg, s, a, s') && a.DoStart? && Decide(cfg, s.db, a).reply == Done
    ensures a.job in s.db.jobs && a.token in s.db.attempts && s.db.jobs[a.job].status in {Leased, Running}
    ensures s.db.jobs[a.job].status == Running ==> s'.db == s.db
    ensures s.db.jobs[a.job].status == Leased ==>
              var row := s.db.attempts[a.token].(startedAt := Some(a.at.second));
              var job := s.db.jobs[a.job].(status := Running, updatedAt := a.at.third);
              s'.db == s.db.(attempts := s.db.attempts[a.token := row], jobs := s.db.jobs[a.job := job],
                             events := s.db.events + [Event(a.job, Entered(Running))])
  {
  }

  /** A renewal sets and answers a whole lease from its reading, unless the execution cap comes
      first, and touches nothing else. */
  lemma RenewedLease(cfg: Config, s: State, a: Action, s': State)
    requires Next(cfg, s, a, s') && a.DoRenew? && Decide(cfg, s.db, a).reply.Renewed?
    ensures a.job in s.db.jobs && a.token in s.db.attempts && s.db.attempts[a.token].startedAt.Some?
    ensures var x := Decide(cfg, s.db, a).reply.expiresAt;
            var whole := a.at.second + cfg.lease;
            var cap := s.db.attempts[a.token].startedAt.value + s.db.jobs[a.job].def.timeout + 5.0;
            && x <= whole && x <= cap && (x == whole || x == cap)
            && s'.db == s.db.(attempts := s.db.attempts[a.token := s.db.attempts[a.token].(expiresAt := x)])
  {
  }

  /** A renewal that does not answer a new deadline is refused and changes nothing. */
  lemma UnrenewedUnchanged(cfg: Config, s: State, a: Action, s': State)
    requires Next(cfg, s, a, s') && a.DoRenew? && !Decide(cfg, s.db, a).reply.Renewed?
    ensures Decide(cfg, s.db, a).reply.Rejected? && s'.db == s.db
  {
  }

  // Completions and expiries

  /** The unfinished attempt `t` of `j` has ended at `at` and its job has moved at `moved`, with
      everything else that they say kept. */
  predicate Ends(db: Database, db': Database, j: JobId, t: Token, at: real, moved: real) {
    && j in db.jobs && t in db.attempts && j in db'.jobs && t in db'.attempts
    && db.attempts[t].finishedAt == None && db'.attempts[t].finishedAt == Some(at)
    && db'.attempts == db.attempts[t := db'.attempts[t]] && db'.jobs == db.jobs[j := db'.jobs[j]]
    && db'.workers == db.workers
    && db'.events == db.events + [Event(j, Entered(db'.jobs[j].status))]
    && (var a := db'.attempts[t];
        a == db.attempts[t].(finishedAt := a.finishedAt, outcome := a.outcome, output := a.output, error := a.error))
    && (var job := db'.jobs[j];
        job == db.jobs[j].(status := job.status, availableAt := job.availableAt, updatedAt := moved))
  }

  /** What an attempt that ended with `error` makes of its job. A retryable error is retried while
      the budget lasts and dead-lettered after; any other is a permanent failure. Only a retry
      leaves no result and is due again after its delay. */
  predicate Fails(db: Database, db': Database, j: JobId, t: Token, error: string, retryable: bool, jitter: real,
                  at: real)
    requires j in db.jobs && j in db'.jobs && t in db'.attempts
  {
    var was, job := db.jobs[j], db'.jobs[j];
    && db'.attempts[t].error == Some(error) && db'.attempts[t].output == None
    && (job.status == Failed <==> !retryable)
    && (job.status == RetryWait <==> retryable && was.attemptCount <= was.def.maxRetries)
    && (job.status == DeadLetter <==> retryable && was.attemptCount > was.def.maxRetries)
    && db'.results == (if job.status == RetryWait then db.results else db.results[j := ResultRow(None, Some(error))])
    && (job.status != RetryWait ==> job.availableAt == was.availableAt)
    && (job.status == RetryWait ==>
          job.availableAt == at + BaseDelay(was.def, was.attemptCount) * if was.def.retryJitter then jitter else 1.0)
  }

  /** The step recorded a completion, and did not just acknowledge one. */
  predicate FirstCompletion(s: State, a: Action, s': State) {
    a.DoFinish? && s'.db != s.db
  }

  /** A reported error decides the job's fate by its retryable flag and the budget. */
  lemma ErrorRecorded(cfg: Config, s: State, a: Action, s': State)
    requires AttemptsOk(s.db) && Next(cfg, s, a, s') && FirstCompletion(s, a, s') && a.error.Some?
    ensures Ends(s.db, s'.db, a.job, a.token, a.at.third, a.at.fourth)
    ensures s'.db.attempts[a.token].outcome == Some(Errored)
    ensures Fails(s.db, s'.db, a.job, a.token, a.error.value, a.retryable, a.jitter, a.at.third)
  {
  }

  /** A reported output is the job's result. */
  lemma OutputRecorded(cfg: Config, s: State, a: Action, s': State)
    requires AttemptsOk(s.db) && Next(cfg, s, a, s') && FirstCompletion(s, a, s') && a.output.Some?
    ensures Ends(s.db, s'.db, a.job, a.token, a.at.third, a.at.fourth)
    ensures var row := s'.db.attempts[a.token];
            row.outcome == Some(Completed) && row.output == a.output && row.error == None
    ensures s'.db.jobs[a.job].status == Succeeded && s'.db.jobs[a.job].availableAt == s.db.jobs[a.job].availableAt
    ensures s'.db.results == s.db.results[a.job := ResultRow(a.output, None)]
  {
  }

  /** A completion of an unfinished attempt that is acknowledged is recorded by that very step. */
  lemma AcknowledgedFirst(cfg: Config, s: State, a: Action, s': State)
    requires AttemptsOk(s.db) && Next(cfg, s, a, s') && a.DoFinish? && Decide(cfg, s.db, a).reply == Done
    ensures a.token in s.db.attempts
    ensures FirstCompletion(s, a, s') <==> s.db.attempts[a.token].finishedAt == None
  {
    if s.db.attempts[a.token].finishedAt == None {
      assert s'.db.attempts[a.token].finishedAt.Some?;
    }
  }

  /** A sweep's row of `j`: an unfinished attempt whose lease has run out at the recheck fails as
      retryable; in every other case nothing changes. */
  lemma ExpiryExact(cfg: Config, s: State, a: Action, s': State, t: Token)
    requires AttemptsOk(s.db) && FencesUnique(s.db) && Next(cfg, s, a, s') && a.DoExpire?
    requires t in s.db.attempts && s.db.attempts[t].jobId == a.job && s.db.attempts[t].finishedAt == None
    ensures if s.db.attempts[t].expiresAt <= a.at.first then
              && Ends(s.db, s'.db, a.job, t, a.at.second, a.at.third)
              && s'.db.attempts[t].outcome == Some(LeaseExpired)
              && Fails(s.db, s'.db, a.job, t, "Lease expired; execution outcome unknown", true, a.jitter, a.at.second)
            else s'.db == s.db
  {
    assert AttemptRowOk(s.db, t);
    assert HoldsJob(s.db, a.job, t);
    forall u | HoldsJob(s.db, a.job, u) ensures u == t {
      assert AttemptRowOk(s.db, u);
    }
  }

  /** The row of a job without an unfinished attempt, as in a stale list, changes nothing. */
  lemma NothingToExpire(cfg: Config, s: State, a: Action, s': State)
    requires Next(cfg, s, a, s') && a.DoExpire?
    requires forall t :: t in s.db.attempts && s.db.attempts[t].jobId == a.job ==> s.db.attempts[t].finishedAt.Some?
    ensures s'.db == s.db
  {
  }

  // Cancellations

  /** `j` is cancelled at `t` and nothing else changes. */
  predicate CancelsOnly(db: Database, db': Database, j: JobId, t: real) {
    && j in db.jobs
    && db' == db.(jobs := db.jobs[j := db.jobs[j].(status := Cancelled, updatedAt := t)],
                  events := db.events + [Event(j, Entered(Cancelled))])
  }

  /** A client cancels exactly the waiting jobs; a job that has been cancelled stays so. */
  lemma CancelExact(cfg: Config, s: State, a: Action, s': State)
    requires Next(cfg, s, a, s') && a.DoCancel?
    ensures var reply := Decide(cfg, s.db, a).reply;
            if a.job !in s.db.jobs then reply == Rejected(Missing) && s'.db == s.db
            else match s.db.jobs[a.job].status
              case Queued => reply == Done && CancelsOnly(s.db, s'.db, a.job, a.at.first)
              case RetryWait => reply == Done && CancelsOnly(s.db, s'.db, a.job, a.at.first)
              case Cancelled => reply == Done && s'.db == s.db
              case _ => reply == Rejected(Conflict) && s'.db == s.db
  {
  }

  /** The dependants loop cancels exactly the waiting jobs whose parent ended without success. */
  lemma CancelChildExact(cfg: Config, s: State, a: Action, s': State)
    requires Next(cfg, s, a, s') && a.DoCancelChild?
    ensures if && a.job in s.db.jobs && s.db.jobs[a.job].status in {Queued, RetryWait}
               && s.db.jobs[a.job].def.dependsOn.Some? && s.db.jobs[a.job].def.dependsOn.value in s.db.jobs
               && s.db.jobs[s.db.jobs[a.job].def.dependsOn.value].status in {Failed, DeadLetter, Cancelled}
            then CancelsOnly(s.db, s'.db, a.job, a.at.first)
            else s'.db == s.db
  {
  }
}
