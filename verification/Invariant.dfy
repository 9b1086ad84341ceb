/**
 The invariant of the tables, in independent parts, and the proof that every effect
 whose guard holds keeps each part.
 */
module Invariant {
  import opened Tables
  import opened Protocol

  // Jobs: what the status says about the retry budget

  predicate JobOk(job: Job) {
    && DefinitionOk(job.def)
    && job.attemptCount <= job.def.maxRetries + 1
    && job.createdAt <= job.updatedAt
    && match job.status {
         case Queued => job.attemptCount == 0
         case RetryWait => 1 <= job.attemptCount <= job.def.maxRetries
         case Cancelled => job.attemptCount <= job.def.maxRetries
         case DeadLetter => job.attemptCount == job.def.maxRetries + 1
         case _ => 1 <= job.attemptCount
       }
  }

  ghost predicate JobsOk(db: Database) {
    forall j :: j in db.jobs ==> JobOk(db.jobs[j])
  }

  lemma JobsKept(cfg: Config, db: Database, e: Effect, now: real, later: real)
    requires JobsOk(db) && AttemptsOk(db) && ClockOk(db, now) && Guard(cfg, db, e, now, later)
    ensures Refers(db, e) && JobsOk(Apply(db, e))
  {
    GuardRefers(cfg, db, e, now, later);
  }

  // Attempts: who owns the job

  /** One attempt row against its job row. */
  predicate AttemptOk(job: Job, a: Attempt) {
    && 1 <= a.fence <= job.attemptCount
    && (a.finishedAt.None? <==> Owned(job.status) && a.fence == job.attemptCount)
    && (a.finishedAt.None? ==> (a.startedAt.Some? <==> job.status.Running?)
                               && a.outcome.None? && a.output.None? && a.error.None?)
    && (a.finishedAt.Some? ==> a.outcome.Some?)
    && (a.outcome == Some(Completed) <==> job.status.Succeeded? && a.fence == job.attemptCount)
    && (a.outcome == Some(Completed) ==> a.output.Some? && a.error.None?)
    && (a.outcome == Some(Errored) || a.outcome == Some(LeaseExpired) ==> a.output.None? && a.error.Some?)
    && (job.status.Failed? && a.fence == job.attemptCount ==> a.outcome == Some(Errored))
    && (a.outcome == Some(Completed) || a.outcome == Some(Errored) ==> a.startedAt.Some?)
  }

  predicate AttemptRowOk(db: Database, t: Token)
    requires t in db.attempts
  {
    && db.attempts[t].jobId in db.jobs
    && db.attempts[t].workerId in db.workers
    && AttemptOk(db.jobs[db.attempts[t].jobId], db.attempts[t])
  }

  ghost predicate AttemptsOk(db: Database) {
    forall t :: t in db.attempts ==> AttemptRowOk(db, t)
  }

  lemma AttemptKept(cfg: Config, db: Database, e: Effect, now: real, later: real, t: Token)
    requires AttemptsOk(db) && FencesUnique(db) && Guard(cfg, db, e, now, later)
    requires Refers(db, e) && t in Apply(db, e).attempts
    ensures AttemptRowOk(Apply(db, e), t)
  {
    if t in db.attempts {
      assert AttemptRowOk(db, t);
      if e.MarkStarted? || e.EndAttempt? {
        assert AttemptRowOk(db, e.token);
      }
    }
  }

  lemma AttemptsKept(cfg: Config, db: Database, e: Effect, now: real, later: real)
    requires JobsOk(db) && AttemptsOk(db) && FencesUnique(db) && Guard(cfg, db, e, now, later)
    ensures Refers(db, e) && AttemptsOk(Apply(db, e))
  {
    GuardRefers(cfg, db, e, now, later);
    forall t | t in Apply(db, e).attempts ensures AttemptRowOk(Apply(db, e), t) {
      AttemptKept(cfg, db, e, now, later, t);
    }
  }

  // Fences: each job's attempts are numbered 1..attemptCount, once each

  ghost predicate FencesUnique(db: Database) {
    forall t, u | && t in db.attempts && u in db.attempts
                  && db.attempts[t].jobId == db.attempts[u].jobId
                  && db.attempts[t].fence == db.attempts[u].fence :: t == u
  }

  ghost predicate HasFence(db: Database, j: JobId, k: nat) {
    exists t :: t in db.attempts && db.attempts[t].jobId == j && db.attempts[t].fence == k
  }

  ghost predicate FencesCover(db: Database) {
    forall j, k: nat :: j in db.jobs && 1 <= k <= db.jobs[j].attemptCount ==> HasFence(db, j, k)
  }

  lemma FencesKept(cfg: Config, db: Database, e: Effect, now: real, later: real)
    requires AttemptsOk(db) && FencesUnique(db) && FencesCover(db) && Guard(cfg, db, e, now, later)
    ensures Refers(db, e) && FencesUnique(Apply(db, e)) && FencesCover(Apply(db, e))
  {
    GuardRefers(cfg, db, e, now, later);
    var db' := Apply(db, e);
    forall j, k: nat | j in db'.jobs && 1 <= k <= db'.jobs[j].attemptCount ensures HasFence(db', j, k) {
      if e.AddAttempt? && j == e.attempt.jobId && k == e.attempt.fence {
        assert e.token in db'.attempts && db'.attempts[e.token] == e.attempt;
      } else {
        assert HasFence(db, j, k);
        var t :| t in db.attempts && db.attempts[t].jobId == j && db.attempts[t].fence == k;
        assert t in db'.attempts && db'.attempts[t].jobId == j && db'.attempts[t].fence == k;
      }
    }
  }

  // Results: one row per job that ended, and it is what the last attempt recorded

  predicate HasResult(s: Status) { s.Succeeded? || s.Failed? || s.DeadLetter? }

  predicate ResultRowOk(db: Database, j: JobId)
    requires j in db.jobs
  {
    j in db.results <==> HasResult(db.jobs[j].status)
  }

  predicate RecordedOk(db: Database, t: Token)
    requires t in db.attempts
  {
    var a := db.attempts[t];
    a.jobId in db.results && a.jobId in db.jobs && a.fence == db.jobs[a.jobId].attemptCount ==>
      db.results[a.jobId] == ResultRow(a.output, a.error)
  }

  ghost predicate ResultsOk(db: Database) {
    && (forall j :: j in db.results ==> j in db.jobs)
    && (forall j :: j in db.jobs ==> ResultRowOk(db, j))
    && (forall t :: t in db.attempts ==> RecordedOk(db, t))
  }

  lemma RecordedKept(cfg: Config, db: Database, e: Effect, now: real, later: real, t: Token)
    requires AttemptsOk(db) && FencesUnique(db) && ResultsOk(db) && Guard(cfg, db, e, now, later)
    requires Refers(db, e) && t in Apply(db, e).attempts
    ensures RecordedOk(Apply(db, e), t)
  {
    if t in db.attempts {
      assert AttemptRowOk(db, t) && RecordedOk(db, t) && ResultRowOk(db, db.attempts[t].jobId);
      if e.MarkStarted? || e.EndAttempt? {
        assert AttemptRowOk(db, e.token);
      }
    } else {
      assert ResultRowOk(db, e.attempt.jobId);
    }
  }

  lemma ResultsKept(cfg: Config, db: Database, e: Effect, now: real, later: real)
    requires AttemptsOk(db) && FencesUnique(db) && ResultsOk(db) && Guard(cfg, db, e, now, later)
    ensures Refers(db, e) && ResultsOk(Apply(db, e))
  {
    GuardRefers(cfg, db, e, now, later);
    var db' := Apply(db, e);
    forall t | t in db'.attempts ensures RecordedOk(db', t) {
      RecordedKept(cfg, db, e, now, later, t);
    }
    forall j | j in db'.jobs ensures ResultRowOk(db', j) {
      if j in db.jobs {
        assert ResultRowOk(db, j);
      }
    }
  }

  // Unique columns and partial unique indexes

  ghost predicate ClaimsUnique(db: Database) {
    forall t, u | && t in db.attempts && u in db.attempts
                  && db.attempts[t].claimId == db.attempts[u].claimId :: t == u
  }

  ghost predicate SlotsUnique(db: Database) {
    forall t, u | && Unfinished(db, t) && Unfinished(db, u)
                  && db.attempts[t].workerId == db.attempts[u].workerId
                  && db.attempts[t].slot == db.attempts[u].slot :: t == u
  }

  ghost predicate KeysUnique(db: Database) {
    forall i, j | && i in db.jobs && j in db.jobs && db.jobs[i].key.Some?
                  && db.jobs[i].key == db.jobs[j].key :: i == j
  }

  lemma ClaimsKept(cfg: Config, db: Database, e: Effect, now: real, later: real)
    requires ClaimsUnique(db) && Guard(cfg, db, e, now, later)
    ensures Refers(db, e) && ClaimsUnique(Apply(db, e))
  {
    GuardRefers(cfg, db, e, now, later);
    if e.AddAttempt? {
      forall t | t in db.attempts ensures db.attempts[t].claimId != e.attempt.claimId {
        assert !HasClaim(db, e.attempt.claimId, t);
      }
    }
  }

  lemma SlotsKept(cfg: Config, db: Database, e: Effect, now: real, later: real)
    requires SlotsUnique(db) && Guard(cfg, db, e, now, later)
    ensures Refers(db, e) && SlotsUnique(Apply(db, e))
  {
    GuardRefers(cfg, db, e, now, later);
    var db' := Apply(db, e);
    if e.AddAttempt? {
      forall t | Unfinished(db', t) && t != e.token
        ensures db'.attempts[t].workerId != e.attempt.workerId || db'.attempts[t].slot != e.attempt.slot
      {
        assert !HoldsSlot(db, e.attempt.workerId, e.attempt.slot, t);
      }
    }
    forall t, u | && Unfinished(db', t) && Unfinished(db', u)
                  && db'.attempts[t].workerId == db'.attempts[u].workerId
                  && db'.attempts[t].slot == db'.attempts[u].slot
      ensures t == u
    {
      assert t in db.attempts ==> Unfinished(db, t);
      assert u in db.attempts ==> Unfinished(db, u);
    }
  }

  lemma KeysKept(cfg: Config, db: Database, e: Effect, now: real, later: real)
    requires KeysUnique(db) && Guard(cfg, db, e, now, later)
    ensures Refers(db, e) && KeysUnique(Apply(db, e))
  {
    GuardRefers(cfg, db, e, now, later);
    if e.AddJob? && e.job.key.Some? {
      forall j | j in db.jobs ensures db.jobs[j].key != e.job.key {
        assert !KeyTaken(db, e.job.key, j);
      }
    }
  }

  // Dependencies point to earlier jobs; only children of successful parents ever run

  predicate DependsRowOk(db: Database, j: JobId)
    requires j in db.jobs
  {
    && db.jobs[j].serial < |db.jobs|
    && (db.jobs[j].def.dependsOn.Some? ==>
          var p := db.jobs[j].def.dependsOn.value;
          && p in db.jobs
          && db.jobs[p].serial < db.jobs[j].serial
          && (db.jobs[j].attemptCount > 0 ==> db.jobs[p].status.Succeeded?))
  }

  ghost predicate DependsOk(db: Database) {
    forall j :: j in db.jobs ==> DependsRowOk(db, j)
  }

  lemma JobCount(db: Database, e: Effect)
    requires Refers(db, e) && (e.AddJob? ==> e.id !in db.jobs)
    ensures |Apply(db, e).jobs| == |db.jobs| + if e.AddJob? then 1 else 0
  {
  }

  lemma DependsRowKept(cfg: Config, db: Database, e: Effect, now: real, later: real, j: JobId)
    requires Guard(cfg, db, e, now, later) && Refers(db, e) && j in Apply(db, e).jobs
    requires if j in db.jobs then DependsRowOk(db, j) else forall k :: k in db.jobs ==> DependsRowOk(db, k)
    ensures DependsRowOk(Apply(db, e), j)
  {
    JobCount(db, e);
  }

  lemma DependsKept(cfg: Config, db: Database, e: Effect, now: real, later: real)
    requires DependsOk(db) && Guard(cfg, db, e, now, later)
    ensures Refers(db, e) && DependsOk(Apply(db, e))
  {
    GuardRefers(cfg, db, e, now, later);
    var db' := Apply(db, e);
    forall j | j in db'.jobs ensures DependsRowOk(db', j) {
      DependsRowKept(cfg, db, e, now, later, j);
    }
  }

  // Rows never carry a timestamp from the future

  ghost predicate ClockOk(db: Database, now: real) {
    && (forall j :: j in db.jobs ==> db.jobs[j].createdAt <= now && db.jobs[j].updatedAt <= now)
    && (forall t :: t in db.attempts ==>
          && db.attempts[t].claimedAt <= now
          && (db.attempts[t].finishedAt.Some? ==>
                db.attempts[t].claimedAt <= db.attempts[t].finishedAt.value <= now)
          && (db.attempts[t].startedAt.Some? ==>
                db.attempts[t].claimedAt <= db.attempts[t].startedAt.value <= now))
    && (forall w :: w in db.workers ==> db.workers[w].lastSeen <= now)
  }

  lemma ClockKept(cfg: Config, db: Database, e: Effect, now: real, later: real)
    requires ClockOk(db, now) && Guard(cfg, db, e, now, later)
    ensures Refers(db, e) && ClockOk(Apply(db, e), later)
  {
    GuardRefers(cfg, db, e, now, later);
  }

  // The parts that the others lean on

  ghost predicate CoreOk(db: Database, now: real) {
    JobsOk(db) && AttemptsOk(db) && FencesUnique(db) && FencesCover(db) && DependsOk(db) && ClockOk(db, now)
  }

  lemma CoreKept(cfg: Config, db: Database, e: Effect, now: real, later: real)
    requires CoreOk(db, now) && Guard(cfg, db, e, now, later)
    ensures Refers(db, e) && CoreOk(Apply(db, e), later)
  {
    JobsKept(cfg, db, e, now, later);
    AttemptsKept(cfg, db, e, now, later);
    FencesKept(cfg, db, e, now, later);
    DependsKept(cfg, db, e, now, later);
    ClockKept(cfg, db, e, now, later);
  }
}
