/**
 Leases and retry delays: how long an attempt may own its job, and how far apart the
 attempts of one job lie.
 */
module Timing {
  import opened Tables
  import opened Protocol
  import opened Invariant

  /** The last moment the attempt can own its job, however often it is renewed. */
  function OwnershipBound(cfg: Config, job: Job, a: Attempt): real {
    var first := a.claimedAt + cfg.lease;
    if a.startedAt.None? then first else Max(first, a.startedAt.value + job.def.timeout + 5.0)
  }

  predicate NotBefore(job: Job, t: real) {
    job.createdAt <= t && (job.def.scheduledAt.Some? ==> job.def.scheduledAt.value <= t)
  }

  /** One attempt row against its job row. */
  predicate LeaseRowOk(cfg: Config, db: Database, t: Token)
    requires t in db.attempts && db.attempts[t].jobId in db.jobs
  {
    var a := db.attempts[t];
    var job := db.jobs[a.jobId];
    && a.expiresAt <= OwnershipBound(cfg, job, a)
    && (a.startedAt.None? ==> a.expiresAt == a.claimedAt + cfg.lease)
    && NotBefore(job, a.claimedAt)
    && (job.status.RetryWait? && a.fence == job.attemptCount && a.finishedAt.Some? ==>
          && a.finishedAt.value + LeastDelay(job.def, a.fence) <= job.availableAt
          && job.availableAt <= a.finishedAt.value + 5400.0)
  }

  predicate WaitRowOk(job: Job, now: real) {
    && (job.status.Queued? && job.def.scheduledAt.Some? ==> job.def.scheduledAt.value <= job.availableAt)
    && (job.attemptCount > 0 ==> NotBefore(job, now))
  }

  /** The earlier of two attempts at one job ends before the later one is claimed, and the
      retry delay lies between neighbours. */
  predicate Apart(db: Database, t: Token, u: Token)
    requires t in db.attempts && u in db.attempts && db.attempts[t].jobId in db.jobs
  {
    var a, b := db.attempts[t], db.attempts[u];
    a.jobId == b.jobId && a.fence < b.fence ==>
      && a.finishedAt.Some?
      && a.finishedAt.value <= b.claimedAt
      && (b.fence == a.fence + 1 ==>
            a.finishedAt.value + LeastDelay(db.jobs[a.jobId].def, a.fence) <= b.claimedAt)
  }

  ghost predicate LeasesOk(cfg: Config, db: Database) {
    forall t :: t in db.attempts ==> db.attempts[t].jobId in db.jobs && LeaseRowOk(cfg, db, t)
  }

  ghost predicate AllApart(db: Database) {
    forall t, u :: t in db.attempts && u in db.attempts ==> db.attempts[t].jobId in db.jobs && Apart(db, t, u)
  }

  ghost predicate TimesOk(cfg: Config, db: Database, now: real) {
    && LeasesOk(cfg, db) && AllApart(db)
    && (forall j :: j in db.jobs ==> WaitRowOk(db.jobs[j], now))
  }

  /** What is needed of the rows an effect touches. */
  ghost predicate TouchedOk(db: Database, e: Effect, now: real)
    requires Refers(db, e)
  {
    match e
    case AddAttempt(_, a, _) =>
      JobOk(db.jobs[a.jobId]) && db.jobs[a.jobId].createdAt <= now && WaitRowOk(db.jobs[a.jobId], now)
    case MarkStarted(t, _, _) => AttemptRowOk(db, t)
    case EndAttempt(t, _, _) => AttemptRowOk(db, t)
    case _ => true
  }

  lemma LeaseKept(cfg: Config, db: Database, e: Effect, now: real, later: real, t: Token)
    requires Guard(cfg, db, e, now, later) && Refers(db, e) && TouchedOk(db, e, now)
    requires t in db.attempts && AttemptRowOk(db, t) && LeaseRowOk(cfg, db, t)
    requires e.EndAttempt? ==> (t == e.token || db.attempts[e.token].jobId != db.attempts[t].jobId
                                || db.attempts[e.token].fence != db.attempts[t].fence)
    ensures Apply(db, e).attempts[t].jobId in Apply(db, e).jobs && LeaseRowOk(cfg, Apply(db, e), t)
  {
  }

  lemma LeaseNew(cfg: Config, db: Database, e: Effect, now: real, later: real)
    requires Guard(cfg, db, e, now, later) && e.AddAttempt? && Refers(db, e) && TouchedOk(db, e, now)
    ensures LeaseRowOk(cfg, Apply(db, e), e.token)
  {
  }

  lemma WaitKept(cfg: Config, db: Database, e: Effect, now: real, later: real, j: JobId)
    requires Guard(cfg, db, e, now, later) && Refers(db, e) && TouchedOk(db, e, now)
    requires j in Apply(db, e).jobs
    requires j in db.jobs ==> WaitRowOk(db.jobs[j], now) && JobOk(db.jobs[j])
    ensures WaitRowOk(Apply(db, e).jobs[j], later)
  {
  }

  lemma ApartKept(cfg: Config, db: Database, e: Effect, now: real, later: real, t: Token, u: Token)
    requires Guard(cfg, db, e, now, later) && Refers(db, e)
    requires t in db.attempts && u in db.attempts && AttemptRowOk(db, t) && AttemptRowOk(db, u) && Apart(db, t, u)
    ensures Apart(Apply(db, e), t, u)
  {
  }

  /** A newly claimed attempt lies after every earlier attempt of its job. */
  lemma ApartNew(cfg: Config, db: Database, e: Effect, now: real, later: real, t: Token)
    requires Guard(cfg, db, e, now, later) && e.AddAttempt? && Refers(db, e) && TouchedOk(db, e, now)
    requires t in db.attempts && AttemptRowOk(db, t) && LeaseRowOk(cfg, db, t)
    requires db.attempts[t].finishedAt.Some? ==> db.attempts[t].finishedAt.value <= now
    ensures Apart(Apply(db, e), t, e.token) && Apart(Apply(db, e), e.token, t)
  {
  }

  lemma LeasesKept(cfg: Config, db: Database, e: Effect, now: real, later: real)
    requires AttemptsOk(db) && FencesUnique(db) && LeasesOk(cfg, db) && Guard(cfg, db, e, now, later)
    requires Refers(db, e) && TouchedOk(db, e, now)
    ensures LeasesOk(cfg, Apply(db, e))
  {
    var db' := Apply(db, e);
    forall t | t in db'.attempts ensures db'.attempts[t].jobId in db'.jobs && LeaseRowOk(cfg, db', t) {
      if t in db.attempts {
        assert AttemptRowOk(db, t) && LeaseRowOk(cfg, db, t);
        LeaseKept(cfg, db, e, now, later, t);
      } else {
        LeaseNew(cfg, db, e, now, later);
      }
    }
  }

  lemma AllApartKept(cfg: Config, db: Database, e: Effect, now: real, later: real)
    requires AttemptsOk(db) && ClockOk(db, now) && LeasesOk(cfg, db) && AllApart(db) && Guard(cfg, db, e, now, later)
    requires Refers(db, e) && TouchedOk(db, e, now)
    ensures AllApart(Apply(db, e))
  {
    var db' := Apply(db, e);
    forall t, u | t in db'.attempts && u in db'.attempts
      ensures db'.attempts[t].jobId in db'.jobs && Apart(db', t, u)
    {
      if t in db.attempts && u in db.attempts {
        assert AttemptRowOk(db, t) && AttemptRowOk(db, u) && Apart(db, t, u);
        ApartKept(cfg, db, e, now, later, t, u);
      } else if t in db.attempts {
        assert AttemptRowOk(db, t) && LeaseRowOk(cfg, db, t);
        ApartNew(cfg, db, e, now, later, t);
      } else if u in db.attempts {
        assert AttemptRowOk(db, u) && LeaseRowOk(cfg, db, u);
        ApartNew(cfg, db, e, now, later, u);
      }
    }
  }

  lemma TimesKept(cfg: Config, db: Database, e: Effect, now: real, later: real)
    requires AttemptsOk(db) && FencesUnique(db) && JobsOk(db)
    requires ClockOk(db, now) && TimesOk(cfg, db, now) && Guard(cfg, db, e, now, later)
    ensures Refers(db, e) && TimesOk(cfg, Apply(db, e), later)
  {
    GuardRefers(cfg, db, e, now, later);
    if e.MarkStarted? || e.EndAttempt? {
      assert AttemptRowOk(db, e.token);
    }
    LeasesKept(cfg, db, e, now, later);
    AllApartKept(cfg, db, e, now, later);
    var db' := Apply(db, e);
    forall j | j in db'.jobs ensures WaitRowOk(db'.jobs[j], later) {
      WaitKept(cfg, db, e, now, later, j);
    }
  }
}
