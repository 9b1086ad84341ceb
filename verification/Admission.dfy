/**
 Admission control: the queue limit and the sliding-window submission rate.
 */
module Admission {
  import opened Tables
  import opened Protocol

  /** Jobs created in the closed minute that begins at `from`. */
  function CreatedWithin(db: Database, from: real): (r: set<JobId>) {
    set j | j in db.jobs && from <= db.jobs[j].createdAt <= from + 60.0
  }

  ghost predicate AdmissionOk(cfg: Config, db: Database) {
    && |ActiveJobs(db)| <= cfg.queueLimit
    && forall from: real :: |CreatedWithin(db, from)| <= cfg.submissionsPerMinute
  }

  lemma SubsetSize<T>(a: set<T>, b: set<T>)
    requires a <= b
    ensures |a| <= |b|
  {
    assert b == a + (b - a);
  }

  /** Admission looks back one minute from its own clock reading, yet bounds every closed
      minute: a window that holds the new job lies inside the minute it looked at. */
  lemma WindowAfterAdmission(cfg: Config, db: Database, id: JobId, job: Job, from: real)
    requires id !in db.jobs
    requires |CreatedWithin(db, from)| <= cfg.submissionsPerMinute
    requires |CreatedSince(db, job.createdAt - 60.0)| < cfg.submissionsPerMinute
    ensures |CreatedWithin(Apply(db, AddJob(id, job)), from)| <= cfg.submissionsPerMinute
  {
    var after := CreatedWithin(Apply(db, AddJob(id, job)), from);
    if from <= job.createdAt <= from + 60.0 {
      assert after == CreatedWithin(db, from) + {id};
      SubsetSize(CreatedWithin(db, from), CreatedSince(db, job.createdAt - 60.0));
    } else {
      assert after == CreatedWithin(db, from);
    }
  }

  lemma ActiveAfterAdmission(cfg: Config, db: Database, id: JobId, job: Job)
    requires id !in db.jobs && job.status.Queued? && |ActiveJobs(db)| < cfg.queueLimit
    ensures |ActiveJobs(Apply(db, AddJob(id, job)))| <= cfg.queueLimit
  {
    assert ActiveJobs(Apply(db, AddJob(id, job))) == ActiveJobs(db) + {id};
  }

  lemma AdmissionKept(cfg: Config, db: Database, e: Effect, now: real, later: real)
    requires AdmissionOk(cfg, db) && Guard(cfg, db, e, now, later)
    ensures Refers(db, e) && AdmissionOk(cfg, Apply(db, e))
  {
    GuardRefers(cfg, db, e, now, later);
    var db' := Apply(db, e);
    if e.AddJob? {
      ActiveAfterAdmission(cfg, db, e.id, e.job);
      forall from: real ensures |CreatedWithin(db', from)| <= cfg.submissionsPerMinute {
        WindowAfterAdmission(cfg, db, e.id, e.job, from);
      }
    } else {
      NoneAdmitted(cfg, db, e, now, later);
      SubsetSize(ActiveJobs(db'), ActiveJobs(db));
      forall from: real ensures |CreatedWithin(db', from)| <= cfg.submissionsPerMinute {
        assert CreatedWithin(db', from) == CreatedWithin(db, from);
      }
    }
  }

  /** Every other effect leaves the admission times alone and activates no job. */
  lemma NoneAdmitted(cfg: Config, db: Database, e: Effect, now: real, later: real)
    requires Guard(cfg, db, e, now, later) && Refers(db, e) && !e.AddJob?
    ensures ActiveJobs(Apply(db, e)) <= ActiveJobs(db)
    ensures forall from: real :: CreatedWithin(Apply(db, e), from) == CreatedWithin(db, from)
  {
  }
}
