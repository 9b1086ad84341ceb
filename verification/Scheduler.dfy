/**
 Which jobs a worker may claim, in which order, and the one a claim takes.
 */
module Scheduler {
  import opened Tables

  predicate Eligible(db: Database, capabilities: set<string>, now: real, j: JobId) {
    && j in db.jobs
    && Waiting(db.jobs[j].status)
    && db.jobs[j].availableAt <= now
    && db.jobs[j].def.task in capabilities
    && ParentReady(db, db.jobs[j].def)
  }

  /** Admission order; the identifier breaks ties. */
  predicate Older(db: Database, a: JobId, b: JobId)
    requires a in db.jobs && b in db.jobs
  {
    || db.jobs[a].createdAt < db.jobs[b].createdAt
    || (db.jobs[a].createdAt == db.jobs[b].createdAt && a < b)
  }

  predicate Before(policy: Policy, db: Database, a: JobId, b: JobId)
    requires a in db.jobs && b in db.jobs
  {
    if policy.Fifo? then Older(db, a, b)
    else
      || db.jobs[a].def.priority > db.jobs[b].def.priority
      || (db.jobs[a].def.priority == db.jobs[b].def.priority && Older(db, a, b))
  }

  /** Rows locked by other transactions are skipped. */
  function Candidates(db: Database, capabilities: set<string>, now: real, locked: set<JobId>): (r: set<JobId>)
  {
    set j | j in db.jobs && j !in locked && Eligible(db, capabilities, now, j)
  }

  ghost predicate First(policy: Policy, db: Database, s: set<JobId>, j: JobId)
    requires s <= db.jobs.Keys
  {
    j in s && forall k :: k in s && k != j ==> Before(policy, db, j, k)
  }

  /** The claim order is total, so every non-empty set of jobs has one first member. */
  lemma {:induction false} FirstExists(policy: Policy, db: Database, s: set<JobId>)
    requires s <= db.jobs.Keys && s != {}
    ensures exists j :: First(policy, db, s, j)
  {
    var x :| x in s;
    if s == {x} {
      assert First(policy, db, s, x);
    } else {
      FirstExists(policy, db, s - {x});
      var y :| First(policy, db, s - {x}, y);
      if Before(policy, db, x, y) {
        forall k | k in s && k != x ensures Before(policy, db, x, k) {
          assert k in s - {x};
        }
        assert First(policy, db, s, x);
      } else {
        forall k | k in s && k != y ensures Before(policy, db, y, k) {
          assert k == x || k in s - {x};
        }
        assert First(policy, db, s, y);
      }
    }
  }

  /** The row a claim locks: the first candidate in the policy's order. */
  ghost function Head(policy: Policy, db: Database, capabilities: set<string>, now: real,
                      locked: set<JobId>): (r: Option<JobId>)
    ensures r.None? <==> Candidates(db, capabilities, now, locked) == {}
    ensures r.Some? ==> First(policy, db, Candidates(db, capabilities, now, locked), r.value)
    ensures forall j: JobId :: First(policy, db, Candidates(db, capabilities, now, locked), j) ==> r == Some(j)
  {
    var s := Candidates(db, capabilities, now, locked);
    if s == {} then None
    else
      FirstExists(policy, db, s);
      var j :| First(policy, db, s, j);
      Some(j)
  }
}
