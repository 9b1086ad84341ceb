/**
 Dependency chains over every run.
 */
module Dependencies {
  import opened Tables
  import opened Invariant
  import opened Runs

  /** Each job of the sequence depends on the next one. */
  predicate Chain(db: Database, c: seq<JobId>) {
    && |c| > 0 && c[0] in db.jobs
    && (|c| > 1 ==> db.jobs[c[0]].def.dependsOn == Some(c[1]) && Chain(db, c[1..]))
  }

  lemma ChainTail(db: Database, c: seq<JobId>)
    requires Chain(db, c) && |c| > 1 && DependsOk(db)
    ensures Chain(db, c[1..]) && db.jobs[c[0]].def.dependsOn == Some(c[1]) && c[1] in db.jobs
    ensures db.jobs[c[1]].serial < db.jobs[c[0]].serial
  {
  }

  lemma {:induction false} ChainDescends(db: Database, c: seq<JobId>, i: nat)
    requires Chain(db, c) && DependsOk(db) && i < |c|
    ensures c[i] in db.jobs && db.jobs[c[i]].serial + i <= db.jobs[c[0]].serial
  {
    if i > 0 {
      ChainTail(db, c);
      ChainDescends(db, c[1..], i - 1);
    }
  }

  /** Chains never come back to a job they have visited, and are no longer than the table. */
  lemma ChainsAreFinite(cfg: Config, states: seq<State>, actions: seq<Action>, n: nat, c: seq<JobId>)
    requires Run(cfg, states, actions) && n < |states| && Chain(states[n].db, c)
    ensures |c| <= |states[n].db.jobs|
    ensures forall i, k :: 0 <= i < k < |c| ==> c[i] != c[k]
  {
    RunJobs(cfg, states, actions, n);
    AcyclicChain(states[n].db, c);
  }

  lemma AcyclicChain(db: Database, c: seq<JobId>)
    requires DependsOk(db) && Chain(db, c)
    ensures |c| <= |db.jobs|
    ensures forall i, k :: 0 <= i < k < |c| ==> c[i] != c[k]
  {
    ChainDescends(db, c, |c| - 1);
    assert DependsRowOk(db, c[0]);
    forall i, k | 0 <= i < k < |c| ensures c[i] != c[k] {
      SuffixIsChain(db, c, i);
      ChainDescends(db, c[i..], k - i);
    }
  }

  lemma {:induction false} SuffixIsChain(db: Database, c: seq<JobId>, i: nat)
    requires Chain(db, c) && DependsOk(db) && i < |c|
    ensures Chain(db, c[i..])
  {
    if i == 0 {
      assert c[0..] == c;
    } else {
      ChainTail(db, c);
      SuffixIsChain(db, c[1..], i - 1);
      assert c[1..][i - 1..] == c[i..];
    }
  }

  lemma {:induction false} AncestorsSucceeded(db: Database, c: seq<JobId>, i: nat)
    requires DependsOk(db) && JobsOk(db) && Chain(db, c) && 0 < i < |c|
    requires db.jobs[c[0]].attemptCount > 0
    ensures c[i] in db.jobs && db.jobs[c[i]].status.Succeeded?
  {
    ChainTail(db, c);
    assert DependsRowOk(db, c[0]) && JobOk(db.jobs[c[1]]);
    if i > 1 {
      AncestorsSucceeded(db, c[1..], i - 1);
    }
  }

  /** A job that ever had an attempt has only successful ancestors; a job with a failed,
      dead-lettered or cancelled ancestor never had one, and is queued or cancelled. */
  lemma DependenciesAreSafe(cfg: Config, states: seq<State>, actions: seq<Action>, n: nat, c: seq<JobId>, i: nat)
    requires Run(cfg, states, actions) && n < |states| && Chain(states[n].db, c) && 0 < i < |c|
    ensures c[i] in states[n].db.jobs
    ensures states[n].db.jobs[c[0]].attemptCount > 0 ==> states[n].db.jobs[c[i]].status.Succeeded?
    ensures Broken(states[n].db.jobs[c[i]].status) ==>
              && states[n].db.jobs[c[0]].attemptCount == 0
              && (states[n].db.jobs[c[0]].status.Queued? || states[n].db.jobs[c[0]].status.Cancelled?)
  {
    RunJobs(cfg, states, actions, n);
    SafeChain(states[n].db, c, i);
  }

  lemma SafeChain(db: Database, c: seq<JobId>, i: nat)
    requires DependsOk(db) && JobsOk(db) && Chain(db, c) && 0 < i < |c|
    ensures c[i] in db.jobs
    ensures db.jobs[c[0]].attemptCount > 0 ==> db.jobs[c[i]].status.Succeeded?
    ensures Broken(db.jobs[c[i]].status) ==>
              && db.jobs[c[0]].attemptCount == 0
              && (db.jobs[c[0]].status.Queued? || db.jobs[c[0]].status.Cancelled?)
  {
    ChainDescends(db, c, i);
    assert JobOk(db.jobs[c[0]]);
    if db.jobs[c[0]].attemptCount > 0 {
      AncestorsSucceeded(db, c, i);
    }
  }
}
