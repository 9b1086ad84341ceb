/**
 FIFO fairness: how often other jobs can be claimed past an eligible one.
 */
module Overtaking {
  import opened Tables
  import opened Scheduler
  import opened Invariant
  import opened Runs
  import opened History

  /** Attempts a job may still get. */
  function AttemptsLeft(job: Job): nat {
    if job.attemptCount <= job.def.maxRetries then job.def.maxRetries + 1 - job.attemptCount else 0
  }

  function LeftByJob(db: Database): (r: map<JobId, nat>) {
    map j | j in db.jobs :: AttemptsLeft(db.jobs[j])
  }

  ghost function Sum(f: map<JobId, nat>, s: set<JobId>): nat
    requires s <= f.Keys
  {
    if s == {} then 0
    else
      var x :| x in s;
      f[x] + Sum(f, s - {x})
  }

  lemma {:induction false} SumSplit(f: map<JobId, nat>, s: set<JobId>, x: JobId)
    requires s <= f.Keys && x in s
    ensures Sum(f, s) == f[x] + Sum(f, s - {x})
  {
    var y :| y in s && Sum(f, s) == f[y] + Sum(f, s - {y});
    if y != x {
      SumSplit(f, s - {y}, x);
      SumSplit(f, s - {x}, y);
      assert s - {y} - {x} == s - {x} - {y};
    }
  }

  lemma {:induction false} SumFalls(f: map<JobId, nat>, g: map<JobId, nat>, s: set<JobId>, drop: set<JobId>)
    requires s <= f.Keys && s <= g.Keys && drop <= s
    requires forall x :: x in s ==> g[x] + (if x in drop then 1 else 0) <= f[x]
    ensures Sum(g, s) + |drop| <= Sum(f, s)
  {
    if s == {} {
      assert drop == {};
    } else {
      var x :| x in s;
      SumSplit(f, s, x);
      SumSplit(g, s, x);
      SumFalls(f, g, s - {x}, drop - {x});
    }
  }

  /** The jobs that FIFO order puts ahead of `j`. */
  function Ahead(db: Database, j: JobId): (r: set<JobId>)
    requires j in db.jobs
  {
    set k | k in db.jobs && Older(db, k, j)
  }

  /** The bound: all attempts that the jobs ahead of `j` may still get. */
  ghost function Debt(db: Database, j: JobId): nat
    requires j in db.jobs
  {
    Sum(LeftByJob(db), Ahead(db, j))
  }

  /** The step hands a new attempt to another job although `j` was eligible for that worker and
      no other transaction had locked its row. */
  ghost predicate PassesOver(cfg: Config, db: Database, a: Action, j: JobId) {
    && a.DoClaim? && Decide(cfg, db, a).effect.AddAttempt?
    && Decide(cfg, db, a).effect.attempt.jobId != j
    && a.worker in db.workers && j !in a.locked
    && Eligible(db, db.workers[a.worker].capabilities, a.at.first, j)
  }

  ghost function TimesPassed(cfg: Config, states: seq<State>, actions: seq<Action>, lo: nat, hi: nat, j: JobId): nat
    requires |states| == |actions| + 1 && lo <= hi <= |actions|
  {
    if lo == hi then 0
    else TimesPassed(cfg, states, actions, lo, hi - 1, j)
         + if PassesOver(cfg, states[hi - 1].db, actions[hi - 1], j) then 1 else 0
  }

  /** A submission in this step is admitted after `j`: later, or at the same time with a
      greater identifier. */
  predicate AdmitsBehind(a: Action, created: real, j: JobId) {
    a.DoSubmit? ==> created < a.at.first || (created == a.at.first && j < a.id)
  }

  predicate OrderedAdmissions(actions: seq<Action>, lo: nat, hi: nat, created: real, j: JobId)
    requires lo <= hi <= |actions|
  {
    forall i :: lo <= i < hi ==> AdmitsBehind(actions[i], created, j)
  }

  /** The job a claim takes comes before every other eligible job that no one has locked. */
  lemma ClaimTakesFirst(cfg: Config, db: Database, a: Action, j: JobId)
    requires a.DoClaim? && Decide(cfg, db, a).effect.AddAttempt? && a.worker in db.workers
    requires j !in a.locked && Eligible(db, db.workers[a.worker].capabilities, a.at.first, j)
    ensures var k := Decide(cfg, db, a).effect.attempt.jobId;
            k in db.jobs && (k == j || Before(cfg.policy, db, k, j))
  {
  }

  lemma PassedIsAhead(cfg: Config, db: Database, a: Action, j: JobId)
    requires cfg.policy.Fifo? && j in db.jobs && PassesOver(cfg, db, a, j)
    ensures Decide(cfg, db, a).effect.attempt.jobId in Ahead(db, j)
  {
    ClaimTakesFirst(cfg, db, a, j);
  }

  lemma SameAhead(db: Database, db': Database, j: JobId)
    requires JobsEvolve(db, db') && j in db.jobs
    requires forall k :: k in db'.jobs && k !in db.jobs ==> j in db'.jobs && Older(db', j, k)
    ensures j in db'.jobs && Ahead(db', j) == Ahead(db, j)
  {
  }

  /** Who is admitted by a step. */
  lemma AdmittedLater(cfg: Config, s: State, a: Action, s': State, k: JobId)
    requires Next(cfg, s, a, s') && k in s'.db.jobs && k !in s.db.jobs
    ensures a.DoSubmit? && k == a.id && s'.db.jobs[k].createdAt == a.at.first
  {
  }

  lemma ClaimedOnce(cfg: Config, s: State, a: Action, s': State, j: JobId)
    requires Next(cfg, s, a, s') && JobsOk(s'.db) && PassesOver(cfg, s.db, a, j)
    ensures var k := Decide(cfg, s.db, a).effect.attempt.jobId;
            k in s.db.jobs && k in s'.db.jobs && AttemptsLeft(s'.db.jobs[k]) + 1 == AttemptsLeft(s.db.jobs[k])
  {
  }

  lemma DebtFalls(cfg: Config, s: State, a: Action, s': State, j: JobId)
    requires cfg.policy.Fifo? && Next(cfg, s, a, s') && JobsEvolve(s.db, s'.db) && JobsOk(s'.db) && j in s.db.jobs
    requires AdmitsBehind(a, s.db.jobs[j].createdAt, j)
    ensures j in s'.db.jobs
    ensures Debt(s'.db, j) + (if PassesOver(cfg, s.db, a, j) then 1 else 0) <= Debt(s.db, j)
  {
    assert JobEvolves(s.db.jobs[j], s'.db.jobs[j]);
    forall k | k in s'.db.jobs && k !in s.db.jobs ensures Older(s'.db, j, k) {
      AdmittedLater(cfg, s, a, s', k);
    }
    SameAhead(s.db, s'.db, j);
    var f, g := LeftByJob(s.db), LeftByJob(s'.db);
    var drop: set<JobId> := {};
    if PassesOver(cfg, s.db, a, j) {
      PassedIsAhead(cfg, s.db, a, j);
      ClaimedOnce(cfg, s, a, s', j);
      drop := {Decide(cfg, s.db, a).effect.attempt.jobId};
    }
    forall x | x in Ahead(s.db, j) ensures x in f && x in g && g[x] + (if x in drop then 1 else 0) <= f[x] {
      assert JobEvolves(s.db.jobs[x], s'.db.jobs[x]);
    }
    SumFalls(f, g, Ahead(s.db, j), drop);
  }

  /** The same for one step of a run. */
  lemma StepDebt(cfg: Config, states: seq<State>, actions: seq<Action>, m: nat, j: JobId)
    requires Run(cfg, states, actions) && cfg.policy.Fifo? && m < |actions| && j in states[m].db.jobs
    requires AdmitsBehind(actions[m], states[m].db.jobs[j].createdAt, j)
    ensures j in states[m + 1].db.jobs && states[m + 1].db.jobs[j].createdAt == states[m].db.jobs[j].createdAt
    ensures Debt(states[m + 1].db, j) + (if PassesOver(cfg, states[m].db, actions[m], j) then 1 else 0)
         <= Debt(states[m].db, j)
  {
    RunEvolves(cfg, states, actions, m, m + 1);
    assert JobEvolves(states[m].db.jobs[j], states[m + 1].db.jobs[j]);
    RunJobs(cfg, states, actions, m + 1);
    assert Next(cfg, states[m], actions[m], states[m + 1]);
    DebtFalls(cfg, states[m], actions[m], states[m + 1], j);
  }

  /** Bounded overtaking: under FIFO, the new-attempt claims that pass over a job while it is
      eligible number at most the attempts that the jobs ahead of it may still get. */
  lemma {:induction false} OvertakingIsBounded(cfg: Config, states: seq<State>, actions: seq<Action>,
                                               lo: nat, hi: nat, j: JobId)
    requires Run(cfg, states, actions) && cfg.policy.Fifo? && lo <= hi <= |actions|
    requires j in states[lo].db.jobs
    requires OrderedAdmissions(actions, lo, hi, states[lo].db.jobs[j].createdAt, j)
    ensures j in states[hi].db.jobs && states[hi].db.jobs[j].createdAt == states[lo].db.jobs[j].createdAt
    ensures TimesPassed(cfg, states, actions, lo, hi, j) + Debt(states[hi].db, j) <= Debt(states[lo].db, j)
    decreases hi
  {
    if lo < hi {
      OvertakingIsBounded(cfg, states, actions, lo, hi - 1, j);
      StepDebt(cfg, states, actions, hi - 1, j);
    }
  }
}
