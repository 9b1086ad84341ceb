/**
 Job histories over every run: legal paths, bounded retries, and counters that add up.
 */
module Lifecycle {
  import opened Tables
  import opened Protocol
  import opened Invariant
  import opened EventLog
  import opened Runs

  /** A job's events are a legal path from its submission to its current status, with one
      LEASED event per attempt and at most 5 + 3 * max_retries events in all. */
  lemma HistoryIsLegal(cfg: Config, states: seq<State>, actions: seq<Action>, i: nat, j: JobId)
    requires Run(cfg, states, actions) && i < |states| && j in states[i].db.jobs
    ensures var db := states[i].db;
            var trace := Trace(db.events, j);
            && PathTo(trace, db.jobs[j].status)
            && Occurrences(trace, Entered(Leased)) == db.jobs[j].attemptCount
            && |trace| <= 5 + 3 * db.jobs[j].def.maxRetries
  {
    RunLog(cfg, states, actions, i);
    assert LogRowOk(states[i].db, j);
  }

  /** The retry budget: attempts never exceed it, a dead letter has used it up, and a job
      waiting to retry has some left. */
  lemma RetriesAreBounded(cfg: Config, states: seq<State>, actions: seq<Action>, i: nat, j: JobId)
    requires Run(cfg, states, actions) && i < |states| && j in states[i].db.jobs
    ensures var job := states[i].db.jobs[j];
            && job.attemptCount <= job.def.maxRetries + 1
            && (job.status.DeadLetter? ==> job.attemptCount == job.def.maxRetries + 1)
            && (job.status.RetryWait? ==> job.attemptCount <= job.def.maxRetries)
            && (job.status.Queued? ==> job.attemptCount == 0)
  {
    RunJobs(cfg, states, actions, i);
    assert JobOk(states[i].db.jobs[j]);
  }

  /** Every step that changes a job's status follows the transition table and lowers its
      remaining budget of transitions; no step raises it. */
  lemma BudgetFalls(cfg: Config, states: seq<State>, actions: seq<Action>, i: nat, j: JobId)
    requires Run(cfg, states, actions) && i < |actions| && j in states[i].db.jobs
    ensures j in states[i + 1].db.jobs
    ensures JobOk(states[i].db.jobs[j]) && JobOk(states[i + 1].db.jobs[j])
    ensures var was, now := states[i].db.jobs[j], states[i + 1].db.jobs[j];
            if now.status == was.status then now == was
            else now.status in Allowed(was.status) && Remaining(now) < Remaining(was)
  {
    RunTables(cfg, states, actions, i);
    assert Next(cfg, states[i], actions[i], states[i + 1]);
    ActionGuarded(cfg, states[i].db, actions[i], states[i].clock);
    JobMoves(cfg, states[i].db, Decide(cfg, states[i].db, actions[i]).effect, states[i].clock, actions[i].at.fourth, j);
  }

  lemma JobMoves(cfg: Config, db: Database, e: Effect, now: real, later: real, j: JobId)
    requires JobsOk(db) && AttemptsOk(db) && ClockOk(db, now) && Guard(cfg, db, e, now, later)
    requires Refers(db, e) && j in db.jobs
    ensures j in Apply(db, e).jobs && JobOk(db.jobs[j]) && JobOk(Apply(db, e).jobs[j])
    ensures var was, row' := db.jobs[j], Apply(db, e).jobs[j];
            if row'.status == was.status then row' == was
            else row'.status in Allowed(was.status) && Remaining(row') < Remaining(was)
  {
    JobsKept(cfg, db, e, now, later);
    var db' := Apply(db, e);
    if MovedJob(db, e) == Some(j) {
      EffectMoves(cfg, db, e, now, later);
      RemainingFalls(db.jobs[j], db'.jobs[j]);
    } else if MovedJob(db, e).Some? {
      EffectMoves(cfg, db, e, now, later);
    }
  }

  /** In every state the log-derived counters equal the table-derived ones, and every
      submitted job is completed, failed, cancelled or active. */
  lemma CountersAddUp(cfg: Config, states: seq<State>, actions: seq<Action>, i: nat)
    requires Run(cfg, states, actions) && i < |states|
    ensures var o := Observe(states[i].db);
            && o.submitted == o.completed + o.failed + |InStatus(states[i].db, Cancelled)| + o.admittedActive
            && o.submitted == |states[i].db.jobs|
            && o.completed == |InStatus(states[i].db, Succeeded)|
            && o.admittedActive == |ActiveJobs(states[i].db)| <= cfg.queueLimit
            && Total(states[i].db.events, Entered(Leased)) == |states[i].db.attempts|
            && |states[i].db.attempts| == o.retries + (o.admittedActive - o.queueDepth) + o.completed + o.failed
    ensures forall s: Status :: !Active(s) ==> Total(states[i].db.events, Entered(s)) == |InStatus(states[i].db, s)|
  {
    RunLog(cfg, states, actions, i);
    RunLimits(cfg, states, actions, i);
    CountersAgree(states[i].db);
    forall s: Status | !Active(s) ensures Total(states[i].db.events, Entered(s)) == |InStatus(states[i].db, s)| {
      assert TerminalTotalOk(states[i].db, s);
    }
  }
}
