/**
 Admission over every run: the queue limit, the sliding-window rate, and idempotency keys.
 */
module Submissions {
  import opened Tables
  import opened Protocol
  import opened Operations
  import opened Invariant
  import opened Admission
  import opened Runs
  import opened History

  /** The queue never holds more active jobs than its limit, and no closed minute (not only
      those that end at an admission) ever sees more admissions than the rate. */
  lemma LimitsHold(cfg: Config, states: seq<State>, actions: seq<Action>, i: nat, from: real)
    requires Run(cfg, states, actions) && i < |states|
    ensures |ActiveJobs(states[i].db)| <= cfg.queueLimit
    ensures |CreatedWithin(states[i].db, from)| <= cfg.submissionsPerMinute
  {
    RunLimits(cfg, states, actions, i);
  }

  /** A replay of a known submission succeeds in any state, however full the queue is; the
      key with another definition is refused. Neither changes anything. */
  lemma ReplayIgnoresLimits(cfg: Config, db: Database, key: Option<string>, def: Definition, j: JobId, id: JobId,
                            at: Readings)
    requires KeysUnique(db) && KeyTaken(db, key, j)
    ensures Admit(cfg, db, key, def, id, at)
         == if def == db.jobs[j].def then Decision(NoEffect, Accepted(j, false)) else Reject(Conflict)
  {
  }

  lemma AcceptedNames(cfg: Config, s: State, a: Action, s': State)
    requires Next(cfg, s, a, s') && a.DoSubmit? && Decide(cfg, s.db, a).reply.Accepted?
    ensures var j := Decide(cfg, s.db, a).reply.job;
            && j in s'.db.jobs && s'.db.jobs[j].def == a.def
            && (a.key.Some? ==> KeyTaken(s'.db, a.key, j))
            && (Decide(cfg, s.db, a).reply.created <==> j !in s.db.jobs)
  {
  }

  /** All successful submissions under one key name one job and had equal definitions; only
      the first of them created it. */
  lemma KeyNamesOneJob(cfg: Config, states: seq<State>, actions: seq<Action>, i: nat, k: nat)
    requires Run(cfg, states, actions) && i < k < |actions|
    requires actions[i].DoSubmit? && actions[k].DoSubmit?
    requires actions[i].key.Some? && actions[k].key == actions[i].key
    requires Decide(cfg, states[i].db, actions[i]).reply.Accepted?
    requires Decide(cfg, states[k].db, actions[k]).reply.Accepted?
    ensures Decide(cfg, states[k].db, actions[k]).reply
         == Accepted(Decide(cfg, states[i].db, actions[i]).reply.job, false)
    ensures actions[k].def == actions[i].def
  {
    var j := Decide(cfg, states[i].db, actions[i]).reply.job;
    assert Next(cfg, states[i], actions[i], states[i + 1]);
    AcceptedNames(cfg, states[i], actions[i], states[i + 1]);
    RunEvolves(cfg, states, actions, i + 1, k);
    assert JobEvolves(states[i + 1].db.jobs[j], states[k].db.jobs[j]);
    RunTables(cfg, states, actions, k);
    var a := actions[k];
    ReplayIgnoresLimits(cfg, states[k].db, a.key, a.def, j, a.id, a.at);
  }
}
