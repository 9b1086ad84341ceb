/**
 What no step ever takes back: the relation between an earlier and a later database of
 one run.
 */
module History {
  import opened Tables
  import opened Protocol
  import opened Invariant
  import opened Runs

  predicate JobEvolves(was: Job, now: Job) {
    && now.def == was.def && now.key == was.key && now.createdAt == was.createdAt && now.serial == was.serial
    && was.attemptCount <= now.attemptCount
    && (!Active(was.status) ==> now == was)
  }

  /** A finished attempt is frozen. */
  predicate AttemptEvolves(was: Attempt, now: Attempt) {
    && now.jobId == was.jobId && now.workerId == was.workerId && now.slot == was.slot
    && now.claimId == was.claimId && now.fence == was.fence
    && now.claimedAt == was.claimedAt && now.epoch == was.epoch
    && (was.startedAt.Some? ==> now.startedAt == was.startedAt)
    && (was.finishedAt.Some? ==> now == was)
  }

  /** A registration is frozen until the identity is taken over. */
  predicate WorkerEvolves(was: Worker, now: Worker) {
    && was.epoch <= now.epoch
    && (was.epoch == now.epoch ==>
          && now.session == was.session && now.capacity == was.capacity && now.capabilities == was.capabilities
          && (was.drainRequested ==> now.drainRequested))
  }

  ghost predicate JobsEvolve(db: Database, db': Database) {
    forall j :: j in db.jobs ==> j in db'.jobs && JobEvolves(db.jobs[j], db'.jobs[j])
  }

  ghost predicate AttemptsEvolve(db: Database, db': Database) {
    forall t :: t in db.attempts ==> t in db'.attempts && AttemptEvolves(db.attempts[t], db'.attempts[t])
  }

  ghost predicate OthersEvolve(db: Database, db': Database) {
    && (forall j :: j in db.results ==> j in db'.results && db'.results[j] == db.results[j])
    && (forall w :: w in db.workers ==> w in db'.workers && WorkerEvolves(db.workers[w], db'.workers[w]))
    && db.events <= db'.events
  }

  ghost predicate Evolves(db: Database, db': Database) {
    JobsEvolve(db, db') && AttemptsEvolve(db, db') && OthersEvolve(db, db')
  }

  /** The attempt an effect works on still owns its job, which has no result yet. */
  ghost predicate TouchesOwned(db: Database, e: Effect) {
    e.MarkStarted? || e.EndAttempt? ==>
      && e.token in db.attempts && AttemptRowOk(db, e.token)
      && db.attempts[e.token].jobId !in db.results
  }

  lemma JobsStepEvolve(cfg: Config, db: Database, e: Effect, now: real, later: real)
    requires Guard(cfg, db, e, now, later) && Refers(db, e) && TouchesOwned(db, e)
    ensures JobsEvolve(db, Apply(db, e))
  {
  }

  lemma AttemptsStepEvolve(cfg: Config, db: Database, e: Effect, now: real, later: real)
    requires Guard(cfg, db, e, now, later) && Refers(db, e) && TouchesOwned(db, e)
    ensures AttemptsEvolve(db, Apply(db, e))
  {
  }

  lemma OthersStepEvolve(cfg: Config, db: Database, e: Effect, now: real, later: real)
    requires Guard(cfg, db, e, now, later) && Refers(db, e) && TouchesOwned(db, e)
    ensures OthersEvolve(db, Apply(db, e))
  {
  }

  lemma EffectEvolves(cfg: Config, db: Database, e: Effect, now: real, later: real)
    requires AttemptsOk(db) && ResultsOk(db) && Guard(cfg, db, e, now, later)
    ensures Refers(db, e) && Evolves(db, Apply(db, e))
  {
    GuardRefers(cfg, db, e, now, later);
    if e.MarkStarted? || e.EndAttempt? {
      assert AttemptRowOk(db, e.token);
      assert ResultRowOk(db, db.attempts[e.token].jobId);
    }
    JobsStepEvolve(cfg, db, e, now, later);
    AttemptsStepEvolve(cfg, db, e, now, later);
    OthersStepEvolve(cfg, db, e, now, later);
  }

  lemma EvolvesTransitive(a: Database, b: Database, c: Database)
    requires Evolves(a, b) && Evolves(b, c)
    ensures Evolves(a, c)
  {
  }

  lemma StepEvolves(cfg: Config, s: State, a: Action, s': State)
    requires ConfigOk(cfg) && Next(cfg, s, a, s')
    requires JobsOk(s.db) && AttemptsOk(s.db) && ClockOk(s.db, s.clock) && ResultsOk(s.db)
    ensures Evolves(s.db, s'.db) && s.clock <= s'.clock
  {
    ActionGuarded(cfg, s.db, a, s.clock);
    EffectEvolves(cfg, s.db, Decide(cfg, s.db, a).effect, s.clock, a.at.fourth);
  }

  /** Over a whole run. */
  lemma {:induction false} RunEvolves(cfg: Config, states: seq<State>, actions: seq<Action>, i: nat, k: nat)
    requires Run(cfg, states, actions) && i <= k < |states|
    ensures Evolves(states[i].db, states[k].db) && states[i].clock <= states[k].clock
    decreases k
  {
    if i < k {
      var m := k - 1;
      RunEvolves(cfg, states, actions, i, m);
      RunTables(cfg, states, actions, m);
      assert Next(cfg, states[m], actions[m], states[m + 1]);
      StepEvolves(cfg, states[m], actions[m], states[m + 1]);
      EvolvesTransitive(states[i].db, states[m].db, states[k].db);
    }
  }
}
