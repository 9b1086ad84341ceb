/**
 The execution cap. The design notes say that the cap of five seconds over the timeout
 always bounds ownership. The code applies it only when a lease is renewed, so a first lease
 longer than the cap outlives it.
 */
module ExecutionCap {
  import opened Tables
  import opened Protocol
  import opened Scheduler
  import opened Operations
  import opened Timing
  import opened Runs

  /** The lease of a started attempt ends within its job's timeout plus five seconds. */
  predicate Capped(db: Database, t: Token)
    requires t in db.attempts && db.attempts[t].jobId in db.jobs
  {
    var a := db.attempts[t];
    a.startedAt.Some? ==> a.expiresAt <= a.startedAt.value + db.jobs[a.jobId].def.timeout + 5.0
  }

  /** The cap holds for every attempt at a job with definition `def`, in every run. */
  ghost predicate AlwaysCapped(cfg: Config, def: Definition) {
    forall states: seq<State>, actions: seq<Action>, i: nat, t: Token
      | Run(cfg, states, actions) && i < |states| && AttemptAt(states[i].db, t, def) :: Capped(states[i].db, t)
  }

  predicate AttemptAt(db: Database, t: Token, def: Definition) {
    t in db.attempts && db.attempts[t].jobId in db.jobs && db.jobs[db.attempts[t].jobId].def == def
  }

  /** A lease no longer than the cap keeps within it. */
  lemma ShortLeaseIsCapped(cfg: Config, states: seq<State>, actions: seq<Action>, i: nat, t: Token, def: Definition)
    requires Run(cfg, states, actions) && i < |states| && AttemptAt(states[i].db, t, def)
    requires cfg.lease <= def.timeout + 5.0
    ensures Capped(states[i].db, t)
  {
    RunTimes(cfg, states, actions, i);
    assert LeaseRowOk(cfg, states[i].db, t);
  }

  // Runs in which a longer lease outlives it

  function AtOnce(t: real): Readings { Readings(t, t, t, t) }

  /** Worker "w" is free, the queue has been idle for over a minute, and a job `id` with this
      definition can be admitted and claimed at time `t` under token and claim ID `n`. */
  ghost predicate Ready(s: State, def: Definition, id: JobId, n: Token, t: real) {
    && s.clock <= t && id !in s.db.jobs && n !in s.db.attempts
    && "w" in s.db.workers
    && (var w := s.db.workers["w"];
        w.state.Healthy? && w.session == "s" && w.capacity == 1 && def.task in w.capabilities)
    && (forall j :: j in s.db.jobs ==> !Active(s.db.jobs[j].status) && s.db.jobs[j].createdAt < t - 60.0)
    && (forall u :: u in s.db.attempts ==> s.db.attempts[u].claimId != n && s.db.attempts[u].finishedAt.Some?)
    && ParentReady(s.db, def)
    && (def.scheduledAt.Some? ==> def.scheduledAt.value <= t)
  }

  function WithJob(db: Database, def: Definition, id: JobId, t: real): Database {
    var available := if def.scheduledAt.Some? then def.scheduledAt.value else t;
    Apply(db, AddJob(id, Job(def, None, Queued, 0, available, t, t, |db.jobs|)))
  }

  function WithLease(cfg: Config, db: Database, id: JobId, n: Token, t: real): Database
    requires id in db.jobs && "w" in db.workers
  {
    Apply(db, AddAttempt(n, NewAttempt(cfg, db, id, "w", 0, n, t), t))
  }

  function WithStart(db: Database, n: Token, t: real): Database
    requires n in db.attempts && db.attempts[n].jobId in db.jobs
  {
    Apply(db, MarkStarted(n, t, t))
  }

  /** Admitted, claimed and started, all at time `t`. */
  function Served(cfg: Config, db: Database, def: Definition, id: JobId, n: Token, t: real): Database
    requires "w" in db.workers
  {
    WithStart(WithLease(cfg, WithJob(db, def, id, t), id, n, t), n, t)
  }

  lemma SubmitStep(cfg: Config, s: State, def: Definition, id: JobId, n: Token, t: real)
    requires cfg.queueLimit >= 1 && cfg.submissionsPerMinute >= 1 && DefinitionOk(def) && Ready(s, def, id, n, t)
    ensures Next(cfg, s, DoSubmit(None, def, id, AtOnce(t)), State(WithJob(s.db, def, id, t), t))
  {
    assert ActiveJobs(s.db) == {};
    assert CreatedSince(s.db, t - 60.0) == {};
  }

  lemma ClaimStep(cfg: Config, s: State, def: Definition, id: JobId, n: Token, t: real)
    requires Ready(s, def, id, n, t)
    ensures var db := WithJob(s.db, def, id, t);
            Next(cfg, State(db, t), DoClaim("w", "s", 0, n, n, {}, AtOnce(t)), State(WithLease(cfg, db, id, n, t), t))
  {
    var db := WithJob(s.db, def, id, t);
    assert Candidates(db, db.workers["w"].capabilities, t, {}) == {id};
    assert First(cfg.policy, db, {id}, id);
  }

  lemma StartStep(cfg: Config, db: Database, id: JobId, n: Token, t: real)
    requires ConfigOk(cfg) && "w" in db.workers && db.workers["w"].session == "s" && id in db.jobs
    ensures var claimed := WithLease(cfg, db, id, n, t);
            Next(cfg, State(claimed, t), DoStart(id, "w", "s", n, AtOnce(t)), State(WithStart(claimed, n, t), t))
  {
  }

  /** From a ready state: submit, claim and start. */
  lemma Serve(cfg: Config, states: seq<State>, actions: seq<Action>, def: Definition, id: JobId, n: Token, t: real)
    returns (states': seq<State>, actions': seq<Action>)
    requires Run(cfg, states, actions) && cfg.queueLimit >= 1 && cfg.submissionsPerMinute >= 1
    requires DefinitionOk(def) && Ready(states[|actions|], def, id, n, t)
    ensures Run(cfg, states', actions')
    ensures states'[|actions'|] == State(Served(cfg, states[|actions|].db, def, id, n, t), t)
  {
    var s := states[|actions|];
    var db := WithJob(s.db, def, id, t);
    SubmitStep(cfg, s, def, id, n, t);
    ClaimStep(cfg, s, def, id, n, t);
    StartStep(cfg, db, id, n, t);
    states', actions' := Extend(cfg, states, actions, DoSubmit(None, def, id, AtOnce(t)), State(db, t));
    var claimed := WithLease(cfg, db, id, n, t);
    states', actions' :=
      Extend(cfg, states', actions', DoClaim("w", "s", 0, n, n, {}, AtOnce(t)), State(claimed, t));
    states', actions' :=
      Extend(cfg, states', actions', DoStart(id, "w", "s", n, AtOnce(t)), State(WithStart(claimed, n, t), t));
  }

  lemma Extend(cfg: Config, states: seq<State>, actions: seq<Action>, a: Action, s: State)
    returns (states': seq<State>, actions': seq<Action>)
    requires Run(cfg, states, actions) && Next(cfg, states[|actions|], a, s)
    ensures Run(cfg, states', actions') && states'[|actions'|] == s
  {
    RunExtended(cfg, states, actions, a, s);
    states', actions' := states + [s], actions + [a];
  }

  /** The first registration. */
  lemma Begin(cfg: Config, task: string, t: real) returns (states: seq<State>, actions: seq<Action>)
    requires ConfigOk(cfg)
    ensures Run(cfg, states, actions)
    ensures states[|actions|] == State(Apply(EMPTY, PutWorker("w", Worker(Healthy, 1, {task}, "s", false, t, 0))), t)
  {
    var register := DoRegister("w", "s", 1, {task}, t, AtOnce(t));
    var s := State(Apply(EMPTY, PutWorker("w", Worker(Healthy, 1, {task}, "s", false, t, 0))), t);
    assert Next(cfg, State(EMPTY, t), register, s);
    states, actions := Extend(cfg, [State(EMPTY, t)], [], register, s);
  }

  /** One more job, admitted at `t` and finished with success under token `n`. */
  predicate Succeeds(db: Database, db': Database, id: JobId, n: Token, t: real) {
    && db'.workers == db.workers
    && id in db'.jobs && db'.jobs == db.jobs[id := db'.jobs[id]]
    && db'.jobs[id].status.Succeeded? && db'.jobs[id].createdAt == t
    && n in db'.attempts && db'.attempts == db.attempts[n := db'.attempts[n]]
    && db'.attempts[n].claimId == n && db'.attempts[n].finishedAt.Some?
  }

  lemma FinishStep(cfg: Config, db: Database, def: Definition, id: JobId, n: Token, t: real) returns (s: State)
    requires ConfigOk(cfg) && "w" in db.workers && db.workers["w"].session == "s"
    ensures var served := Served(cfg, db, def, id, n, t);
            && Next(cfg, State(served, t), DoFinish(id, "w", "s", n, Some(""), None, false, 1.0, AtOnce(t)), s)
            && s.clock == t && Succeeds(db, s.db, id, n, t)
  {
    var served := Served(cfg, db, def, id, n, t);
    var a := DoFinish(id, "w", "s", n, Some(""), None, false, 1.0, AtOnce(t));
    s := State(Apply(served, Decide(cfg, served, a).effect), t);
  }

  /** A parent that has succeeded makes its child ready, more than a minute later. */
  lemma ChildReady(s: State, s': State, parent: Definition, def: Definition, p: JobId, t: real)
    requires Ready(s, parent, p, 0, t - 100.0) && s.db.jobs == map[] && s.db.attempts == map[]
    requires Succeeds(s.db, s'.db, p, 0, t - 100.0) && s'.clock <= t
    requires def.dependsOn == Some(p) && def.task == parent.task
    requires def.scheduledAt.Some? ==> def.scheduledAt.value <= t
    ensures Ready(s', def, p + 1, 1, t)
  {
  }

  lemma ParentServed(cfg: Config, def: Definition, p: JobId, t: real) returns (states: seq<State>, actions: seq<Action>)
    requires ConfigOk(cfg) && cfg.queueLimit >= 1 && cfg.submissionsPerMinute >= 1
    requires DefinitionOk(def) && def.dependsOn == Some(p) && (def.scheduledAt.Some? ==> def.scheduledAt.value <= t)
    ensures Run(cfg, states, actions) && Ready(states[|actions|], def, p + 1, 1, t)
  {
    var parent := def.(scheduledAt := None, dependsOn := None);
    var before := t - 100.0;
    states, actions := Begin(cfg, def.task, before);
    var ready := states[|actions|];
    states, actions := Serve(cfg, states, actions, parent, p, 0, before);
    var s := FinishStep(cfg, ready.db, parent, p, 0, before);
    ChildReady(ready, s, parent, def, p, t);
    states, actions :=
      Extend(cfg, states, actions, DoFinish(p, "w", "s", 0, Some(""), None, false, 1.0, AtOnce(before)), s);
  }

  /** With a longer lease the cap fails as soon as the job is started, whatever the definition:
      register, serve the parent if there is one, then submit, claim, start. */
  lemma LongLeaseOutlivesCap(cfg: Config, def: Definition)
    returns (states: seq<State>, actions: seq<Action>, t: Token)
    requires ConfigOk(cfg) && cfg.queueLimit >= 1 && cfg.submissionsPerMinute >= 1 && DefinitionOk(def)
    requires def.timeout + 5.0 < cfg.lease
    ensures Run(cfg, states, actions)
    ensures AttemptAt(states[|actions|].db, t, def) && !Capped(states[|actions|].db, t)
  {
    var now := if def.scheduledAt.Some? then def.scheduledAt.value else 0.0;
    var id := 0;
    if def.dependsOn.Some? {
      states, actions := ParentServed(cfg, def, def.dependsOn.value, now);
      id, t := def.dependsOn.value + 1, 1;
    } else {
      states, actions := Begin(cfg, def.task, now);
      t := 0;
    }
    states, actions := Serve(cfg, states, actions, def, id, t, now);
  }

  /** The cap bounds every started lease of a job exactly when the configured lease is no
      longer than the job's timeout plus five seconds. */
  lemma CapExactlyWhenLeaseIsShort(cfg: Config, def: Definition)
    requires ConfigOk(cfg) && cfg.queueLimit >= 1 && cfg.submissionsPerMinute >= 1 && DefinitionOk(def)
    ensures AlwaysCapped(cfg, def) <==> cfg.lease <= def.timeout + 5.0
  {
    if cfg.lease <= def.timeout + 5.0 {
      forall states: seq<State>, actions: seq<Action>, i: nat, t: Token
        | Run(cfg, states, actions) && i < |states| && AttemptAt(states[i].db, t, def) ensures Capped(states[i].db, t)
      {
        ShortLeaseIsCapped(cfg, states, actions, i, t, def);
      }
    } else {
      var states, actions, t := LongLeaseOutlivesCap(cfg, def);
      assert !Capped(states[|actions|].db, t);
    }
  }
}
