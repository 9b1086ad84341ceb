/**
 The queue as a state machine: every request, sweep row and detection row is one atomic
 step, in any order and with any arguments. The network, the clients, the workers and the
 coordinators are whatever chooses the next action.
 */
module Runs {
  import opened Tables
  import opened Protocol
  import opened Scheduler
  import opened Operations
  import opened Invariant
  import opened Timing
  import opened EventLog
  import opened Admission
  import opened Workers

  datatype Action =
    | DoSubmit(key: Option<string>, def: Definition, id: JobId, at: Readings)
    | DoClaim(worker: WorkerId, session: Session, slot: int, claimId: ClaimId,
              token: Token, locked: set<JobId>, at: Readings)
    | DoStart(job: JobId, worker: WorkerId, session: Session, token: Token, at: Readings)
    | DoRenew(job: JobId, worker: WorkerId, session: Session, token: Token, at: Readings)
    | DoFinish(job: JobId, worker: WorkerId, session: Session, token: Token,
               output: Option<Json>, error: Option<string>, retryable: bool, jitter: real, at: Readings)
    | DoCancel(job: JobId, at: Readings)
    | DoExpire(job: JobId, jitter: real, at: Readings)
    | DoCancelChild(job: JobId, at: Readings)
    | DoDetect(worker: WorkerId, at: Readings)
    | DoRegister(worker: WorkerId, session: Session, capacity: nat, capabilities: set<string>,
                 began: real, at: Readings)
    | DoHeartbeat(worker: WorkerId, session: Session, at: Readings)
    | DoDrain(worker: WorkerId, at: Readings)

  /** Worker requests are answered only under the current session of the identity. */
  ghost function Guarded(db: Database, w: WorkerId, session: Session, d: Decision): Decision {
    if Authorized(db, w, session) then d else Reject(Unauthorized)
  }

  ghost function Decide(cfg: Config, db: Database, a: Action): Decision {
    match a
    case DoSubmit(key, def, id, at) => Admit(cfg, db, key, def, id, at)
    case DoClaim(w, s, slot, c, t, locked, at) => Guarded(db, w, s, Claim(cfg, db, w, slot, Some(c), c, t, locked, at))
    case DoStart(j, w, s, t, at) => Guarded(db, w, s, Start(db, j, w, t, at))
    case DoRenew(j, w, s, t, at) => Guarded(db, w, s, Renew(cfg, db, j, w, t, at))
    case DoFinish(j, w, s, t, output, error, retryable, jitter, at) =>
      Guarded(db, w, s, Finish(db, j, w, t, output, error, retryable, jitter, at))
    case DoCancel(j, at) => Cancel(db, j, at)
    case DoExpire(j, jitter, at) => Expire(db, j, jitter, at)
    case DoCancelChild(j, at) => CancelChild(db, j, at)
    case DoDetect(w, at) => Detect(cfg, db, w, at)
    case DoRegister(w, s, capacity, capabilities, began, at) => Register(db, w, s, capacity, capabilities, began, at)
    case DoHeartbeat(w, s, at) => Heartbeat(db, w, s, at)
    case DoDrain(w, at) => Drain(db, w)
  }

  /** What request validation and the environment guarantee of an action: a clock that never
      goes back, fresh UUIDs, well-formed bodies. */
  predicate Plausible(db: Database, a: Action, now: real) {
    && Ordered(a.at) && now <= a.at.first
    && match a {
         case DoSubmit(_, def, id, _) => DefinitionOk(def) && id !in db.jobs
         case DoClaim(_, _, _, _, t, _, _) => t !in db.attempts
         case DoFinish(_, _, _, _, output, error, _, jitter, _) => output.Some? != error.Some? && JitterOk(jitter)
         case DoExpire(_, jitter, _) => JitterOk(jitter)
         case DoRegister(_, _, _, _, began, at) => began <= at.first
         case _ => true
       }
  }

  datatype State = State(db: Database, clock: real)

  ghost predicate Next(cfg: Config, s: State, a: Action, s': State) {
    && Plausible(s.db, a, s.clock)
    && Refers(s.db, Decide(cfg, s.db, a).effect)
    && s' == State(Apply(s.db, Decide(cfg, s.db, a).effect), a.at.fourth)
  }

  /** A run visits `states` by performing `actions`. */
  ghost predicate Run(cfg: Config, states: seq<State>, actions: seq<Action>) {
    && ConfigOk(cfg)
    && |states| == |actions| + 1
    && states[0].db == EMPTY
    && forall i :: 0 <= i < |actions| ==> Next(cfg, states[i], actions[i], states[i + 1])
  }

  ghost predicate Inv(cfg: Config, db: Database, now: real) {
    && JobsOk(db) && AttemptsOk(db)
    && FencesUnique(db) && FencesCover(db)
    && ResultsOk(db) && ClaimsUnique(db) && SlotsUnique(db) && KeysUnique(db)
    && DependsOk(db) && ClockOk(db, now)
    && TimesOk(cfg, db, now)
    && LogOk(db)
    && AdmissionOk(cfg, db)
    && WorkersOk(cfg, db, now)
  }

  lemma InvKept(cfg: Config, db: Database, e: Effect, now: real, later: real)
    requires Inv(cfg, db, now) && Guard(cfg, db, e, now, later)
    ensures Refers(db, e) && Inv(cfg, Apply(db, e), later)
  {
    JobsKept(cfg, db, e, now, later);
    AttemptsKept(cfg, db, e, now, later);
    FencesKept(cfg, db, e, now, later);
    ResultsKept(cfg, db, e, now, later);
    ClaimsKept(cfg, db, e, now, later);
    SlotsKept(cfg, db, e, now, later);
    KeysKept(cfg, db, e, now, later);
    DependsKept(cfg, db, e, now, later);
    ClockKept(cfg, db, e, now, later);
    TimesKept(cfg, db, e, now, later);
    LogKept(cfg, db, e, now, later);
    AdmissionKept(cfg, db, e, now, later);
    WorkersKept(cfg, db, e, now, later);
  }

  lemma InitOk(cfg: Config, now: real)
    ensures Inv(cfg, EMPTY, now)
  {
    assert ActiveJobs(EMPTY) == {};
    forall from: real ensures CreatedWithin(EMPTY, from) == {} {
    }
    assert SpentJobs(EMPTY) == {};
    forall s: Status ensures TerminalTotalOk(EMPTY, s) {
      assert InStatus(EMPTY, s) == {};
    }
  }

  // Each operation commits only what its guard allows

  lemma AdmitGuarded(cfg: Config, db: Database, key: Option<string>, def: Definition, id: JobId, at: Readings,
                     now: real)
    requires Ordered(at) && now <= at.first && DefinitionOk(def) && id !in db.jobs
    ensures Guard(cfg, db, Admit(cfg, db, key, def, id, at).effect, now, at.fourth)
  {
  }

  lemma ClaimGuarded(cfg: Config, db: Database, w: WorkerId, slot: int, claimId: Option<ClaimId>, freshClaim: ClaimId,
                     token: Token, locked: set<JobId>, at: Readings, now: real)
    requires Ordered(at) && now <= at.first && token !in db.attempts
    requires claimId.None? ==> forall t :: !HasClaim(db, freshClaim, t)
    ensures Guard(cfg, db, Claim(cfg, db, w, slot, claimId, freshClaim, token, locked, at).effect, now, at.fourth)
  {
    var d := Claim(cfg, db, w, slot, claimId, freshClaim, token, locked, at);
    if d.effect.AddAttempt? {
      var j := d.effect.attempt.jobId;
      assert j in Candidates(db, db.workers[w].capabilities, at.first, locked);
      assert Eligible(db, db.workers[w].capabilities, at.first, j);
    }
  }

  lemma StartGuarded(cfg: Config, db: Database, j: JobId, w: WorkerId, t: Token, at: Readings, now: real)
    requires Ordered(at) && now <= at.first
    ensures Guard(cfg, db, Start(db, j, w, t, at).effect, now, at.fourth)
  {
  }

  lemma RenewGuarded(cfg: Config, db: Database, j: JobId, w: WorkerId, t: Token, at: Readings, now: real)
    requires Ordered(at) && now <= at.first
    ensures Guard(cfg, db, Renew(cfg, db, j, w, t, at).effect, now, at.fourth)
  {
  }

  lemma FinishGuarded(cfg: Config, db: Database, j: JobId, w: WorkerId, t: Token, output: Option<Json>,
                      error: Option<string>,
                      retryable: bool, jitter: real, at: Readings, now: real)
    requires JobsOk(db) && Ordered(at) && now <= at.first && output.Some? != error.Some? && JitterOk(jitter)
    ensures Guard(cfg, db, Finish(db, j, w, t, output, error, retryable, jitter, at).effect, now, at.fourth)
  {
    if j in db.jobs {
      assert JobOk(db.jobs[j]);
      RetryDelayBounds(db.jobs[j].def, db.jobs[j].attemptCount, jitter);
    }
  }

  lemma ExpireGuarded(cfg: Config, db: Database, j: JobId, jitter: real, at: Readings, now: real)
    requires JobsOk(db) && AttemptsOk(db) && Ordered(at) && now <= at.first && JitterOk(jitter)
    ensures Guard(cfg, db, Expire(db, j, jitter, at).effect, now, at.fourth)
  {
    var d := Expire(db, j, jitter, at);
    if d.effect.EndAttempt? {
      assert AttemptRowOk(db, d.effect.token) && JobOk(db.jobs[j]);
      RetryDelayBounds(db.jobs[j].def, db.jobs[j].attemptCount, jitter);
    }
  }

  lemma WorkerGuarded(cfg: Config, db: Database, a: Action, now: real)
    requires ConfigOk(cfg) && ClockOk(db, now) && Plausible(db, a, now)
    requires a.DoDetect? || a.DoRegister? || a.DoHeartbeat? || a.DoDrain?
    ensures Guard(cfg, db, Decide(cfg, db, a).effect, now, a.at.fourth)
  {
  }

  lemma ActionGuarded(cfg: Config, db: Database, a: Action, now: real)
    requires ConfigOk(cfg) && JobsOk(db) && AttemptsOk(db) && ClockOk(db, now) && Plausible(db, a, now)
    ensures Guard(cfg, db, Decide(cfg, db, a).effect, now, a.at.fourth)
  {
    match a
    case DoSubmit(key, def, id, at) => AdmitGuarded(cfg, db, key, def, id, at, now);
    case DoClaim(w, s, slot, c, t, locked, at) => ClaimGuarded(cfg, db, w, slot, Some(c), c, t, locked, at, now);
    case DoStart(j, w, s, t, at) => StartGuarded(cfg, db, j, w, t, at, now);
    case DoRenew(j, w, s, t, at) => RenewGuarded(cfg, db, j, w, t, at, now);
    case DoFinish(j, w, s, t, output, error, retryable, jitter, at) =>
      FinishGuarded(cfg, db, j, w, t, output, error, retryable, jitter, at, now);
    case DoCancel(j, at) =>
    case DoExpire(j, jitter, at) => ExpireGuarded(cfg, db, j, jitter, at, now);
    case DoCancelChild(j, at) =>
    case _ => WorkerGuarded(cfg, db, a, now);
  }

  lemma StepInvariant(cfg: Config, s: State, a: Action, s': State)
    requires ConfigOk(cfg) && Inv(cfg, s.db, s.clock) && Next(cfg, s, a, s')
    ensures Inv(cfg, s'.db, s'.clock)
  {
    ActionGuarded(cfg, s.db, a, s.clock);
    InvKept(cfg, s.db, Decide(cfg, s.db, a).effect, s.clock, a.at.fourth);
  }

  /** The invariant holds in every state of every run. */
  lemma {:induction false} RunInvariant(cfg: Config, states: seq<State>, actions: seq<Action>, i: nat)
    requires Run(cfg, states, actions) && i < |states|
    ensures Inv(cfg, states[i].db, states[i].clock)
  {
    if i == 0 {
      InitOk(cfg, states[0].clock);
    } else {
      var k := i - 1;
      RunInvariant(cfg, states, actions, k);
      assert Next(cfg, states[k], actions[k], states[k + 1]);
      StepInvariant(cfg, states[k], actions[k], states[k + 1]);
    }
  }

  // Parts of it, for proofs that need no more

  lemma RunJobs(cfg: Config, states: seq<State>, actions: seq<Action>, i: nat)
    requires Run(cfg, states, actions) && i < |states|
    ensures JobsOk(states[i].db) && DependsOk(states[i].db)
  {
    RunInvariant(cfg, states, actions, i);
  }

  lemma RunLog(cfg: Config, states: seq<State>, actions: seq<Action>, i: nat)
    requires Run(cfg, states, actions) && i < |states|
    ensures LogOk(states[i].db)
  {
    RunInvariant(cfg, states, actions, i);
  }

  lemma RunTables(cfg: Config, states: seq<State>, actions: seq<Action>, i: nat)
    requires Run(cfg, states, actions) && i < |states|
    ensures JobsOk(states[i].db) && AttemptsOk(states[i].db) && ClockOk(states[i].db, states[i].clock)
    ensures FencesUnique(states[i].db) && FencesCover(states[i].db) && ResultsOk(states[i].db)
    ensures ClaimsUnique(states[i].db) && SlotsUnique(states[i].db) && KeysUnique(states[i].db)
  {
    RunInvariant(cfg, states, actions, i);
  }

  lemma RunTimes(cfg: Config, states: seq<State>, actions: seq<Action>, i: nat)
    requires Run(cfg, states, actions) && i < |states|
    ensures ClockOk(states[i].db, states[i].clock) && TimesOk(cfg, states[i].db, states[i].clock)
  {
    RunInvariant(cfg, states, actions, i);
  }

  lemma RunLimits(cfg: Config, states: seq<State>, actions: seq<Action>, i: nat)
    requires Run(cfg, states, actions) && i < |states|
    ensures AdmissionOk(cfg, states[i].db)
  {
    RunInvariant(cfg, states, actions, i);
  }

  lemma RunWorkers(cfg: Config, states: seq<State>, actions: seq<Action>, i: nat)
    requires Run(cfg, states, actions) && i < |states|
    ensures SlotsUnique(states[i].db) && WorkersOk(cfg, states[i].db, states[i].clock)
  {
    RunInvariant(cfg, states, actions, i);
  }

  // Longer runs

  lemma RunExtended(cfg: Config, states: seq<State>, actions: seq<Action>, a: Action, s': State)
    requires Run(cfg, states, actions) && Next(cfg, states[|actions|], a, s')
    ensures Run(cfg, states + [s'], actions + [a])
  {
  }

  /** Every plausible action can be the next one: no request, sweep row or detection row is ever
      stuck on a missing row. */
  lemma RunContinues(cfg: Config, states: seq<State>, actions: seq<Action>, a: Action) returns (s': State)
    requires Run(cfg, states, actions) && Plausible(states[|actions|].db, a, states[|actions|].clock)
    ensures Next(cfg, states[|actions|], a, s') && Run(cfg, states + [s'], actions + [a])
  {
    var s := states[|actions|];
    RunTables(cfg, states, actions, |actions|);
    ActionGuarded(cfg, s.db, a, s.clock);
    GuardRefers(cfg, s.db, Decide(cfg, s.db, a).effect, s.clock, a.at.fourth);
    s' := State(Apply(s.db, Decide(cfg, s.db, a).effect), a.at.fourth);
    RunExtended(cfg, states, actions, a, s');
  }
}
