/**
 Worker identities over every run: drain intent, takeover, sessions, slots.
 */
module WorkerLifecycle {
  import opened Tables
  import opened Protocol
  import opened Operations
  import opened Invariant
  import opened Workers
  import opened Runs
  import opened History

  /** Drain intent is only ever masked by DEAD; DEAD and SUSPECT mean the configured silence. */
  lemma StatesMeanSilence(cfg: Config, states: seq<State>, actions: seq<Action>, i: nat, w: WorkerId)
    requires Run(cfg, states, actions) && i < |states| && w in states[i].db.workers
    ensures var row := states[i].db.workers[w];
            && (row.drainRequested ==> row.state.Draining? || row.state.Dead?)
            && (row.state.Draining? ==> row.drainRequested)
            && (row.state.Dead? ==> row.lastSeen + cfg.deadAfter <= states[i].clock)
            && (row.state.Suspect? ==> row.lastSeen + cfg.suspectAfter < states[i].clock)
  {
    RunWorkers(cfg, states, actions, i);
    assert WorkerRowOk(cfg, states[i].db.workers[w], states[i].clock);
  }

  /** A step that creates an attempt creates it for a healthy worker. */
  lemma NewAttemptNeedsHealth(cfg: Config, s: State, a: Action, s': State, t: Token)
    requires Next(cfg, s, a, s') && t in s'.db.attempts && t !in s.db.attempts
    ensures var row := s'.db.attempts[t];
            && a.DoClaim? && row.workerId == a.worker && Authorized(s.db, a.worker, a.session)
            && s.db.workers[a.worker].state.Healthy? && row.epoch == s.db.workers[a.worker].epoch
  {
  }

  /** A drain lasts until the identity is taken over: from then on the worker is never
      HEALTHY or SUSPECT, and no new attempt is created for it. */
  lemma {:induction false} DrainHolds(cfg: Config, states: seq<State>, actions: seq<Action>, i: nat, k: nat,
                                      w: WorkerId)
    requires Run(cfg, states, actions) && i <= k < |states|
    requires w in states[i].db.workers && states[i].db.workers[w].drainRequested
    requires w in states[k].db.workers && states[k].db.workers[w].epoch == states[i].db.workers[w].epoch
    ensures states[k].db.workers[w].state.Draining? || states[k].db.workers[w].state.Dead?
    ensures forall t :: t in states[k].db.attempts && states[k].db.attempts[t].workerId == w ==>
              t in states[i].db.attempts
    decreases k
  {
    RunWorkers(cfg, states, actions, k);
    RunEvolves(cfg, states, actions, i, k);
    assert WorkerRowOk(cfg, states[k].db.workers[w], states[k].clock);
    if i < k {
      var m := k - 1;
      RunEvolves(cfg, states, actions, i, m);
      RunEvolves(cfg, states, actions, m, k);
      DrainHolds(cfg, states, actions, i, m, w);
      assert Next(cfg, states[m], actions[m], states[m + 1]);
      forall t | t in states[k].db.attempts && states[k].db.attempts[t].workerId == w
        ensures t in states[i].db.attempts
      {
        if t !in states[m].db.attempts {
          NewAttemptNeedsHealth(cfg, states[m], actions[m], states[m + 1], t);
        } else {
          assert AttemptEvolves(states[m].db.attempts[t], states[k].db.attempts[t]);
        }
      }
    }
  }

  /** A session is replaced only when its worker is DEAD, hence only after the configured
      silence; and the new registration starts with a clean slate. */
  lemma ReplacedOnlyWhenDead(cfg: Config, states: seq<State>, actions: seq<Action>, i: nat, w: WorkerId)
    requires Run(cfg, states, actions) && i < |actions| && w in states[i].db.workers
    ensures w in states[i + 1].db.workers
    ensures var was, now := states[i].db.workers[w], states[i + 1].db.workers[w];
            now.session != was.session || now.epoch != was.epoch || now.capacity != was.capacity ==>
              && was.state.Dead?
              && was.lastSeen + cfg.deadAfter <= states[i].clock
              && now.state.Healthy? && !now.drainRequested
              && actions[i].DoRegister? && actions[i].worker == w
              && now.session == actions[i].session != was.session
  {
    RunWorkers(cfg, states, actions, i);
    assert WorkerRowOk(cfg, states[i].db.workers[w], states[i].clock);
    assert Next(cfg, states[i], actions[i], states[i + 1]);
    ReplacedByRegistration(cfg, states[i], actions[i], states[i + 1], w);
  }

  /** Who writes worker rows. */
  lemma WritesOwnRow(cfg: Config, db: Database, a: Action)
    requires Decide(cfg, db, a).effect.PutWorker?
    ensures a.DoDetect? || a.DoRegister? || a.DoHeartbeat? || a.DoDrain?
    ensures Decide(cfg, db, a).effect.workerId == a.worker
  {
  }

  lemma ReplacedByRegistration(cfg: Config, s: State, a: Action, s': State, w: WorkerId)
    requires Next(cfg, s, a, s') && w in s.db.workers
    ensures w in s'.db.workers
    ensures var was, now := s.db.workers[w], s'.db.workers[w];
            now.session != was.session || now.epoch != was.epoch || now.capacity != was.capacity ==>
              && was.state.Dead?
              && now.state.Healthy? && !now.drainRequested
              && a.DoRegister? && a.worker == w && now.session == a.session != was.session
  {
    if Decide(cfg, s.db, a).effect.PutWorker? {
      WritesOwnRow(cfg, s.db, a);
    } else {
      assert s'.db.workers == s.db.workers;
    }
  }

  /** The requests that carry a worker session. */
  predicate CarriesSession(a: Action) {
    a.DoClaim? || a.DoStart? || a.DoRenew? || a.DoFinish? || a.DoHeartbeat? || a.DoRegister?
  }

  /** In this step session `s` of `w` registers anew, and finds the identity dead after the
      configured silence. */
  predicate Reclaims(cfg: Config, before: State, a: Action, w: WorkerId, s: Session) {
    && a.DoRegister? && a.worker == w && a.session == s
    && w in before.db.workers && before.db.workers[w].state.Dead?
    && before.db.workers[w].lastSeen + cfg.deadAfter <= before.clock
  }

  /** A replaced session stays replaced until it reclaims the identity. */
  lemma {:induction false} StaysReplaced(cfg: Config, states: seq<State>, actions: seq<Action>, i: nat, k: nat,
                                         w: WorkerId, s: Session)
    requires Run(cfg, states, actions) && i <= k < |states|
    requires w in states[i].db.workers && states[i].db.workers[w].session != s
    requires forall m :: i <= m < k ==> !Reclaims(cfg, states[m], actions[m], w, s)
    ensures w in states[k].db.workers && states[k].db.workers[w].session != s
    decreases k
  {
    if i < k {
      StaysReplaced(cfg, states, actions, i, k - 1, w, s);
      ReplacedOnlyWhenDead(cfg, states, actions, k - 1, w);
    }
  }

  /** After a takeover no request of the old session changes any row, in any later state: it is
      refused as unauthorized, and even a new registration is refused while the identity is
      alive. Only the identity's death after the configured silence lets it back in. */
  lemma OldSessionIsInert(cfg: Config, states: seq<State>, actions: seq<Action>, i: nat, k: nat, a: Action)
    requires Run(cfg, states, actions) && i <= k < |states| && CarriesSession(a)
    requires a.worker in states[i].db.workers && states[i].db.workers[a.worker].session != a.session
    requires forall m :: i <= m < k ==> !Reclaims(cfg, states[m], actions[m], a.worker, a.session)
    ensures !a.DoRegister? ==> Decide(cfg, states[k].db, a) == Reject(Unauthorized)
    ensures a.DoRegister? ==>
              Decide(cfg, states[k].db, a) == Reject(Conflict) || Reclaims(cfg, states[k], a, a.worker, a.session)
  {
    StaysReplaced(cfg, states, actions, i, k, a.worker, a.session);
    RunWorkers(cfg, states, actions, k);
    assert WorkerRowOk(cfg, states[k].db.workers[a.worker], states[k].clock);
  }

  // Exactly what each worker request writes

  /** The step leaves everything but the row of `w` alone. */
  predicate WritesOnly(db: Database, db': Database, w: WorkerId) {
    w in db'.workers && db' == db.(workers := db.workers[w := db'.workers[w]])
  }

  /** A registration inserts a new identity, revives a dead one that the same process holds,
      hands a dead one to a new process with that process's capacity and capabilities, and
      refuses exactly the identities of other processes that are alive. */
  lemma RegisterExact(cfg: Config, s: State, a: Action, s': State)
    requires Next(cfg, s, a, s') && a.DoRegister?
    ensures var reply := Decide(cfg, s.db, a).reply;
            var was := if a.worker in s.db.workers then Some(s.db.workers[a.worker]) else None;
            && (reply == Rejected(Conflict) <==> was.Some? && was.value.session != a.session && was.value.state != Dead)
            && (reply == Done <==> reply != Rejected(Conflict))
            && (reply == Rejected(Conflict) ==> s'.db == s.db)
            && (was.None? ==>
                  && WritesOnly(s.db, s'.db, a.worker)
                  && s'.db.workers[a.worker]
                     == Worker(Healthy, a.capacity, a.capabilities, a.session, false, a.began, 0))
            && (was.Some? && was.value.session == a.session ==>
                  && WritesOnly(s.db, s'.db, a.worker)
                  && s'.db.workers[a.worker]
                     == if was.value.state != Dead then was.value
                        else if was.value.drainRequested then was.value.(state := Draining, lastSeen := a.at.first)
                        else was.value.(state := Healthy, lastSeen := a.at.first))
            && (was.Some? && was.value.session != a.session && was.value.state == Dead ==>
                  && WritesOnly(s.db, s'.db, a.worker)
                  && s'.db.workers[a.worker]
                     == Worker(Healthy, a.capacity, a.capabilities, a.session, false, a.at.first, was.value.epoch + 1))
  {
  }

  /** A heartbeat under the current session always counts: it refreshes last seen, brings a
      SUSPECT or DEAD worker back, and answers DRAINING exactly while a drain is requested. */
  lemma HeartbeatExact(cfg: Config, s: State, a: Action, s': State)
    requires Next(cfg, s, a, s') && a.DoHeartbeat?
    ensures var reply := Decide(cfg, s.db, a).reply;
            if a.worker in s.db.workers && s.db.workers[a.worker].session == a.session then
              var was := s.db.workers[a.worker];
              var state := if was.drainRequested then Draining else Healthy;
              && reply == WorkerIs(state)
              && s'.db == s.db.(workers := s.db.workers[a.worker := was.(state := state, lastSeen := a.at.first)])
            else reply == Rejected(Unauthorized) && s'.db == s.db
  {
  }

  /** A drain is recorded exactly on workers that exist and are not DEAD. */
  lemma DrainExact(cfg: Config, s: State, a: Action, s': State)
    requires Next(cfg, s, a, s') && a.DoDrain?
    ensures var reply := Decide(cfg, s.db, a).reply;
            if a.worker !in s.db.workers then reply == Rejected(Missing) && s'.db == s.db
            else
              var was := s.db.workers[a.worker];
              if was.state == Dead then reply == Rejected(Conflict) && s'.db == s.db
              else
                && reply == WorkerIs(Draining)
                && s'.db == s.db.(workers := s.db.workers[a.worker := was.(state := Draining, drainRequested := true)])
  {
  }

  /** Unfinished attempts of the current registration occupy distinct slots below its
      capacity, so there are never more of them than slots. */
  lemma CapacityHolds(cfg: Config, states: seq<State>, actions: seq<Action>, i: nat, w: WorkerId)
    requires Run(cfg, states, actions) && i < |states| && w in states[i].db.workers
    ensures |HeldBy(states[i].db, w)| <= states[i].db.workers[w].capacity
  {
    RunWorkers(cfg, states, actions, i);
    WithinCapacity(cfg, states[i].db, states[i].clock, w);
  }

  /** The rows an effect inserts collide with no unique column or partial unique index. */
  ghost predicate InsertsFresh(db: Database, e: Effect)
    requires Refers(db, e)
  {
    match e
    case AddJob(id, job) => id !in db.jobs && forall j :: !KeyTaken(db, job.key, j)
    case AddAttempt(t, a, _) =>
      && t !in db.attempts
      && forall u :: !HasClaim(db, a.claimId, u) && !HoldsSlot(db, a.workerId, a.slot, u) && !HoldsJob(db, a.jobId, u)
    case EndAttempt(t, end, _) => !end.status.RetryWait? ==> db.attempts[t].jobId !in db.results
    case _ => true
  }

  lemma EffectInsertsFresh(cfg: Config, db: Database, e: Effect, now: real, later: real)
    requires AttemptsOk(db) && ResultsOk(db) && Guard(cfg, db, e, now, later)
    ensures Refers(db, e) && InsertsFresh(db, e)
  {
  }

  /** No run ever violates a unique column: active slot, active job, claim, key, result. */
  lemma IndexesNeverViolated(cfg: Config, states: seq<State>, actions: seq<Action>, i: nat)
    requires Run(cfg, states, actions) && i < |actions|
    ensures Refers(states[i].db, Decide(cfg, states[i].db, actions[i]).effect)
    ensures InsertsFresh(states[i].db, Decide(cfg, states[i].db, actions[i]).effect)
  {
    RunTables(cfg, states, actions, i);
    assert Next(cfg, states[i], actions[i], states[i + 1]);
    ActionGuarded(cfg, states[i].db, actions[i], states[i].clock);
    var effect := Decide(cfg, states[i].db, actions[i]).effect;
    EffectInsertsFresh(cfg, states[i].db, effect, states[i].clock, actions[i].at.fourth);
  }
}
