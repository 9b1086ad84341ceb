/**
 Ownership, fencing and replay of completions, over every run.
 */
module Ownership {
  import opened Tables
  import opened Protocol
  import opened Operations
  import opened Invariant
  import opened Timing
  import opened Runs
  import opened History

  /** The attempts of `j` that still own it. */
  function Holders(db: Database, j: JobId): (r: set<Token>) {
    set t | t in db.attempts && HoldsJob(db, j, t)
  }

  ghost predicate OwnershipExact(db: Database, j: JobId)
    requires j in db.jobs
  {
    var job := db.jobs[j];
    && |Holders(db, j)| == (if Owned(job.status) then 1 else 0)
    && (forall t :: t in Holders(db, j) ==>
          db.attempts[t].fence == job.attemptCount && (db.attempts[t].startedAt.Some? <==> job.status.Running?))
    && (forall k: nat :: HasFence(db, j, k) <==> 1 <= k <= job.attemptCount)
    && (forall t :: t in db.attempts && db.attempts[t].jobId == j && db.attempts[t].fence < job.attemptCount ==>
          db.attempts[t].finishedAt.Some?)
  }

  lemma HoldersExact(db: Database, j: JobId)
    requires AttemptsOk(db) && FencesUnique(db) && FencesCover(db) && JobsOk(db) && j in db.jobs
    ensures OwnershipExact(db, j)
  {
    var job := db.jobs[j];
    assert JobOk(job);
    forall t | t in db.attempts ensures AttemptRowOk(db, t) {
    }
    if Owned(job.status) {
      assert HasFence(db, j, job.attemptCount);
      var t :| t in db.attempts && db.attempts[t].jobId == j && db.attempts[t].fence == job.attemptCount;
      assert Holders(db, j) == {t};
    } else {
      assert Holders(db, j) == {};
    }
  }

  /** In every reachable state a job is LEASED or RUNNING exactly when one attempt is
      unfinished; that attempt carries the highest fence and has started exactly when the
      job is RUNNING; the fences are exactly 1..attempt_count; older attempts are finished. */
  lemma OneOwner(cfg: Config, states: seq<State>, actions: seq<Action>, i: nat, j: JobId)
    requires Run(cfg, states, actions) && i < |states| && j in states[i].db.jobs
    ensures OwnershipExact(states[i].db, j)
  {
    RunTables(cfg, states, actions, i);
    HoldersExact(states[i].db, j);
  }

  /** The token an action presents, if it presents one. */
  function Presents(a: Action): Option<Token> {
    match a
    case DoStart(_, _, _, t, _) => Some(t)
    case DoRenew(_, _, _, t, _) => Some(t)
    case DoFinish(_, _, _, t, _, _, _, _, _) => Some(t)
    case _ => None
  }

  /** Fencing: a finished attempt keeps its row for ever, and from then on its token
      changes nothing, whatever request carries it. */
  lemma FinishedIsFenced(cfg: Config, states: seq<State>, actions: seq<Action>, i: nat, k: nat, t: Token, a: Action)
    requires Run(cfg, states, actions) && i <= k < |states|
    requires t in states[i].db.attempts && states[i].db.attempts[t].finishedAt.Some?
    requires Presents(a) == Some(t)
    ensures t in states[k].db.attempts && states[k].db.attempts[t] == states[i].db.attempts[t]
    ensures Decide(cfg, states[k].db, a).effect == NoEffect
    ensures !a.DoFinish? ==> Decide(cfg, states[k].db, a).reply.Rejected?
  {
    RunEvolves(cfg, states, actions, i, k);
    assert AttemptEvolves(states[i].db.attempts[t], states[k].db.attempts[t]);
  }

  /** At most one attempt of a job ever succeeds; it carries the highest fence, and the
      job's result row is what it recorded. */
  lemma OneSuccess(cfg: Config, states: seq<State>, actions: seq<Action>, i: nat, k: nat, t: Token, u: Token)
    requires Run(cfg, states, actions) && i <= k < |states|
    requires t in states[i].db.attempts && states[i].db.attempts[t].outcome == Some(Completed)
    ensures t in states[k].db.attempts
    ensures var db := states[k].db;
            var a := db.attempts[t];
            && a == states[i].db.attempts[t]
            && a.jobId in db.jobs && db.jobs[a.jobId].status.Succeeded?
            && a.fence == db.jobs[a.jobId].attemptCount
            && a.jobId in db.results && db.results[a.jobId] == ResultRow(a.output, None)
            && (u in db.attempts && db.attempts[u].jobId == a.jobId && u != t ==>
                  db.attempts[u].fence < a.fence && db.attempts[u].outcome != Some(Completed))
  {
    RunTables(cfg, states, actions, i);
    RunTables(cfg, states, actions, k);
    RunEvolves(cfg, states, actions, i, k);
    SuccessIsLast(states[i].db, t, t);
    SuccessIsLast(states[k].db, t, u);
  }

  lemma SuccessIsLast(db: Database, t: Token, u: Token)
    requires AttemptsOk(db) && FencesUnique(db) && ResultsOk(db)
    requires t in db.attempts && db.attempts[t].outcome == Some(Completed)
    ensures var a := db.attempts[t];
            && a.finishedAt.Some?
            && a.jobId in db.jobs && db.jobs[a.jobId].status.Succeeded?
            && a.fence == db.jobs[a.jobId].attemptCount
            && a.jobId in db.results && db.results[a.jobId] == ResultRow(a.output, None)
            && (u in db.attempts && db.attempts[u].jobId == a.jobId && u != t ==>
                  db.attempts[u].fence < a.fence && db.attempts[u].outcome != Some(Completed))
  {
  }

  /** Every result row equals what the last attempt of its job recorded, and never changes. */
  lemma ResultIsLastRecord(cfg: Config, states: seq<State>, actions: seq<Action>, i: nat, k: nat, j: JobId)
    requires Run(cfg, states, actions) && i <= k < |states| && j in states[i].db.results
    ensures j in states[k].db.results && states[k].db.results[j] == states[i].db.results[j]
    ensures j in states[k].db.jobs
    ensures exists t :: && t in states[k].db.attempts && states[k].db.attempts[t].jobId == j
                        && states[k].db.attempts[t].fence == states[k].db.jobs[j].attemptCount
                        && states[k].db.results[j]
                           == ResultRow(states[k].db.attempts[t].output, states[k].db.attempts[t].error)
  {
    RunTables(cfg, states, actions, k);
    RunEvolves(cfg, states, actions, i, k);
    LastRecord(states[k].db, j);
  }

  lemma LastRecord(db: Database, j: JobId)
    requires JobsOk(db) && FencesCover(db) && ResultsOk(db) && j in db.results
    ensures j in db.jobs
    ensures exists t :: && t in db.attempts && db.attempts[t].jobId == j
                        && db.attempts[t].fence == db.jobs[j].attemptCount
                        && db.results[j] == ResultRow(db.attempts[t].output, db.attempts[t].error)
  {
    assert ResultRowOk(db, j) && JobOk(db.jobs[j]);
    assert HasFence(db, j, db.jobs[j].attemptCount);
    var t :| t in db.attempts && db.attempts[t].jobId == j && db.attempts[t].fence == db.jobs[j].attemptCount;
    assert RecordedOk(db, t);
  }

  // Replaying a completion

  /** The `i`-th action recorded a completion: it was accepted and it ended the attempt. */
  ghost predicate Records(cfg: Config, states: seq<State>, actions: seq<Action>, i: nat)
    requires |states| == |actions| + 1 && i < |actions|
  {
    actions[i].DoFinish? && Decide(cfg, states[i].db, actions[i]).effect.EndAttempt?
  }

  lemma RecordedRow(cfg: Config, s: State, a: Action, s': State)
    requires Next(cfg, s, a, s') && a.DoFinish? && Decide(cfg, s.db, a).effect.EndAttempt?
    ensures a.token in s'.db.attempts && a.job in s'.db.jobs
    ensures Belongs(s'.db, a.job, a.worker, a.token)
    ensures s'.db.attempts[a.token].finishedAt.Some?
    ensures SameCompletion(s'.db.attempts[a.token], a.output, a.error)
  {
  }

  /** An acknowledged completion is on record, now and for ever: whoever is told so may forget
      the result. */
  lemma AcknowledgedIsRecorded(cfg: Config, states: seq<State>, actions: seq<Action>, i: nat, k: nat)
    requires Run(cfg, states, actions) && i < |actions| && i < k < |states|
    requires actions[i].DoFinish? && Decide(cfg, states[i].db, actions[i]).reply == Done
    ensures var a := actions[i];
            && a.token in states[k].db.attempts && states[k].db.attempts[a.token].finishedAt.Some?
            && SameCompletion(states[k].db.attempts[a.token], a.output, a.error)
  {
    var a := actions[i];
    assert Next(cfg, states[i], a, states[i + 1]);
    AcknowledgedRow(cfg, states[i], a, states[i + 1]);
    RunEvolves(cfg, states, actions, i + 1, k);
    assert AttemptEvolves(states[i + 1].db.attempts[a.token], states[k].db.attempts[a.token]);
  }

  lemma AcknowledgedRow(cfg: Config, s: State, a: Action, s': State)
    requires Next(cfg, s, a, s') && a.DoFinish? && Decide(cfg, s.db, a).reply == Done
    ensures a.token in s'.db.attempts && s'.db.attempts[a.token].finishedAt.Some?
    ensures SameCompletion(s'.db.attempts[a.token], a.output, a.error)
  {
  }

  /** Once a successful completion is recorded, the job is SUCCEEDED and its result row is that
      output in every later state. */
  lemma CompletionIsDurable(cfg: Config, states: seq<State>, actions: seq<Action>, i: nat, k: nat)
    requires Run(cfg, states, actions) && i < k < |states|
    requires Records(cfg, states, actions, i) && actions[i].output.Some?
    ensures var j := actions[i].job;
            && j in states[k].db.jobs && states[k].db.jobs[j].status.Succeeded?
            && j in states[k].db.results && states[k].db.results[j] == ResultRow(actions[i].output, None)
  {
    var a := actions[i];
    assert Next(cfg, states[i], a, states[i + 1]);
    RecordedRow(cfg, states[i], a, states[i + 1]);
    SuccessRow(cfg, states[i], a, states[i + 1]);
    OneSuccess(cfg, states, actions, i + 1, k, a.token, a.token);
  }

  lemma SuccessRow(cfg: Config, s: State, a: Action, s': State)
    requires Next(cfg, s, a, s') && a.DoFinish? && Decide(cfg, s.db, a).effect.EndAttempt? && a.output.Some?
    ensures a.token in s'.db.attempts && s'.db.attempts[a.token].outcome == Some(Completed)
    ensures s'.db.attempts[a.token].output == a.output && s'.db.attempts[a.token].jobId == a.job
  {
  }

  /** A recorded completion is acknowledged for ever: the same payload for the same token is
      a no-op in every later state, whatever the retryable flag and however many attempts
      came since; any other payload is refused. */
  lemma ReplayStable(cfg: Config, states: seq<State>, actions: seq<Action>, i: nat, k: nat,
                     output: Option<Json>, error: Option<string>, retryable: bool, jitter: real, at: Readings)
    requires Run(cfg, states, actions) && i < k < |states| && Records(cfg, states, actions, i)
    ensures var a := actions[i];
            Finish(states[k].db, a.job, a.worker, a.token, output, error, retryable, jitter, at)
            == if output == a.output && error == a.error then Decision(NoEffect, Done) else Reject(Conflict)
  {
    var a := actions[i];
    assert Next(cfg, states[i], a, states[i + 1]);
    RecordedRow(cfg, states[i], a, states[i + 1]);
    RunEvolves(cfg, states, actions, i + 1, k);
    assert AttemptEvolves(states[i + 1].db.attempts[a.token], states[k].db.attempts[a.token]);
  }

  lemma ExpiredRefused(cfg: Config, db: Database, a: Action)
    requires a.DoFinish? && a.token in db.attempts
    requires db.attempts[a.token].finishedAt.Some? && db.attempts[a.token].outcome == Some(LeaseExpired)
    ensures Decide(cfg, db, a).reply.Rejected?
  {
  }

  /** No completion of an attempt whose lease expired is ever accepted. */
  lemma ExpiredNeverCompletes(cfg: Config, states: seq<State>, actions: seq<Action>, i: nat, k: nat, t: Token,
                              a: Action)
    requires Run(cfg, states, actions) && i <= k < |states|
    requires t in states[i].db.attempts && states[i].db.attempts[t].outcome == Some(LeaseExpired)
    requires a.DoFinish? && a.token == t
    ensures Decide(cfg, states[k].db, a).reply.Rejected?
  {
    RunTables(cfg, states, actions, i);
    assert AttemptRowOk(states[i].db, t);
    RunEvolves(cfg, states, actions, i, k);
    assert AttemptEvolves(states[i].db.attempts[t], states[k].db.attempts[t]);
    ExpiredRefused(cfg, states[k].db, a);
  }

  // Bounded ownership

  /** The lease of `t` ends by its bound, and `a` is refused at or after it unless it repeats
      a completion that is already recorded. */
  ghost predicate Bounded(cfg: Config, db: Database, t: Token, a: Action)
    requires t in db.attempts && db.attempts[t].jobId in db.jobs
  {
    var row := db.attempts[t];
    var bound := OwnershipBound(cfg, db.jobs[row.jobId], row);
    && row.expiresAt <= bound
    && (row.startedAt.None? ==> row.expiresAt == row.claimedAt + cfg.lease)
    && (bound <= a.at.first && !(a.DoFinish? && row.finishedAt.Some?) ==> Decide(cfg, db, a).reply.Rejected?)
  }

  lemma LateRefused(cfg: Config, db: Database, t: Token, a: Action)
    requires t in db.attempts && db.attempts[t].jobId in db.jobs && LeaseRowOk(cfg, db, t)
    requires Presents(a) == Some(t)
    ensures Bounded(cfg, db, t, a)
  {
  }

  /** However often a lease is renewed, it ends by the bound; an unstarted one is never
      extended; and no start, renewal or first completion is accepted at or after it. */
  lemma OwnershipIsBounded(cfg: Config, states: seq<State>, actions: seq<Action>, i: nat, t: Token, a: Action)
    requires Run(cfg, states, actions) && i < |states| && t in states[i].db.attempts && Presents(a) == Some(t)
    ensures states[i].db.attempts[t].jobId in states[i].db.jobs && Bounded(cfg, states[i].db, t, a)
  {
    RunTimes(cfg, states, actions, i);
    assert LeaseRowOk(cfg, states[i].db, t);
    LateRefused(cfg, states[i].db, t, a);
  }

  /** Ownership intervals of one job never overlap, follow the fences, and lie at least the
      (jittered) retry delay apart. */
  lemma IntervalsAreDisjoint(cfg: Config, states: seq<State>, actions: seq<Action>, i: nat, t: Token, u: Token)
    requires Run(cfg, states, actions) && i < |states|
    requires t in states[i].db.attempts && u in states[i].db.attempts
    requires states[i].db.attempts[t].jobId == states[i].db.attempts[u].jobId
    requires states[i].db.attempts[t].fence < states[i].db.attempts[u].fence
    ensures states[i].db.attempts[t].jobId in states[i].db.jobs
    ensures var a, b := states[i].db.attempts[t], states[i].db.attempts[u];
            var job := states[i].db.jobs[a.jobId];
            && a.finishedAt.Some?
            && NotBefore(job, a.claimedAt)
            && a.claimedAt <= a.finishedAt.value <= b.claimedAt
            && (b.finishedAt.Some? ==> b.claimedAt <= b.finishedAt.value)
            && (b.fence == a.fence + 1 ==> a.finishedAt.value + LeastDelay(job.def, a.fence) <= b.claimedAt)
  {
    RunTimes(cfg, states, actions, i);
    assert LeaseRowOk(cfg, states[i].db, t) && Apart(states[i].db, t, u);
  }

  // Exactly when a request is accepted

  /** The session is current and the token is this worker's attempt at this job. */
  predicate Presented(db: Database, j: JobId, w: WorkerId, session: Session, t: Token) {
    Authorized(db, w, session) && Belongs(db, j, w, t)
  }

  /** In a sound state an unfinished attempt always carries the current fence, so a request of
      its holder is refused for nothing but the clock and the stage it is at. */
  lemma AcceptanceExact(cfg: Config, db: Database, a: Action)
    requires JobsOk(db) && AttemptsOk(db) && (a.DoStart? || a.DoRenew? || a.DoFinish?)
    ensures var ok := !Decide(cfg, db, a).reply.Rejected?;
            var mine := Presented(db, a.job, a.worker, a.session, a.token);
            match a {
              case DoStart(_, _, _, t, at) => ok <==>
                mine && db.attempts[t].finishedAt.None? && at.first < db.attempts[t].expiresAt
              case DoRenew(_, _, _, t, at) => ok <==>
                && mine && db.attempts[t].finishedAt.None? && at.first < db.attempts[t].expiresAt
                && db.attempts[t].startedAt.Some? && 0.0 < cfg.lease
                && at.second < db.attempts[t].startedAt.value + db.jobs[a.job].def.timeout + 5.0
              case DoFinish(_, _, _, t, output, error, _, _, at) => ok <==>
                mine && if db.attempts[t].finishedAt.Some? then SameCompletion(db.attempts[t], output, error)
                        else && at.first < db.attempts[t].expiresAt && at.second < db.attempts[t].expiresAt
                             && db.attempts[t].startedAt.Some?
              case _ => true
            }
  {
  }

  /** Over every run: what the holder of a live lease asks for is granted. */
  lemma HolderIsServed(cfg: Config, states: seq<State>, actions: seq<Action>, i: nat, a: Action)
    requires Run(cfg, states, actions) && i < |states| && (a.DoStart? || a.DoFinish?)
    requires Presented(states[i].db, a.job, a.worker, a.session, a.token)
    requires states[i].db.attempts[a.token].finishedAt.None? && Ordered(a.at)
    requires a.at.second < states[i].db.attempts[a.token].expiresAt
    requires a.DoFinish? ==> states[i].db.attempts[a.token].startedAt.Some?
    ensures Decide(cfg, states[i].db, a).reply == Done
    ensures a.DoFinish? ==> Decide(cfg, states[i].db, a).effect.EndAttempt?
  {
    RunTables(cfg, states, actions, i);
    AcceptanceExact(cfg, states[i].db, a);
  }

  // A lapsed lease, and a refused completion

  lemma LapsedStep(cfg: Config, s: State, a: Action, s': State, t: Token)
    requires ConfigOk(cfg) && JobsOk(s.db) && AttemptsOk(s.db) && ClockOk(s.db, s.clock) && Next(cfg, s, a, s')
    requires Unfinished(s.db, t) && s.db.attempts[t].expiresAt <= s.clock
    ensures t in s'.db.attempts && s'.db.attempts[t].expiresAt == s.db.attempts[t].expiresAt
    ensures s'.db.attempts[t].finishedAt.None? || s'.db.attempts[t].outcome == Some(LeaseExpired)
  {
    ActionGuarded(cfg, s.db, a, s.clock);
  }

  /** A lease that has run out is never revived: the attempt can only end as LEASE_EXPIRED. */
  lemma {:induction false} LapsedStays(cfg: Config, states: seq<State>, actions: seq<Action>, i: nat, k: nat, t: Token)
    requires Run(cfg, states, actions) && i <= k < |states|
    requires Unfinished(states[i].db, t) && states[i].db.attempts[t].expiresAt <= states[i].clock
    ensures t in states[k].db.attempts
    ensures states[k].db.attempts[t].expiresAt == states[i].db.attempts[t].expiresAt <= states[k].clock
    ensures states[k].db.attempts[t].finishedAt.None? || states[k].db.attempts[t].outcome == Some(LeaseExpired)
    decreases k
  {
    if i < k {
      var m := k - 1;
      LapsedStays(cfg, states, actions, i, m, t);
      RunEvolves(cfg, states, actions, m, k);
      assert AttemptEvolves(states[m].db.attempts[t], states[k].db.attempts[t]);
      if states[m].db.attempts[t].finishedAt.None? {
        RunTables(cfg, states, actions, m);
        assert Next(cfg, states[m], actions[m], states[m + 1]);
        LapsedStep(cfg, states[m], actions[m], states[m + 1], t);
      }
    }
  }

  /** The completion in `b` is the one in `a`. */
  predicate Repeats(a: Action, b: Action) {
    && a.DoFinish? && b.DoFinish? && b.job == a.job && b.worker == a.worker && b.token == a.token
    && b.output == a.output && b.error == a.error
  }

  /** Once a completion of a started attempt has been refused under a valid session, it is refused
      in every later state: whoever is told so loses nothing by dropping it. */
  lemma RefusalIsFinal(cfg: Config, states: seq<State>, actions: seq<Action>, i: nat, k: nat, b: Action)
    requires Run(cfg, states, actions) && i < |actions| && i < k < |states| && Repeats(actions[i], b)
    requires var r := Decide(cfg, states[i].db, actions[i]).reply; r.Rejected? && r.error != Unauthorized
    requires b.token in states[i].db.attempts && states[i].db.attempts[b.token].startedAt.Some?
    requires Ordered(b.at) && states[k].clock <= b.at.first
    ensures Decide(cfg, states[k].db, b).reply.Rejected?
  {
    var a, t := actions[i], b.token;
    assert Next(cfg, states[i], a, states[i + 1]);
    RunTables(cfg, states, actions, i);
    AcceptanceExact(cfg, states[i].db, a);
    RefusedUnchanged(cfg, states[i], a, states[i + 1]);
    RunEvolves(cfg, states, actions, i, k);
    assert AttemptEvolves(states[i].db.attempts[t], states[k].db.attempts[t]);
    if Belongs(states[i].db, a.job, a.worker, t) && states[i].db.attempts[t].finishedAt.None? {
      LapsedStays(cfg, states, actions, i + 1, k, t);
    }
    RunTables(cfg, states, actions, k);
    AcceptanceExact(cfg, states[k].db, b);
  }

  lemma RefusedUnchanged(cfg: Config, s: State, a: Action, s': State)
    requires Next(cfg, s, a, s') && a.DoFinish? && Decide(cfg, s.db, a).reply.Rejected?
    ensures s'.db == s.db && a.at.second <= s'.clock
    ensures Decide(cfg, s.db, a).reply.error != Unauthorized ==> Authorized(s.db, a.worker, a.session)
  {
  }
}
