/**
 The transactional operations as they run: statement by statement against mutable tables.

 Clock readings, fresh UUIDs, rows locked elsewhere and the random jitter factor are
 parameters. `Service` holds the statements of one transaction; `Coordinator` adds the
 commit boundary, where the invariant holds and each request is one step of a run.
 */
module Store {
  import opened Tables
  import opened Protocol
  import opened Scheduler
  import opened Operations
  import opened Invariant
  import opened Runs
  import opened Recovery

  class Service {
    const cfg: Config
    var jobs: map<JobId, Job>
    var attempts: map<Token, Attempt>
    var results: map<JobId, ResultRow>
    var workers: map<WorkerId, Worker>
    var events: seq<Event>

    function View(): Database
      reads this
    {
      Database(jobs, attempts, results, workers, events)
    }

    /** Answered `reply` and made exactly the change `d` to the tables `before`. */
    ghost predicate Answers(before: Database, d: Decision, reply: Reply)
      reads this
    {
      reply == d.reply && Refers(before, d.effect) && View() == Apply(before, d.effect)
    }

    constructor (cfg: Config)
      ensures this.cfg == cfg && View() == EMPTY
    {
      this.cfg := cfg;
      jobs, attempts, results, workers, events := map[], map[], map[], map[], [];
    }

    /** A change the transition table allows is written and logged; any other is refused. */
    method Transition(id: JobId, next: Status, t: real) returns (ok: bool)
      requires id in jobs
      modifies this`jobs, this`events
      ensures ok <==> next in Allowed(old(jobs)[id].status)
      ensures ok ==> View() == Move(old(View()), id, old(jobs)[id].(status := next, updatedAt := t))
      ensures !ok ==> View() == old(View())
    {
      if next !in Allowed(jobs[id].status) {
        return false;
      }
      jobs := jobs[id := jobs[id].(status := next, updatedAt := t)];
      events := events + [Event(id, Entered(next))];
      return true;
    }

    method Admit(key: Option<string>, def: Definition, id: JobId, at: Readings) returns (reply: Reply)
      requires KeysUnique(View())
      modifies this
      ensures Answers(old(View()), Operations.Admit(cfg, old(View()), key, def, id, at), reply)
    {
      ghost var before := View();
      if j: JobId :| j in jobs && key.Some? && jobs[j].key == key {
        assert KeyTaken(before, key, j);
        assert forall k: JobId :: KeyTaken(before, key, k) ==> k == j;
        return if jobs[j].def != def then Rejected(Conflict) else Accepted(j, false);
      }
      assert forall j: JobId :: !KeyTaken(before, key, j);
      var count := |ActiveJobs(View())|;
      var rate := |CreatedSince(View(), at.first - 60.0)|;
      if count >= cfg.queueLimit || rate >= cfg.submissionsPerMinute {
        return Rejected(Saturated);
      }
      if def.dependsOn.Some? {
        if def.dependsOn.value !in jobs {
          return Rejected(Invalid);
        }
        if Broken(jobs[def.dependsOn.value].status) {
          return Rejected(Conflict);
        }
      }
      var available := if def.scheduledAt.Some? then def.scheduledAt.value else at.first;
      jobs := jobs[id := Job(def, key, Queued, 0, available, at.first, at.first, |jobs|)];
      events := events + [Event(id, Submitted), Event(id, Entered(Queued))];
      return Accepted(id, true);
    }

    /** The attempt with this claim ID, as its unique column finds it. */
    method FindClaim(c: ClaimId) returns (r: Option<Token>)
      requires ClaimsUnique(View())
      ensures r.Some? ==> forall t: Token :: HasClaim(View(), c, t) <==> r == Some(t)
      ensures r.None? ==> forall t: Token :: !HasClaim(View(), c, t)
    {
      if t: Token :| t in attempts && attempts[t].claimId == c {
        assert HasClaim(View(), c, t);
        r := Some(t);
      } else {
        r := None;
      }
    }

    /** The unfinished attempt in this slot, as its partial unique index finds it. */
    method FindHolder(w: WorkerId, slot: int) returns (r: Option<Token>)
      requires SlotsUnique(View())
      ensures r.Some? ==> forall t: Token :: HoldsSlot(View(), w, slot, t) <==> r == Some(t)
      ensures r.None? ==> forall t: Token :: !HoldsSlot(View(), w, slot, t)
    {
      if t: Token :| t in attempts && HoldsSlot(View(), w, slot, t) {
        r := Some(t);
      } else {
        r := None;
      }
    }

    method Claim(w: WorkerId, slot: int, claimId: Option<ClaimId>, freshClaim: ClaimId, token: Token,
                 locked: set<JobId>, at: Readings) returns (reply: Reply)
      requires ClaimsUnique(View()) && SlotsUnique(View())
      modifies this
      ensures Answers(old(View()),
                      Operations.Claim(cfg, old(View()), w, slot, claimId, freshClaim, token, locked, at), reply)
    {
      ghost var before := View();
      if w !in workers {
        return Rejected(Missing);
      }
      if slot < 0 || slot >= workers[w].capacity {
        return Rejected(Invalid);
      }
      if claimId.Some? {
        var known := FindClaim(claimId.value);
        if known.Some? {
          assert HasClaim(before, claimId.value, known.value);
          reply := Replayed(w, slot, known.value);
          return;
        }
      }
      var holder := FindHolder(w, slot);
      if holder.Some? {
        assert HoldsSlot(before, w, slot, holder.value);
        var a := attempts[holder.value];
        if claimId.Some? && a.claimId != claimId.value {
          return Rejected(Conflict);
        }
        return if a.jobId !in jobs then Rejected(Missing) else Assigned(a.jobId, holder.value);
      }
      reply := ClaimNew(w, slot, if claimId.Some? then claimId.value else freshClaim, token, locked, at);
    }

    /** New work for a free slot. */
    method ClaimNew(w: WorkerId, slot: int, c: ClaimId, token: Token, locked: set<JobId>, at: Readings)
      returns (reply: Reply)
      requires w in workers
      modifies this
      ensures Answers(old(View()), Operations.ClaimNew(cfg, old(View()), w, slot, c, token, locked, at), reply)
    {
      if !workers[w].state.Healthy? {
        return NoWork;
      }
      var head := SelectHead(workers[w].capabilities, at.first, locked);
      if head.None? {
        return NoWork;
      }
      assert head.value in Candidates(View(), workers[w].capabilities, at.first, locked);
      Lease(head.value, w, slot, c, token, at);
      return Assigned(head.value, token);
    }

    /** The scheduler's query, limited to one row. */
    method SelectHead(capabilities: set<string>, now: real, locked: set<JobId>) returns (r: Option<JobId>)
      ensures r == Head(cfg.policy, View(), capabilities, now, locked)
    {
      var pool := Candidates(View(), capabilities, now, locked);
      if j: JobId :| j in pool && forall k :: k in pool && k != j ==> Before(cfg.policy, View(), j, k) {
        assert First(cfg.policy, View(), pool, j);
        r := Some(j);
      } else {
        if pool != {} {
          FirstExists(cfg.policy, View(), pool);
        }
        r := None;
      }
    }

    /** A known claim ID, presented again. */
    method Replayed(w: WorkerId, slot: int, t: Token) returns (reply: Reply)
      requires t in attempts
      ensures reply == if attempts[t].workerId != w || attempts[t].slot != slot then Rejected(Conflict)
                       else if attempts[t].finishedAt.Some? then Rejected(Conflict)
                       else if attempts[t].jobId !in jobs then Rejected(Missing)
                       else Assigned(attempts[t].jobId, t)
    {
      var existing := attempts[t];
      if existing.workerId != w || existing.slot != slot {
        return Rejected(Conflict);
      }
      if existing.finishedAt.Some? {
        return Rejected(Conflict);
      }
      return if existing.jobId !in jobs then Rejected(Missing) else Assigned(existing.jobId, t);
    }

    /** The writes of a successful claim. */
    method Lease(j: JobId, w: WorkerId, slot: int, c: ClaimId, token: Token, at: Readings)
      requires j in jobs && w in workers && Waiting(jobs[j].status)
      modifies this
      ensures View() == Apply(old(View()),
                AddAttempt(token, NewAttempt(cfg, old(View()), j, w, slot, c, at.first), at.second))
    {
      jobs := jobs[j := jobs[j].(attemptCount := jobs[j].attemptCount + 1)];
      var attempt := Attempt(j, w, slot, c, jobs[j].attemptCount, at.first + cfg.lease,
                             None, None, None, None, None, at.first, workers[w].epoch);
      attempts := attempts[token := attempt];
      var ok := Transition(j, Leased, at.second);
      assert ok;
    }

    /** The fencing check: no failure exactly when the worker holds this assignment at time
        `now`, or, for a completion, when its attempt is finished. */
    method CheckOwned(j: JobId, w: WorkerId, t: Token, allowFinished: bool, now: real) returns (r: Option<Failure>)
      ensures r.None? <==>
                && j in jobs && Belongs(View(), j, w, t)
                && (Current(View(), j, t, now) || (allowFinished && attempts[t].finishedAt.Some?))
      ensures r.Some? ==> r.value == if j in jobs then Conflict else Missing
    {
      if j !in jobs {
        return Some(Missing);
      }
      if t !in attempts || attempts[t].jobId != j || attempts[t].workerId != w {
        return Some(Conflict);
      }
      if allowFinished && attempts[t].finishedAt.Some? {
        return None;
      }
      if attempts[t].finishedAt.Some? || attempts[t].fence != jobs[j].attemptCount || attempts[t].expiresAt <= now {
        return Some(Conflict);
      }
      return None;
    }

    method Start(j: JobId, w: WorkerId, t: Token, at: Readings) returns (reply: Reply)
      modifies this
      ensures Answers(old(View()), Operations.Start(old(View()), j, w, t, at), reply)
    {
      var refused := CheckOwned(j, w, t, false, at.first);
      if refused.Some? {
        return Rejected(refused.value);
      }
      if jobs[j].status.Running? {
        return Done;
      }
      if !jobs[j].status.Leased? {
        return Rejected(Conflict);
      }
      attempts := attempts[t := attempts[t].(startedAt := Some(at.second))];
      var ok := Transition(j, Running, at.third);
      assert ok;
      return Done;
    }

    method Renew(j: JobId, w: WorkerId, t: Token, at: Readings) returns (reply: Reply)
      modifies this
      ensures Answers(old(View()), Operations.Renew(cfg, old(View()), j, w, t, at), reply)
    {
      var refused := CheckOwned(j, w, t, false, at.first);
      if refused.Some? {
        return Rejected(refused.value);
      }
      if attempts[t].startedAt.None? {
        return Rejected(Conflict);
      }
      var expiry := Min(at.second + cfg.lease, attempts[t].startedAt.value + (jobs[j].def.timeout + 5.0));
      if expiry <= at.second {
        return Rejected(Conflict);
      }
      attempts := attempts[t := attempts[t].(expiresAt := expiry)];
      return Renewed(expiry);
    }

    /** Ends an attempt with an error: retry, dead letter or permanent failure. */
    method FailAttempt(t: Token, error: string, retryable: bool, outcome: Outcome, jitter: real,
                       finishedAt: real, now: real)
      requires t in attempts && attempts[t].jobId in jobs && attempts[t].output.None?
      requires Owned(jobs[attempts[t].jobId].status)
      requires retryable || jobs[attempts[t].jobId].status.Running?
      modifies this
      ensures View() == Apply(old(View()),
                Operations.FailAttempt(old(jobs)[old(attempts)[t].jobId], t, error, retryable, outcome, jitter,
                                       finishedAt, now))
    {
      var j := attempts[t].jobId;
      ghost var before := View();
      ghost var job := jobs[j];
      attempts := attempts[t := attempts[t].(finishedAt := Some(finishedAt), outcome := Some(outcome),
                                             error := Some(error))];
      if retryable && jobs[j].attemptCount <= jobs[j].def.maxRetries {
        var delay := BaseDelay(jobs[j].def, jobs[j].attemptCount);
        if jobs[j].def.retryJitter {
          delay := delay * jitter;
        }
        jobs := jobs[j := jobs[j].(availableAt := finishedAt + delay)];
        var ok := Transition(j, RetryWait, now);
        assert ok;
      } else {
        var ok := Transition(j, if retryable then DeadLetter else Failed, now);
        assert ok;
        results := results[j := ResultRow(None, Some(error))];
        assert job.(availableAt := job.availableAt) == job;
      }
    }

    method Finish(j: JobId, w: WorkerId, t: Token, output: Option<Json>, error: Option<string>,
                  retryable: bool, jitter: real, at: Readings) returns (reply: Reply)
      requires forall u :: Unfinished(View(), u) ==> attempts[u].output.None? && attempts[u].error.None?
      modifies this
      ensures Answers(old(View()), Operations.Finish(old(View()), j, w, t, output, error, retryable, jitter, at), reply)
    {
      var refused := CheckOwned(j, w, t, true, at.first);
      if refused.Some? {
        return Rejected(refused.value);
      }
      if attempts[t].finishedAt.Some? {
        return if SameCompletion(attempts[t], output, error) then Done else Rejected(Conflict);
      }
      assert Unfinished(View(), t);
      if attempts[t].fence != jobs[j].attemptCount || attempts[t].expiresAt <= at.second {
        return Rejected(Conflict);
      }
      if !jobs[j].status.Running? {
        return Rejected(Conflict);
      }
      if error.Some? {
        FailAttempt(t, error.value, retryable, Errored, jitter, at.third, at.fourth);
      } else {
        attempts := attempts[t := attempts[t].(output := output, outcome := Some(Completed),
                                               finishedAt := Some(at.third))];
        results := results[j := ResultRow(output, None)];
        var ok := Transition(j, Succeeded, at.fourth);
        assert ok;
      }
      return Done;
    }

    method Cancel(j: JobId, at: Readings) returns (reply: Reply)
      modifies this
      ensures Answers(old(View()), Operations.Cancel(old(View()), j, at), reply)
    {
      if j !in jobs {
        return Rejected(Missing);
      }
      if jobs[j].status.Cancelled? {
        return Done;
      }
      if !Waiting(jobs[j].status) {
        return Rejected(Conflict);
      }
      var ok := Transition(j, Cancelled, at.first);
      assert ok;
      return Done;
    }

    /** One row of the expiry loop: the unfinished attempt is looked up and its lease rechecked. */
    method ExpireLease(j: JobId, jitter: real, at: Readings) returns (reply: Reply)
      requires AttemptsOk(View()) && FencesUnique(View())
      modifies this
      ensures Answers(old(View()), Operations.Expire(old(View()), j, jitter, at), reply)
    {
      ghost var before := View();
      if t: Token :| t in attempts && HoldsJob(View(), j, t) {
        assert AttemptRowOk(before, t);
        OneHolder(before, j, t);
        if attempts[t].expiresAt <= at.first {
          FailAttempt(t, LEASE_EXPIRED_ERROR, true, LeaseExpired, jitter, at.second, at.third);
        }
      }
      return Done;
    }

    lemma OneHolder(db: Database, j: JobId, t: Token)
      requires AttemptsOk(db) && FencesUnique(db) && HoldsJob(db, j, t)
      ensures forall u: Token :: HoldsJob(db, j, u) ==> u == t
    {
    }

    /** A row of the dependants loop as a step of its own; the check is what the loop's query
        has established of the row it locked. */
    method CancelBlocked(j: JobId, at: Readings) returns (reply: Reply)
      modifies this
      ensures Answers(old(View()), Operations.CancelChild(old(View()), j, at), reply)
    {
      if Blocked(View(), j) {
        var ok := Transition(j, Cancelled, at.first);
        assert ok;
      }
      return Done;
    }

    /** One row of worker failure detection. */
    method DetectWorker(w: WorkerId, at: Readings) returns (reply: Reply)
      modifies this
      ensures Answers(old(View()), Operations.Detect(cfg, old(View()), w, at), reply)
    {
      if w in workers && !workers[w].state.Dead? && workers[w].lastSeen < at.first - cfg.suspectAfter {
        var state := if at.first - workers[w].lastSeen >= cfg.deadAfter then Dead else Suspect;
        if !(workers[w].state.Draining? && state.Suspect?) && workers[w].state != state {
          workers := workers[w := workers[w].(state := state)];
        }
      }
      return Done;
    }

    /** The detection loop: every worker row that is not locked gets its turn. */
    method DetectWorkers(locked: set<WorkerId>, t: real) returns (visited: seq<WorkerId>)
      modifies this
      ensures forall w :: w in visited <==> w in old(workers) && w !in locked
      ensures View() == DetectRows(cfg, old(View()), visited, t)
    {
      ghost var before := View();
      visited := [];
      var pending := workers.Keys - locked;
      while pending != {}
        invariant forall w :: w in before.workers && w !in locked <==> w in visited || w in pending
        invariant View() == DetectRows(cfg, before, visited, t)
        decreases pending
      {
        var w :| w in pending;
        assert Init(visited + [w]) == visited;
        var _ := DetectWorker(w, Readings(t, t, t, t));
        visited, pending := visited + [w], pending - {w};
      }
    }

    method Register(w: WorkerId, session: Session, capacity: nat, capabilities: set<string>, began: real, at: Readings)
      returns (reply: Reply)
      modifies this
      ensures Answers(old(View()),
                      Operations.Register(old(View()), w, session, capacity, capabilities, began, at), reply)
    {
      if w !in workers {
        workers := workers[w := Worker(Healthy, capacity, capabilities, session, false, began, 0)];
        return Done;
      }
      var record := workers[w];
      if record.session == session {
        if record.state.Dead? {
          record := record.(lastSeen := at.first);
          record := record.(state := if record.drainRequested then Draining else Healthy);
          workers := workers[w := record];
        }
        return Done;
      }
      if !record.state.Dead? {
        return Rejected(Conflict);
      }
      record := record.(session := session, capacity := capacity, capabilities := capabilities);
      record := record.(state := Healthy, lastSeen := at.first, drainRequested := false, epoch := record.epoch + 1);
      workers := workers[w := record];
      return Done;
    }

    method Heartbeat(w: WorkerId, session: Session, at: Readings) returns (reply: Reply)
      modifies this
      ensures Answers(old(View()), Operations.Heartbeat(old(View()), w, session, at), reply)
    {
      if !Authorized(View(), w, session) {
        return Rejected(Unauthorized);
      }
      var record := workers[w].(lastSeen := at.first);
      record := record.(state := if record.drainRequested then Draining else Healthy);
      workers := workers[w := record];
      return WorkerIs(record.state);
    }

    method Drain(w: WorkerId) returns (reply: Reply)
      modifies this
      ensures Answers(old(View()), Operations.Drain(old(View()), w), reply)
    {
      if w !in workers {
        return Rejected(Missing);
      }
      if workers[w].state.Dead? {
        return Rejected(Conflict);
      }
      if !workers[w].state.Draining? {
        workers := workers[w := workers[w].(state := Draining)];
      }
      workers := workers[w := workers[w].(drainRequested := true)];
      return WorkerIs(workers[w].state);
    }
  }

  /** What a query with a limit returns: members of the pool, each once, as many as there are
      up to the limit; paired with the turns its rows will get. */
  method Select(pool: set<JobId>, limit: nat, ticks: seq<Tick>, ghost now: real) returns (v: seq<Visit>)
    requires limit <= |ticks| && TicksOk(ticks, now)
    ensures Selects(v, pool, limit)
    ensures InTurn(v, now) && now <= ClockAfter(v, now) <= EndOf(ticks, now)
    ensures Uses(v, ticks)
  {
    v := [];
    var rest := pool;
    while |v| < limit && rest != {}
      invariant |v| <= limit && Selecting(v, pool, rest, ticks, now) && Uses(v, ticks)
      decreases rest
    {
      var j :| j in rest;
      SelectNext(v, pool, rest, ticks, now, j);
      v, rest := v + [Visit(j, ticks[|v|])], rest - {j};
    }
    TicksPrefix(ticks, |v|, now);
  }

  /** `rest` is what the query has yet to choose from. */
  ghost predicate Selecting(v: seq<Visit>, pool: set<JobId>, rest: set<JobId>, ticks: seq<Tick>, now: real) {
    && |v| <= |ticks| && |v| + |rest| == |pool|
    && Distinct(v) && Visited(v) + rest == pool && Visited(v) !! rest
    && InTurn(v, now) && ClockAfter(v, now) == EndOf(ticks[..|v|], now)
  }

  lemma SelectNext(v: seq<Visit>, pool: set<JobId>, rest: set<JobId>, ticks: seq<Tick>, now: real, j: JobId)
    requires Selecting(v, pool, rest, ticks, now) && j in rest && |v| < |ticks| && TicksOk(ticks, now)
    ensures Selecting(v + [Visit(j, ticks[|v|])], pool, rest - {j}, ticks, now)
  {
  }

  class Coordinator {
    const service: Service
    /** The latest clock reading of any committed transaction. */
    ghost var clock: real
    /** What has happened so far. */
    ghost var states: seq<State>
    ghost var actions: seq<Action>

    ghost function Now(): State
      reads this, service
    {
      State(service.View(), clock)
    }

    /** The tables are the last state of a run, so every theorem about runs applies to them. */
    ghost predicate Valid()
      reads this, service
    {
      Run(service.cfg, states, actions) && states[|actions|] == Now()
    }

    constructor (cfg: Config, ghost start: real)
      requires ConfigOk(cfg)
      ensures Valid() && fresh(service) && service.cfg == cfg && Now() == State(EMPTY, start) && actions == []
    {
      service := new Service(cfg);
      clock, states, actions := start, [State(EMPTY, start)], [];
    }

    /** What the statements of a transaction rely on. */
    ghost predicate Relies(db: Database) {
      && KeysUnique(db) && ClaimsUnique(db) && SlotsUnique(db) && AttemptsOk(db) && FencesUnique(db)
      && forall u :: Unfinished(db, u) ==> db.attempts[u].output.None? && db.attempts[u].error.None?
    }

    lemma RunRelies(cfg: Config, states: seq<State>, actions: seq<Action>)
      requires Run(cfg, states, actions)
      ensures Relies(states[|actions|].db)
    {
      RunTables(cfg, states, actions, |actions|);
    }

    /** One request, in one transaction: worker requests are checked against the session under
        the worker row lock, then served. */
    method Handle(a: Action) returns (reply: Reply)
      requires Valid() && Plausible(service.View(), a, clock)
      modifies this, service
      ensures Valid() && actions == old(actions) + [a]
      ensures reply == Decide(service.cfg, old(service.View()), a).reply
    {
      RunRelies(service.cfg, states, actions);
      reply := Serve(a);
      clock := a.at.fourth;
      RunExtended(service.cfg, states, actions, a, Now());
      states, actions := states + [Now()], actions + [a];
    }

    method Serve(a: Action) returns (reply: Reply)
      requires Relies(service.View())
      modifies service
      ensures service.Answers(old(service.View()), Decide(service.cfg, old(service.View()), a), reply)
    {
      if (a.DoClaim? || a.DoStart? || a.DoRenew? || a.DoFinish?) && !Authorized(service.View(), a.worker, a.session) {
        return Rejected(Unauthorized);
      }
      match a
      case DoSubmit(key, def, id, at) => reply := service.Admit(key, def, id, at);
      case DoClaim(w, s, slot, c, t, locked, at) => reply := service.Claim(w, slot, Some(c), c, t, locked, at);
      case DoStart(j, w, s, t, at) => reply := service.Start(j, w, t, at);
      case DoRenew(j, w, s, t, at) => reply := service.Renew(j, w, t, at);
      case DoFinish(j, w, s, t, output, error, retryable, jitter, at) =>
        reply := service.Finish(j, w, t, output, error, retryable, jitter, at);
      case DoCancel(j, at) => reply := service.Cancel(j, at);
      case DoExpire(j, jitter, at) => reply := service.ExpireLease(j, jitter, at);
      case DoCancelChild(j, at) => reply := service.CancelBlocked(j, at);
      case DoDetect(w, at) => reply := service.DetectWorker(w, at);
      case DoRegister(w, s, capacity, capabilities, began, at) =>
        reply := service.Register(w, s, capacity, capabilities, began, at);
      case DoHeartbeat(w, s, at) => reply := service.Heartbeat(w, s, at);
      case DoDrain(w, at) => reply := service.Drain(w);
    }

    /** The expiry loop over candidates that may be stale by the time of their turn. */
    method ExpireLoop(v: seq<Visit>)
      requires Valid() && InTurn(v, clock)
      modifies service
      ensures service.View() == ExpireRows(old(service.View()), v)
    {
      CoreHolds(service.cfg, states, actions);
      ghost var before := service.View();
      for i := 0 to |v|
        invariant service.View() == ExpireRows(before, v[..i]) && InTurn(v, clock)
      {
        assert Init(v[..i + 1]) == v[..i];
        InTurnPrefix(v, i, clock);
        ExpireRowsCore(service.cfg, before, v[..i], clock);
        var _ := service.ExpireLease(v[i].job, v[i].tick.jitter, v[i].tick.at);
      }
      assert v[..|v|] == v;
    }

    /** The dependants loop cancels every row its query selected, unconditionally: an illegal
        transition would abort the whole sweep, and none occurs. */
    method CancelLoop(v: seq<Visit>)
      requires Distinct(v) && Visited(v) <= BlockedJobs(service.View())
      modifies service
      ensures service.View() == CancelRows(old(service.View()), v)
    {
      ghost var before := service.View();
      for i := 0 to |v|
        invariant service.View() == CancelRows(before, v[..i])
      {
        StillBlocked(before, v, i);
        assert Init(v[..i + 1]) == v[..i];
        var ok := service.Transition(v[i].job, Cancelled, v[i].tick.at.first);
        assert ok;
      }
      assert v[..|v|] == v;
    }

    /** Expired leases first, then dependants, each as its own query finds them. Only the
        coordinator that got the sweep's advisory lock works; the others do nothing. */
    method SweepRows(elected: bool, limit: nat, held: set<JobId>, kept: set<JobId>, t: real,
                     first: seq<Tick>, second: seq<Tick>)
      returns (expired: seq<Visit>, blocked: seq<Visit>)
      requires Valid() && limit <= |first| && limit <= |second|
      requires TicksOk(first, clock) && TicksOk(second, EndOf(first, clock))
      modifies service
      ensures Swept(old(service.View()), service.View(), elected, limit, held, kept, t, expired, blocked)
      ensures InTurn(expired, clock) && InTurn(blocked, ClockAfter(expired, clock))
      ensures Uses(expired, first) && Uses(blocked, second)
    {
      if !elected {
        return [], [];
      }
      var pool := ExpiredJobs(service.View(), t) - held;
      expired := Select(pool, limit, first, clock);
      ExpireLoop(expired);
      pool := BlockedJobs(service.View()) - kept;
      blocked := Select(pool, limit, second, EndOf(first, clock));
      CancelLoop(blocked);
      InTurnEarlier(blocked, EndOf(first, clock), ClockAfter(expired, clock));
    }

    /** One sweep, in one transaction that either commits all its rows or none. `held` and `kept`
        are the rows that other transactions hold at each query. Returns the rows it visited. */
    method RecoverJobs(elected: bool, limit: nat, held: set<JobId>, kept: set<JobId>, t: real,
                       first: seq<Tick>, second: seq<Tick>)
      returns (expired: seq<Visit>, blocked: seq<Visit>)
      requires Valid() && limit <= |first| && limit <= |second|
      requires TicksOk(first, clock) && TicksOk(second, EndOf(first, clock))
      modifies this, service
      ensures Valid() && actions == old(actions) + ExpireActions(expired) + CancelActions(blocked)
      ensures Swept(old(service.View()), service.View(), elected, limit, held, kept, t, expired, blocked)
      ensures InTurn(expired, old(clock)) && InTurn(blocked, ClockAfter(expired, old(clock)))
      ensures Uses(expired, first) && Uses(blocked, second)
    {
      ghost var before := service.View();
      expired, blocked := SweepRows(elected, limit, held, kept, t, first, second);
      Log(before, expired, blocked);
    }

    /** The rows of a sweep, entered in the history. */
    ghost method Log(before: Database, expired: seq<Visit>, blocked: seq<Visit>)
      requires Run(service.cfg, states, actions) && states[|actions|] == State(before, clock)
      requires service.View() == CancelRows(ExpireRows(before, expired), blocked)
      requires InTurn(expired, clock) && InTurn(blocked, ClockAfter(expired, clock))
      modifies this
      ensures Valid() && actions == old(actions) + ExpireActions(expired) + CancelActions(blocked)
    {
      states := SweepRun(service.cfg, states, actions, expired, blocked);
      clock := ClockAfter(blocked, ClockAfter(expired, clock));
      actions := actions + ExpireActions(expired) + CancelActions(blocked);
    }

    /** Failure detection at one clock reading, over every worker row that is not locked. */
    method DetectWorkers(locked: set<WorkerId>, t: real) returns (visited: seq<WorkerId>)
      requires Valid() && clock <= t
      modifies this, service
      ensures Valid() && actions == old(actions) + DetectActions(visited, t)
      ensures forall w :: w in visited <==> w in old(service.workers) && w !in locked
      ensures service.View() == DetectRows(service.cfg, old(service.View()), visited, t)
    {
      visited := service.DetectWorkers(locked, t);
      states := DetectRun(service.cfg, states, actions, visited, t);
      clock := if visited == [] then clock else t;
      actions := actions + DetectActions(visited, t);
    }

    lemma CoreHolds(cfg: Config, states: seq<State>, actions: seq<Action>)
      requires Run(cfg, states, actions)
      ensures CoreOk(states[|actions|].db, states[|actions|].clock)
    {
      RunTables(cfg, states, actions, |actions|);
      RunJobs(cfg, states, actions, |actions|);
    }
  }
}
