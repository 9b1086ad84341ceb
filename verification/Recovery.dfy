/**
 The recovery sweep: expired leases first, then dependants of broken jobs, the
 rows of each as its own query finds them.
 */
module Recovery {
  import opened Tables
  import opened Protocol
  import opened Operations
  import opened Invariant
  import opened Admission
  import opened Dependencies
  import opened Runs

  /** The clock readings and the random factor of one row's turn. */
  datatype Tick = Tick(at: Readings, jitter: real)

  /** One row of a loop: the job and its turn. */
  datatype Visit = Visit(job: JobId, tick: Tick)

  function Last<T>(s: seq<T>): T
    requires s != []
  {
    s[|s| - 1]
  }

  function Init<T>(s: seq<T>): seq<T>
    requires s != []
  {
    s[..|s| - 1]
  }

  /** The clock after these turns. */
  function EndOf(ticks: seq<Tick>, now: real): real {
    if ticks == [] then now else Last(ticks).at.fourth
  }

  /** Turns follow each other on a clock that starts at `now`. */
  predicate TicksOk(ticks: seq<Tick>, now: real) {
    ticks == [] ||
    (&& TicksOk(Init(ticks), now)
     && EndOf(Init(ticks), now) <= Last(ticks).at.first
     && Ordered(Last(ticks).at) && JitterOk(Last(ticks).jitter))
  }

  function ClockAfter(v: seq<Visit>, now: real): real {
    if v == [] then now else Last(v).tick.at.fourth
  }

  predicate InTurn(v: seq<Visit>, now: real) {
    v == [] ||
    (&& InTurn(Init(v), now)
     && ClockAfter(Init(v), now) <= Last(v).tick.at.first
     && Ordered(Last(v).tick.at) && JitterOk(Last(v).tick.jitter))
  }

  function Visited(v: seq<Visit>): (r: set<JobId>) {
    if v == [] then {} else Visited(Init(v)) + {Last(v).job}
  }

  predicate Distinct(v: seq<Visit>) {
    v == [] || (Distinct(Init(v)) && Last(v).job !in Visited(Init(v)))
  }

  lemma {:induction false} TicksPrefix(ticks: seq<Tick>, k: nat, now: real)
    requires TicksOk(ticks, now) && k <= |ticks|
    ensures TicksOk(ticks[..k], now) && now <= EndOf(ticks[..k], now) <= EndOf(ticks, now)
  {
    if k == |ticks| {
      assert ticks[..k] == ticks;
      if ticks != [] {
        TicksPrefix(Init(ticks), k - 1, now);
        assert Init(ticks)[..k - 1] == Init(ticks);
      }
    } else {
      TicksPrefix(Init(ticks), k, now);
      assert Init(ticks)[..k] == ticks[..k];
    }
  }

  lemma {:induction false} InTurnPrefix(v: seq<Visit>, k: nat, now: real)
    requires InTurn(v, now) && k <= |v|
    ensures InTurn(v[..k], now)
  {
    if k == |v| {
      assert v[..k] == v;
    } else {
      InTurnPrefix(Init(v), k, now);
      assert Init(v)[..k] == v[..k];
    }
  }

  lemma {:induction false} InTurnEarlier(v: seq<Visit>, now: real, earlier: real)
    requires InTurn(v, now) && earlier <= now
    ensures InTurn(v, earlier) && earlier <= ClockAfter(v, earlier)
  {
    if v != [] {
      InTurnEarlier(Init(v), now, earlier);
    }
  }

  function After(db: Database, e: Effect): Database {
    if Refers(db, e) then Apply(db, e) else db
  }

  ghost function ExpireRow(db: Database, x: Visit): Database {
    After(db, Expire(db, x.job, x.tick.jitter, x.tick.at).effect)
  }

  /** The tables after the turns `v` of the expiry loop. */
  ghost function ExpireRows(db: Database, v: seq<Visit>): Database {
    if v == [] then db else ExpireRow(ExpireRows(db, Init(v)), Last(v))
  }

  function CancelRow(db: Database, x: Visit): Database {
    After(db, CancelChild(db, x.job, x.tick.at).effect)
  }

  /** The tables after the turns `v` of the dependants loop. */
  function CancelRows(db: Database, v: seq<Visit>): Database {
    if v == [] then db else CancelRow(CancelRows(db, Init(v)), Last(v))
  }

  // The loops as segments of a run

  function ExpireActions(v: seq<Visit>): seq<Action> {
    if v == [] then [] else ExpireActions(Init(v)) + [DoExpire(Last(v).job, Last(v).tick.jitter, Last(v).tick.at)]
  }

  function CancelActions(v: seq<Visit>): seq<Action> {
    if v == [] then [] else CancelActions(Init(v)) + [DoCancelChild(Last(v).job, Last(v).tick.at)]
  }

  function DetectActions(ids: seq<WorkerId>, t: real): seq<Action> {
    if ids == [] then [] else DetectActions(Init(ids), t) + [DoDetect(Last(ids), Readings(t, t, t, t))]
  }

  /** A loop of sweep rows continues any run by one step for each row. */
  lemma {:induction false} ExpireRun(cfg: Config, states: seq<State>, actions: seq<Action>, v: seq<Visit>)
    returns (longer: seq<State>)
    requires Run(cfg, states, actions) && InTurn(v, states[|actions|].clock)
    ensures states <= longer && Run(cfg, longer, actions + ExpireActions(v))
    ensures var s := states[|actions|];
            Last(longer) == State(ExpireRows(s.db, v), ClockAfter(v, s.clock))
  {
    longer := states;
    if v == [] {
      assert actions + [] == actions;
    } else {
      longer := ExpireRun(cfg, states, actions, Init(v));
      var done := actions + ExpireActions(Init(v));
      var a := DoExpire(Last(v).job, Last(v).tick.jitter, Last(v).tick.at);
      var s' := RunContinues(cfg, longer, done, a);
      longer := longer + [s'];
      assert done + [a] == actions + ExpireActions(v);
    }
  }

  lemma {:induction false} CancelRun(cfg: Config, states: seq<State>, actions: seq<Action>, v: seq<Visit>)
    returns (longer: seq<State>)
    requires Run(cfg, states, actions) && InTurn(v, states[|actions|].clock)
    ensures states <= longer && Run(cfg, longer, actions + CancelActions(v))
    ensures var s := states[|actions|];
            Last(longer) == State(CancelRows(s.db, v), ClockAfter(v, s.clock))
  {
    longer := states;
    if v == [] {
      assert actions + [] == actions;
    } else {
      longer := CancelRun(cfg, states, actions, Init(v));
      var done := actions + CancelActions(Init(v));
      var a := DoCancelChild(Last(v).job, Last(v).tick.at);
      var s' := RunContinues(cfg, longer, done, a);
      longer := longer + [s'];
      assert done + [a] == actions + CancelActions(v);
    }
  }

  /** A whole sweep continues any run by its rows, so whatever holds of every run holds of a
      coordinator that sweeps between requests. */
  lemma SweepRun(cfg: Config, states: seq<State>, actions: seq<Action>, expired: seq<Visit>, blocked: seq<Visit>)
    returns (longer: seq<State>)
    requires Run(cfg, states, actions) && InTurn(expired, states[|actions|].clock)
    requires InTurn(blocked, ClockAfter(expired, states[|actions|].clock))
    ensures states <= longer && Run(cfg, longer, actions + ExpireActions(expired) + CancelActions(blocked))
    ensures var s := states[|actions|];
            Last(longer) == State(CancelRows(ExpireRows(s.db, expired), blocked),
                                  ClockAfter(blocked, ClockAfter(expired, s.clock)))
  {
    var mid := ExpireRun(cfg, states, actions, expired);
    longer := CancelRun(cfg, mid, actions + ExpireActions(expired), blocked);
  }

  /** Failure detection continues any run by its rows. */
  lemma {:induction false} DetectRun(cfg: Config, states: seq<State>, actions: seq<Action>, ids: seq<WorkerId>, t: real)
    returns (longer: seq<State>)
    requires Run(cfg, states, actions) && states[|actions|].clock <= t
    ensures states <= longer && Run(cfg, longer, actions + DetectActions(ids, t))
    ensures var s := states[|actions|];
            Last(longer) == State(DetectRows(cfg, s.db, ids, t), if ids == [] then s.clock else t)
  {
    longer := states;
    if ids == [] {
      assert actions + [] == actions;
    } else {
      longer := DetectRun(cfg, states, actions, Init(ids), t);
      var done := actions + DetectActions(Init(ids), t);
      var a := DoDetect(Last(ids), Readings(t, t, t, t));
      var s' := RunContinues(cfg, longer, done, a);
      longer := longer + [s'];
      assert done + [a] == actions + DetectActions(ids, t);
    }
  }

  lemma {:induction false} ExpireRowsCore(cfg: Config, db: Database, v: seq<Visit>, now: real)
    requires CoreOk(db, now) && InTurn(v, now)
    ensures CoreOk(ExpireRows(db, v), ClockAfter(v, now))
  {
    if v != [] {
      var w, x := Init(v), Last(v);
      ExpireRowsCore(cfg, db, w, now);
      var mid := ExpireRows(db, w);
      ExpireGuarded(cfg, mid, x.job, x.tick.jitter, x.tick.at, ClockAfter(w, now));
      CoreKept(cfg, mid, Expire(mid, x.job, x.tick.jitter, x.tick.at).effect, ClockAfter(w, now), x.tick.at.fourth);
    }
  }

  // Worker failure detection

  function DetectRow(cfg: Config, db: Database, w: WorkerId, t: real): Database {
    After(db, Detect(cfg, db, w, Readings(t, t, t, t)).effect)
  }

  /** The tables after detection at time `t` has visited these workers. */
  function DetectRows(cfg: Config, db: Database, ids: seq<WorkerId>, t: real): Database {
    if ids == [] then db else DetectRow(cfg, DetectRows(cfg, db, Init(ids), t), Last(ids), t)
  }

  lemma {:induction false} DetectRowsApply(cfg: Config, db: Database, ids: seq<WorkerId>, t: real, w: WorkerId)
    requires ConfigOk(cfg) && w in db.workers
    ensures var db' := DetectRows(cfg, db, ids, t);
            && db' == db.(workers := db'.workers) && db'.workers.Keys == db.workers.Keys
            && db'.workers[w] == if w in ids then Detected(cfg, db.workers[w], t) else db.workers[w]
  {
    if ids != [] {
      DetectRowsApply(cfg, db, Init(ids), t, w);
      assert ids == Init(ids) + [Last(ids)];
    }
  }

  /** Detection touches only the states of the workers it visits, however often it visits them.
      Of those, exactly the ones silent for `deadAfter` or longer become DEAD; a HEALTHY one
      becomes SUSPECT exactly after a shorter silence of more than `suspectAfter`; a DRAINING one
      never does. */
  lemma DetectRowsExact(cfg: Config, db: Database, ids: seq<WorkerId>, t: real, w: WorkerId)
    requires ConfigOk(cfg) && w in db.workers
    ensures var db' := DetectRows(cfg, db, ids, t);
            && db' == db.(workers := db'.workers) && db'.workers.Keys == db.workers.Keys
            && var was, now := db.workers[w], db'.workers[w];
               && (w !in ids ==> now == was)
               && now == was.(state := now.state)
               && (w in ids ==>
                     && (now.state == Dead <==> was.state == Dead || t - was.lastSeen >= cfg.deadAfter)
                     && (now.state == Suspect <==>
                           now.state != Dead && (was.state == Suspect
                                                 || (was.state == Healthy && t - was.lastSeen > cfg.suspectAfter)))
                     && (now.state == Draining <==> now.state != Dead && was.state == Draining))
  {
    DetectRowsApply(cfg, db, ids, t, w);
  }

  // Any candidate list, however stale

  /** The only change an expiry sweep makes to an attempt: its lease had run out when it ended. */
  predicate ExpiredNow(was: Attempt, now: Attempt) {
    && was.finishedAt.None?
    && now.finishedAt.Some? && now.outcome == Some(LeaseExpired) && was.expiresAt <= now.finishedAt.value
    && now == was.(finishedAt := now.finishedAt, outcome := now.outcome, output := None,
                   error := Some(LEASE_EXPIRED_ERROR))
  }

  /** What an expiry sweep over the jobs `visited` may have done to the attempt `t`. */
  ghost predicate OnlyExpired(db: Database, db': Database, t: Token, visited: set<JobId>)
    requires t in db.attempts
  {
    && t in db'.attempts
    && (db'.attempts[t] == db.attempts[t]
        || (var j := db.attempts[t].jobId;
            && j in visited && ExpiredNow(db.attempts[t], db'.attempts[t])
            && j in db'.jobs && (db'.jobs[j].status.RetryWait? || db'.jobs[j].status.DeadLetter?)))
  }

  /** Nothing but rows of visited jobs has changed, and their rows only by ending an attempt. */
  ghost predicate OnlyVisited(db: Database, db': Database, visited: set<JobId>) {
    && db'.workers == db.workers && db'.jobs.Keys == db.jobs.Keys && db'.attempts.Keys == db.attempts.Keys
    && (forall j :: j in db.jobs && db'.jobs[j] != db.jobs[j] ==>
          j in visited && (db'.jobs[j].status.RetryWait? || db'.jobs[j].status.DeadLetter?))
    && (forall j :: j !in visited ==> (j in db'.results <==> j in db.results))
    && (forall j :: j in db.results && j !in visited ==> db'.results[j] == db.results[j])
  }

  lemma ExpireRowOnly(db: Database, x: Visit, t: Token)
    requires t in db.attempts && Ordered(x.tick.at)
    ensures OnlyExpired(db, ExpireRow(db, x), t, {x.job})
  {
  }

  lemma ExpireRowVisited(db: Database, x: Visit)
    ensures OnlyVisited(db, ExpireRow(db, x), {x.job})
  {
  }

  /** Whatever the list, the sweep ends only attempts whose lease has run out when their row
      is processed, and then their job waits for a retry or is dead-lettered; every other
      attempt, every job it does not visit and every worker is left as it was. */
  lemma {:induction false} OnlyExpiredEnd(db: Database, v: seq<Visit>, now: real, t: Token)
    requires InTurn(v, now)
    ensures OnlyVisited(db, ExpireRows(db, v), Visited(v))
    ensures t in db.attempts ==> OnlyExpired(db, ExpireRows(db, v), t, Visited(v))
  {
    if v != [] {
      OnlyExpiredEnd(db, Init(v), now, t);
      var mid := ExpireRows(db, Init(v));
      ExpireRowVisited(mid, Last(v));
      if t in db.attempts {
        ExpireRowOnly(mid, Last(v), t);
      }
    }
  }

  /** The dependants loop cancels only waiting jobs whose parent is broken. */
  ghost predicate OnlyBlocked(db: Database, db': Database, j: JobId)
    requires j in db.jobs
  {
    && db'.attempts == db.attempts && db'.results == db.results && db'.workers == db.workers
    && db'.jobs.Keys == db.jobs.Keys && db'.jobs[j].def == db.jobs[j].def
    && (db'.jobs[j] == db.jobs[j]
        || (&& Waiting(db.jobs[j].status) && db'.jobs[j].status.Cancelled?
            && db.jobs[j].def.dependsOn.Some? && db.jobs[j].def.dependsOn.value in db'.jobs
            && Broken(db'.jobs[db.jobs[j].def.dependsOn.value].status)))
  }

  lemma {:induction false} OnlyBlockedCancelled(db: Database, v: seq<Visit>, j: JobId)
    requires j in db.jobs
    ensures OnlyBlocked(db, CancelRows(db, v), j)
  {
    if v != [] {
      var w, x := Init(v), Last(v);
      OnlyBlockedCancelled(db, w, j);
      if x.job in db.jobs {
        OnlyBlockedCancelled(db, w, x.job);
      }
    }
  }

  // Progress at a fixed time

  /** Jobs with an unfinished attempt whose lease has run out at time `t`. */
  function ExpiredJobs(db: Database, t: real): (r: set<JobId>) {
    set j | j in db.jobs && HasExpired(db, j, t)
  }

  predicate HasExpired(db: Database, j: JobId, t: real) {
    exists u :: u in db.attempts && HoldsJob(db, j, u) && db.attempts[u].expiresAt <= t
  }

  function BlockedJobs(db: Database): (r: set<JobId>) {
    set j | j in db.jobs && Blocked(db, j)
  }

  function WaitingJobs(db: Database): (r: set<JobId>) {
    set j | j in db.jobs && Waiting(db.jobs[j].status)
  }

  predicate Fixed(v: seq<Visit>, t: real) {
    v == [] || (Fixed(Init(v), t) && Last(v).tick.at == Readings(t, t, t, t) && JitterOk(Last(v).tick.jitter))
  }

  lemma {:induction false} FixedInTurn(v: seq<Visit>, t: real)
    requires Fixed(v, t)
    ensures InTurn(v, t) && ClockAfter(v, t) == t
  {
    if v != [] {
      FixedInTurn(Init(v), t);
    }
  }

  lemma {:induction false} TurnsFixed(v: seq<Visit>, now: real, t: real)
    requires InTurn(v, now) && forall i :: 0 <= i < |v| ==> v[i].tick.at == Readings(t, t, t, t)
    ensures Fixed(v, t)
  {
    if v != [] {
      TurnsFixed(Init(v), now, t);
    }
  }

  lemma {:induction false} VisitedCount(v: seq<Visit>)
    requires Distinct(v)
    ensures |Visited(v)| == |v|
  {
    if v != [] {
      VisitedCount(Init(v));
    }
  }

  lemma ExpireRowProgress(db: Database, x: Visit, t: real)
    requires AttemptsOk(db) && FencesUnique(db) && x.tick.at == Readings(t, t, t, t) && x.job in ExpiredJobs(db, t)
    ensures ExpiredJobs(ExpireRow(db, x), t) == ExpiredJobs(db, t) - {x.job}
    ensures WaitingJobs(ExpireRow(db, x)) <= WaitingJobs(db) + {x.job}
  {
    var u := ExpireRowEnds(db, x, t);
    OneLessExpired(db, ExpireRow(db, x), x.job, u, t);
  }

  /** The row of a job with an expired lease ends that lease's attempt and moves that job. */
  lemma ExpireRowEnds(db: Database, x: Visit, t: real) returns (u: Token)
    requires AttemptsOk(db) && FencesUnique(db) && x.tick.at == Readings(t, t, t, t) && x.job in ExpiredJobs(db, t)
    ensures HoldsJob(db, x.job, u) && forall s :: HoldsJob(db, x.job, s) ==> s == u
    ensures var db' := ExpireRow(db, x);
            && u in db'.attempts && db'.attempts == db.attempts[u := db'.attempts[u]]
            && db'.attempts[u].finishedAt.Some?
            && x.job in db'.jobs && db'.jobs == db.jobs[x.job := db'.jobs[x.job]]
  {
    u :| u in db.attempts && HoldsJob(db, x.job, u) && db.attempts[u].expiresAt <= t;
    forall s | HoldsJob(db, x.job, s) ensures s == u {
      assert AttemptRowOk(db, s) && AttemptRowOk(db, u);
    }
  }

  lemma OneLessExpired(db: Database, db': Database, id: JobId, u: Token, t: real)
    requires id in db.jobs && id in db'.jobs && db'.jobs == db.jobs[id := db'.jobs[id]]
    requires HoldsJob(db, id, u) && forall s :: HoldsJob(db, id, s) ==> s == u
    requires u in db'.attempts && db'.attempts == db.attempts[u := db'.attempts[u]] && db'.attempts[u].finishedAt.Some?
    ensures ExpiredJobs(db', t) == ExpiredJobs(db, t) - {id}
    ensures WaitingJobs(db') <= WaitingJobs(db) + {id}
  {
    forall s ensures !HoldsJob(db', id, s) {
      assert s != u ==> !HoldsJob(db, id, s);
    }
    forall j | j in db.jobs && j != id ensures HasExpired(db', j, t) <==> HasExpired(db, j, t) {
      if HasExpired(db, j, t) {
        var s :| s in db.attempts && HoldsJob(db, j, s) && db.attempts[s].expiresAt <= t;
        assert s in db'.attempts && HoldsJob(db', j, s);
      }
      if HasExpired(db', j, t) {
        var s :| s in db'.attempts && HoldsJob(db', j, s) && db'.attempts[s].expiresAt <= t;
        assert HoldsJob(db, j, s);
      }
    }
  }

  lemma CancelRowProgress(db: Database, x: Visit, t: real)
    requires Blocked(db, x.job)
    ensures ExpiredJobs(CancelRow(db, x), t) == ExpiredJobs(db, t)
    ensures WaitingJobs(CancelRow(db, x)) == WaitingJobs(db) - {x.job}
    ensures BlockedJobs(db) - {x.job} <= BlockedJobs(CancelRow(db, x))
  {
  }

  lemma ExpireNextProgress(cfg: Config, db: Database, w: seq<Visit>, x: Visit, t: real)
    requires CoreOk(db, t) && Fixed(w, t)
    requires x.tick.at == Readings(t, t, t, t) && x.job in ExpiredJobs(ExpireRows(db, w), t)
    ensures var mid := ExpireRows(db, w);
            && ExpiredJobs(ExpireRow(mid, x), t) == ExpiredJobs(mid, t) - {x.job}
            && WaitingJobs(ExpireRow(mid, x)) <= WaitingJobs(mid) + {x.job}
  {
    FixedInTurn(w, t);
    ExpireRowsCore(cfg, db, w, t);
    ExpireRowProgress(ExpireRows(db, w), x, t);
  }

  /** Rows of which the last takes its job out of `e` and at most adds it to `w`. */
  lemma OneMoreRow(v: seq<Visit>, e: set<JobId>, w: set<JobId>, mid: set<JobId>, wmid: set<JobId>,
                   end: set<JobId>, wend: set<JobId>)
    requires v != [] && mid == e - Visited(Init(v)) && wmid <= w + Visited(Init(v))
    requires end == mid - {Last(v).job} && wend <= wmid + {Last(v).job}
    ensures end == e - Visited(v) && wend <= w + Visited(v)
  {
  }

  lemma {:induction false} ExpireRowsProgress(cfg: Config, db: Database, v: seq<Visit>, t: real)
    requires CoreOk(db, t) && Fixed(v, t) && Distinct(v) && Visited(v) <= ExpiredJobs(db, t)
    ensures ExpiredJobs(ExpireRows(db, v), t) == ExpiredJobs(db, t) - Visited(v)
    ensures WaitingJobs(ExpireRows(db, v)) <= WaitingJobs(db) + Visited(v)
  {
    if v != [] {
      ExpireRowsProgress(cfg, db, Init(v), t);
      ExpireNextProgress(cfg, db, Init(v), Last(v), t);
      var mid := ExpireRows(db, Init(v));
      var end := ExpireRow(mid, Last(v));
      OneMoreRow(v, ExpiredJobs(db, t), WaitingJobs(db), ExpiredJobs(mid, t), WaitingJobs(mid),
                 ExpiredJobs(end, t), WaitingJobs(end));
    }
  }

  lemma {:induction false} CancelRowsProgress(db: Database, v: seq<Visit>, t: real)
    requires Distinct(v) && Visited(v) <= BlockedJobs(db)
    ensures ExpiredJobs(CancelRows(db, v), t) == ExpiredJobs(db, t)
    ensures WaitingJobs(CancelRows(db, v)) == WaitingJobs(db) - Visited(v)
    ensures BlockedJobs(db) - Visited(v) <= BlockedJobs(CancelRows(db, v))
  {
    if v == [] {
      assert Visited(v) == {};
    } else {
      CancelRowsProgress(db, Init(v), t);
      assert Last(v).job in BlockedJobs(db) - Visited(Init(v));
      CancelRowProgress(CancelRows(db, Init(v)), Last(v), t);
    }
  }

  lemma {:induction false} VisitedPrefix(v: seq<Visit>, k: nat)
    requires Distinct(v) && k < |v|
    ensures Distinct(v[..k]) && Visited(v[..k]) <= Visited(v) && v[k].job in Visited(v) - Visited(v[..k])
  {
    if k == |v| - 1 {
      assert v[..k] == Init(v);
    } else {
      VisitedPrefix(Init(v), k);
      assert Init(v)[..k] == v[..k];
    }
  }

  /** Cancelling some blocked jobs leaves the others blocked, so the dependants loop needs no
      recheck: every job that its query selected can still be cancelled at its turn. */
  lemma StillBlocked(db: Database, v: seq<Visit>, k: nat)
    requires Distinct(v) && Visited(v) <= BlockedJobs(db) && k < |v|
    ensures Blocked(CancelRows(db, v[..k]), v[k].job)
  {
    VisitedPrefix(v, k);
    CancelRowsProgress(db, v[..k], 0.0);
    assert v[k].job in BlockedJobs(db) - Visited(v[..k]);
  }

  /** `v` visits what a query with this limit returns when nothing is locked. */
  predicate Selects(v: seq<Visit>, pool: set<JobId>, limit: nat) {
    Distinct(v) && Visited(v) <= pool && |v| == if |pool| <= limit then |pool| else limit
  }

  /** One whole sweep at a fixed time with nothing else running. */
  ghost predicate Sweep(db: Database, db': Database, t: real, limit: nat, expired: seq<Visit>, blocked: seq<Visit>) {
    && Fixed(expired, t) && Fixed(blocked, t)
    && Selects(expired, ExpiredJobs(db, t), limit)
    && Selects(blocked, BlockedJobs(ExpireRows(db, expired)), limit)
    && db' == CancelRows(ExpireRows(db, expired), blocked)
  }

  /** The rows get the given turns, in order. */
  predicate Uses(v: seq<Visit>, ticks: seq<Tick>) {
    |v| <= |ticks| && forall i :: 0 <= i < |v| ==> v[i].tick == ticks[i]
  }

  /** One sweep of a coordinator among others: `held` and `kept` are the rows it skips. */
  ghost predicate Swept(db: Database, db': Database, elected: bool, limit: nat, held: set<JobId>, kept: set<JobId>,
                        t: real, expired: seq<Visit>, blocked: seq<Visit>)
  {
    && db' == CancelRows(ExpireRows(db, expired), blocked)
    && if elected then
         && Selects(expired, ExpiredJobs(db, t) - held, limit)
         && Selects(blocked, BlockedJobs(ExpireRows(db, expired)) - kept, limit)
       else expired == [] && blocked == []
  }

  predicate AllAt(ticks: seq<Tick>, t: real) {
    forall i :: 0 <= i < |ticks| ==> ticks[i].at == Readings(t, t, t, t)
  }

  /** With the lock, no row held elsewhere and every reading at time `t`, it is a `Sweep`. */
  lemma SweptAlone(db: Database, db': Database, limit: nat, now: real, t: real, first: seq<Tick>, second: seq<Tick>,
                   expired: seq<Visit>, blocked: seq<Visit>)
    requires Swept(db, db', true, limit, {}, {}, t, expired, blocked)
    requires InTurn(expired, now) && InTurn(blocked, ClockAfter(expired, now))
    requires Uses(expired, first) && Uses(blocked, second) && AllAt(first, t) && AllAt(second, t)
    ensures Sweep(db, db', t, limit, expired, blocked)
  {
    TurnsFixed(expired, now, t);
    TurnsFixed(blocked, ClockAfter(expired, now), t);
    assert ExpiredJobs(db, t) - {} == ExpiredJobs(db, t);
    assert BlockedJobs(ExpireRows(db, expired)) - {} == BlockedJobs(ExpireRows(db, expired));
  }

  /** Nothing left for a sweep to do. */
  predicate Quiet(db: Database, t: real) {
    ExpiredJobs(db, t) == {} && BlockedJobs(db) == {}
  }

  /** Falls with every sweep that finds something. */
  function Work(db: Database, t: real): nat {
    2 * |ExpiredJobs(db, t)| + |WaitingJobs(db)|
  }

  lemma SweepCore(cfg: Config, db: Database, db': Database, t: real, limit: nat, expired: seq<Visit>,
                  blocked: seq<Visit>)
    requires CoreOk(db, t) && Sweep(db, db', t, limit, expired, blocked)
    ensures CoreOk(db', t)
  {
    FixedInTurn(expired, t);
    ExpireRowsCore(cfg, db, expired, t);
    CancelRowsCore(cfg, ExpireRows(db, expired), blocked, t);
  }

  lemma {:induction false} CancelRowsCore(cfg: Config, db: Database, v: seq<Visit>, t: real)
    requires CoreOk(db, t) && Fixed(v, t)
    ensures CoreOk(CancelRows(db, v), t)
  {
    if v != [] {
      var w, x := Init(v), Last(v);
      CancelRowsCore(cfg, db, w, t);
      CoreKept(cfg, CancelRows(db, w), CancelChild(CancelRows(db, w), x.job, x.tick.at).effect, t, t);
    }
  }

  /** A sweep does some of the work that is left, or finds none and changes nothing. */
  lemma SweepProgress(cfg: Config, db: Database, db': Database, t: real, limit: nat, expired: seq<Visit>,
                      blocked: seq<Visit>)
    requires CoreOk(db, t) && limit >= 1 && Sweep(db, db', t, limit, expired, blocked)
    ensures if Quiet(db, t) then db' == db else Work(db', t) < Work(db, t)
  {
    var mid := ExpireRows(db, expired);
    ExpireRowsProgress(cfg, db, expired, t);
    CancelRowsProgress(mid, blocked, t);
    VisitedCount(expired);
    VisitedCount(blocked);
    WorkFalls(ExpiredJobs(db, t), WaitingJobs(db), Visited(expired), WaitingJobs(mid), Visited(blocked));
    assert BlockedJobs(mid) <= WaitingJobs(mid);
    if |expired| == 0 && |blocked| == 0 {
      assert mid == db;
    }
  }

  lemma WorkFalls(e: set<JobId>, w: set<JobId>, ended: set<JobId>, w': set<JobId>, gone: set<JobId>)
    requires ended <= e && w' <= w + ended
    ensures gone <= w' ==> 2 * |e - ended| + |w' - gone| + |ended| + |gone| <= 2 * |e| + |w|
  {
    assert |e - ended| == |e| - |ended|;
    SubsetSize(w', w + ended);
    assert |w + ended| <= |w| + |ended|;
    if gone <= w' {
      assert |w' - gone| == |w'| - |gone|;
    }
  }

  /** `dbs` are the tables before, between and after successive sweeps. */
  ghost predicate Sweeps(dbs: seq<Database>, t: real, limit: nat, expired: seq<seq<Visit>>, blocked: seq<seq<Visit>>) {
    && |dbs| > 0 && |expired| == |blocked| == |dbs| - 1
    && (|dbs| > 1 ==>
          && Sweep(dbs[0], dbs[1], t, limit, expired[0], blocked[0])
          && Sweeps(dbs[1..], t, limit, expired[1..], blocked[1..]))
  }

  /** Repeated sweeps at a fixed time, with no other steps, leave nothing to do after at most
      `Work` of them. */
  lemma {:induction false} SweepsFinish(cfg: Config, dbs: seq<Database>, t: real, limit: nat,
                                        expired: seq<seq<Visit>>, blocked: seq<seq<Visit>>)
    requires limit >= 1 && Sweeps(dbs, t, limit, expired, blocked) && CoreOk(dbs[0], t)
    requires |dbs| > Work(dbs[0], t) || Quiet(dbs[0], t)
    ensures Quiet(dbs[|dbs| - 1], t) && CoreOk(dbs[|dbs| - 1], t)
    decreases |dbs|
  {
    if |dbs| == 1 {
      if !Quiet(dbs[0], t) {
        assert |WaitingJobs(dbs[0])| == 0 && |ExpiredJobs(dbs[0], t)| == 0;
        assert BlockedJobs(dbs[0]) <= WaitingJobs(dbs[0]);
      }
    } else {
      SweepCore(cfg, dbs[0], dbs[1], t, limit, expired[0], blocked[0]);
      SweepProgress(cfg, dbs[0], dbs[1], t, limit, expired[0], blocked[0]);
      SweepsFinish(cfg, dbs[1..], t, limit, expired[1..], blocked[1..]);
    }
  }

  /** What quiet means: every unfinished attempt still has its lease, and no job waits below
      a failed, dead-lettered or cancelled ancestor, however far up. */
  lemma QuietIsClean(db: Database, t: real, u: Token, c: seq<JobId>, i: nat)
    requires JobsOk(db) && AttemptsOk(db) && DependsOk(db) && Quiet(db, t)
    ensures Unfinished(db, u) ==> t < db.attempts[u].expiresAt
    ensures Chain(db, c) && 0 < i < |c| && c[i] in db.jobs && Broken(db.jobs[c[i]].status) ==>
              !Waiting(db.jobs[c[0]].status)
  {
    if Unfinished(db, u) {
      assert AttemptRowOk(db, u);
      var j := db.attempts[u].jobId;
      assert j !in ExpiredJobs(db, t);
      assert HoldsJob(db, j, u) && !HasExpired(db, j, t);
    }
    if Chain(db, c) && 0 < i < |c| && c[i] in db.jobs && Broken(db.jobs[c[i]].status) {
      NoneWaitBelow(db, c, i);
    }
  }

  /** From any reachable state, enough sweeps with nothing else running leave no expired
      unfinished attempt and no job waiting below a broken ancestor. */
  lemma SweepsCleanUp(cfg: Config, states: seq<State>, actions: seq<Action>, n: nat, dbs: seq<Database>, limit: nat,
                      expired: seq<seq<Visit>>, blocked: seq<seq<Visit>>, u: Token, c: seq<JobId>, i: nat)
    requires Run(cfg, states, actions) && n < |states| && limit >= 1
    requires Sweeps(dbs, states[n].clock, limit, expired, blocked) && dbs[0] == states[n].db
    requires |dbs| > Work(dbs[0], states[n].clock)
    ensures var db := dbs[|dbs| - 1];
            && (Unfinished(db, u) ==> states[n].clock < db.attempts[u].expiresAt)
            && (Chain(db, c) && 0 < i < |c| && c[i] in db.jobs && Broken(db.jobs[c[i]].status) ==>
                  !Waiting(db.jobs[c[0]].status))
  {
    RunTables(cfg, states, actions, n);
    RunJobs(cfg, states, actions, n);
    SweepsFinish(cfg, dbs, states[n].clock, limit, expired, blocked);
    QuietIsClean(dbs[|dbs| - 1], states[n].clock, u, c, i);
  }

  lemma {:induction false} NoneWaitBelow(db: Database, c: seq<JobId>, i: nat)
    requires DependsOk(db) && JobsOk(db) && BlockedJobs(db) == {}
    requires Chain(db, c) && 0 < i < |c| && c[i] in db.jobs && Broken(db.jobs[c[i]].status)
    ensures !Waiting(db.jobs[c[0]].status)
  {
    ChainTail(db, c);
    if i > 1 {
      NoneWaitBelow(db, c[1..], i - 1);
      SafeChain(db, c[1..], i - 1);
    }
    assert c[0] !in BlockedJobs(db);
  }
}
