/**
 The append-only event log against the tables, and the counters derived from it.
 */
module EventLog {
  import opened Tables
  import opened Protocol
  import opened Invariant

  /** The events of one job, in order. */
  function Trace(events: seq<Event>, j: JobId): seq<EventKind> {
    if events == [] then []
    else
      var last := events[|events| - 1];
      Trace(events[..|events| - 1], j) + if last.jobId == j then [last.kind] else []
  }

  function Total(events: seq<Event>, kind: EventKind): nat {
    if events == [] then 0
    else Total(events[..|events| - 1], kind) + if events[|events| - 1].kind == kind then 1 else 0
  }

  function Occurrences(trace: seq<EventKind>, kind: EventKind): nat {
    if trace == [] then 0
    else Occurrences(trace[..|trace| - 1], kind) + if trace[|trace| - 1] == kind then 1 else 0
  }

  /** A legal history that starts with the submission and ends in `status`. */
  predicate PathTo(trace: seq<EventKind>, status: Status) {
    var n := |trace|;
    if n <= 2 then trace == [Submitted, Entered(Queued)] && status.Queued?
    else
      && trace[n - 1] == Entered(status)
      && trace[n - 2].Entered?
      && status in Allowed(trace[n - 2].status)
      && PathTo(trace[..n - 1], trace[n - 2].status)
  }

  lemma PathExtends(trace: seq<EventKind>, from: Status, to: Status)
    requires PathTo(trace, from) && to in Allowed(from)
    ensures PathTo(trace + [Entered(to)], to)
  {
  }

  /** How many transitions a job can still make. It falls with every transition. */
  function Remaining(job: Job): nat
    requires JobOk(job)
  {
    var left := 3 * (job.def.maxRetries + 1 - job.attemptCount);
    match job.status
    case Queued => left
    case RetryWait => left
    case Leased => left + 2
    case Running => left + 1
    case _ => 0
  }

  ghost predicate LogRowOk(db: Database, j: JobId)
    requires j in db.jobs
  {
    var trace := Trace(db.events, j);
    && JobOk(db.jobs[j])
    && PathTo(trace, db.jobs[j].status)
    && Occurrences(trace, Entered(Leased)) == db.jobs[j].attemptCount
    && |trace| + Remaining(db.jobs[j]) <= 5 + 3 * db.jobs[j].def.maxRetries
  }

  predicate Terminal(s: Status) { !Active(s) }

  ghost predicate EventsOk(db: Database) {
    forall i :: 0 <= i < |db.events| ==> db.events[i].jobId in db.jobs
  }

  ghost predicate TracesOk(db: Database) {
    forall j :: j in db.jobs ==> LogRowOk(db, j)
  }

  predicate TerminalTotalOk(db: Database, s: Status) {
    Terminal(s) ==> Total(db.events, Entered(s)) == |InStatus(db, s)|
  }

  /** Jobs whose last attempt still runs or was their final one. */
  function SpentJobs(db: Database): (r: set<JobId>) {
    set j | j in db.jobs && Spent(db.jobs[j].status)
  }

  predicate Spent(s: Status) { Owned(s) || HasResult(s) }

  ghost predicate TotalsOk(db: Database) {
    && Total(db.events, Submitted) == |db.jobs|
    && Total(db.events, Entered(Leased)) == |db.attempts|
    && |db.attempts| == Total(db.events, Entered(RetryWait)) + |SpentJobs(db)|
    && forall s: Status :: TerminalTotalOk(db, s)
  }

  ghost predicate LogOk(db: Database) { EventsOk(db) && TracesOk(db) && TotalsOk(db) }

  lemma Append(events: seq<Event>, e: Event, j: JobId, kind: EventKind)
    ensures Trace(events + [e], j) == Trace(events, j) + if e.jobId == j then [e.kind] else []
    ensures Total(events + [e], kind) == Total(events, kind) + if e.kind == kind then 1 else 0
  {
  }

  lemma AppendOccurrence(trace: seq<EventKind>, k: EventKind, kind: EventKind)
    ensures Occurrences(trace + [k], kind) == Occurrences(trace, kind) + if k == kind then 1 else 0
  {
  }

  lemma {:induction false} NoTrace(events: seq<Event>, j: JobId)
    requires forall i :: 0 <= i < |events| ==> events[i].jobId != j
    ensures Trace(events, j) == []
  {
    if events != [] {
      NoTrace(events[..|events| - 1], j);
    }
  }

  // One transition of one job

  /** `job` is the row that `Move` writes for `id`. */
  ghost predicate Moves(db: Database, db': Database, id: JobId, job: Job) {
    && id in db.jobs
    && db'.jobs == db.jobs[id := job]
    && db'.events == db.events + [Event(id, Entered(job.status))]
    && job.status in Allowed(db.jobs[id].status)
    && job.def == db.jobs[id].def && JobOk(job)
    && job.attemptCount == db.jobs[id].attemptCount + if job.status.Leased? then 1 else 0
  }

  lemma LogRowMoved(db: Database, db': Database, id: JobId, job: Job, j: JobId)
    requires Moves(db, db', id, job) && j in db.jobs && LogRowOk(db, j)
    ensures LogRowOk(db', j)
  {
    var e := Event(id, Entered(job.status));
    var trace := Trace(db.events, j);
    Append(db.events, e, j, e.kind);
    if j == id {
      AppendOccurrence(trace, e.kind, Entered(Leased));
      PathExtends(trace, db.jobs[id].status, job.status);
      RemainingFalls(db.jobs[id], job);
    } else {
      assert Trace(db'.events, j) == trace;
    }
  }

  /** Every transition of the table uses up some of the budget. */
  lemma RemainingFalls(before: Job, after: Job)
    requires JobOk(before) && JobOk(after) && after.def == before.def
    requires after.status in Allowed(before.status)
    requires after.attemptCount == before.attemptCount + if after.status.Leased? then 1 else 0
    ensures Remaining(after) < Remaining(before)
  {
  }

  lemma SizeMoved(was: set<JobId>, now: set<JobId>, id: JobId)
    requires now - {id} == was - {id}
    ensures |now| == |was| - (if id in was then 1 else 0) + if id in now then 1 else 0
  {
    assert |was - {id}| == |was| - if id in was then 1 else 0;
    assert |now - {id}| == |now| - if id in now then 1 else 0;
  }

  lemma StatusCountMoved(db: Database, db': Database, id: JobId, job: Job, s: Status)
    requires id in db.jobs && db'.jobs == db.jobs[id := job]
    ensures |InStatus(db', s)| == |InStatus(db, s)| - (if db.jobs[id].status == s then 1 else 0)
                                  + if job.status == s then 1 else 0
  {
    SizeMoved(InStatus(db, s), InStatus(db', s), id);
  }

  lemma SpentMoved(db: Database, db': Database, id: JobId, job: Job)
    requires id in db.jobs && db'.jobs == db.jobs[id := job]
    ensures |SpentJobs(db')| == |SpentJobs(db)| - (if Spent(db.jobs[id].status) then 1 else 0)
                                + if Spent(job.status) then 1 else 0
  {
    SizeMoved(SpentJobs(db), SpentJobs(db'), id);
  }

  lemma TerminalTotalMoved(db: Database, db': Database, id: JobId, job: Job, s: Status)
    requires Moves(db, db', id, job) && TerminalTotalOk(db, s)
    ensures TerminalTotalOk(db', s)
  {
    Append(db.events, Event(id, Entered(job.status)), id, Entered(s));
    StatusCountMoved(db, db', id, job, s);
  }

  lemma TotalsMoved(db: Database, db': Database, id: JobId, job: Job)
    requires Moves(db, db', id, job) && TotalsOk(db)
    requires |db'.attempts| == |db.attempts| + if job.status.Leased? then 1 else 0
    ensures TotalsOk(db')
  {
    var e := Event(id, Entered(job.status));
    assert db'.jobs.Keys == db.jobs.Keys;
    assert |db'.jobs.Keys| == |db'.jobs| && |db.jobs.Keys| == |db.jobs|;
    Append(db.events, e, id, Submitted);
    Append(db.events, e, id, Entered(Leased));
    Append(db.events, e, id, Entered(RetryWait));
    SpentMoved(db, db', id, job);
    forall s: Status ensures TerminalTotalOk(db', s) {
      TerminalTotalMoved(db, db', id, job, s);
    }
  }

  lemma LogMoved(db: Database, db': Database, id: JobId, job: Job)
    requires Moves(db, db', id, job) && LogOk(db)
    requires |db'.attempts| == |db.attempts| + if job.status.Leased? then 1 else 0
    ensures LogOk(db')
  {
    TotalsMoved(db, db', id, job);
    forall j | j in db'.jobs ensures LogRowOk(db', j) {
      LogRowMoved(db, db', id, job, j);
    }
  }

  lemma AppendSubmission(events: seq<Event>, id: JobId, j: JobId)
    ensures Trace(events + [Event(id, Submitted), Event(id, Entered(Queued))], j)
         == Trace(events, j) + if j == id then [Submitted, Entered(Queued)] else []
  {
    var e, f := Event(id, Submitted), Event(id, Entered(Queued));
    assert events + [e, f] == events + [e] + [f];
    Append(events, e, j, Submitted);
    Append(events + [e], f, j, Submitted);
  }

  /** The history of a job that has just been admitted. */
  lemma NewTrace()
    ensures PathTo([Submitted, Entered(Queued)], Queued)
    ensures Occurrences([Submitted, Entered(Queued)], Entered(Leased)) == 0
  {
    AppendOccurrence([], Submitted, Entered(Leased));
    AppendOccurrence([Submitted], Entered(Queued), Entered(Leased));
    assert [] + [Submitted] == [Submitted];
    assert [Submitted] + [Entered(Queued)] == [Submitted, Entered(Queued)];
  }

  lemma OtherTrace(db: Database, id: JobId, job: Job, j: JobId)
    requires j != id && j in db.jobs && LogRowOk(db, j)
    ensures LogRowOk(Apply(db, AddJob(id, job)), j)
  {
    AppendSubmission(db.events, id, j);
    assert Trace(Apply(db, AddJob(id, job)).events, j) == Trace(db.events, j);
  }

  lemma TraceAdmitted(db: Database, id: JobId, job: Job)
    requires id !in db.jobs && job.status.Queued? && JobOk(job) && EventsOk(db)
    ensures LogRowOk(Apply(db, AddJob(id, job)), id)
  {
    AppendSubmission(db.events, id, id);
    NoTrace(db.events, id);
    NewTrace();
    assert Trace(Apply(db, AddJob(id, job)).events, id) == [Submitted, Entered(Queued)];
  }

  lemma TerminalTotalAdmitted(db: Database, id: JobId, job: Job, s: Status)
    requires TerminalTotalOk(db, s) && id !in db.jobs && job.status.Queued?
    ensures TerminalTotalOk(Apply(db, AddJob(id, job)), s)
  {
    TotalAdmitted(db.events, id, Entered(s));
    assert Terminal(s) ==> InStatus(Apply(db, AddJob(id, job)), s) == InStatus(db, s);
  }

  lemma TotalsAdmitted(db: Database, id: JobId, job: Job)
    requires TotalsOk(db) && id !in db.jobs && job.status.Queued?
    ensures TotalsOk(Apply(db, AddJob(id, job)))
  {
    var db' := Apply(db, AddJob(id, job));
    assert |db'.jobs| == |db.jobs| + 1;
    TotalAdmitted(db.events, id, Submitted);
    TotalAdmitted(db.events, id, Entered(Leased));
    TotalAdmitted(db.events, id, Entered(RetryWait));
    assert SpentJobs(db') == SpentJobs(db);
    forall s: Status ensures TerminalTotalOk(db', s) {
      TerminalTotalAdmitted(db, id, job, s);
    }
  }

  lemma TotalAdmitted(events: seq<Event>, id: JobId, kind: EventKind)
    ensures Total(events + [Event(id, Submitted), Event(id, Entered(Queued))], kind)
         == Total(events, kind) + if kind == Submitted || kind == Entered(Queued) then 1 else 0
  {
    var e, f := Event(id, Submitted), Event(id, Entered(Queued));
    assert events + [e, f] == events + [e] + [f];
    Append(events, e, id, kind);
    Append(events + [e], f, id, kind);
  }

  lemma LogAdmitted(db: Database, id: JobId, job: Job)
    requires LogOk(db) && id !in db.jobs && job.status.Queued? && JobOk(job)
    ensures LogOk(Apply(db, AddJob(id, job)))
  {
    TracesAdmitted(db, id, job);
    TotalsAdmitted(db, id, job);
  }

  lemma TracesAdmitted(db: Database, id: JobId, job: Job)
    requires EventsOk(db) && TracesOk(db) && id !in db.jobs && job.status.Queued? && JobOk(job)
    ensures EventsOk(Apply(db, AddJob(id, job))) && TracesOk(Apply(db, AddJob(id, job)))
  {
    var db' := Apply(db, AddJob(id, job));
    forall j | j in db'.jobs ensures LogRowOk(db', j) {
      if j == id {
        TraceAdmitted(db, id, job);
      } else {
        OtherTrace(db, id, job, j);
      }
    }
  }

  lemma LogUnmoved(db: Database, db': Database)
    requires LogOk(db) && db'.jobs == db.jobs && db'.events == db.events && |db'.attempts| == |db.attempts|
    ensures LogOk(db')
  {
    forall j | j in db'.jobs ensures LogRowOk(db', j) {
      assert LogRowOk(db, j);
    }
    assert SpentJobs(db') == SpentJobs(db);
    forall s: Status ensures TerminalTotalOk(db', s) {
      assert TerminalTotalOk(db, s);
      assert InStatus(db', s) == InStatus(db, s);
    }
  }

  lemma AttemptCount(db: Database, e: Effect)
    requires Refers(db, e) && (e.AddAttempt? ==> e.token !in db.attempts)
    ensures |Apply(db, e).attempts| == |db.attempts| + if e.AddAttempt? then 1 else 0
  {
  }

  /** The job whose status the effect changes. */
  function MovedJob(db: Database, e: Effect): Option<JobId>
    requires Refers(db, e)
  {
    match e
    case AddAttempt(_, a, _) => Some(a.jobId)
    case MarkStarted(t, _, _) => Some(db.attempts[t].jobId)
    case EndAttempt(t, _, _) => Some(db.attempts[t].jobId)
    case CancelWaiting(id, _) => Some(id)
    case _ => None
  }

  /** Every effect that changes a status takes a step of the transition table. */
  lemma EffectMoves(cfg: Config, db: Database, e: Effect, now: real, later: real)
    requires JobsOk(db) && AttemptsOk(db) && ClockOk(db, now) && Guard(cfg, db, e, now, later)
    requires Refers(db, e) && MovedJob(db, e).Some?
    ensures var id := MovedJob(db, e).value; Moves(db, Apply(db, e), id, Apply(db, e).jobs[id])
  {
    JobsKept(cfg, db, e, now, later);
    if e.MarkStarted? || e.EndAttempt? {
      assert AttemptRowOk(db, e.token);
    }
  }

  lemma LogKept(cfg: Config, db: Database, e: Effect, now: real, later: real)
    requires JobsOk(db) && AttemptsOk(db) && ClockOk(db, now) && LogOk(db) && Guard(cfg, db, e, now, later)
    ensures Refers(db, e) && LogOk(Apply(db, e))
  {
    GuardRefers(cfg, db, e, now, later);
    var db' := Apply(db, e);
    AttemptCount(db, e);
    if MovedJob(db, e).Some? {
      var id := MovedJob(db, e).value;
      EffectMoves(cfg, db, e, now, later);
      LogMoved(db, db', id, db'.jobs[id]);
    } else if e.AddJob? {
      LogAdmitted(db, e.id, e.job);
    } else {
      LogUnmoved(db, db');
    }
  }

  // observability.py: the counters of one snapshot

  datatype Snapshot = Snapshot(
    queueDepth: nat, admittedActive: nat, submitted: nat, completed: nat, failed: nat, retries: nat)

  function Observe(db: Database): Snapshot {
    var depth := |InStatus(db, Queued)| + |InStatus(db, RetryWait)|;
    Snapshot(
      depth,
      depth + |InStatus(db, Leased)| + |InStatus(db, Running)|,
      Total(db.events, Submitted),
      Total(db.events, Entered(Succeeded)),
      Total(db.events, Entered(Failed)) + Total(db.events, Entered(DeadLetter)),
      Total(db.events, Entered(RetryWait)))
  }

  lemma FourParts<T>(a: set<T>, b: set<T>, c: set<T>, d: set<T>)
    requires a !! b && c !! d && (a + b) !! (c + d)
    ensures |a + b + (c + d)| == |a| + |b| + |c| + |d|
  {
  }

  lemma ActivePartition(db: Database)
    ensures |ActiveJobs(db)| == |InStatus(db, Queued)| + |InStatus(db, RetryWait)|
                                + |InStatus(db, Leased)| + |InStatus(db, Running)|
  {
    ActiveCover(db);
    FourParts(InStatus(db, Queued), InStatus(db, RetryWait), InStatus(db, Leased), InStatus(db, Running));
  }

  lemma SpentPartition(db: Database)
    ensures |SpentJobs(db)| == |InStatus(db, Leased)| + |InStatus(db, Running)| + |InStatus(db, Succeeded)|
                               + (|InStatus(db, Failed)| + |InStatus(db, DeadLetter)|)
  {
    SpentCover(db);
    FourParts(InStatus(db, Leased), InStatus(db, Running), InStatus(db, Failed), InStatus(db, DeadLetter));
    assert InStatus(db, Succeeded) !! InStatus(db, Leased) + InStatus(db, Running)
                                      + (InStatus(db, Failed) + InStatus(db, DeadLetter));
  }

  lemma SpentCover(db: Database)
    ensures SpentJobs(db) == InStatus(db, Succeeded)
                             + (InStatus(db, Leased) + InStatus(db, Running)
                                + (InStatus(db, Failed) + InStatus(db, DeadLetter)))
  {
  }

  lemma ActiveCover(db: Database)
    ensures ActiveJobs(db)
         == InStatus(db, Queued) + InStatus(db, RetryWait) + (InStatus(db, Leased) + InStatus(db, Running))
  {
  }

  function TerminalJobs(db: Database): (r: set<JobId>) {
    set j | j in db.jobs && Terminal(db.jobs[j].status)
  }

  lemma TerminalPartition(db: Database)
    ensures |TerminalJobs(db)| == |InStatus(db, Succeeded)| + |InStatus(db, Failed)|
                                  + |InStatus(db, DeadLetter)| + |InStatus(db, Cancelled)|
  {
    TerminalCover(db);
    FourParts(InStatus(db, Succeeded), InStatus(db, Failed), InStatus(db, DeadLetter), InStatus(db, Cancelled));
  }

  lemma TerminalCover(db: Database)
    ensures TerminalJobs(db)
         == InStatus(db, Succeeded) + InStatus(db, Failed) + (InStatus(db, DeadLetter) + InStatus(db, Cancelled))
  {
  }

  /** The eight statuses split the jobs table. */
  lemma StatusesPartition(db: Database)
    ensures |db.jobs| == |ActiveJobs(db)| + |InStatus(db, Succeeded)| + |InStatus(db, Failed)|
                         + |InStatus(db, DeadLetter)| + |InStatus(db, Cancelled)|
  {
    TerminalPartition(db);
    assert db.jobs.Keys == ActiveJobs(db) + TerminalJobs(db);
    assert |db.jobs.Keys| == |db.jobs|;
  }

  /** The log-derived counters and the table-derived ones describe the same jobs. */
  lemma CountersAgree(db: Database)
    requires TotalsOk(db)
    ensures var o := Observe(db);
            && o.admittedActive == |ActiveJobs(db)|
            && o.completed == |InStatus(db, Succeeded)|
            && o.failed == |InStatus(db, Failed)| + |InStatus(db, DeadLetter)|
            && o.submitted == |db.jobs|
            && o.submitted == o.completed + o.failed + |InStatus(db, Cancelled)| + o.admittedActive
            && |db.attempts| == o.retries + (o.admittedActive - o.queueDepth) + o.completed + o.failed
  {
    SpentPartition(db);
    ActivePartition(db);
    StatusesPartition(db);
    assert TerminalTotalOk(db, Succeeded) && TerminalTotalOk(db, Failed) && TerminalTotalOk(db, DeadLetter);
  }
}
