/**
 The five tables that the queue protocol reads and writes, as plain values.

 Identifiers are natural numbers (a UUID is a 128-bit number, and the scheduler orders
 by it); timestamps are reals; JSON documents are kept as their canonical text.
 A job keeps its whole definition in place of the SHA-256 digest of it.
 */
module Tables {

  type JobId = nat
  type Token = nat
  type ClaimId = nat
  type WorkerId = string
  type Session = string
  type Json = string

  datatype Option<+T> = None | Some(value: T)

  datatype Status =
    | Queued | RetryWait | Leased | Running
    | Succeeded | Failed | Cancelled | DeadLetter

  /** Waiting to be claimed. */
  predicate Waiting(s: Status) { s.Queued? || s.RetryWait? }

  /** Held by exactly one attempt. */
  predicate Owned(s: Status) { s.Leased? || s.Running? }

  predicate Active(s: Status) { Waiting(s) || Owned(s) }

  /** The terminal states that doom every dependant. */
  predicate Broken(s: Status) { s.Failed? || s.DeadLetter? || s.Cancelled? }

  /** The transition table: the states that may follow `s`. */
  function Allowed(s: Status): set<Status> {
    match s
    case Queued => {Leased, Cancelled}
    case RetryWait => {Leased, Cancelled}
    case Leased => {Running, RetryWait, DeadLetter}
    case Running => {Succeeded, Failed, RetryWait, DeadLetter}
    case _ => {}
  }

  /** Attempt outcomes SUCCEEDED, FAILED and LEASE_EXPIRED. */
  datatype Outcome = Completed | Errored | LeaseExpired

  datatype WorkerState = Healthy | Suspect | Dead | Draining

  datatype Definition = Definition(
    task: string, args: Json, priority: int, timeout: real, maxRetries: nat,
    retryDelay: real, retryJitter: bool, metadata: Json,
    scheduledAt: Option<real>, dependsOn: Option<JobId>)

  /** What request validation guarantees of a submitted definition. */
  predicate DefinitionOk(d: Definition) {
    && 0.05 <= d.timeout <= 300.0
    && d.maxRetries <= 10
    && 0.0 <= d.retryDelay <= 300.0
  }

  /** `serial` is a history variable: how many jobs had been admitted before this one. */
  datatype Job = Job(
    def: Definition, key: Option<string>, status: Status, attemptCount: nat,
    availableAt: real, createdAt: real, updatedAt: real, serial: nat)

  /** `claimedAt` (the clock reading of the claim) and `epoch` (the registration of the
      worker that claimed it) are history variables. */
  datatype Attempt = Attempt(
    jobId: JobId, workerId: WorkerId, slot: int, claimId: ClaimId, fence: nat,
    expiresAt: real, outcome: Option<Outcome>, output: Option<Json>, error: Option<string>,
    startedAt: Option<real>, finishedAt: Option<real>, claimedAt: real, epoch: nat)

  datatype ResultRow = ResultRow(output: Option<Json>, error: Option<string>)

  /** `epoch` is a history variable: how often the identity has been taken over. */
  datatype Worker = Worker(
    state: WorkerState, capacity: nat, capabilities: set<string>, session: Session,
    drainRequested: bool, lastSeen: real, epoch: nat)

  datatype EventKind = Submitted | Entered(status: Status)
  datatype Event = Event(jobId: JobId, kind: EventKind)

  datatype Database = Database(
    jobs: map<JobId, Job>, attempts: map<Token, Attempt>, results: map<JobId, ResultRow>,
    workers: map<WorkerId, Worker>, events: seq<Event>)

  const EMPTY := Database(map[], map[], map[], map[], [])

  datatype Policy = Fifo | Priority | Capacity

  datatype Config = Config(
    lease: real, suspectAfter: real, deadAfter: real,
    queueLimit: nat, submissionsPerMinute: nat, policy: Policy)

  predicate ConfigOk(cfg: Config) {
    0.0 < cfg.lease && 0.0 < cfg.suspectAfter < cfg.deadAfter
  }

  /** An operation reads the database clock up to four times, never backwards. */
  datatype Readings = Readings(first: real, second: real, third: real, fourth: real)

  predicate Ordered(at: Readings) {
    at.first <= at.second <= at.third <= at.fourth
  }

  // Queries

  /** An attempt that still owns its job. */
  predicate Unfinished(db: Database, t: Token) {
    t in db.attempts && db.attempts[t].finishedAt.None?
  }

  function InStatus(db: Database, s: Status): (r: set<JobId>) {
    set j | j in db.jobs && db.jobs[j].status == s
  }

  function ActiveJobs(db: Database): (r: set<JobId>) {
    set j | j in db.jobs && Active(db.jobs[j].status)
  }

  function CreatedSince(db: Database, from: real): (r: set<JobId>) {
    set j | j in db.jobs && from <= db.jobs[j].createdAt
  }

  predicate KeyTaken(db: Database, key: Option<string>, j: JobId) {
    key.Some? && j in db.jobs && db.jobs[j].key == key
  }

  /** No parent, or a parent that has succeeded. */
  predicate ParentReady(db: Database, def: Definition) {
    def.dependsOn.None? ||
    (def.dependsOn.value in db.jobs && db.jobs[def.dependsOn.value].status.Succeeded?)
  }

  /** A waiting job whose parent failed, was dead-lettered or was cancelled. */
  predicate Blocked(db: Database, j: JobId) {
    && j in db.jobs && Waiting(db.jobs[j].status)
    && db.jobs[j].def.dependsOn.Some?
    && db.jobs[j].def.dependsOn.value in db.jobs
    && Broken(db.jobs[db.jobs[j].def.dependsOn.value].status)
  }

  predicate HoldsSlot(db: Database, w: WorkerId, slot: int, t: Token) {
    Unfinished(db, t) && db.attempts[t].workerId == w && db.attempts[t].slot == slot
  }

  predicate HoldsJob(db: Database, j: JobId, t: Token) {
    Unfinished(db, t) && db.attempts[t].jobId == j
  }

  predicate HasClaim(db: Database, c: ClaimId, t: Token) {
    t in db.attempts && db.attempts[t].claimId == c
  }

  predicate Authorized(db: Database, w: WorkerId, session: Session) {
    w in db.workers && db.workers[w].session == session
  }

  // Arithmetic of deadlines and retry delays

  function Min(a: real, b: real): real { if a <= b then a else b }
  function Max(a: real, b: real): real { if a <= b then b else a }

  /** `x` times two to the power of `n`. */
  function Doubled(x: real, n: nat): (r: real)
    ensures 0.0 <= x ==> x <= r
  {
    if n == 0 then x else 2.0 * Doubled(x, n - 1)
  }

  /** Delay before attempt `count + 1`, before jitter. (No job fails before its first attempt.) */
  function BaseDelay(d: Definition, count: nat): real {
    var doublings := if count == 0 then 0 else count - 1;
    Min(Doubled(d.retryDelay, doublings), 3600.0)
  }

  /** The delay the queue actually schedules, for a given random factor. */
  function RetryDelay(d: Definition, count: nat, jitter: real): real {
    if d.retryJitter then BaseDelay(d, count) * jitter else BaseDelay(d, count)
  }

  predicate JitterOk(jitter: real) { 0.5 <= jitter <= 1.5 }

  /** The least delay that jitter can leave of it. */
  function LeastDelay(d: Definition, count: nat): real {
    if d.retryJitter then BaseDelay(d, count) * 0.5 else BaseDelay(d, count)
  }

  lemma BaseDelayBounds(d: Definition, count: nat)
    requires DefinitionOk(d)
    ensures 0.0 <= BaseDelay(d, count) <= 3600.0
  {
  }

  /** The first retry waits for the configured delay, each later one twice as long as the one
      before it, and none longer than an hour. */
  lemma DelayDoubles(d: Definition, count: nat)
    requires DefinitionOk(d) && count >= 1
    ensures BaseDelay(d, 1) == d.retryDelay
    ensures BaseDelay(d, count + 1) == Min(2.0 * BaseDelay(d, count), 3600.0)
  {
  }

  /** Scheduled delays are never negative, never above 5400 seconds, and jitter at worst
      halves the exponential base. */
  lemma RetryDelayBounds(d: Definition, count: nat, jitter: real)
    requires DefinitionOk(d) && JitterOk(jitter)
    ensures 0.0 <= LeastDelay(d, count) <= RetryDelay(d, count, jitter) <= 5400.0
  {
    BaseDelayBounds(d, count);
    JitterBounds(BaseDelay(d, count), jitter);
  }

  /** The least delay is one that jitter can choose. */
  lemma LeastDelayAttained(d: Definition, count: nat)
    ensures JitterOk(0.5) && LeastDelay(d, count) == RetryDelay(d, count, 0.5)
  {
  }

  lemma JitterBounds(base: real, jitter: real)
    requires 0.0 <= base <= 3600.0 && JitterOk(jitter)
    ensures 0.0 <= base * 0.5 <= base * jitter <= 5400.0
  {
    assert base * jitter <= base * 1.5;
  }
}
