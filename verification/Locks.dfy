/**
 Deadlock freedom at lock granularity.

 A transaction blocks only on the admission lock, then a worker row, then a job row, then
 an entry of the unique claim index; sweeps, detection and claims take further rows by
 skipping locked ones.
 */
module Locks {
  import opened Tables

  datatype Resource = AdmissionLock | SweepLock | WorkerRow(w: WorkerId) | JobRow(j: JobId) | ClaimKey(c: ClaimId)

  /** `Wait` blocks until the resource is free; `Skip` passes on if it is not. */
  datatype Request = Wait(r: Resource) | Skip(r: Resource)

  function Rank(r: Resource): nat {
    match r
    case AdmissionLock => 0
    case SweepLock => 0
    case WorkerRow(_) => 1
    case JobRow(_) => 2
    case ClaimKey(_) => 3
  }

  /** The transactions of the coordinator. */
  datatype Transaction =
    | Submission(parent: Option<JobId>)
    | ClaimWork(worker: WorkerId, queue: seq<JobId>, claim: ClaimId)
    | JobRequest(worker: WorkerId, job: JobId)
    | Cancellation(job: JobId)
    | WorkerRequest(worker: WorkerId)
    | RecoverySweep(expired: seq<JobId>, blocked: seq<JobId>)
    | WorkerDetection(workers: seq<WorkerId>)

  function SkipJobs(ids: seq<JobId>): (r: seq<Request>)
    ensures forall i :: 0 <= i < |r| ==> r[i].Skip? && r[i].r.JobRow?
  {
    if ids == [] then [] else [Skip(JobRow(ids[0]))] + SkipJobs(ids[1..])
  }

  function SkipWorkers(ids: seq<WorkerId>): (r: seq<Request>)
    ensures forall i :: 0 <= i < |r| ==> r[i].Skip?
  {
    if ids == [] then [] else [Skip(WorkerRow(ids[0]))] + SkipWorkers(ids[1..])
  }

  /** The locks a transaction asks for, in order. A submission with a parent ends by locking
      the parent row for its foreign key; worker requests lock the worker row to check the
      session, and a claim locks it again; inserting its attempt waits for any transaction that
      has inserted the same claim ID and not yet ended. */
  function Program(tx: Transaction): seq<Request> {
    match tx
    case Submission(parent) => [Wait(AdmissionLock)] + if parent.Some? then [Wait(JobRow(parent.value))] else []
    case ClaimWork(w, queue, c) =>
      [Wait(WorkerRow(w)), Wait(WorkerRow(w))] + SkipJobs(queue) + [Wait(ClaimKey(c))]
    case JobRequest(w, j) => [Wait(WorkerRow(w)), Wait(JobRow(j))]
    case Cancellation(j) => [Wait(JobRow(j))]
    case WorkerRequest(w) => [Wait(WorkerRow(w))]
    case RecoverySweep(expired, blocked) => [Skip(SweepLock)] + SkipJobs(expired) + SkipJobs(blocked)
    case WorkerDetection(ids) => SkipWorkers(ids)
  }

  /** Whoever blocks has so far asked only for the same resource or for lower ranks. */
  predicate Ascending(p: seq<Request>) {
    forall i, k :: 0 <= i < k < |p| && p[k].Wait? ==> p[i].r == p[k].r || Rank(p[i].r) < Rank(p[k].r)
  }

  lemma ProgramsAscend(tx: Transaction)
    ensures Ascending(Program(tx))
  {
  }

  // The lock table as a state machine

  type TxId = nat
  datatype Process = Process(tx: Transaction, pc: nat)

  datatype LockTable = LockTable(holder: map<Resource, TxId>, active: map<TxId, Process>)

  datatype LockStep = Begin(id: TxId, tx: Transaction) | Advance(id: TxId) | End(id: TxId)

  predicate Pending(s: LockTable, id: TxId) {
    id in s.active && s.active[id].pc < |Program(s.active[id].tx)|
  }

  function NextRequest(s: LockTable, id: TxId): Request
    requires Pending(s, id)
  {
    Program(s.active[id].tx)[s.active[id].pc]
  }

  predicate FreeFor(s: LockTable, r: Resource, id: TxId) {
    r !in s.holder || s.holder[r] == id
  }

  /** `a` is blocked by `b`. */
  predicate WaitsFor(s: LockTable, a: TxId, b: TxId) {
    && Pending(s, a) && NextRequest(s, a).Wait?
    && NextRequest(s, a).r in s.holder && s.holder[NextRequest(s, a).r] == b && a != b
  }

  /** A transaction may end at any time: by committing, or by failing and rolling back. */
  predicate CanStep(s: LockTable, step: LockStep) {
    match step
    case Begin(id, _) => id !in s.active
    case Advance(id) => Pending(s, id) && (NextRequest(s, id).Wait? ==> FreeFor(s, NextRequest(s, id).r, id))
    case End(id) => id in s.active
  }

  function Take(s: LockTable, step: LockStep): LockTable
    requires CanStep(s, step)
  {
    match step
    case Begin(id, tx) => s.(active := s.active[id := Process(tx, 0)])
    case Advance(id) =>
      var q := NextRequest(s, id);
      LockTable(if FreeFor(s, q.r, id) then s.holder[q.r := id] else s.holder,
                s.active[id := s.active[id].(pc := s.active[id].pc + 1)])
    case End(id) =>
      LockTable(map r | r in s.holder && s.holder[r] != id :: s.holder[r], s.active - {id})
  }

  ghost predicate LockRun(states: seq<LockTable>, steps: seq<LockStep>) {
    && |states| == |steps| + 1
    && states[0] == LockTable(map[], map[])
    && forall i :: 0 <= i < |steps| ==> CanStep(states[i], steps[i]) && states[i + 1] == Take(states[i], steps[i])
  }

  predicate Requested(run: Process, r: Resource) {
    exists i :: 0 <= i < run.pc && i < |Program(run.tx)| && Program(run.tx)[i].r == r
  }

  /** Locks are held by active transactions that have asked for them. */
  ghost predicate LocksOk(s: LockTable) {
    forall r :: r in s.holder ==> s.holder[r] in s.active && Requested(s.active[s.holder[r]], r)
  }

  lemma LocksKept(s: LockTable, step: LockStep)
    requires LocksOk(s) && CanStep(s, step)
    ensures LocksOk(Take(s, step))
  {
    var s' := Take(s, step);
    forall r | r in s'.holder ensures s'.holder[r] in s'.active && Requested(s'.active[s'.holder[r]], r) {
      if r in s.holder && s.holder[r] == s'.holder[r] {
        var run := s.active[s.holder[r]];
        var i :| 0 <= i < run.pc && i < |Program(run.tx)| && Program(run.tx)[i].r == r;
        var run' := s'.active[s'.holder[r]];
        assert run'.tx == run.tx && i < run'.pc;
      } else {
        var run' := s'.active[step.id];
        assert Program(run'.tx)[run'.pc - 1].r == r;
      }
    }
  }

  lemma {:induction false} LockInvariant(states: seq<LockTable>, steps: seq<LockStep>, i: nat)
    requires LockRun(states, steps) && i < |states|
    ensures LocksOk(states[i])
  {
    if i > 0 {
      LockInvariant(states, steps, i - 1);
      assert states[i - 1 + 1] == Take(states[i - 1], steps[i - 1]);
      LocksKept(states[i - 1], steps[i - 1]);
    }
  }

  /** The rank of what a transaction asks for next, above all others if that is nothing. */
  function RankOf(s: LockTable, a: TxId): nat {
    if Pending(s, a) then Rank(NextRequest(s, a).r) else 4
  }

  /** A blocked transaction that blocks another waits for something of higher rank. */
  lemma RanksRise(s: LockTable, a: TxId, b: TxId, c: TxId)
    requires LocksOk(s) && WaitsFor(s, a, b) && WaitsFor(s, b, c)
    ensures RankOf(s, a) < RankOf(s, b)
  {
    var r := NextRequest(s, a).r;
    var run := s.active[b];
    ProgramsAscend(run.tx);
    var i :| 0 <= i < run.pc && i < |Program(run.tx)| && Program(run.tx)[i].r == r;
    assert Program(run.tx)[run.pc].Wait?;
  }

  /** Each transaction of the sequence waits for the next one. */
  predicate WaitChain(s: LockTable, c: seq<TxId>) {
    |c| <= 1 || (WaitsFor(s, c[0], c[1]) && WaitChain(s, c[1..]))
  }

  lemma {:induction false} ChainRises(s: LockTable, c: seq<TxId>, d: TxId)
    requires LocksOk(s) && |c| >= 1 && WaitChain(s, c) && WaitsFor(s, c[|c| - 1], d)
    ensures RankOf(s, c[0]) + |c| - 1 <= RankOf(s, c[|c| - 1])
  {
    if |c| >= 2 {
      var rest := c[1..];
      assert rest[0] == c[1] && rest[|rest| - 1] == c[|c| - 1];
      ChainRises(s, rest, d);
      if |c| == 2 {
        RanksRise(s, c[0], c[1], d);
      } else {
        assert rest[1] == c[2] && WaitsFor(s, rest[0], rest[1]);
        RanksRise(s, c[0], c[1], c[2]);
      }
    }
  }

  /** No reachable lock table has a cycle of waiting transactions, of any length. */
  lemma NoDeadlock(states: seq<LockTable>, steps: seq<LockStep>, i: nat, c: seq<TxId>)
    requires LockRun(states, steps) && i < |states| && |c| >= 1
    ensures !(WaitChain(states[i], c) && WaitsFor(states[i], c[|c| - 1], c[0]))
  {
    LockInvariant(states, steps, i);
    if WaitChain(states[i], c) && WaitsFor(states[i], c[|c| - 1], c[0]) {
      ChainRises(states[i], c, c[0]);
      if |c| == 1 {
        assert false;
      } else {
        RanksRise(states[i], c[|c| - 1], c[0], c[1]);
        assert false;
      }
    }
  }

  /** Whenever transactions are active, some active one is not blocked. */
  lemma SomeoneCanMove(states: seq<LockTable>, steps: seq<LockStep>, i: nat, id: TxId)
    requires LockRun(states, steps) && i < |states| && id in states[i].active
    ensures exists b :: b in states[i].active && !exists d :: WaitsFor(states[i], b, d)
  {
    LockInvariant(states, steps, i);
    FindUnblocked(states[i], id);
  }

  lemma {:induction false} FindUnblocked(s: LockTable, a: TxId)
    requires LocksOk(s) && a in s.active
    ensures exists b :: b in s.active && !exists d :: WaitsFor(s, b, d)
    decreases 4 - RankOf(s, a)
  {
    if b :| WaitsFor(s, a, b) {
      if d :| WaitsFor(s, b, d) {
        RanksRise(s, a, b, d);
        FindUnblocked(s, b);
      }
    }
  }
}
