/**
 What an answer tells a worker about the rest of the run: the messages of a worker, the steps
 that deliver them, and what each kind of reply means from then on.
 */
module Exchange {
  import opened Tables
  import opened Operations
  import opened Invariant
  import opened Runs
  import opened History
  import opened Replay
  import opened Ownership

  /** What the coordinators did before, during and after the exchange. */
  datatype World = World(cfg: Config, states: seq<State>, actions: seq<Action>)

  ghost predicate Sound(w: World) { Run(w.cfg, w.states, w.actions) }

  datatype Identity = Identity(worker: WorkerId, session: Session)

  datatype Payload = Payload(output: Option<Json>, error: Option<string>, retryable: bool)

  datatype Message =
    | Claiming(slot: int, claimId: ClaimId)
    | Starting(job: JobId, token: Token)
    | Renewing(job: JobId, token: Token)
    | Finishing(job: JobId, token: Token, payload: Payload)

  /** An attempt the worker was assigned, and a completion the worker got an answer to. `step` is
      the step that gave the answer, a history value the worker does not look at. */
  datatype Assignment = Assignment(job: JobId, token: Token, step: nat)
  datatype Report = Report(payload: Payload, step: nat)

  /** The action is a delivery of the message. */
  predicate Delivers(me: Identity, m: Message, a: Action) {
    match m
    case Claiming(slot, c) =>
      a.DoClaim? && a.worker == me.worker && a.session == me.session && a.slot == slot && a.claimId == c
    case Starting(j, t) =>
      a.DoStart? && a.worker == me.worker && a.session == me.session && a.job == j && a.token == t
    case Renewing(j, t) =>
      a.DoRenew? && a.worker == me.worker && a.session == me.session && a.job == j && a.token == t
    case Finishing(j, t, p) =>
      && a.DoFinish? && a.worker == me.worker && a.session == me.session && a.job == j && a.token == t
      && a.output == p.output && a.error == p.error && a.retryable == p.retryable
  }

  /** Step `i` delivered the message and replied `reply`. */
  ghost predicate Replied(w: World, me: Identity, m: Message, reply: Reply, i: nat) {
    && |w.states| == |w.actions| + 1 && i < |w.actions|
    && Delivers(me, m, w.actions[i]) && Decide(w.cfg, w.states[i].db, w.actions[i]).reply == reply
  }

  // A claim

  /** The assigned attempt carries the claim's ID, worker and slot in every later state, and no
      other attempt is ever created under that ID. */
  ghost predicate OwnAttempt(w: World, me: Identity, slot: int, c: ClaimId, h: Assignment) {
    && |w.states| == |w.actions| + 1 && h.step < |w.actions|
    && (forall k :: h.step < k < |w.states| ==> Names(w.states[k].db, me, slot, c, h))
    && |Creations(w.cfg, w.states, w.actions, c)| == 1
  }

  predicate Names(db: Database, me: Identity, slot: int, c: ClaimId, h: Assignment) {
    && h.token in db.attempts
    && var row := db.attempts[h.token];
       row.claimId == c && row.workerId == me.worker && row.slot == slot && row.jobId == h.job
  }

  lemma AnsweredClaim(w: World, me: Identity, slot: int, c: ClaimId, reply: Reply, i: nat)
    requires Sound(w) && reply.Assigned? && Replied(w, me, Claiming(slot, c), reply, i)
    ensures OwnAttempt(w, me, slot, c, Assignment(reply.job, reply.token, i))
  {
    var a := w.actions[i];
    assert Next(w.cfg, w.states[i], a, w.states[i + 1]);
    AssignmentCarriesClaim(w.cfg, w.states[i], a, w.states[i + 1]);
    forall k | i < k < |w.states| ensures Names(w.states[k].db, me, slot, c, Assignment(reply.job, reply.token, i)) {
      RunEvolves(w.cfg, w.states, w.actions, i + 1, k);
      assert AttemptEvolves(w.states[i + 1].db.attempts[reply.token], w.states[k].db.attempts[reply.token]);
    }
    CreatedOnce(w.cfg, w.states, w.actions, i + 1, reply.token);
  }

  /** Attempts assigned under different claim IDs are different attempts. */
  lemma AttemptsDiffer(w: World, me: Identity, slot: int, c: ClaimId, h: Assignment,
                       me': Identity, slot': int, c': ClaimId, h': Assignment)
    requires Sound(w) && OwnAttempt(w, me, slot, c, h) && OwnAttempt(w, me', slot', c', h') && c != c'
    ensures h.token != h'.token
  {
    var k := |w.actions|;
    assert Names(w.states[k].db, me, slot, c, h) && Names(w.states[k].db, me', slot', c', h');
  }

  // A start

  lemma AnsweredStart(w: World, me: Identity, h: Assignment, reply: Reply, i: nat)
    requires Sound(w) && !reply.Rejected? && Replied(w, me, Starting(h.job, h.token), reply, i)
    ensures forall k :: i < k < |w.states| ==>
              h.token in w.states[k].db.attempts && w.states[k].db.attempts[h.token].startedAt.Some?
  {
    var a := w.actions[i];
    assert Next(w.cfg, w.states[i], a, w.states[i + 1]);
    RunTables(w.cfg, w.states, w.actions, i);
    AcceptedStart(w.cfg, w.states[i], a, w.states[i + 1]);
    forall k | i < k < |w.states|
      ensures h.token in w.states[k].db.attempts && w.states[k].db.attempts[h.token].startedAt.Some?
    {
      RunEvolves(w.cfg, w.states, w.actions, i + 1, k);
      assert AttemptEvolves(w.states[i + 1].db.attempts[h.token], w.states[k].db.attempts[h.token]);
    }
  }

  lemma AcceptedStart(cfg: Config, s: State, a: Action, s': State)
    requires AttemptsOk(s.db) && Next(cfg, s, a, s') && a.DoStart? && !Decide(cfg, s.db, a).reply.Rejected?
    ensures a.token in s'.db.attempts && s'.db.attempts[a.token].startedAt.Some?
  {
    assert AttemptRowOk(s.db, a.token);
  }

  // A completion

  /** Exactly this payload is on record for this attempt in every later state. */
  ghost predicate OnRecord(w: World, h: Assignment, r: Report) {
    forall k :: r.step < k < |w.states| ==>
      && h.token in w.states[k].db.attempts && w.states[k].db.attempts[h.token].finishedAt.Some?
      && SameCompletion(w.states[k].db.attempts[h.token], r.payload.output, r.payload.error)
  }

  lemma AnsweredFinish(w: World, me: Identity, h: Assignment, p: Payload, reply: Reply, i: nat)
    requires Sound(w) && !reply.Rejected? && Replied(w, me, Finishing(h.job, h.token, p), reply, i)
    ensures OnRecord(w, h, Report(p, i))
  {
    forall k | i < k < |w.states|
      ensures h.token in w.states[k].db.attempts && w.states[k].db.attempts[h.token].finishedAt.Some?
      ensures SameCompletion(w.states[k].db.attempts[h.token], p.output, p.error)
    {
      AcknowledgedIsRecorded(w.cfg, w.states, w.actions, i, k);
    }
  }

  /** No delivery of this completion is accepted in any later state. */
  ghost predicate NeverTaken(w: World, me: Identity, h: Assignment, r: Report) {
    forall k, b :: r.step < k < |w.states| && Delivers(me, Finishing(h.job, h.token, r.payload), b)
                   && Ordered(b.at) && w.states[k].clock <= b.at.first ==>
      Decide(w.cfg, w.states[k].db, b).reply.Rejected?
  }

  lemma RefusedFinish(w: World, me: Identity, h: Assignment, p: Payload, e: Failure, started: nat, i: nat)
    requires Sound(w) && e != Unauthorized && Replied(w, me, Finishing(h.job, h.token, p), Rejected(e), i)
    requires started < i
    requires forall k :: started < k < |w.states| ==>
               h.token in w.states[k].db.attempts && w.states[k].db.attempts[h.token].startedAt.Some?
    ensures NeverTaken(w, me, h, Report(p, i))
  {
    forall k, b | i < k < |w.states| && Delivers(me, Finishing(h.job, h.token, p), b)
                  && Ordered(b.at) && w.states[k].clock <= b.at.first
      ensures Decide(w.cfg, w.states[k].db, b).reply.Rejected?
    {
      RefusalIsFinal(w.cfg, w.states, w.actions, i, k, b);
    }
  }
}
