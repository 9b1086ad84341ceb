/**
 Claims over an unreliable network: any claim request may be lost, delayed or delivered
 any number of times, so a run may perform it at any point and as often as it likes.
 */
module Replay {
  import opened Tables
  import opened Protocol
  import opened Operations
  import opened Invariant
  import opened Runs
  import opened History

  /** Another delivery of the request in `a`: the same identity, slot and claim ID. */
  predicate Redelivers(a: Action, b: Action) {
    && a.DoClaim? && b.DoClaim?
    && b.worker == a.worker && b.session == a.session && b.slot == a.slot && b.claimId == a.claimId
  }

  /** An assignment always names the one attempt that carries the request's claim ID. */
  lemma AssignmentCarriesClaim(cfg: Config, s: State, a: Action, s': State)
    requires Next(cfg, s, a, s') && a.DoClaim? && Decide(cfg, s.db, a).reply.Assigned?
    ensures var r := Decide(cfg, s.db, a).reply;
            && r.token in s'.db.attempts
            && s'.db.attempts[r.token].claimId == a.claimId
            && s'.db.attempts[r.token].workerId == a.worker && s'.db.attempts[r.token].slot == a.slot
            && s'.db.attempts[r.token].jobId == r.job && s'.db.attempts[r.token].finishedAt.None?
            && a.worker in s'.db.workers && s'.db.workers[a.worker].session == a.session
            && 0 <= a.slot < s'.db.workers[a.worker].capacity
  {
  }

  /** The `i`-th action created an attempt. */
  ghost predicate Creates(cfg: Config, states: seq<State>, actions: seq<Action>, i: nat)
    requires |states| == |actions| + 1 && i < |actions|
  {
    Decide(cfg, states[i].db, actions[i]).effect.AddAttempt?
  }

  /** All assignments answered to one claim ID, in the whole run and to whomever, name one
      attempt of one job; and at most one delivery creates it. */
  lemma OneAttemptPerClaim(cfg: Config, states: seq<State>, actions: seq<Action>, i: nat, k: nat)
    requires Run(cfg, states, actions) && i < k < |actions|
    requires actions[i].DoClaim? && actions[k].DoClaim? && actions[k].claimId == actions[i].claimId
    requires Decide(cfg, states[i].db, actions[i]).reply.Assigned?
    ensures Decide(cfg, states[k].db, actions[k]).reply.Assigned? ==>
              Decide(cfg, states[k].db, actions[k]).reply == Decide(cfg, states[i].db, actions[i]).reply
    ensures !Creates(cfg, states, actions, k)
  {
    var t := Decide(cfg, states[i].db, actions[i]).reply.token;
    var c := actions[i].claimId;
    assert Next(cfg, states[i], actions[i], states[i + 1]);
    AssignmentCarriesClaim(cfg, states[i], actions[i], states[i + 1]);
    RunEvolves(cfg, states, actions, i + 1, k);
    assert AttemptEvolves(states[i + 1].db.attempts[t], states[k].db.attempts[t]);
    assert HasClaim(states[k].db, c, t);
    RunTables(cfg, states, actions, k);
    KnownClaim(cfg, states[k].db, actions[k], t);
  }

  /** What a claim whose ID is already known answers: never a new attempt. */
  lemma KnownClaim(cfg: Config, db: Database, a: Action, t: Token)
    requires ClaimsUnique(db) && AttemptsOk(db) && a.DoClaim? && HasClaim(db, a.claimId, t)
    ensures var d := Decide(cfg, db, a);
            var row := db.attempts[t];
            && d.effect == NoEffect
            && (d.reply.Assigned? ==> d.reply == Assigned(row.jobId, t))
            && (row.finishedAt.Some? ==> d.reply.Rejected?)
            && (Authorized(db, a.worker, a.session) && 0 <= a.slot < db.workers[a.worker].capacity
                && row.workerId == a.worker && row.slot == a.slot && row.finishedAt.None? ==>
                  d.reply == Assigned(row.jobId, t))
  {
  }

  /** A redelivered claim, in any later state: while its attempt is unfinished and the identity
      has not been taken over, it answers the same assignment and changes nothing, whatever
      the worker's state; once the attempt has finished it is refused. */
  lemma RedeliveryIsSafe(cfg: Config, states: seq<State>, actions: seq<Action>, i: nat, k: nat, b: Action)
    requires Run(cfg, states, actions) && i < |actions| && i < k < |states|
    requires actions[i].DoClaim? && Decide(cfg, states[i].db, actions[i]).reply.Assigned?
    requires Redelivers(actions[i], b)
    ensures var r := Decide(cfg, states[i].db, actions[i]).reply;
            var w := actions[i].worker;
            && r.token in states[k].db.attempts && w in states[i + 1].db.workers && w in states[k].db.workers
            && Decide(cfg, states[k].db, b).effect == NoEffect
            && (states[k].db.attempts[r.token].finishedAt.Some? ==> Decide(cfg, states[k].db, b).reply.Rejected?)
            && (states[k].db.attempts[r.token].finishedAt.None?
                && states[k].db.workers[w].epoch == states[i + 1].db.workers[w].epoch ==>
                  Decide(cfg, states[k].db, b).reply == r)
  {
    var r := Decide(cfg, states[i].db, actions[i]).reply;
    var w := actions[i].worker;
    assert Next(cfg, states[i], actions[i], states[i + 1]);
    AssignmentCarriesClaim(cfg, states[i], actions[i], states[i + 1]);
    RunEvolves(cfg, states, actions, i + 1, k);
    assert AttemptEvolves(states[i + 1].db.attempts[r.token], states[k].db.attempts[r.token]);
    assert WorkerEvolves(states[i + 1].db.workers[w], states[k].db.workers[w]);
    assert HasClaim(states[k].db, b.claimId, r.token);
    RunTables(cfg, states, actions, k);
    KnownClaim(cfg, states[k].db, b, r.token);
  }

  /** The steps that created an attempt under claim ID `c`. */
  ghost function Creations(cfg: Config, states: seq<State>, actions: seq<Action>, c: ClaimId): set<nat>
    requires |states| == |actions| + 1
  {
    set i: nat | i < |actions| && actions[i].DoClaim? && actions[i].claimId == c && Creates(cfg, states, actions, i)
  }

  lemma AtMostOne(s: set<nat>)
    requires forall x, y :: x in s && y in s ==> x == y
    ensures |s| <= 1
  {
    if x :| x in s {
      assert s == {x};
    }
  }

  /** However often its requests are delivered, a claim ID creates at most one attempt. */
  lemma AtMostOneCreation(cfg: Config, states: seq<State>, actions: seq<Action>, c: ClaimId)
    requires Run(cfg, states, actions)
    ensures |Creations(cfg, states, actions, c)| <= 1
  {
    var s := Creations(cfg, states, actions, c);
    forall x, y | x in s && y in s ensures x == y {
      if x < y {
        CreatedBefore(cfg, states, actions, x, y);
      } else if y < x {
        CreatedBefore(cfg, states, actions, y, x);
      }
    }
    AtMostOne(s);
  }

  lemma CreatedBefore(cfg: Config, states: seq<State>, actions: seq<Action>, i: nat, k: nat)
    requires Run(cfg, states, actions) && i < k < |actions| && Creates(cfg, states, actions, i)
    requires actions[i].DoClaim? && actions[k].DoClaim? && actions[k].claimId == actions[i].claimId
    ensures !Creates(cfg, states, actions, k)
  {
    CreationAnswers(cfg, states[i].db, actions[i]);
    OneAttemptPerClaim(cfg, states, actions, i, k);
  }

  lemma CreationAnswers(cfg: Config, db: Database, a: Action)
    requires a.DoClaim? && Decide(cfg, db, a).effect.AddAttempt?
    ensures Decide(cfg, db, a).reply.Assigned?
  {
  }

  /** Every attempt was created by some step, under its own claim ID. */
  lemma {:induction false} CreatedBy(cfg: Config, states: seq<State>, actions: seq<Action>, k: nat, t: Token)
    returns (i: nat)
    requires Run(cfg, states, actions) && k < |states| && t in states[k].db.attempts
    ensures i < k && actions[i].DoClaim? && actions[i].claimId == states[k].db.attempts[t].claimId
    ensures Creates(cfg, states, actions, i)
  {
    var m := k - 1;
    assert Next(cfg, states[m], actions[m], states[m + 1]);
    if t in states[m].db.attempts {
      i := CreatedBy(cfg, states, actions, m, t);
      RunEvolves(cfg, states, actions, m, k);
      assert AttemptEvolves(states[m].db.attempts[t], states[k].db.attempts[t]);
    } else {
      i := m;
      CreatesRow(cfg, states[m], actions[m], states[m + 1], t);
    }
  }

  lemma CreatesRow(cfg: Config, s: State, a: Action, s': State, t: Token)
    requires Next(cfg, s, a, s') && t in s'.db.attempts && t !in s.db.attempts
    ensures a.DoClaim? && Decide(cfg, s.db, a).effect.AddAttempt? && a.claimId == s'.db.attempts[t].claimId
  {
  }

  /** The claim ID of an existing attempt has created exactly one. */
  lemma CreatedOnce(cfg: Config, states: seq<State>, actions: seq<Action>, k: nat, t: Token)
    requires Run(cfg, states, actions) && k < |states| && t in states[k].db.attempts
    ensures |Creations(cfg, states, actions, states[k].db.attempts[t].claimId)| == 1
  {
    var c := states[k].db.attempts[t].claimId;
    var i := CreatedBy(cfg, states, actions, k, t);
    assert i in Creations(cfg, states, actions, c);
    AtMostOneCreation(cfg, states, actions, c);
  }
}
