/**
 The worker rows: drain intent, failure detection, and slots against capacity.
 */
module Workers {
  import opened Tables
  import opened Protocol
  import opened Invariant

  /** Drain intent outlives every state but is only ever masked by DEAD, and DEAD is only
      ever declared after the configured silence. */
  predicate WorkerRowOk(cfg: Config, w: Worker, now: real) {
    && (w.drainRequested ==> w.state.Draining? || w.state.Dead?)
    && (w.state.Draining? ==> w.drainRequested)
    && (w.state.Dead? ==> w.lastSeen + cfg.deadAfter <= now)
    && (w.state.Suspect? ==> w.lastSeen + cfg.suspectAfter < now)
  }

  /** An attempt was claimed by a registration that exists, within that one's capacity. */
  predicate SlotRowOk(db: Database, t: Token)
    requires t in db.attempts && db.attempts[t].workerId in db.workers
  {
    var a := db.attempts[t];
    var w := db.workers[a.workerId];
    0 <= a.slot && a.epoch <= w.epoch && (a.epoch == w.epoch ==> a.slot < w.capacity)
  }

  ghost predicate WorkersOk(cfg: Config, db: Database, now: real) {
    && (forall w :: w in db.workers ==> WorkerRowOk(cfg, db.workers[w], now))
    && (forall t :: t in db.attempts ==> db.attempts[t].workerId in db.workers && SlotRowOk(db, t))
  }

  lemma WorkersKept(cfg: Config, db: Database, e: Effect, now: real, later: real)
    requires WorkersOk(cfg, db, now) && Guard(cfg, db, e, now, later)
    ensures Refers(db, e) && WorkersOk(cfg, Apply(db, e), later)
  {
  }

  /** The attempts a worker holds under its current registration. */
  function HeldBy(db: Database, w: WorkerId): (r: set<Token>)
    requires w in db.workers
  {
    set t | t in db.attempts && Unfinished(db, t)
            && db.attempts[t].workerId == w && db.attempts[t].epoch == db.workers[w].epoch
  }

  /** Distinct numbers below `n` number at most `n`. */
  lemma {:induction false} Pigeonhole(s: set<Token>, slots: map<Token, int>, n: nat)
    requires forall t :: t in s ==> t in slots && 0 <= slots[t] < n
    requires forall t, u :: t in s && u in s && slots[t] == slots[u] ==> t == u
    ensures |s| <= n
  {
    if n == 0 {
      assert s == {};
    } else if t :| t in s && slots[t] == n - 1 {
      Pigeonhole(s - {t}, slots, n - 1);
    } else {
      Pigeonhole(s, slots, n - 1);
    }
  }

  /** Attempts claimed under the current registration never exceed its capacity. (Attempts
      of an earlier registration of the same identity may still be unfinished beside them.) */
  lemma WithinCapacity(cfg: Config, db: Database, now: real, w: WorkerId)
    requires SlotsUnique(db) && WorkersOk(cfg, db, now) && w in db.workers
    ensures |HeldBy(db, w)| <= db.workers[w].capacity
  {
    var s := HeldBy(db, w);
    var slots := map t | t in s :: db.attempts[t].slot;
    forall t | t in s ensures 0 <= slots[t] < db.workers[w].capacity {
      assert SlotRowOk(db, t);
    }
    Pigeonhole(s, slots, db.workers[w].capacity);
  }
}
