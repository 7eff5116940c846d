/** What never changes again, and the lease seen as a map from operation to
    queue state. Everything here follows from the shape of a transaction. */
module History {
  import opened Wrappers
  import opened Control
  import opened Lease

  // --------------------------------------------------------------- permanence

  /** What is settled for good. It composes over transactions. */
  ghost predicate Settled(db: Db, db': Db) {
    && |db.queue| <= |db'.queue|
    && (forall i :: 0 <= i < |db.queue| ==> RowOutlasts(db.queue[i], db'.queue[i]))
    && (forall id :: id in db.jobs ==> id in db'.jobs && JobOutlasts(db.jobs[id], db'.jobs[id]))
    && (forall id :: id in db.builds ==> id in db'.builds && BuildMove(db.builds[id], db'.builds[id]))
    && (forall k :: k in db.baselines ==> k in db'.baselines && db'.baselines[k] == db.baselines[k])
  }

  /** A row keeps its key, never reopens, and a released row stays released. */
  predicate RowOutlasts(row: QueueRow, row': QueueRow) {
    && row'.key == row.key
    && (row.state in CLOSED ==> row'.state in CLOSED)
    && (row.state == Released ==> row'.state == Released)
  }

  /** Terminal records are final and a committed root digest stays. */
  predicate JobOutlasts(job: Job, job': Job) {
    && (job.status.Terminal() ==> job' == job)
    && (job.digest.Some? ==> job'.digest == job.digest)
  }

  lemma JobSettles(db: Db, t: Txn, db': Db, id: string)
    requires Shape(db, t, db') && id in db.jobs
    ensures id in db'.jobs && JobOutlasts(db.jobs[id], db'.jobs[id])
  {
  }

  lemma BuildSettles(db: Db, t: Txn, db': Db, id: string)
    requires Shape(db, t, db') && id in db.builds
    ensures id in db'.builds && BuildMove(db.builds[id], db'.builds[id])
  {
  }

  /** A row is left as it was, or makes the transaction's move. */
  lemma RowAfter(db: Db, t: Txn, db': Db, i: nat)
    requires Shape(db, t, db') && i < |db.queue|
    ensures i < |db'.queue| && db'.queue[i].key == db.queue[i].key
    ensures db'.queue[i] == db.queue[i] || RowMove(t, db.queue[i], db'.queue[i])
  {
  }

  lemma EdgeAt(db: Db, t: Txn, db': Db, i: nat)
    requires Shape(db, t, db') && i < |db.queue|
    ensures i < |db'.queue| && db'.queue[i].key == db.queue[i].key
    ensures Edge(t, db.queue[i].key, db.queue[i].state, db'.queue[i].state)
  {
  }

  lemma ShapeSettles(db: Db, t: Txn, db': Db)
    requires Shape(db, t, db')
    ensures Settled(db, db')
  {
    forall i | 0 <= i < |db.queue| ensures i < |db'.queue| && RowOutlasts(db.queue[i], db'.queue[i]) {
      EdgeAt(db, t, db', i);
    }
    forall id | id in db.jobs ensures id in db'.jobs && JobOutlasts(db.jobs[id], db'.jobs[id]) {
      JobSettles(db, t, db', id);
    }
    forall id | id in db.builds ensures id in db'.builds && BuildMove(db.builds[id], db'.builds[id]) {
      BuildSettles(db, t, db', id);
    }
    assert |db.queue| <= |db'.queue| && forall k :: k in db.baselines ==> k in db'.baselines && db'.baselines[k] == db.baselines[k];
  }

  // ------------------------------------------------------ the state of a key

  function At(db: Db, k: Key): Option<QueueState> { StateOf(db.queue, k) }

  lemma AtRow(q: seq<QueueRow>, n: nat)
    requires UniqueKeys(q) && n < |q|
    ensures StateOf(q, q[n].key) == Some(q[n].state)
  {
  }

  lemma RowAt(db: Db, k: Key) returns (n: nat)
    requires Base(db) && At(db, k).Some?
    ensures n < |db.queue| && db.queue[n].key == k && At(db, k) == Some(db.queue[n].state)
    ensures RowRecorded(db, db.queue[n]) && (JobsFit(db) ==> RowCoupled(db, db.queue[n]))
  {
    n := FindRow(db, k);
    AtRow(db.queue, n);
    assert RowRecorded(db, db.queue[n]);
  }

  /** The state of any key after a transaction. */
  predicate KeyMove(t: Txn, k: Key, s: Option<QueueState>, s': Option<QueueState>) {
    match s
    case None => s'.None? || (s' == Some(Queued) && (t.TCreateJob? || t.TCreateBuild?))
    case Some(v) => s'.Some? && Edge(t, k, v, s'.value)
  }

  lemma ShapeMovesKey(db: Db, t: Txn, db': Db, k: Key)
    requires Base(db) && Base(db') && Shape(db, t, db')
    ensures KeyMove(t, k, At(db, k), At(db', k))
  {
    if At(db, k).Some? {
      var i := RowAt(db, k);
      EdgeAt(db, t, db', i);
      AtRow(db'.queue, i);
    } else if At(db', k).Some? {
      var i := FindRow(db', k);
      NewRow(db, t, db', i);
      AtRow(db'.queue, i);
    }
  }

  lemma NewRow(db: Db, t: Txn, db': Db, i: nat)
    requires Shape(db, t, db') && i < |db'.queue|
    requires !HasRow(db.queue, db'.queue[i].key)
    ensures (t.TCreateJob? || t.TCreateBuild?) && db'.queue[i].state == Queued
  {
  }
}
