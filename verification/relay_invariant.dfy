/** What holds of the outbox and the Kafka log with any number of relays and crashes.

    `Foremost` is the fact behind the order of the log: when a row was fetched, no pending
    event of its channel came before it, and events that were not pending then never become
    pending again. The invariant says so of every row a relay holds and of every record in the
    log, and the lemmas show that it survives whatever happens to the outbox later. */
module RelayInvariant {
  import opened Schema
  import opened Counting
  import opened OutboxHeads
  import opened RelayScan
  import opened RelaySystem
  import opened RelayLease

  // ---------- vocabulary ----------

  /** The Kafka log has a record of event `e`. */
  ghost predicate Logged(w: World, e: Id) {
    exists k :: 0 <= k < |w.log| && w.log[k].row.id == e
  }

  /** Event `e` was among the first `n` to enter the outbox. */
  ghost predicate Early(w: World, e: Id, n: nat) {
    exists k :: 0 <= k < n && k < |w.arrivals| && w.arrivals[k] == e
  }

  /** No pending event that had entered the outbox at `n` comes before `r` in its channel. */
  ghost predicate Foremost(w: World, r: Row, n: nat) {
    forall e | e in w.rows && Early(w, e, n) && w.rows[e].status.Pending?
               && w.rows[e].doc.partitionKey == r.doc.partitionKey && e != r.id ::
      Sooner(r, w.rows[e])
  }

  // ---------- the invariant ----------

  ghost predicate RowFits(w: World, e: Id)
    requires e in w.rows
  {
    w.rows[e].id == e && w.rows[e].attempts >= 0 && Early(w, e, |w.arrivals|)
      && (w.rows[e].status.Published? ==> Logged(w, e))
  }

  /** A row some relay fetched when `n` events had entered the outbox. */
  ghost predicate TakenFits(w: World, r: Row, n: nat) {
    && r.id in w.rows && w.rows[r.id].doc == r.doc && r.status.Pending? && r.attempts >= 0
    && n <= |w.arrivals| && Early(w, r.id, n) && Foremost(w, r, n)
  }

  /** A log record is an outbox envelope, keyed by its own channel. */
  ghost predicate RecordFits(w: World, rec: Record) {
    && TakenFits(w, rec.row, rec.fetchedAt)
    && rec.key == w.rows[rec.row.id].doc.partitionKey && rec.event == w.rows[rec.row.id].doc.event
  }

  ghost predicate BatchFits(w: World, batch: seq<Row>, n: nat) {
    && (forall k {:trigger batch[k]} :: 0 <= k < |batch| ==> TakenFits(w, batch[k], n))
    && (forall j, k :: 0 <= j < k < |batch| ==> batch[j].doc.partitionKey != batch[k].doc.partitionKey)
  }

  ghost predicate WorkerFits(w: World, r: Row, worker: Worker) {
    && (worker == Calling(true) || worker == Settling(Delivered) ==> Logged(w, r.id))
    && (worker.Settling? && worker.verdict.Retry? ==> r.attempts + 1 < MAX_PUBLISH_ATTEMPTS)
    && (worker.Settling? && worker.verdict.Park? ==>
          worker.verdict.attempts == r.attempts + 1 >= MAX_PUBLISH_ATTEMPTS)
  }

  ghost predicate PhaseFits(w: World, i: Id) {
    var p := PhaseOf(w, i);
    && (p.Fetched? ==> BatchFits(w, p.heads, p.fetchedAt))
    && (p.Working? ==>
          && BatchFits(w, p.batch, p.fetchedAt) && |p.workers| == |p.batch|
          && forall k {:trigger p.workers[k]} :: 0 <= k < |p.batch| ==> WorkerFits(w, p.batch[k], p.workers[k]))
  }

  ghost predicate ArrivalsFit(w: World) {
    Distinct(w.arrivals) && forall k :: 0 <= k < |w.arrivals| ==> w.arrivals[k] in w.rows
  }

  ghost predicate StoreInv(w: World) {
    && ArrivalsFit(w)
    && (forall e {:trigger RowFits(w, e)} | e in w.rows :: RowFits(w, e))
    && (forall k {:trigger w.log[k]} :: 0 <= k < |w.log| ==> RecordFits(w, w.log[k]))
    && (forall i {:trigger PhaseFits(w, i)} :: PhaseFits(w, i))
  }

  // ---------- what later states keep ----------

  /** The document never changes, and neither does anything else once it is not pending. */
  predicate RowEvolves(a: Row, b: Row) {
    a.id == b.id && a.doc == b.doc && (!a.status.Pending? ==> a == b)
  }

  ghost predicate Evolves(w: World, u: World) {
    && w.clock <= u.clock && w.arrivals <= u.arrivals && w.log <= u.log
    && (forall e | e in w.rows :: e in u.rows && RowEvolves(w.rows[e], u.rows[e]))
    && (forall e | e in u.rows && e !in w.rows :: !Early(u, e, |w.arrivals|))
  }

  lemma LoggedStays(w: World, u: World, e: Id)
    requires Evolves(w, u) && Logged(w, e)
    ensures Logged(u, e)
  {
    var k :| 0 <= k < |w.log| && w.log[k].row.id == e;
    assert u.log[k] == w.log[k];
  }

  lemma EarlyStays(w: World, u: World, e: Id, n: nat)
    requires w.arrivals <= u.arrivals && n <= |w.arrivals|
    ensures Early(w, e, n) <==> Early(u, e, n)
  {
    assert forall k :: 0 <= k < n ==> w.arrivals[k] == u.arrivals[k];
  }

  lemma TakenStays(w: World, u: World, r: Row, n: nat)
    requires Evolves(w, u) && TakenFits(w, r, n)
    ensures TakenFits(u, r, n)
  {
    EarlyStays(w, u, r.id, n);
    forall e | e in u.rows && Early(u, e, n) && u.rows[e].status.Pending?
               && u.rows[e].doc.partitionKey == r.doc.partitionKey && e != r.id
      ensures Sooner(r, u.rows[e])
    {
      EarlyStays(w, u, e, n);
      assert Early(u, e, |w.arrivals|);
      assert Sooner(r, w.rows[e]);
    }
  }

  lemma BatchStays(w: World, u: World, batch: seq<Row>, n: nat)
    requires Evolves(w, u) && BatchFits(w, batch, n)
    ensures BatchFits(u, batch, n)
  {
    forall k {:trigger batch[k]} | 0 <= k < |batch| ensures TakenFits(u, batch[k], n) {
      TakenStays(w, u, batch[k], n);
    }
  }

  lemma RecordStays(w: World, u: World, rec: Record)
    requires Evolves(w, u) && RecordFits(w, rec)
    ensures RecordFits(u, rec)
  {
    TakenStays(w, u, rec.row, rec.fetchedAt);
  }

  lemma WorkerStays(w: World, u: World, r: Row, worker: Worker)
    requires Evolves(w, u) && WorkerFits(w, r, worker)
    ensures WorkerFits(u, r, worker)
  {
    if Logged(w, r.id) { LoggedStays(w, u, r.id); }
  }

  /** A relay that does not move keeps its part. */
  lemma PhaseStays(w: World, u: World, i: Id)
    requires Evolves(w, u) && PhaseFits(w, i) && PhaseOf(u, i) == PhaseOf(w, i)
    ensures PhaseFits(u, i)
  {
    var p := PhaseOf(w, i);
    if p.Fetched? { BatchStays(w, u, p.heads, p.fetchedAt); }
    if p.Working? {
      BatchStays(w, u, p.batch, p.fetchedAt);
      forall k {:trigger p.workers[k]} | 0 <= k < |p.batch| ensures WorkerFits(u, p.batch[k], p.workers[k]) {
        WorkerStays(w, u, p.batch[k], p.workers[k]);
      }
    }
  }

  /** What one step has to establish: what it changed, the rest follows. */
  lemma StepKeeps(w: World, u: World, i: Id)
    requires StoreInv(w) && Evolves(w, u) && ArrivalsFit(u)
    requires forall j | j != i :: PhaseOf(u, j) == PhaseOf(w, j)
    requires PhaseFits(u, i)
    requires forall e {:trigger RowFits(u, e)} | e in u.rows && (e !in w.rows || w.rows[e] != u.rows[e]) :: RowFits(u, e)
    requires forall k {:trigger u.log[k]} :: |w.log| <= k < |u.log| ==> RecordFits(u, u.log[k])
    ensures StoreInv(u)
  {
    forall j {:trigger PhaseFits(u, j)} ensures PhaseFits(u, j) {
      assert PhaseFits(w, j);
      if j != i { PhaseStays(w, u, j); }
    }
    forall e {:trigger RowFits(u, e)} | e in u.rows ensures RowFits(u, e) {
      if e in w.rows && w.rows[e] == u.rows[e] { RowStays(w, u, e); }
    }
    forall k {:trigger u.log[k]} | 0 <= k < |u.log| ensures RecordFits(u, u.log[k]) {
      if k < |w.log| {
        assert u.log[k] == w.log[k];
        RecordStays(w, u, w.log[k]);
      }
    }
  }

  lemma RowStays(w: World, u: World, e: Id)
    requires StoreInv(w) && Evolves(w, u) && e in w.rows && u.rows[e] == w.rows[e]
    ensures RowFits(u, e)
  {
    assert RowFits(w, e);
    var k :| 0 <= k < |w.arrivals| && w.arrivals[k] == e;
    assert u.arrivals[k] == e;
    if Logged(w, e) { LoggedStays(w, u, e); }
  }
}
