/** What holds when no two relays overlap: the order of each channel in the Kafka log, and the
    budget of three attempts.

    Without overlap, what a relay holds of an event it has not settled is what the outbox
    holds. So a record is appended only for a pending event, which gives the order of the log,
    and a state write finds the attempt count it was decided on, which gives the budget. */
module RelayOrder {
  import opened Schema
  import opened Counting
  import opened OutboxHeads
  import opened RelayScan
  import opened RelaySystem
  import opened RelayLease
  import opened RelayInvariant
  import opened RelaySteps
  import opened RelayReach

  /** What a relay holds of events it has not settled is what the outbox holds. */
  ghost predicate FreshAt(w: World, i: Id) {
    var p := PhaseOf(w, i);
    && (p.Fetched? ==> forall k {:trigger p.heads[k]} :: 0 <= k < |p.heads| ==>
          p.heads[k].id in w.rows && w.rows[p.heads[k].id] == p.heads[k])
    && (p.Working? ==> forall k {:trigger p.batch[k]} ::
      0 <= k < |p.batch| && k < |p.workers| && !p.workers[k].Settled? ==>
          p.batch[k].id in w.rows && w.rows[p.batch[k].id] == p.batch[k])
    && (InPhase(p) ==> forall k {:trigger w.log[k]} :: 0 <= k < |w.log| ==> w.log[k].fetchedAt <= p.fetchedAt)
  }

  /** Three attempts in all: a pending event has spent at most two, a parked one all three. */
  ghost predicate WithinBudget(r: Row) {
    0 <= r.attempts && if r.status.Parked? then r.attempts == MAX_PUBLISH_ATTEMPTS else r.attempts < MAX_PUBLISH_ATTEMPTS
  }

  /** If `later` comes before `earlier` in the order of their channel, although it was
      published after it, then it was not yet in the outbox when `earlier` was fetched. */
  ghost predicate PairOrdered(w: World, earlier: Record, later: Record) {
    earlier.key == later.key && Sooner(later.row, earlier.row) ==> !Early(w, later.row.id, earlier.fetchedAt)
  }

  /** The log is in the order of the fetches, and in each channel's order as far as they saw it. */
  ghost predicate Ordered(w: World) {
    forall i, j {:trigger w.log[i], w.log[j]} :: 0 <= i < j < |w.log| ==>
      w.log[i].fetchedAt <= w.log[j].fetchedAt && PairOrdered(w, w.log[i], w.log[j])
  }

  ghost predicate SoloInv(w: World) {
    && StoreInv(w) && Solo(w) && Ordered(w)
    && (forall i {:trigger FreshAt(w, i)} :: FreshAt(w, i))
    && (forall e {:trigger WithinBudget(w.rows[e])} | e in w.rows :: WithinBudget(w.rows[e]))
  }

  // ---------- steps ----------

  /** The rows stay, and only relay `i` moves. */
  lemma SoloQuiet(w: World, u: World, i: Id)
    requires SoloInv(w) && StoreInv(u) && Solo(u) && Evolves(w, u)
    requires u.rows == w.rows && u.arrivals == w.arrivals && u.log == w.log
    requires forall j | j != i :: PhaseOf(u, j) == PhaseOf(w, j)
    requires FreshAt(u, i)
    ensures SoloInv(u)
  {
    forall j {:trigger FreshAt(u, j)} ensures FreshAt(u, j) {
      assert FreshAt(w, j);
    }
    OrderStays(w, u);
  }

  lemma OrderStays(w: World, u: World)
    requires StoreInv(w) && Ordered(w) && u.log == w.log && w.arrivals <= u.arrivals
    ensures Ordered(u)
  {
    forall i, j {:trigger u.log[i], u.log[j]} | 0 <= i < j < |u.log|
      ensures u.log[i].fetchedAt <= u.log[j].fetchedAt && PairOrdered(u, u.log[i], u.log[j])
    {
      assert PairOrdered(w, w.log[i], w.log[j]);
      assert RecordFits(w, w.log[i]);
      EarlyStays(w, u, w.log[j].row.id, w.log[i].fetchedAt);
    }
  }

  lemma SoloEnqueue(w: World, e: Id, doc: OutboxDoc)
    requires SoloInv(w)
    ensures var u := Next(w, Enqueue(e, doc)); Solo(u) ==> SoloInv(u)
  {
    var u := Next(w, Enqueue(e, doc));
    EnqueueKeeps(w, e, doc);
    OrderStays(w, u);
    forall j {:trigger FreshAt(u, j)} ensures FreshAt(u, j) {
      assert FreshAt(w, j);
      assert PhaseFits(w, j);
    }
  }

  lemma SoloFetch(w: World, i: Id, heads: seq<Row>)
    requires SoloInv(w)
    ensures var u := Next(w, Fetch(i, heads)); Solo(u) ==> SoloInv(u)
  {
    var u := Next(w, Fetch(i, heads));
    FetchKeeps(w, i, heads);
    assert FreshAt(w, i);
    forall k {:trigger w.log[k]} | 0 <= k < |w.log| ensures w.log[k].fetchedAt <= |w.arrivals| {
      assert RecordFits(w, w.log[k]);
    }
    if Solo(u) { SoloQuiet(w, u, i); }
  }

  lemma SoloTake(w: World, i: Id)
    requires SoloInv(w)
    ensures var u := Next(w, Take(i)); Solo(u) ==> SoloInv(u)
  {
    var u := Next(w, Take(i));
    TakeKeeps(w, i);
    assert FreshAt(w, i);
    if PhaseOf(w, i).Fetched? {
      var heads := PhaseOf(w, i).heads;
      var due := FirstDue(heads, w.clock);
      forall k | 0 <= k < |due| ensures due[k].id in w.rows && w.rows[due[k].id] == due[k] {
        assert due[k] in Due(heads, w.clock);
        var j :| 0 <= j < |heads| && heads[j] == due[k];
      }
    }
    if Solo(u) { SoloQuiet(w, u, i); }
  }

  /** The record a worker appends is in order: its event is pending, so whatever was published
      before it was either fetched before it arrived, or comes before it. */
  lemma AppendOrdered(w: World, i: Id, k: nat)
    requires SoloInv(w) && AtWorker(w, i, k) && PhaseOf(w, i).workers[k] == Calling(false)
    ensures Ordered(AppendStep(w, i, k))
  {
    var u := AppendStep(w, i, k);
    var p := PhaseOf(w, i);
    var r := p.batch[k];
    assert FreshAt(w, i) && PhaseFits(w, i);
    assert w.rows[r.id] == r;
    forall m, n {:trigger u.log[m], u.log[n]} | 0 <= m < n < |u.log|
      ensures u.log[m].fetchedAt <= u.log[n].fetchedAt && PairOrdered(u, u.log[m], u.log[n])
    {
      assert u.log[m] == w.log[m];
      assert RecordFits(w, w.log[m]);
      EarlyStays(w, u, u.log[n].row.id, w.log[m].fetchedAt);
      if n < |w.log| {
        assert PairOrdered(w, w.log[m], w.log[n]);
      } else {
        assert Foremost(w, w.log[m].row, w.log[m].fetchedAt);
      }
    }
  }

  lemma SoloAppend(w: World, i: Id, k: nat)
    requires SoloInv(w) && AtWorker(w, i, k)
    ensures var u := AppendStep(w, i, k); Solo(u) && SoloInv(u)
  {
    var u := AppendStep(w, i, k);
    AppendKeeps(w, i, k);
    assert FreshAt(w, i);
    if PhaseOf(w, i).workers[k] == Calling(false) {
      AppendOrdered(w, i, k);
      forall j {:trigger FreshAt(u, j)} ensures FreshAt(u, j) {
        assert FreshAt(w, j);
      }
    }
  }

  lemma SoloReturn(w: World, i: Id, k: nat, ok: bool)
    requires SoloInv(w) && AtWorker(w, i, k)
    ensures var u := ReturnStep(w, i, k, ok); Solo(u) && SoloInv(u)
  {
    var u := ReturnStep(w, i, k, ok);
    ReturnKeeps(w, i, k, ok);
    assert FreshAt(w, i);
    assert Solo(u);
    SoloQuiet(w, u, i);
  }

  /** A state write finds its event as it was fetched, and keeps it within the budget. */
  lemma SettleFinds(w: World, i: Id, k: nat)
    requires SoloInv(w) && AtWorker(w, i, k) && PhaseOf(w, i).workers[k].Settling?
    ensures var r := PhaseOf(w, i).batch[k];
            && r.id in w.rows && w.rows[r.id] == r && r.status.Pending? && WithinBudget(r)
            && WithinBudget(Marked(r, PhaseOf(w, i).workers[k].verdict))
  {
    assert FreshAt(w, i) && PhaseFits(w, i);
    var p := PhaseOf(w, i);
    assert p.batch[k] == w.rows[p.batch[k].id];
    assert WithinBudget(w.rows[p.batch[k].id]);
    assert WorkerFits(w, p.batch[k], p.workers[k]);
  }

  lemma SettleFresh(w: World, i: Id, k: nat, applied: bool, j: Id)
    requires SoloInv(w) && AtWorker(w, i, k) && PhaseOf(w, i).workers[k].Settling?
    ensures FreshAt(SettleStep(w, i, k, applied), j)
  {
    var u := SettleStep(w, i, k, applied);
    assert FreshAt(w, j) && PhaseFits(w, j);
    var p := PhaseOf(w, i);
    if j == i {
      var q := PhaseOf(u, i);
      forall m {:trigger q.batch[m]} | 0 <= m < |q.batch| && m < |q.workers| && !q.workers[m].Settled?
        ensures q.batch[m].id in u.rows && u.rows[q.batch[m].id] == q.batch[m]
      {
        assert q.workers[m] == p.workers[m];
        assert p.batch[m].doc.partitionKey != p.batch[k].doc.partitionKey;
        assert TakenFits(w, p.batch[m], p.fetchedAt) && TakenFits(w, p.batch[k], p.fetchedAt);
      }
    }
  }

  lemma SoloSettle(w: World, i: Id, k: nat, applied: bool)
    requires SoloInv(w) && AtWorker(w, i, k)
    ensures var u := SettleStep(w, i, k, applied); Solo(u) && SoloInv(u)
  {
    var u := SettleStep(w, i, k, applied);
    SettleKeeps(w, i, k, applied);
    if PhaseOf(w, i).workers[k].Settling? {
      SettleFinds(w, i, k);
      OrderStays(w, u);
      forall j {:trigger FreshAt(u, j)} ensures FreshAt(u, j) {
        SettleFresh(w, i, k, applied, j);
      }
    }
  }

  lemma SoloIdle(w: World, a: Action)
    requires SoloInv(w)
    requires a.Tick? || a.Join? || a.Poll? || a.MatchLease? || a.InsertLease? || a.Fail? || a.Finish? || a.Stop?
             || a.Crash?
    ensures Solo(Next(w, a)) ==> SoloInv(Next(w, a))
  {
    var u := Next(w, a);
    IdleKeeps(w, a);
    var i := if a.Tick? then 0 else a.relay;
    assert FreshAt(w, i);
    if Solo(u) { SoloQuiet(w, u, i); }
  }

  lemma SoloNext(w: World, a: Action)
    requires SoloInv(w) && Solo(Next(w, a))
    ensures SoloInv(Next(w, a))
  {
    if a.Enqueue? { SoloEnqueue(w, a.event, a.doc); }
    else if a.Fetch? { SoloFetch(w, a.relay, a.heads); }
    else if a.Take? { SoloTake(w, a.relay); }
    else if a.Append? || a.Return? || a.Settle? { SoloWorker(w, a); }
    else { SoloIdle(w, a); }
  }

  lemma SoloWorker(w: World, a: Action)
    requires SoloInv(w) && (a.Append? || a.Return? || a.Settle?)
    ensures SoloInv(Next(w, a))
  {
    if AtWorker(w, a.relay, a.k) {
      if a.Append? { SoloAppend(w, a.relay, a.k); }
      else if a.Return? { SoloReturn(w, a.relay, a.k, a.ok); }
      else { SoloSettle(w, a.relay, a.k, a.applied); }
    }
  }
}
