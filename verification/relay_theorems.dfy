/** Promises over runs in which no two relays ever overlap. */
module RelayTheorems {
  import opened Schema
  import opened Runs
  import opened Counting
  import opened OutboxHeads
  import opened RelayScan
  import opened RelaySystem
  import opened RelayLease
  import opened RelayInvariant
  import opened RelaySteps
  import opened RelayReach
  import opened RelayOrder

  /** At no point of the run do two relays overlap. */
  ghost predicate SoloRun(w: World, run: seq<Action>) {
    Solo(Run(w, run)) && (run != [] ==> SoloRun(w, run[..|run| - 1]))
  }

  ghost predicate SoloReached(w: World) {
    w.duration > 0 && exists run :: Leads(Next, Initial(w.duration), run, w) && SoloRun(Initial(w.duration), run)
  }

  /** Everyone works within the lease throughout. */
  ghost predicate TimelyRun(w: World, run: seq<Action>) {
    Timely(Run(w, run)) && (run != [] ==> TimelyRun(w, run[..|run| - 1]))
  }

  /** Runs in which fetching, publishing and writing never outlast the lease are such runs. */
  lemma {:induction false} TimelyRunIsSolo(duration: nat, run: seq<Action>)
    requires duration > 0 && TimelyRun(Initial(duration), run)
    ensures SoloRun(Initial(duration), run)
    decreases |run|
  {
    RunReaches(duration, run);
    TimelyIsSolo(Run(Initial(duration), run));
    if run != [] { TimelyRunIsSolo(duration, run[..|run| - 1]); }
  }

  lemma {:induction false} SoloRunKeeps(w: World, run: seq<Action>)
    requires SoloInv(w) && SoloRun(w, run)
    ensures SoloInv(Run(w, run))
    decreases |run|
  {
    if run != [] {
      SoloRunKeeps(w, run[..|run| - 1]);
      SoloNext(Run(w, run[..|run| - 1]), run[|run| - 1]);
    }
  }

  lemma SoloReachedFits(w: World)
    requires SoloReached(w)
    ensures SoloInv(w) && Reached(w)
  {
    var run :| Leads(Next, Initial(w.duration), run, w) && SoloRun(Initial(w.duration), run);
    LeadsAfter(Next, Initial(w.duration), run, w);
    InitialFits(w.duration);
    SoloRunKeeps(Initial(w.duration), run);
  }

  // ---------- order ----------

  /** If a smaller version is published after a larger one of the same channel, it entered the
      outbox only after the larger one was fetched, whatever publish errors were ambiguous and
      whatever was marked late, retried or parked. */
  lemma ChannelOrder(w: World, i: nat, j: nat)
    requires SoloReached(w)
    requires i < j < |w.log| && w.log[i].key == w.log[j].key && w.log[j].event.version < w.log[i].event.version
    ensures forall p | 0 <= p < |w.arrivals| && w.arrivals[p] == w.log[j].row.id :: p >= w.log[i].fetchedAt
    ensures exists p :: 0 <= p < |w.arrivals| && w.arrivals[p] == w.log[i].row.id && p < w.log[i].fetchedAt
  {
    SoloReachedFits(w);
    assert RecordFits(w, w.log[i]) && RecordFits(w, w.log[j]);
    assert PairOrdered(w, w.log[i], w.log[j]);
  }

  /** The log is in the order in which the batches were fetched. */
  lemma FetchOrder(w: World, i: nat, j: nat)
    requires SoloReached(w) && i < j < |w.log|
    ensures w.log[i].fetchedAt <= w.log[j].fetchedAt
  {
    SoloReachedFits(w);
  }

  /** Events of each channel enter the outbox in the order of their versions. */
  ghost predicate ArriveInOrder(w: World) {
    forall p, q | 0 <= p < q < |w.arrivals| && w.arrivals[p] in w.rows && w.arrivals[q] in w.rows
                  && w.rows[w.arrivals[p]].doc.partitionKey == w.rows[w.arrivals[q]].doc.partitionKey ::
      w.rows[w.arrivals[p]].doc.event.version <= w.rows[w.arrivals[q]].doc.event.version
  }

  /** Then the versions of each channel never go back in the Kafka log. */
  lemma VersionsInOrder(w: World, i: nat, j: nat)
    requires SoloReached(w) && ArriveInOrder(w)
    requires i < j < |w.log| && w.log[i].key == w.log[j].key
    ensures w.log[i].event.version <= w.log[j].event.version
  {
    SoloReachedFits(w);
    assert RecordFits(w, w.log[i]) && RecordFits(w, w.log[j]);
    assert PairOrdered(w, w.log[i], w.log[j]);
    var p :| 0 <= p < w.log[i].fetchedAt && p < |w.arrivals| && w.arrivals[p] == w.log[i].row.id;
    var q :| 0 <= q < |w.arrivals| && w.arrivals[q] == w.log[j].row.id;
    assert q < w.log[i].fetchedAt ==> Early(w, w.log[j].row.id, w.log[i].fetchedAt);
  }

  // ---------- the budget ----------

  /** A pending event has spent at most two of its three attempts; a parked one all three. */
  lemma AttemptBudget(w: World, e: Id)
    requires SoloReached(w) && e in w.rows
    ensures 0 <= w.rows[e].attempts <= 3
    ensures w.rows[e].status.Pending? ==> w.rows[e].attempts <= 2
    ensures w.rows[e].status.Parked? <==> w.rows[e].attempts == 3
  {
    SoloReachedFits(w);
    assert WithinBudget(w.rows[e]);
  }

  // ---------- draining ----------

  /** Publish attempts an event still has. */
  function Cost(r: Row): int {
    if r.status.Pending? then MAX_PUBLISH_ATTEMPTS - r.attempts else 0
  }

  /** Events older than `h`; all events if there is no `h`. */
  predicate Counts(r: Row, h: Option<Row>) {
    h.None? || Older(r, h.value)
  }

  /** The attempts that the events of `ids` still have, of those that count. */
  function Debt(rows: map<Id, Row>, ids: seq<Id>, h: Option<Row>): int {
    if ids == [] then 0
    else
      var e := ids[|ids| - 1];
      Debt(rows, ids[..|ids| - 1], h) + if e in rows && Counts(rows[e], h) then Cost(rows[e]) else 0
  }

  lemma {:induction false} DebtElsewhere(rows: map<Id, Row>, ids: seq<Id>, h: Option<Row>, e: Id, r: Row)
    requires e !in ids
    ensures Debt(rows[e := r], ids, h) == Debt(rows, ids, h)
  {
    if ids != [] { DebtElsewhere(rows, ids[..|ids| - 1], h, e, r); }
  }

  /** Changing one event changes the debt by that event's cost. */
  lemma {:induction false} DebtChange(rows: map<Id, Row>, ids: seq<Id>, h: Option<Row>, e: Id, r: Row)
    requires Distinct(ids) && e in ids && e in rows && RowEvolves(rows[e], r)
    ensures Debt(rows[e := r], ids, h) == Debt(rows, ids, h) - if Counts(r, h) then Cost(rows[e]) - Cost(r) else 0
  {
    var n := |ids| - 1;
    if ids[n] == e {
      assert e !in ids[..n];
      DebtElsewhere(rows, ids[..n], h, e, r);
    } else {
      assert e in ids[..n];
      DebtChange(rows, ids[..n], h, e, r);
    }
  }

  /** What a state write pays off: everything left of a published event, one attempt otherwise. */
  function Payment(r: Row, verdict: Verdict): int {
    if verdict.Delivered? then Cost(r) else 1
  }

  /** The step is an applied state write of an event that counts. */
  predicate Pays(w: World, a: Action, h: Option<Row>) {
    && a.Settle? && a.applied && AtWorker(w, a.relay, a.k)
    && PhaseOf(w, a.relay).workers[a.k].Settling? && Counts(PhaseOf(w, a.relay).batch[a.k], h)
  }

  /** The step puts an event that counts in the outbox. */
  predicate Adds(w: World, a: Action, h: Option<Row>) {
    && a.Enqueue? && a.event != 0 && a.event !in w.rows
    && Counts(Row(a.event, a.doc, Pending, 0, a.doc.createdAt), h)
  }

  function Paid(w: World, run: seq<Action>, h: Option<Row>): int {
    if run == [] then 0
    else
      var u := Run(w, run[..|run| - 1]);
      var a := run[|run| - 1];
      Paid(w, run[..|run| - 1], h)
      + if Pays(u, a, h) then Payment(PhaseOf(u, a.relay).batch[a.k], PhaseOf(u, a.relay).workers[a.k].verdict) else 0
  }

  function Added(w: World, run: seq<Action>, h: Option<Row>): nat {
    if run == [] then 0
    else
      var u := Run(w, run[..|run| - 1]);
      Added(w, run[..|run| - 1], h) + if Adds(u, run[|run| - 1], h) then 1 else 0
  }

  /** How many state writes were applied to events that count. */
  function Settlements(w: World, run: seq<Action>, h: Option<Row>): nat {
    if run == [] then 0
    else
      var u := Run(w, run[..|run| - 1]);
      Settlements(w, run[..|run| - 1], h) + if Pays(u, run[|run| - 1], h) then 1 else 0
  }

  lemma SettlePays(w: World, a: Action, h: Option<Row>)
    requires SoloInv(w) && a.Settle? && AtWorker(w, a.relay, a.k) && PhaseOf(w, a.relay).workers[a.k].Settling?
    ensures var r := PhaseOf(w, a.relay).batch[a.k];
            var paid := Payment(r, PhaseOf(w, a.relay).workers[a.k].verdict);
            paid >= 1 && Debt(Next(w, a).rows, w.arrivals, h)
              == Debt(w.rows, w.arrivals, h) - if Pays(w, a, h) then paid else 0
  {
    SettleFinds(w, a.relay, a.k);
    var r := PhaseOf(w, a.relay).batch[a.k];
    var verdict := PhaseOf(w, a.relay).workers[a.k].verdict;
    if a.applied {
      assert Next(w, a).rows == w.rows[r.id := Marked(r, verdict)];
      assert RowFits(w, r.id);
      DebtChange(w.rows, w.arrivals, h, r.id, Marked(r, verdict));
      MarkedCost(w, a.relay, a.k);
    }
  }

  lemma MarkedCost(w: World, i: Id, k: nat)
    requires SoloInv(w) && AtWorker(w, i, k) && PhaseOf(w, i).workers[k].Settling?
    ensures var r := PhaseOf(w, i).batch[k];
            var verdict := PhaseOf(w, i).workers[k].verdict;
            Cost(r) - Cost(Marked(r, verdict)) == Payment(r, verdict)
  {
    SettleFinds(w, i, k);
    assert PhaseFits(w, i);
    var p := PhaseOf(w, i);
    assert WorkerFits(w, p.batch[k], p.workers[k]);
  }

  lemma EnqueueAdds(w: World, a: Action, h: Option<Row>)
    requires StoreInv(w) && a.Enqueue?
    ensures var u := Next(w, a);
            Debt(u.rows, u.arrivals, h) == Debt(w.rows, w.arrivals, h) + if Adds(w, a, h) then MAX_PUBLISH_ATTEMPTS else 0
  {
    if a.event != 0 && a.event !in w.rows {
      var u := Next(w, a);
      assert u.arrivals[..|u.arrivals| - 1] == w.arrivals;
      DebtElsewhere(w.rows, w.arrivals, h, a.event, u.rows[a.event]);
    }
  }

  lemma StepDebt(w: World, a: Action, h: Option<Row>)
    requires SoloInv(w)
    ensures var u := Next(w, a);
            Debt(u.rows, u.arrivals, h)
            == Debt(w.rows, w.arrivals, h) + (if Adds(w, a, h) then MAX_PUBLISH_ATTEMPTS else 0)
               - if Pays(w, a, h) then Payment(PhaseOf(w, a.relay).batch[a.k], PhaseOf(w, a.relay).workers[a.k].verdict) else 0
  {
    if a.Enqueue? {
      EnqueueAdds(w, a, h);
    } else if a.Settle? && AtWorker(w, a.relay, a.k) && PhaseOf(w, a.relay).workers[a.k].Settling? {
      SettlePays(w, a, h);
    } else {
      var u := Next(w, a);
      assert u.rows == w.rows && u.arrivals == w.arrivals;
    }
  }

  /** The attempts left at the end are those at the start, three more for every event that
      entered, less what the applied state writes paid; and each of them paid at least one. So
      there are never more such writes than attempts, and without new events the outbox empties.
      The same holds of the events older than a given one. */
  lemma {:induction false} DebtConserved(w: World, run: seq<Action>, h: Option<Row>)
    requires SoloInv(w) && SoloRun(w, run)
    ensures var u := Run(w, run);
            && Debt(u.rows, u.arrivals, h) + Paid(w, run, h)
               == Debt(w.rows, w.arrivals, h) + 3 * Added(w, run, h)
            && Settlements(w, run, h) <= Paid(w, run, h)
    decreases |run|
  {
    if run != [] {
      var n := |run| - 1;
      var u := Run(w, run[..n]);
      DebtConserved(w, run[..n], h);
      SoloRunKeeps(w, run[..n]);
      StepDebt(u, run[n], h);
      if Pays(u, run[n], h) { SettlePays(u, run[n], h); }
    }
  }

  /** No attempts left means nothing pending. */
  lemma {:induction false} DebtBounds(w: World, n: nat)
    requires SoloInv(w) && n <= |w.arrivals|
    ensures 0 <= Debt(w.rows, w.arrivals[..n], None)
    ensures Debt(w.rows, w.arrivals[..n], None) == 0 ==> forall k :: 0 <= k < n ==> !w.rows[w.arrivals[k]].status.Pending?
  {
    if n > 0 {
      DebtBounds(w, n - 1);
      assert w.arrivals[..n][..n - 1] == w.arrivals[..n - 1];
      assert WithinBudget(w.rows[w.arrivals[n - 1]]);
    }
  }

  lemma DrainedIsEmpty(w: World)
    requires SoloInv(w)
    ensures 0 <= Debt(w.rows, w.arrivals, None)
    ensures Debt(w.rows, w.arrivals, None) == 0 <==> forall e | e in w.rows :: !w.rows[e].status.Pending?
  {
    DebtBounds(w, |w.arrivals|);
    assert w.arrivals[..|w.arrivals|] == w.arrivals;
    forall e | e in w.rows ensures e in w.arrivals { assert RowFits(w, e); }
    if forall e | e in w.rows :: !w.rows[e].status.Pending? { NothingOwed(w.rows, w.arrivals); }
  }

  lemma {:induction false} NothingOwed(rows: map<Id, Row>, ids: seq<Id>)
    requires forall e | e in rows :: !rows[e].status.Pending?
    ensures Debt(rows, ids, None) == 0
  {
    if ids != [] { NothingOwed(rows, ids[..|ids| - 1]); }
  }
}
