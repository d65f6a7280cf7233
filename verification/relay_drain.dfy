/** An undisturbed relay empties the outbox. */
module RelayDrain {
  import opened Schema
  import opened OutboxHeads
  import opened RelayScan
  import opened RelaySystem
  import opened RelayLease
  import opened RelayInvariant
  import opened RelaySteps
  import opened RelayReach
  import opened RelayOrder
  import opened RelayTheorems
  import opened OutboxStore
  import opened Relay

  // ---------- some retry comes first ----------

  /** If nothing is due, some head waits for its retry. */
  lemma SomethingWaits(heads: seq<Row>, now: Time, t: Time)
    requires IsEarliestRetry(heads, now, t) && FirstDue(heads, now) == [] && heads != []
    ensures t > now
  {
    assert Due(heads, now) == [];
    assert heads[0] !in Due(heads, now);
  }

  /** The latest time any event of `ids` waits for. */
  function Latest(rows: map<Id, Row>, ids: seq<Id>): nat {
    if ids == [] then 0
    else
      var rest := Latest(rows, ids[..|ids| - 1]);
      var e := ids[|ids| - 1];
      if e in rows && rows[e].nextAttemptAt > rest then rows[e].nextAttemptAt else rest
  }

  lemma {:induction false} LatestBounds(rows: map<Id, Row>, ids: seq<Id>, e: Id)
    requires e in ids && e in rows
    ensures rows[e].nextAttemptAt <= Latest(rows, ids)
  {
    if ids[|ids| - 1] != e { LatestBounds(rows, ids[..|ids| - 1], e); }
  }

  /** How much longer a round that waits can wait. */
  function WaitLeft(w: World): nat {
    var latest := Latest(w.rows, w.arrivals);
    if w.clock < latest then latest - w.clock else 0
  }

  /** A round with nothing due brings the next due time closer. */
  lemma WaitShrinks(w: World, u: World, poll: nat, sight: Sight, e: Id)
    requires Reached(w) && RoundTakes(w, u, poll, sight, []) && e in w.rows && w.rows[e].status.Pending? && poll > 0
    ensures WaitLeft(u) < WaitLeft(w)
  {
    Outbox.KeyedRows(w);
    HeadExists(w.rows, e);
    var heads := sight.heads;
    SomethingWaits(heads, sight.at, sight.retry);
    var k :| 0 <= k < |heads| && heads[k].nextAttemptAt == sight.retry;
    ArrivedRow(w, heads[k].id);
    LatestBounds(w.rows, w.arrivals, heads[k].id);
  }

  lemma ArrivedRow(w: World, e: Id)
    requires Reached(w) && e in w.rows
    ensures e in w.arrivals
  {
    ReachedFits(w);
    assert RowFits(w, e);
  }

  // ---------- draining ----------

  /** What became of an event for good. */
  ghost predicate Finished(w: World, e: Id) {
    e in w.rows && ((w.rows[e].status.Published? && Logged(w, e))
                    || (w.rows[e].status.Parked? && w.rows[e].attempts == 3))
  }

  /** With one relay, state writes that work, and no new events, every event ends up published
      and in the Kafka log, or parked after three attempts, however Kafka behaves. */
  method Drain(box: Outbox, i: Id, poll: nat)
    requires box.At(i, Idle) && poll > 0 && Steady(box, i)
    modifies box
    ensures box.Valid() && Later(old(box.View()), box.View()) && box.arrivals == old(box.arrivals)
    ensures forall e | e in box.rows :: Finished(box.View(), e)
  {
    ghost var w := box.View();
    LaterSelf(w);
    while exists e :: e in box.rows && box.rows[e].status.Pending?
      invariant box.At(i, Idle) && Steady(box, i) && Later(w, box.View()) && box.arrivals == w.arrivals
      decreases Debt(box.rows, box.arrivals, None), WaitLeft(box.View())
    {
      ghost var e :| e in box.rows && box.rows[e].status.Pending?;
      ghost var u := box.View();
      DrainedIsEmpty(u);
      var up, batch, failures;
      ghost var sight;
      up, batch, failures, sight := Round(box, i, poll, true, None);
      LaterTransitive(w, u, box.View());
      DrainedIsEmpty(box.View());
      if batch == [] { WaitShrinks(u, box.View(), poll, sight, e); }
    }
    AllFinished(box.View());
  }

  lemma AllFinished(w: World)
    requires SoloInv(w) && !exists e :: e in w.rows && w.rows[e].status.Pending?
    ensures forall e | e in w.rows :: Finished(w, e)
  {
    forall e | e in w.rows ensures Finished(w, e) {
      assert RowFits(w, e) && WithinBudget(w.rows[e]);
    }
  }

  // ---------- waiting for one's turn ----------

  /** A channel head that a round passes over has been passed over for older events only. */
  lemma PassedOver(w: World, u: World, poll: nat, sight: Sight, batch: seq<Row>, r: Row)
    requires RoundTakes(w, u, poll, sight, batch)
    requires IsHead(w.rows, r) && r.nextAttemptAt <= w.clock && r !in batch
    ensures AllCount(batch, Some(r))
  {
    DisplacedByOlder(w.rows, MAX_HEADS, sight.heads, sight.at, r);
    forall k | 0 <= k < |batch| ensures Counts(batch[k], Some(r)) {
      assert batch[k] in batch;
    }
  }

  /** It stays a head, and untouched. */
  lemma StaysHead(w: World, u: World, poll: nat, sight: Sight, batch: seq<Row>, r: Row)
    requires Later(w, u) && RoundTakes(w, u, poll, sight, batch) && u.rows.Keys == w.rows.Keys
    requires IsHead(w.rows, r) && r !in batch
    ensures IsHead(u.rows, r)
  {
    LaterFits(w, u);
    forall k | 0 <= k < |batch| ensures batch[k].id != r.id {
      assert batch[k] in batch;
      assert batch[k] in Due(sight.heads, sight.at);
      assert batch[k] in sight.heads;
    }
    forall o | o in u.rows && o != r.id && u.rows[o].status.Pending? && u.rows[o].doc.partitionKey == r.doc.partitionKey
      ensures Sooner(r, u.rows[o])
    {
      assert RowEvolves(w.rows[o], u.rows[o]);
    }
  }

  lemma SameKeys(w: World, u: World)
    requires Later(w, u) && u.arrivals == w.arrivals
    ensures u.rows.Keys == w.rows.Keys
  {
    LaterFits(w, u);
    forall e | e in u.rows ensures e in w.rows {
      assert RowFits(u, e);
    }
  }

  lemma {:induction false} DebtSign(w: World, n: nat, h: Option<Row>)
    requires SoloInv(w) && n <= |w.arrivals|
    ensures 0 <= Debt(w.rows, w.arrivals[..n], h)
  {
    if n > 0 {
      DebtSign(w, n - 1, h);
      assert w.arrivals[..n][..n - 1] == w.arrivals[..n - 1];
      assert WithinBudget(w.rows[w.arrivals[n - 1]]);
    }
  }

  /** A due channel head gets its turn after no more publish attempts than the events older than
      it still have: `passed` counts the attempts that others got first. */
  method AwaitTurn(box: Outbox, i: Id, poll: nat, e: Id) returns (passed: nat)
    requires box.At(i, Idle) && poll > 0 && Steady(box, i)
    requires e in box.rows && IsHead(box.rows, box.rows[e]) && box.rows[e].nextAttemptAt <= box.clock
    modifies box
    ensures box.Valid() && Later(old(box.View()), box.View()) && box.arrivals == old(box.arrivals)
    ensures e in box.rows && box.rows[e] != old(box.rows[e])
    ensures passed <= old(Debt(box.rows, box.arrivals, Some(box.rows[e])))
  {
    ghost var w := box.View();
    ghost var r := box.rows[e];
    LaterSelf(w);
    passed := 0;
    var taken := false;
    DebtStart(w, Some(r));
    while !taken
      invariant box.At(i, Idle) && Steady(box, i) && Later(w, box.View()) && box.arrivals == w.arrivals
      invariant e in box.rows && if taken then box.rows[e] != r else IsHead(box.rows, r) && r.nextAttemptAt <= box.clock
      invariant passed + (if taken then 0 else Debt(box.rows, box.arrivals, Some(r))) <= Debt(w.rows, w.arrivals, Some(r))
      decreases !taken, Debt(box.rows, box.arrivals, Some(r)), WaitLeft(box.View())
    {
      ghost var u := box.View();
      var before := box.rows[e];
      DebtStart(u, Some(r));
      var up, batch, failures;
      ghost var sight;
      up, batch, failures, sight := Round(box, i, poll, true, Some(r));
      LaterTransitive(w, u, box.View());
      DebtStart(box.View(), Some(r));
      taken := before in batch;
      if taken {
        assert r in batch;
      } else {
        PassedOver(u, box.View(), poll, sight, batch, r);
        SameKeys(u, box.View());
        StaysHead(u, box.View(), poll, sight, batch, r);
        passed := passed + |batch|;
        if batch == [] { WaitShrinks(u, box.View(), poll, sight, e); }
      }
    }
  }

  lemma DebtStart(w: World, h: Option<Row>)
    requires SoloInv(w)
    ensures 0 <= Debt(w.rows, w.arrivals, h)
  {
    DebtSign(w, |w.arrivals|, h);
    assert w.arrivals[..|w.arrivals|] == w.arrivals;
  }
}
