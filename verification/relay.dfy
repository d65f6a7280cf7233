/** The relay: electing itself, picking a batch, publishing it, and recording what became of it. */
module Relay {
  import opened Schema
  import opened OutboxHeads
  import opened RelayScan
  import opened RelaySystem
  import opened RelayLease
  import opened RelayInvariant
  import opened RelaySteps
  import opened RelayReach
  import opened RelayOrder
  import opened RelayTheorems
  import opened RelayBackoff
  import opened OutboxStore

  // ---------- keeping count ----------

  /** Since `w` the store has run on. If no relays have overlapped so far, at least `paid`
      attempts of the events that count are spent for good. */
  ghost predicate Follows(w: World, alone: bool, box: Outbox, h: Option<Row>, paid: int)
    reads box
  {
    box.Valid() && Later(w, box.View()) && (box.solo ==> alone && PaidOff(w, box.View(), h, paid))
  }

  lemma Onward(w: World, u: World, v: World, h: Option<Row>, m: int, n: int)
    requires Later(w, u) && Later(u, v)
    ensures Later(w, v) && (PaidOff(w, u, h, m) && PaidOff(u, v, h, n) ==> PaidOff(w, v, h, m + n))
  {
    LaterTransitive(w, u, v);
  }

  /** Steps that leave the events alone. */
  lemma Aside(w: World, u: World, v: World, h: Option<Row>, m: int)
    requires Later(w, u) && Later(u, v) && v.rows == u.rows && v.arrivals == u.arrivals
    ensures Later(w, v) && (PaidOff(w, u, h, m) ==> PaidOff(w, v, h, m))
  {
    LaterTransitive(w, u, v);
  }

  /** Nothing but time, relay `i` and the lease has moved. */
  ghost predicate Still(w: World, u: World, i: Id) {
    && u.rows == w.rows && w.clock <= u.clock && u.arrivals == w.arrivals && u.log == w.log
    && forall j | j != i :: PhaseOf(u, j) == PhaseOf(w, j)
  }

  /** No other relay is at work. */
  ghost predicate Alone(w: World, i: Id) {
    forall j | j != i :: !InPhase(PhaseOf(w, j))
  }

  lemma AloneIsSolo(w: World, u: World, i: Id)
    requires Alone(w, i) && forall j | j != i :: PhaseOf(u, j) == PhaseOf(w, j)
    ensures Solo(u) && Alone(u, i)
  {
    forall j, k | j in u.relays && k in u.relays && InPhase(u.relays[j]) && InPhase(u.relays[k]) ensures j == k {
      assert PhaseOf(u, j) == u.relays[j] && PhaseOf(u, k) == u.relays[k];
    }
  }

  // ---------- the lease ----------

  /** The upsert of the lease document, in two phases. Being told that one leads means that the
      document says so. */
  method AcquireRelayLease(box: Outbox, i: Id, now: Time, calm: bool, ghost h: Option<Row>)
    returns (up: bool, leader: bool)
    requires box.At(i, Asking(now))
    modifies box
    ensures Follows(old(box.View()), old(box.solo), box, h, 0)
    ensures i in box.relays
              && box.relays[i] == (if !up then Gone else if leader then Leading(now + box.duration) else Idle)
    ensures up && leader ==> box.lease == Some(Lease(i, now + box.duration))
    ensures calm ==>
              up && Still(old(box.View()), box.View(), i)
              && (old(box.solo) && Alone(old(box.View()), i) ==> box.solo && Alone(box.View(), i))
    ensures calm && (old(box.lease).None? || Takeable(old(box.lease), i, now)) ==> leader
  {
    ghost var w := box.View();
    leader := false;
    var missed;
    up, leader, missed := MatchLeaseFirst(box, i, now, calm, h);
    if up && missed {
      ghost var u := box.View();
      up, leader := InsertLeaseAfter(box, i, now, calm, h);
      Onward(w, u, box.View(), h, 0, 0);
    }
  }

  /** The match phase; `missed` means that no document matched. */
  method MatchLeaseFirst(box: Outbox, i: Id, now: Time, calm: bool, ghost h: Option<Row>)
    returns (up: bool, leader: bool, missed: bool)
    requires box.At(i, Asking(now))
    modifies box
    ensures Follows(old(box.View()), old(box.solo), box, h, 0)
    ensures i in box.relays && box.relays[i] ==
              (if !up then Gone else if leader then Leading(now + box.duration) else if missed then Inserting(now)
                else Idle)
    ensures up && leader ==> box.lease == Some(Lease(i, now + box.duration))
    ensures leader ==> !missed
    ensures calm ==>
              up && Still(old(box.View()), box.View(), i)
              && (old(box.solo) && Alone(old(box.View()), i) ==> box.solo && Alone(box.View(), i))
    ensures calm && Takeable(old(box.lease), i, now) ==> leader
    ensures calm && !leader ==> missed && box.lease == old(box.lease)
  {
    ghost var w := box.View();
    leader, missed := false, false;
    up := box.Interfere(i, calm);
    if !up { return; }
    ghost var u := box.View();
    var fails, heard := false, true;
    if !calm { fails, heard := *, *; }
    if fails {
      box.Failed(i);
      Aside(w, u, box.View(), h, 0);
      return;
    }
    var matched := box.MatchLeaseDocument(i, now, heard);
    Aside(w, u, box.View(), h, 0);
    leader, missed := matched && heard, !matched;
  }

  /** No document matched; the upsert inserts one. */
  method InsertLeaseAfter(box: Outbox, i: Id, now: Time, calm: bool, ghost h: Option<Row>)
    returns (up: bool, leader: bool)
    requires box.At(i, Inserting(now))
    modifies box
    ensures Follows(old(box.View()), old(box.solo), box, h, 0)
    ensures i in box.relays
              && box.relays[i] == (if !up then Gone else if leader then Leading(now + box.duration) else Idle)
    ensures up && leader ==> box.lease == Some(Lease(i, now + box.duration))
    ensures calm ==>
              up && Still(old(box.View()), box.View(), i)
              && (old(box.solo) && Alone(old(box.View()), i) ==> box.solo && Alone(box.View(), i))
    ensures calm && old(box.lease).None? ==> leader
  {
    ghost var w := box.View();
    leader := false;
    up := box.Interfere(i, calm);
    if !up { return; }
    ghost var u := box.View();
    var fails, heard := false, true;
    if !calm { fails, heard := *, *; }
    if fails {
      box.Failed(i);
      Aside(w, u, box.View(), h, 0);
      return;
    }
    var inserted := box.InsertLeaseDocument(i, now, heard);
    Aside(w, u, box.View(), h, 0);
    leader := inserted && heard;
  }

  // ---------- publishing ----------

  function StepsLeft(worker: Worker): nat {
    match worker
    case Calling(appended) => if appended then 2 else 3
    case Settling(_) => 1
    case Settled => 0
  }

  function WorkLeft(workers: seq<Worker>): nat {
    if workers == [] then 0 else WorkLeft(workers[..|workers| - 1]) + StepsLeft(workers[|workers| - 1])
  }

  function SettledCount(workers: seq<Worker>): (n: nat)
    ensures n <= |workers|
  {
    if workers == [] then 0
    else SettledCount(workers[..|workers| - 1]) + if workers[|workers| - 1].Settled? then 1 else 0
  }

  lemma {:induction false} TurnCounts(workers: seq<Worker>, k: nat, worker: Worker)
    requires k < |workers|
    ensures var next := workers[k := worker];
            && WorkLeft(next) == WorkLeft(workers) - StepsLeft(workers[k]) + StepsLeft(worker)
            && SettledCount(next)
              == SettledCount(workers) - (if workers[k].Settled? then 1 else 0) + (if worker.Settled? then 1 else 0)
  {
    var n := |workers| - 1;
    var next := workers[k := worker];
    if k < n {
      TurnCounts(workers[..n], k, worker);
      assert next[..n] == workers[..n][k := worker];
    } else {
      assert next[..n] == workers[..n];
    }
  }

  lemma {:induction false} AllCounted(workers: seq<Worker>)
    requires AllSettled(workers)
    ensures SettledCount(workers) == |workers|
  {
    if workers != [] { AllCounted(workers[..|workers| - 1]); }
  }

  lemma {:induction false} NoneCounted(n: nat)
    ensures SettledCount(seq(n, _ => Calling(false))) == 0
  {
    if n > 0 {
      var workers := seq(n, _ => Calling(false));
      NoneCounted(n - 1);
      assert workers[..n - 1] == seq(n - 1, _ => Calling(false));
    }
  }

  lemma BatchSane(w: World, i: Id, k: nat)
    requires Reached(w) && AtWorker(w, i, k)
    ensures PhaseOf(w, i).batch[k].attempts >= 0 && |PhaseOf(w, i).workers| == |PhaseOf(w, i).batch|
  {
    ReachedFits(w);
    assert PhaseFits(w, i);
  }

  /** Every event of the batch counts. */
  predicate AllCount(batch: seq<Row>, h: Option<Row>) {
    forall k :: 0 <= k < |batch| ==> Counts(batch[k], h)
  }

  /** No document but that of event `e` changed. */
  ghost predicate OnlyRow(w: World, u: World, e: Id) {
    u.rows.Keys == w.rows.Keys && forall o | o in w.rows && o != e :: u.rows[o] == w.rows[o]
  }

  /** The publish call ends: a success stands for an appended record, an error for nothing; and
      an error decides whether the event is tried again or parked. */
  method EndCall(box: Outbox, i: Id, k: nat, event: Row, err: bool)
    requires box.Valid() && i != 0 && AtWorker(box.View(), i, k) && box.relays[i].batch[k] == event
    requires box.relays[i].workers[k].Calling? && (!err ==> box.relays[i].workers[k].appended)
    modifies box
    ensures box.Does(Return(i, k, !err))
    ensures box.rows == old(box.rows) && box.arrivals == old(box.arrivals) && box.clock == old(box.clock)
    ensures box.lease == old(box.lease)
    ensures exists v :: Outbox.Moved(old(box.View()), box.View(), i, k, Settling(v))
                        && (if err then FailsWith(event, box.clock, v) else v.Delivered?)
  {
    BatchSane(box.View(), i, k);
    FailureDelays(event, box.clock);
    var verdict := Delivered;
    if err {
      var attempt := event.attempts + 1;
      if attempt >= MAX_PUBLISH_ATTEMPTS {
        verdict := Park(attempt);
      } else {
        var delay := RetryDelay(attempt as int64);
        verdict := Retry(box.clock + delay as int);
      }
    }
    box.ReturnCall(i, k, !err, verdict);
    assert Outbox.Moved(old(box.View()), box.View(), i, k, Settling(verdict));
  }

  /** The state write of a worker, as its verdict says. */
  method WriteState(box: Outbox, i: Id, k: nat, event: Row, applied: bool) returns (err: bool)
    requires box.Valid() && i != 0 && AtWorker(box.View(), i, k) && box.relays[i].batch[k] == event
    requires box.relays[i].workers[k].Settling?
    modifies box
    ensures box.Does(Settle(i, k, applied)) && Outbox.Moved(old(box.View()), box.View(), i, k, Settled)
    ensures !applied ==> err
    ensures old(box.solo) && applied ==> !err && event.id in box.rows && event.status.Pending? && WithinBudget(event)
                                         && box.rows[event.id] == Marked(event, old(box.relays[i].workers[k].verdict))
    ensures OnlyRow(old(box.View()), box.View(), event.id)
    ensures box.arrivals == old(box.arrivals) && box.clock == old(box.clock) && box.lease == old(box.lease)
  {
    if box.solo { SettleFinds(box.View(), i, k); }
    var verdict := box.relays[i].workers[k].verdict;
    match verdict
    case Delivered => err := box.MarkPublished(i, k, event.id, applied);
    case Retry(at) => err := box.ScheduleRetry(i, k, event.id, at, applied);
    case Park(attempts) => err := box.MarkFailed(i, k, event.id, attempts, applied);
  }

  /** Worker `k` went from one state to a later one, and nobody else moved. */
  ghost predicate Progressed(w: World, u: World, i: Id, k: nat) {
    && AtWorker(w, i, k) && AtWorker(u, i, k) && i in u.relays
    && var worker := PhaseOf(u, i).workers[k];
    && Outbox.Moved(w, u, i, k, worker) && StepsLeft(worker) < StepsLeft(PhaseOf(w, i).workers[k])
    && (forall j | j != i :: PhaseOf(u, j) == PhaseOf(w, j))
  }

  /** What a worker's turn did to the attempts left: a state write that worked pays one. */
  ghost predicate TurnPays(w: World, u: World, i: Id, k: nat, h: Option<Row>, err: bool)
    requires AtWorker(u, i, k)
  {
    forall v, m {:trigger PaidOff(v, w, h, m)} :: PaidOff(v, w, h, m) ==>
      PaidOff(v, u, h, m + if PhaseOf(u, i).workers[k].Settled? && !err && Counts(PhaseOf(u, i).batch[k], h) then 1
        else 0)
  }

  lemma CallTurnPays(w: World, u: World, i: Id, k: nat, h: Option<Row>)
    requires AtWorker(u, i, k) && !PhaseOf(u, i).workers[k].Settled? && u.rows == w.rows && u.arrivals == w.arrivals
    ensures TurnPays(w, u, i, k, h, false)
  {
    forall v, m {:trigger PaidOff(v, w, h, m)} | PaidOff(v, w, h, m) ensures PaidOff(v, u, h, m) {}
  }

  lemma WriteTurnPays(w: World, i: Id, k: nat, applied: bool, h: Option<Row>)
    requires SoloInv(w) && AtWorker(w, i, k) && PhaseOf(w, i).workers[k].Settling?
    ensures var u := Next(w, Settle(i, k, applied)); AtWorker(u, i, k) && TurnPays(w, u, i, k, h, !applied)
  {
    var u := Next(w, Settle(i, k, applied));
    StepDebt(w, Settle(i, k, applied), h);
    SettlePays(w, Settle(i, k, applied), h);
    assert PhaseOf(u, i).batch == PhaseOf(w, i).batch;
    forall v, m {:trigger PaidOff(v, w, h, m)} | PaidOff(v, w, h, m)
      ensures PaidOff(v, u, h, m + if applied && Counts(PhaseOf(u, i).batch[k], h) then 1 else 0)
    {}
  }

  /** A worker whose publish call is running. */
  method CallTurn(box: Outbox, i: Id, k: nat, event: Row, ghost h: Option<Row>)
    requires box.Valid() && i != 0 && AtWorker(box.View(), i, k) && box.relays[i].batch[k] == event
    requires box.relays[i].workers[k].Calling?
    modifies box
    ensures box.Valid() && Later(old(box.View()), box.View()) && (box.solo ==> old(box.solo))
    ensures Progressed(old(box.View()), box.View(), i, k) && !box.relays[i].workers[k].Settled?
    ensures TurnPays(old(box.View()), box.View(), i, k, h, false)
    ensures box.clock == old(box.clock) && box.arrivals == old(box.arrivals) && box.lease == old(box.lease)
    ensures box.rows == old(box.rows) && (old(box.solo) && Alone(old(box.View()), i) ==> box.solo)
    ensures box.relays[i].workers[k].Settling? ==>
              FailedWithin(event, box.clock, box.clock, box.relays[i].workers[k].verdict)
  {
    ghost var w := box.View();
    var appends: bool := *;
    if box.relays[i].workers[k] == Calling(false) && appends {
      box.AppendRecord(i, k, event);
    } else {
      var err: bool := *;
      if !box.relays[i].workers[k].appended { err := true; }
      EndCall(box, i, k, event, err);
    }
    CallTurnPays(w, box.View(), i, k, h);
    if Alone(w, i) { AloneIsSolo(w, box.View(), i); }
  }

  /** What a worker's turn did to its event: a publish call that ended decides, and a state write
      does what was decided. */
  ghost predicate TurnEnds(w: World, u: World, i: Id, k: nat, event: Row)
    requires AtWorker(w, i, k) && AtWorker(u, i, k)
  {
    var before, after := PhaseOf(w, i).workers[k], PhaseOf(u, i).workers[k];
    && (after.Settled? ==> before.Settling? && event.id in u.rows && event.status.Pending? && WithinBudget(event)
                           && u.rows[event.id] == Marked(event, before.verdict))
    && (!after.Settled? ==> u.rows == w.rows)
    && (after.Settling? ==> FailedWithin(event, u.clock, u.clock, after.verdict))
  }

  /** A worker's next move, between whatever the others do. */
  method WorkerTurn(box: Outbox, i: Id, k: nat, event: Row, calm: bool, ghost h: Option<Row>) returns (err: bool)
    requires box.Valid() && i != 0 && AtWorker(box.View(), i, k) && box.relays[i].batch[k] == event
    requires !box.relays[i].workers[k].Settled?
    modifies box
    ensures box.Valid() && Later(old(box.View()), box.View()) && (box.solo ==> old(box.solo))
    ensures Progressed(old(box.View()), box.View(), i, k)
    ensures err ==> box.relays[i].workers[k].Settled?
    ensures box.solo ==> TurnPays(old(box.View()), box.View(), i, k, h, err)
    ensures box.clock == old(box.clock) && box.arrivals == old(box.arrivals) && box.lease == old(box.lease)
    ensures OnlyRow(old(box.View()), box.View(), event.id)
    ensures calm && old(box.solo) && Alone(old(box.View()), i) ==>
              !err && box.solo && TurnEnds(old(box.View()), box.View(), i, k, event)
  {
    err := false;
    if box.relays[i].workers[k].Calling? {
      CallTurn(box, i, k, event, h);
    } else {
      ghost var w := box.View();
      var applied := true;
      if !calm { applied := *; }
      if box.solo { WriteTurnPays(w, i, k, applied, h); }
      err := WriteState(box, i, k, event, applied);
      if Alone(w, i) { AloneIsSolo(w, box.View(), i); }
    }
  }

  /** Relay `i` is publishing `batch`, and `done` of its state writes have worked. */
  ghost predicate Publishing(w: World, alone: bool, box: Outbox, i: Id, batch: seq<Row>, h: Option<Row>, failures: nat)
    reads box
  {
    && i != 0 && i in box.relays && box.relays[i].Working? && box.relays[i].batch == batch
    && |box.relays[i].workers| == |batch| && failures <= SettledCount(box.relays[i].workers)
    && Follows(w, alone, box, h, if AllCount(batch, h) then SettledCount(box.relays[i].workers) - failures else 0)
  }

  /** Nothing but time, the batch and relay `i` itself has changed. */
  ghost predicate Quiet(w: World, u: World, i: Id, batch: seq<Row>) {
    && w.clock <= u.clock && u.arrivals == w.arrivals && u.lease == w.lease && OnlyBatch(w, u, batch)
    && forall j | j != i :: PhaseOf(u, j) == PhaseOf(w, j)
  }

  /** A settled event has the outcome of a call that ended since `from`; one about to be settled
      belongs to such a call. */
  ghost predicate DoneFits(from: Time, w: World, i: Id, batch: seq<Row>) {
    var p := PhaseOf(w, i);
    p.Working? ==>
      forall k {:trigger p.workers[k]} :: 0 <= k < |batch| && k < |p.workers| ==>
        && (p.workers[k].Settled? ==>
              batch[k].id in w.rows && w.rows[batch[k].id] != batch[k]
              && Ended(batch[k], w.rows[batch[k].id], from, w.clock))
        && (p.workers[k].Settling? ==> FailedWithin(batch[k], from, w.clock, p.workers[k].verdict))
  }

  /** The state of a batch that nothing disturbs. */
  ghost predicate Unharmed(w: World, alone: bool, box: Outbox, i: Id, batch: seq<Row>, failures: nat)
    reads box
  {
    && Quiet(w, box.View(), i, batch)
    && (alone && Alone(w, i) ==> box.solo && failures == 0 && DoneFits(w.clock, box.View(), i, batch))
  }

  lemma QuietTurn(w: World, u: World, v: World, i: Id, k: nat, batch: seq<Row>)
    requires Quiet(w, u, i, batch) && Progressed(u, v, i, k) && k < |batch| && OnlyRow(u, v, batch[k].id)
    requires v.clock == u.clock && v.arrivals == u.arrivals && v.lease == u.lease
    ensures Quiet(w, v, i, batch)
  {
  }

  lemma DoneLater(from: Time, w: World, u: World, i: Id, batch: seq<Row>)
    requires DoneFits(from, w, i, batch) && u == w.(clock := u.clock) && w.clock <= u.clock
    ensures DoneFits(from, u, i, batch)
  {
    var p := PhaseOf(w, i);
    if p.Working? {
      forall k {:trigger p.workers[k]} | 0 <= k < |batch| && k < |p.workers| && p.workers[k].Settling?
        ensures FailedWithin(batch[k], from, u.clock, p.workers[k].verdict)
      {
        assert FailedWithin(batch[k], from, w.clock, p.workers[k].verdict);
      }
    }
  }

  lemma DoneTurn(from: Time, u: World, v: World, i: Id, k: nat, batch: seq<Row>)
    requires DoneFits(from, u, i, batch) && Progressed(u, v, i, k) && k < |batch| && OnlyRow(u, v, batch[k].id)
    requires DistinctIds(batch) && from <= u.clock == v.clock && TurnEnds(u, v, i, k, batch[k])
    ensures DoneFits(from, v, i, batch)
  {
    var p, q := PhaseOf(u, i), PhaseOf(v, i);
    forall m {:trigger q.workers[m]} | 0 <= m < |batch| && m < |q.workers|
      ensures q.workers[m].Settled? ==> batch[m].id in v.rows && v.rows[batch[m].id] != batch[m]
                                        && Ended(batch[m], v.rows[batch[m].id], from, v.clock)
      ensures q.workers[m].Settling? ==> FailedWithin(batch[m], from, v.clock, q.workers[m].verdict)
    {
      if m == k {
        assert p.workers[k].Settling? ==> FailedWithin(batch[k], from, u.clock, p.workers[k].verdict);
        if q.workers[k].Settled? { WriteEnds(batch[k], from, u.clock, p.workers[k].verdict); }
      } else {
        assert q.workers[m] == p.workers[m];
        assert batch[m].id != batch[k].id;
      }
    }
  }

  lemma AllDone(from: Time, w: World, i: Id, batch: seq<Row>)
    requires DoneFits(from, w, i, batch) && PhaseOf(w, i).Working? && |PhaseOf(w, i).workers| == |batch|
    requires AllSettled(PhaseOf(w, i).workers)
    ensures AllMoved(w.rows, batch, from, w.clock)
  {
    var p := PhaseOf(w, i);
    forall k | 0 <= k < |batch|
      ensures batch[k].id in w.rows && w.rows[batch[k].id] != batch[k]
              && Ended(batch[k], w.rows[batch[k].id], from, w.clock)
    {
      assert p.workers[k].Settled?;
    }
  }

  lemma BatchDistinct(w: World, i: Id)
    requires Reached(w) && PhaseOf(w, i).Working?
    ensures DistinctIds(PhaseOf(w, i).batch)
  {
    ReachedFits(w);
    assert PhaseFits(w, i);
    var p := PhaseOf(w, i);
    forall j, k | 0 <= j < k < |p.batch| ensures p.batch[j].id != p.batch[k].id {
      assert TakenFits(w, p.batch[j], p.fetchedAt) && TakenFits(w, p.batch[k], p.fetchedAt);
    }
  }

  /** The workers of a batch run in parallel; one turn of any of them. */
  method SomeTurn(box: Outbox, i: Id, batch: seq<Row>, calm: bool, ghost h: Option<Row>, ghost w: World, ghost alone: bool,
                  failures: nat)
    returns (up: bool, more: nat)
    requires Publishing(w, alone, box, i, batch, h, failures)
    requires !AllSettled(box.relays[i].workers)
    requires calm ==> Unharmed(w, alone, box, i, batch, failures)
    modifies box
    ensures if up then Publishing(w, alone, box, i, batch, h, more)
                       && WorkLeft(box.relays[i].workers) < WorkLeft(old(box.relays[i].workers))
            else Follows(w, alone, box, h, 0) && i in box.relays && box.relays[i] == Gone
    ensures calm ==> up && Unharmed(w, alone, box, i, batch, more)
  {
    more := failures;
    ghost var u := box.View();
    up := box.Interfere(i, calm);
    ghost var paid := if AllCount(batch, h) then SettledCount(u.relays[i].workers) - failures else 0;
    Onward(w, u, box.View(), h, paid, 0);
    if !up { return; }
    if calm && alone && Alone(w, i) { DoneLater(w.clock, u, box.View(), i, batch); }
    var k :| 0 <= k < |batch| && !box.relays[i].workers[k].Settled?;
    more := TurnOf(box, i, k, batch, calm, h, w, alone, failures);
  }

  /** The turn of worker `k`. */
  method TurnOf(box: Outbox, i: Id, k: nat, batch: seq<Row>, calm: bool, ghost h: Option<Row>, ghost w: World,
                ghost alone: bool, failures: nat)
    returns (more: nat)
    requires Publishing(w, alone, box, i, batch, h, failures) && k < |batch| && !box.relays[i].workers[k].Settled?
    requires calm ==> Unharmed(w, alone, box, i, batch, failures)
    modifies box
    ensures Publishing(w, alone, box, i, batch, h, more)
    ensures WorkLeft(box.relays[i].workers) < WorkLeft(old(box.relays[i].workers))
    ensures calm ==> Unharmed(w, alone, box, i, batch, more)
  {
    more := failures;
    ghost var u := box.View();
    BatchDistinct(u, i);
    if alone && Alone(w, i) && calm { AloneIsSolo(w, u, i); }
    var err := WorkerTurn(box, i, k, batch[k], calm, h);
    TurnCounts(u.relays[i].workers, k, box.relays[i].workers[k]);
    LaterTransitive(w, u, box.View());
    if err { more := failures + 1; }
    if calm {
      QuietTurn(w, u, box.View(), i, k, batch);
      if alone && Alone(w, i) { DoneTurn(w.clock, u, box.View(), i, k, batch); }
    }
  }

  /** The batch is published; `failures` state writes did not work. Every other one has spent at
      least one attempt for good, and all of an event's attempts if it was delivered. If nothing
      disturbs the relay, every event of the batch is dealt with and no other changes. */
  method PublishChannelHeads(box: Outbox, i: Id, batch: seq<Row>, calm: bool, ghost h: Option<Row>)
    returns (up: bool, failures: nat)
    requires box.Valid() && i != 0 && i in box.relays && box.relays[i].Working? && box.relays[i].batch == batch
    requires box.relays[i].workers == seq(|batch|, _ => Calling(false))
    modifies box
    ensures failures <= |batch|
    ensures Follows(old(box.View()), old(box.solo), box, h, if up && AllCount(batch, h) then |batch| - failures else 0)
    ensures i in box.relays && box.relays[i] == if up then Idle else Gone
    ensures calm ==> up && Quiet(old(box.View()), box.View(), i, batch)
    ensures calm && old(box.solo) && Alone(old(box.View()), i) ==>
              box.solo && Alone(box.View(), i) && failures == 0
              && AllMoved(box.rows, batch, old(box.clock), box.clock)
  {
    ghost var w, alone := box.View(), box.solo;
    up, failures := RunWorkers(box, i, batch, calm, h);
    if !up { return up, 0; }
    AllCounted(box.relays[i].workers);
    ghost var u := box.View();
    if calm && alone && Alone(w, i) { AllDone(w.clock, u, i, batch); }
    box.Finished(i);
    Aside(w, u, box.View(), h, if AllCount(batch, h) then |batch| - failures else 0);
    if calm && Alone(w, i) { AloneIsSolo(w, box.View(), i); }
  }

  /** Until the last worker is done. */
  method RunWorkers(box: Outbox, i: Id, batch: seq<Row>, calm: bool, ghost h: Option<Row>)
    returns (up: bool, failures: nat)
    requires box.Valid() && i != 0 && i in box.relays && box.relays[i].Working? && box.relays[i].batch == batch
    requires box.relays[i].workers == seq(|batch|, _ => Calling(false))
    modifies box
    ensures if up then Publishing(old(box.View()), old(box.solo), box, i, batch, h, failures)
              && AllSettled(box.relays[i].workers)
            else Follows(old(box.View()), old(box.solo), box, h, 0) && i in box.relays && box.relays[i] == Gone
    ensures calm ==> up && Unharmed(old(box.View()), old(box.solo), box, i, batch, failures)
  {
    ghost var w, alone := box.View(), box.solo;
    LaterSelf(w);
    NoneCounted(|batch|);
    up, failures := true, 0;
    while !AllSettled(box.relays[i].workers)
      invariant up && Publishing(w, alone, box, i, batch, h, failures)
      invariant calm ==> Unharmed(w, alone, box, i, batch, failures)
      decreases WorkLeft(box.relays[i].workers)
    {
      up, failures := SomeTurn(box, i, batch, calm, h, w, alone, failures);
      if !up { return up, 0; }
    }
  }

  /** None of the events is what was fetched any more: each has the outcome of a publish call
      that ended between `from` and `to`. */
  ghost predicate AllMoved(rows: map<Id, Row>, batch: seq<Row>, from: Time, to: Time) {
    forall k :: 0 <= k < |batch| ==>
      batch[k].id in rows && rows[batch[k].id] != batch[k] && Ended(batch[k], rows[batch[k].id], from, to)
  }

  // ---------- the loop ----------

  /** The lease is free for relay `i`: nobody's, its own, or run out. */
  predicate CanLead(w: World, i: Id) {
    w.lease.None? || w.lease.value.owner == i || w.lease.value.until <= w.clock
  }

  /** Read the clock and ask for the lease. */
  method Elect(box: Outbox, i: Id, calm: bool, ghost h: Option<Row>) returns (up: bool, leader: bool)
    requires box.At(i, Idle)
    modifies box
    ensures Follows(old(box.View()), old(box.solo), box, h, 0)
    ensures i in box.relays
              && (if !up then box.relays[i] == Gone else if leader then box.relays[i].Leading? else box.relays[i] == Idle)
    ensures up && leader ==> box.lease.Some? && box.lease.value.owner == i
    ensures calm ==>
              up && Still(old(box.View()), box.View(), i)
              && (old(box.solo) && Alone(old(box.View()), i) ==> box.solo && Alone(box.View(), i))
    ensures calm && CanLead(old(box.View()), i) ==> leader
  {
    ghost var w := box.View();
    leader := false;
    up := box.Interfere(i, calm);
    if !up { return; }
    ghost var u := box.View();
    var now := box.ReadClock(i);
    Aside(w, u, box.View(), h, 0);
    u := box.View();
    up, leader := AcquireRelayLease(box, i, now, calm, h);
    Onward(w, u, box.View(), h, 0, 0);
  }

  /** The call for the channel heads; it may fail. */
  method FetchCall(box: Outbox, i: Id, fails: bool) returns (heads: seq<Row>)
    requires box.Valid() && i != 0 && i in box.relays && box.relays[i].Leading?
    modifies box
    ensures box.Valid() && Later(old(box.View()), box.View()) && Still(old(box.View()), box.View(), i)
    ensures box.solo ==> old(box.solo)
    ensures old(box.solo) && Alone(old(box.View()), i) ==> box.solo
    ensures i in box.relays
              && (if heads == [] then box.relays[i] == Idle else box.relays[i].Fetched? && box.relays[i].heads == heads)
    ensures box.lease == old(box.lease) && (!fails ==> AreHeads(old(box.rows), MAX_HEADS, heads))
  {
    ghost var w := box.View();
    heads := [];
    if fails {
      box.Failed(i);
    } else {
      heads := box.FindHeads(i, box.relays[i].until);
    }
    if Alone(w, i) { AloneIsSolo(w, box.View(), i); }
  }

  /** The channel heads, if the call works. */
  method FetchHeads(box: Outbox, i: Id, calm: bool, ghost h: Option<Row>) returns (up: bool, heads: seq<Row>)
    requires box.Valid() && i != 0 && i in box.relays && box.relays[i].Leading?
    modifies box
    ensures Follows(old(box.View()), old(box.solo), box, h, 0)
    ensures i in box.relays && (if !up then box.relays[i] == Gone else if heads == [] then box.relays[i] == Idle
                                else box.relays[i].Fetched? && box.relays[i].heads == heads)
    ensures calm ==>
              up && Still(old(box.View()), box.View(), i)
              && (old(box.solo) && Alone(old(box.View()), i) ==> box.solo && Alone(box.View(), i))
    ensures calm ==> AreHeads(old(box.rows), MAX_HEADS, heads) && box.lease == old(box.lease)
  {
    ghost var w := box.View();
    heads := [];
    up := box.Interfere(i, calm);
    if !up { return; }
    ghost var u := box.View();
    var fails := false;
    if !calm { fails := *; }
    heads := FetchCall(box, i, fails);
    Aside(w, u, box.View(), h, 0);
  }

  /** Read the clock again and take what is due. */
  method TakeDue(box: Outbox, i: Id, heads: seq<Row>, calm: bool, ghost h: Option<Row>)
    returns (up: bool, due: seq<Row>, nextAttempt: Time)
    requires box.Valid() && i != 0 && i in box.relays && box.relays[i].Fetched? && box.relays[i].heads == heads
    modifies box
    ensures Follows(old(box.View()), old(box.solo), box, h, 0)
    ensures i in box.relays && (if !up then box.relays[i] == Gone else if due == [] then box.relays[i] == Idle
                                else box.relays[i].Working? && box.relays[i].batch == due
                                     && box.relays[i].workers == seq(|due|, _ => Calling(false)))
    ensures calm ==>
              up && Still(old(box.View()), box.View(), i)
              && (old(box.solo) && Alone(old(box.View()), i) ==> box.solo && Alone(box.View(), i))
    ensures calm ==> box.lease == old(box.lease) && due == FirstDue(heads, box.clock)
                     && IsEarliestRetry(heads, box.clock, nextAttempt)
  {
    ghost var w := box.View();
    due, nextAttempt := [], 0;
    up := box.Interfere(i, calm);
    if !up { return; }
    ghost var u := box.View();
    var now;
    due, nextAttempt, now := box.Choose(i, box.relays[i].until, heads, box.relays[i].fetchedAt);
    Aside(w, u, box.View(), h, 0);
  }

  /** The wait of an idle round: it starts at `from`. */
  method WaitIdle(box: Outbox, i: Id, poll: nat, nextAttempt: Time, calm: bool, ghost h: Option<Row>)
    returns (up: bool, ghost from: Time)
    requires box.At(i, Idle) && poll > 0
    modifies box
    ensures Follows(old(box.View()), old(box.solo), box, h, 0)
    ensures i in box.relays && box.relays[i] == if up then Idle else Gone
    ensures calm ==>
              up && Waited(old(box.View()), box.View())
              && (old(box.solo) && Alone(old(box.View()), i) ==> box.solo && Alone(box.View(), i))
    ensures calm ==> Slept(old(box.clock), from, box.clock, poll, nextAttempt)
  {
    ghost var w := box.View();
    from := box.clock;
    up := box.Interfere(i, calm);
    if !up { return; }
    ghost var v := box.View();
    var first := box.clock;
    up := box.Interfere(i, calm);
    ghost var u := box.View();
    Onward(w, v, u, h, 0, 0);
    if !up { return; }
    ClockForward(v, u);
    from := box.clock;
    var delay := IdleDelay(poll, nextAttempt, first, box.clock);
    box.Wait(delay);
    Aside(w, u, box.View(), h, 0);
    if calm && Alone(w, i) { AloneIsSolo(w, box.View(), i); }
  }

  /** Only time has passed. */
  ghost predicate Waited(w: World, u: World) {
    u == w.(clock := u.clock) && w.clock <= u.clock
  }

  lemma ClockForward(w: World, u: World)
    requires Later(w, u)
    ensures w.clock <= u.clock
  {
    LaterFits(w, u);
  }

  /** A wait that starts at `from` and ends at `to`, `retry` being the earliest one after `at`:
      it is no longer than the poll interval, nor than the time from `at` to that retry, and it
      ends after a whole poll interval or when the retry is due. */
  predicate Slept(at: Time, from: Time, to: Time, poll: nat, retry: Time) {
    && at <= from <= to <= from + poll
    && (retry == 0 ==> to == from + poll)
    && (at < retry ==> to - from <= retry - at && (to == from + poll || retry <= to))
  }

  /** What a round saw: the channel heads, the time when it chose among them, the earliest retry
      of the others, and when it began to wait. */
  datatype Sight = Sight(heads: seq<Row>, at: Time, retry: Time, from: Time)

  /** What a round does that nothing disturbs, while time passes: it publishes the first events
      that are due when it chooses, or waits. */
  ghost predicate RoundTakes(w: World, u: World, poll: nat, sight: Sight, batch: seq<Row>) {
    && AreHeads(w.rows, 1000, sight.heads) && batch == FirstDue(sight.heads, sight.at)
    && w.clock <= sight.at <= u.clock && u.arrivals == w.arrivals
    && (batch != [] ==> AllMoved(u.rows, batch, sight.at, u.clock) && OnlyBatch(w, u, batch))
    && (batch == [] ==> u.rows == w.rows && IsEarliestRetry(sight.heads, sight.at, sight.retry)
                        && Slept(sight.at, sight.from, u.clock, poll, sight.retry))
  }

  /** The other events stay as they were. */
  ghost predicate OnlyBatch(w: World, u: World, batch: seq<Row>) {
    u.rows.Keys == w.rows.Keys
    && forall o | o in w.rows && (forall k :: 0 <= k < |batch| ==> batch[k].id != o) :: u.rows[o] == w.rows[o]
  }

  /** Nothing disturbs relay `i`: it may lead, and nobody else is at work or ever overlapped. */
  ghost predicate Steady(box: Outbox, i: Id)
    reads box
  {
    box.solo && Alone(box.View(), i) && CanLead(box.View(), i)
  }

  /** A round of a leader: fetch, then publish or wait. */
  method Lead(box: Outbox, i: Id, poll: nat, calm: bool, ghost h: Option<Row>)
    returns (up: bool, batch: seq<Row>, failures: nat, ghost sight: Sight)
    requires box.Valid() && i != 0 && i in box.relays && box.relays[i].Leading? && poll > 0
    modifies box
    ensures failures <= |batch|
    ensures Follows(old(box.View()), old(box.solo), box, h, if up && AllCount(batch, h) then |batch| - failures else 0)
    ensures i in box.relays && box.relays[i] == if up then Idle else Gone
    ensures calm ==> up && box.lease == old(box.lease)
    ensures calm && old(box.solo) && Alone(old(box.View()), i) ==>
              box.solo && Alone(box.View(), i) && failures == 0
                && RoundTakes(old(box.View()), box.View(), poll, sight, batch)
  {
    ghost var w := box.View();
    batch, failures := [], 0;
    var events;
    up, events := FetchHeads(box, i, calm, h);
    sight := Sight(events, box.clock, 0, 0);
    if !up { return; }
    ghost var u := box.View();
    if events == [] {
      ghost var from;
      up, from := WaitIdle(box, i, poll, 0, calm, h);
      sight := sight.(from := from);
      Onward(w, u, box.View(), h, 0, 0);
    } else {
      up, batch, failures, sight := Serve(box, i, poll, events, calm, h);
      Onward(w, u, box.View(), h, 0, if up && AllCount(batch, h) then |batch| - failures else 0);
    }
  }

  /** The fetched heads: publish what is due, or wait. */
  method Serve(box: Outbox, i: Id, poll: nat, events: seq<Row>, calm: bool, ghost h: Option<Row>)
    returns (up: bool, batch: seq<Row>, failures: nat, ghost sight: Sight)
    requires box.Valid() && i != 0 && i in box.relays && box.relays[i].Fetched? && box.relays[i].heads == events
             && poll > 0
    requires events != []
    modifies box
    ensures failures <= |batch|
    ensures Follows(old(box.View()), old(box.solo), box, h, if up && AllCount(batch, h) then |batch| - failures else 0)
    ensures i in box.relays && box.relays[i] == if up then Idle else Gone
    ensures calm ==> up && box.lease == old(box.lease)
    ensures calm && old(box.solo) && Alone(old(box.View()), i) ==>
              box.solo && Alone(box.View(), i) && failures == 0
              && (AreHeads(old(box.rows), MAX_HEADS, events) ==>
                    RoundTakes(old(box.View()), box.View(), poll, sight, batch))
  {
    ghost var w := box.View();
    failures := 0;
    var nextAttempt;
    up, batch, nextAttempt := TakeDue(box, i, events, calm, h);
    sight := Sight(events, box.clock, nextAttempt, 0);
    if !up { return up, [], 0, sight; }
    ghost var u := box.View();
    if batch == [] {
      ghost var from;
      up, from := WaitIdle(box, i, poll, nextAttempt, calm, h);
      sight := sight.(from := from);
      Onward(w, u, box.View(), h, 0, 0);
    } else {
      up, failures := PublishChannelHeads(box, i, batch, calm, h);
      Onward(w, u, box.View(), h, 0, if up && AllCount(batch, h) then |batch| - failures else 0);
    }
  }

  /** One turn of the relay's loop: without the lease it waits, with it it leads a round. */
  method Round(box: Outbox, i: Id, poll: nat, calm: bool, ghost h: Option<Row>)
    returns (up: bool, batch: seq<Row>, failures: nat, ghost sight: Sight)
    requires box.At(i, Idle) && poll > 0
    modifies box
    ensures failures <= |batch|
    ensures Follows(old(box.View()), old(box.solo), box, h, if up && AllCount(batch, h) then |batch| - failures else 0)
    ensures i in box.relays && box.relays[i] == if up then Idle else Gone
    ensures calm && old(Steady(box, i)) ==>
              up && failures == 0 && Steady(box, i) && RoundTakes(old(box.View()), box.View(), poll, sight, batch)
  {
    ghost var w := box.View();
    batch, failures, sight := [], 0, Sight([], 0, 0, 0);
    var leader;
    up, leader := Elect(box, i, calm, h);
    if !up { return; }
    ghost var u := box.View();
    if leader {
      up, batch, failures, sight := Lead(box, i, poll, calm, h);
      Onward(w, u, box.View(), h, 0, if up && AllCount(batch, h) then |batch| - failures else 0);
    } else {
      ghost var from;
      up, from := WaitIdle(box, i, poll, 0, calm, h);
      Onward(w, u, box.View(), h, 0, 0);
    }
  }

  /** The release: the driver may report an error whether or not the delete took effect. */
  method ReleaseRelayLease(box: Outbox, i: Id, applied: bool, heard: bool, ghost h: Option<Row>)
    returns (up: bool, released: bool)
    requires box.At(i, Idle)
    modifies box
    ensures Follows(old(box.View()), old(box.solo), box, h, 0)
    ensures i in box.relays && box.relays[i] == Gone
    ensures released == (up && applied && heard)
    ensures up && applied ==> box.lease.None? || box.lease.value.owner != i
  {
    ghost var w := box.View();
    released := false;
    up := box.Interfere(i, false);
    if !up { return; }
    ghost var u := box.View();
    box.DeleteLeaseDocument(i, applied);
    Aside(w, u, box.View(), h, 0);
    released := applied && heard;
  }

  /** The relay's life, for as many rounds as its context lasts. Unless it crashed, it then asks
      for the release of its lease, which may fail (`applied`, `heard`), and returns either way:
      without the lease if the release took effect, which it does if no error was reported. */
  method Run(box: Outbox, i: Id, poll: nat, rounds: nat, applied: bool, heard: bool, ghost h: Option<Row>)
    returns (up: bool, released: bool)
    requires box.Valid() && i != 0 && i !in box.relays && poll > 0
    modifies box
    ensures Follows(old(box.View()), old(box.solo), box, h, 0)
    ensures i in box.relays && box.relays[i] == Gone
    ensures released == (up && applied && heard)
    ensures up && applied ==> box.lease.None? || box.lease.value.owner != i
  {
    ghost var w := box.View();
    LaterSelf(w);
    released := false;
    box.Join(i);
    Aside(w, w, box.View(), h, 0);
    for n := 0 to rounds
      invariant box.At(i, Idle) && Follows(w, old(box.solo), box, h, 0)
    {
      ghost var u := box.View();
      var batch, failures;
      ghost var sight;
      up, batch, failures, sight := Round(box, i, poll, false, h);
      Onward(w, u, box.View(), h, 0, if up && AllCount(batch, h) then |batch| - failures else 0);
      if !up { return; }
    }
    ghost var u := box.View();
    up, released := ReleaseRelayLease(box, i, applied, heard, h);
    Onward(w, u, box.View(), h, 0, 0);
  }
}
