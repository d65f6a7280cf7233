/** Every action of the relays keeps the invariant of the outbox and the log.

    A fetch is the one place where new knowledge arises: the rows it yields are pending, and
    no pending event that had entered the outbox before the fetch comes before them in their
    channel. Everything else only carries this on, as events are marked and new ones arrive,
    and hands it to the record that a worker appends to the log. */
module RelaySteps {
  import opened Schema
  import opened Counting
  import opened OutboxHeads
  import opened RelayScan
  import opened RelaySystem
  import opened RelayLease
  import opened RelayInvariant

  /** `u` follows `w`: the invariant holds again, and nothing is taken back. */
  ghost predicate Kept(w: World, u: World) {
    StoreInv(u) && Evolves(w, u)
  }

  /** A relay moves on and the outbox stays as it is. */
  lemma QuietKeeps(w: World, u: World, i: Id)
    requires StoreInv(w) && w.clock <= u.clock && u.rows == w.rows && u.arrivals == w.arrivals && u.log == w.log
    requires forall j | j != i :: PhaseOf(u, j) == PhaseOf(w, j)
    requires PhaseFits(u, i)
    ensures Kept(w, u)
  {
    StepKeeps(w, u, i);
  }

  lemma EnqueueKeeps(w: World, e: Id, doc: OutboxDoc)
    requires StoreInv(w)
    ensures Kept(w, Next(w, Enqueue(e, doc)))
  {
    var u := Next(w, Enqueue(e, doc));
    if e == 0 || e in w.rows {
      assert PhaseFits(w, 0);
      QuietKeeps(w, u, 0);
    } else {
      assert u.arrivals[|w.arrivals|] == e;
      assert forall k :: 0 <= k < |w.arrivals| ==> u.arrivals[k] == w.arrivals[k];
      assert forall k :: 0 <= k < |w.arrivals| ==> w.arrivals[k] in w.rows;
      assert PhaseFits(w, 0);
      PhaseStays(w, u, 0);
      StepKeeps(w, u, 0);
    }
  }

  // ---------- fetching ----------

  lemma HeadTaken(w: World, h: Row)
    requires StoreInv(w) && IsHead(w.rows, h)
    ensures TakenFits(w, h, |w.arrivals|)
  {
    assert RowFits(w, h.id);
  }

  lemma HeadsApart(rows: map<Id, Row>, a: Row, b: Row)
    requires Keyed(rows) && IsHead(rows, a) && IsHead(rows, b) && Older(a, b)
    ensures a.doc.partitionKey != b.doc.partitionKey
  {
  }

  lemma RowsKeyed(w: World)
    requires StoreInv(w)
    ensures Keyed(w.rows)
  {
    forall e | e in w.rows ensures w.rows[e].id == e { assert RowFits(w, e); }
  }

  lemma HeadsFit(w: World, heads: seq<Row>)
    requires StoreInv(w) && AreHeads(w.rows, MAX_HEADS, heads)
    ensures BatchFits(w, heads, |w.arrivals|)
  {
    RowsKeyed(w);
    forall k {:trigger heads[k]} | 0 <= k < |heads| ensures TakenFits(w, heads[k], |w.arrivals|) {
      HeadTaken(w, heads[k]);
    }
    forall j, k | 0 <= j < k < |heads| ensures heads[j].doc.partitionKey != heads[k].doc.partitionKey {
      HeadsApart(w.rows, heads[j], heads[k]);
    }
  }

  lemma FetchKeeps(w: World, i: Id, heads: seq<Row>)
    requires StoreInv(w)
    ensures Kept(w, Next(w, Fetch(i, heads)))
  {
    var u := Next(w, Fetch(i, heads));
    assert PhaseFits(w, i);
    if PhaseOf(w, i).Leading? && AreHeads(w.rows, MAX_HEADS, heads) && heads != [] {
      HeadsFit(w, heads);
      var f := w.(relays := u.relays);
      assert u == f;
      SameBatch(w, u, heads, |w.arrivals|);
    }
    QuietKeeps(w, u, i);
  }

  lemma SameBatch(w: World, u: World, batch: seq<Row>, n: nat)
    requires BatchFits(w, batch, n) && u.rows == w.rows && u.arrivals == w.arrivals
    ensures BatchFits(u, batch, n)
  {
    forall k {:trigger batch[k]} | 0 <= k < |batch| ensures TakenFits(u, batch[k], n) {
      assert TakenFits(w, batch[k], n);
      assert forall e, m {:trigger Early(u, e, m)} :: Early(u, e, m) <==> Early(w, e, m);
    }
  }

  ghost predicate Apart(s: seq<Row>) {
    forall j, k :: 0 <= j < k < |s| ==> s[j].doc.partitionKey != s[k].doc.partitionKey
  }

  lemma {:induction false} DueApart(events: seq<Row>, now: Time)
    requires Apart(events)
    ensures Apart(Due(events, now))
    decreases |events|
  {
    if events != [] {
      var n := |events| - 1;
      DueApart(events[..n], now);
      var d := Due(events[..n], now);
      forall k | 0 <= k < |d| ensures d[k].doc.partitionKey != events[n].doc.partitionKey {
        assert d[k] in events[..n];
      }
    }
  }

  lemma TakeFits(w: World, heads: seq<Row>, n: nat, now: Time)
    requires BatchFits(w, heads, n)
    ensures BatchFits(w, FirstDue(heads, now), n)
  {
    var due := FirstDue(heads, now);
    DueApart(heads, now);
    forall k {:trigger due[k]} | 0 <= k < |due| ensures TakenFits(w, due[k], n) {
      assert due[k] in Due(heads, now);
      var j :| 0 <= j < |heads| && heads[j] == due[k];
    }
  }

  lemma TakeKeeps(w: World, i: Id)
    requires StoreInv(w)
    ensures Kept(w, Next(w, Take(i)))
  {
    var u := Next(w, Take(i));
    assert PhaseFits(w, i);
    if PhaseOf(w, i).Fetched? {
      TakeFits(w, PhaseOf(w, i).heads, PhaseOf(w, i).fetchedAt, w.clock);
      SameBatch(w, u, FirstDue(PhaseOf(w, i).heads, w.clock), PhaseOf(w, i).fetchedAt);
    }
    QuietKeeps(w, u, i);
  }

  // ---------- the workers ----------

  /** One worker moved on; the others and the batch stay. */
  lemma TurnFits(w: World, u: World, i: Id, k: nat, worker: Worker)
    requires StoreInv(w) && AtWorker(w, i, k) && Evolves(w, u)
    requires PhaseOf(u, i) == PhaseOf(w, i).(workers := PhaseOf(w, i).workers[k := worker])
    requires WorkerFits(u, PhaseOf(w, i).batch[k], worker)
    ensures PhaseFits(u, i)
  {
    assert PhaseFits(w, i);
    var p, q := PhaseOf(w, i), PhaseOf(u, i);
    BatchStays(w, u, p.batch, p.fetchedAt);
    forall j {:trigger q.workers[j]} | 0 <= j < |q.batch| ensures WorkerFits(u, q.batch[j], q.workers[j]) {
      if j != k {
        assert q.workers[j] == p.workers[j];
        WorkerStays(w, u, p.batch[j], p.workers[j]);
      }
    }
  }

  lemma AppendKeeps(w: World, i: Id, k: nat)
    requires StoreInv(w) && AtWorker(w, i, k)
    ensures Kept(w, AppendStep(w, i, k))
  {
    var u := AppendStep(w, i, k);
    assert PhaseFits(w, i);
    if PhaseOf(w, i).workers[k] != Calling(false) {
      QuietKeeps(w, u, i);
    } else {
      var p := PhaseOf(w, i);
      assert Evolves(w, u);
      assert u.log[|w.log|].row == p.batch[k];
      TurnFits(w, u, i, k, Calling(true));
      TakenStays(w, u, p.batch[k], p.fetchedAt);
      StepKeeps(w, u, i);
    }
  }

  lemma ReturnKeeps(w: World, i: Id, k: nat, ok: bool)
    requires StoreInv(w) && AtWorker(w, i, k)
    ensures Kept(w, ReturnStep(w, i, k, ok))
  {
    var u := ReturnStep(w, i, k, ok);
    assert PhaseFits(w, i);
    var p := PhaseOf(w, i);
    if p.workers[k].Calling? && (ok ==> p.workers[k].appended) {
      assert Evolves(w, u);
      assert WorkerFits(w, p.batch[k], p.workers[k]);
      if ok { LoggedStays(w, u, p.batch[k].id); }
      TurnFits(w, u, i, k, Settling(if ok then Delivered else AfterFailure(p.batch[k].attempts + 1, w.clock)));
    }
    QuietKeeps(w, u, i);
  }

  lemma WriteEvolves(w: World, u: World, e: Id, verdict: Verdict)
    requires StoreInv(w) && u.rows == Write(w.rows, e, verdict)
    requires u.clock == w.clock && u.arrivals == w.arrivals && u.log == w.log
    ensures Evolves(w, u) && ArrivalsFit(u)
  {
  }

  lemma WriteFits(w: World, u: World, e: Id, verdict: Verdict)
    requires StoreInv(w) && Evolves(w, u) && u.rows == Write(w.rows, e, verdict) && u.log == w.log
    requires (verdict.Delivered? ==> Logged(w, e)) && (verdict.Park? ==> verdict.attempts >= 0)
    requires e in w.rows && u.rows[e] != w.rows[e] && u.arrivals == w.arrivals
    ensures RowFits(u, e)
  {
    assert RowFits(w, e);
    EarlyStays(w, u, e, |w.arrivals|);
    if Logged(w, e) { LoggedStays(w, u, e); }
  }

  lemma SettleKeeps(w: World, i: Id, k: nat, applied: bool)
    requires StoreInv(w) && AtWorker(w, i, k)
    ensures Kept(w, SettleStep(w, i, k, applied))
  {
    var u := SettleStep(w, i, k, applied);
    assert PhaseFits(w, i);
    var p := PhaseOf(w, i);
    if !p.workers[k].Settling? {
      QuietKeeps(w, u, i);
    } else if !applied {
      TurnFits(w, u, i, k, Settled);
      QuietKeeps(w, u, i);
    } else {
      var e := p.batch[k].id;
      WriteEvolves(w, u, e, p.workers[k].verdict);
      TurnFits(w, u, i, k, Settled);
      assert WorkerFits(w, p.batch[k], p.workers[k]);
      assert e in w.rows;
      if u.rows[e] != w.rows[e] { WriteFits(w, u, e, p.workers[k].verdict); }
      StepKeeps(w, u, i);
    }
  }

  // ---------- all actions ----------

  lemma IdleKeeps(w: World, a: Action)
    requires StoreInv(w)
    requires a.Tick? || a.Join? || a.Poll? || a.MatchLease? || a.InsertLease? || a.Fail? || a.Finish? || a.Stop?
             || a.Crash?
    ensures Kept(w, Next(w, a))
  {
    var u := Next(w, a);
    var i := if a.Tick? then 0 else a.relay;
    assert PhaseFits(w, i);
    QuietKeeps(w, u, i);
  }

  lemma NextKeeps(w: World, a: Action)
    requires StoreInv(w)
    ensures Kept(w, Next(w, a))
  {
    if a.Enqueue? { EnqueueKeeps(w, a.event, a.doc); }
    else if a.Fetch? { FetchKeeps(w, a.relay, a.heads); }
    else if a.Take? { TakeKeeps(w, a.relay); }
    else if a.Append? || a.Return? || a.Settle? { WorkerKeeps(w, a); }
    else { IdleKeeps(w, a); }
  }

  lemma WorkerKeeps(w: World, a: Action)
    requires StoreInv(w) && (a.Append? || a.Return? || a.Settle?)
    ensures Kept(w, Next(w, a))
  {
    if AtWorker(w, a.relay, a.k) {
      if a.Append? { AppendKeeps(w, a.relay, a.k); }
      else if a.Return? { ReturnKeeps(w, a.relay, a.k, a.ok); }
      else { SettleKeeps(w, a.relay, a.k, a.applied); }
    } else {
      assert PhaseFits(w, a.relay);
      QuietKeeps(w, w, a.relay);
    }
  }
}
