/** The outbox collection, the lease document and Kafka as a relay's code sees them: each method
    is one call, and `Interfere` is everything that may happen between two of them. */
module OutboxStore {
  import opened Schema
  import opened OutboxHeads
  import opened RelayScan
  import opened RelaySystem
  import opened RelayLease
  import opened RelayInvariant
  import opened RelaySteps
  import opened RelayReach
  import opened RelayOrder
  import opened RelayTheorems

  /** The relay an action moves; 0 for time and the service. */
  function Mover(a: Action): Id {
    if a.Tick? || a.Enqueue? then 0 else a.relay
  }

  predicate ByOthers(run: seq<Action>, i: Id) {
    forall a | a in run :: Mover(a) != i
  }

  lemma {:induction false} OthersLeaveAlone(w: World, run: seq<Action>, i: Id)
    requires ByOthers(run, i) && i != 0
    ensures PhaseOf(Run(w, run), i) == PhaseOf(w, i) && (i in Run(w, run).relays <==> i in w.relays)
    decreases |run|
  {
    if run != [] {
      OthersLeaveAlone(w, run[..|run| - 1], i);
      assert run[|run| - 1] in run;
    }
  }

  /** From `w` to `u`, `paid` attempts of the events that count were spent for good, and three
      came with each new event. */
  ghost predicate PaidOff(w: World, u: World, h: Option<Row>, paid: int) {
    Debt(u.rows, u.arrivals, h) + paid
    <= Debt(w.rows, w.arrivals, h) + MAX_PUBLISH_ATTEMPTS * (|u.arrivals| - |w.arrivals|)
  }

  /** For any choice of the events that count. */
  ghost predicate PaysOff(w: World, u: World) {
    forall h {:trigger PaidOff(w, u, h, 0)} :: PaidOff(w, u, h, 0)
  }

  lemma PaysOffSame(w: World, u: World, v: World)
    requires u.rows == v.rows && u.arrivals == v.arrivals
    ensures PaysOff(w, u) ==> PaysOff(w, v)
  {
    if PaysOff(w, u) {
      forall h ensures PaidOff(w, v, h, 0) { assert PaidOff(w, u, h, 0); }
    }
  }

  lemma {:induction false} SameDuration(w: World, run: seq<Action>)
    ensures Run(w, run).duration == w.duration
    decreases |run|
  {
    if run != [] { SameDuration(w, run[..|run| - 1]); }
  }

  lemma {:induction false} AddedArrives(w: World, run: seq<Action>, h: Option<Row>)
    ensures Added(w, run, h) <= |Run(w, run).arrivals| - |w.arrivals|
    decreases |run|
  {
    if run != [] {
      AddedArrives(w, run[..|run| - 1], h);
    }
  }

  lemma RunPaysOff(w: World, run: seq<Action>, h: Option<Row>)
    requires SoloInv(w) && SoloRun(w, run)
    ensures PaidOff(w, Run(w, run), h, 0)
  {
    DebtConserved(w, run, h);
    AddedArrives(w, run, h);
  }

  /** One action, taken as a step of the run so far. */
  lemma Stepped(w: World, a: Action, solo: bool)
    requires Reached(w) && (solo ==> SoloInv(w))
    ensures Reached(Next(w, a)) && Later(w, Next(w, a))
    ensures solo && Solo(Next(w, a)) ==> SoloInv(Next(w, a))
  {
    ReachedNext(w, a);
    LaterSelf(w);
    LaterNext(w, w, a);
    if solo && Solo(Next(w, a)) { SoloNext(w, a); }
  }

  class Outbox {
    const duration: nat
    var clock: Time
    var rows: map<Id, Row>
    var lease: Option<Lease>
    var log: seq<Record>
    // Where every relay stands, and the history. What others do runs on them; the calls of a relay
    // read no more of them than its own locals.
    var arrivals: seq<Id>
    var relays: map<Id, Phase>
    ghost var solo: bool

    function View(): World
      reads this
    {
      World(duration, clock, rows, arrivals, lease, log, relays)
    }

    /** `solo` says that no two relays have ever overlapped. */
    ghost predicate Valid()
      reads this
    {
      Reached(View()) && (solo ==> SoloInv(View()))
    }

    ghost predicate At(i: Id, phase: Phase)
      reads this
    {
      Valid() && i != 0 && i in relays && relays[i] == phase
    }

    constructor (leaseDuration: nat)
      requires leaseDuration > 0
      ensures Valid() && View() == Initial(leaseDuration) && solo
    {
      duration := leaseDuration;
      clock, rows, lease, log, arrivals, relays, solo := 0, map[], None, [], [], map[], true;
      new;
      RunReaches(duration, []);
      InitialFits(duration);
    }

    /** The store does what the action says. */
    twostate predicate Does(a: Action)
      reads this
    {
      && Valid() && Later(old(View()), View()) && View() == Next(old(View()), a)
      && solo == (old(solo) && Solo(View()))
    }

    /** Any actions of the service, of other relays and of time. */
    method Others(i: Id)
      requires Valid() && i != 0 && i in relays
      modifies this`clock, this`rows, this`lease, this`log, this`arrivals, this`relays, this`solo
      ensures Valid() && Later(old(View()), View()) && (solo ==> old(solo))
      ensures i in relays && relays[i] == old(relays[i])
      ensures solo ==> PaysOff(old(View()), View())
    {
      var run: seq<Action> :| ByOthers(run, i);
      var w := View();
      var u := Run(w, run);
      clock, rows, lease, log, arrivals, relays := u.clock, u.rows, u.lease, u.log, u.arrivals, u.relays;
      solo := solo && SoloRun(w, run);
      Ran(w, run, old(solo));
      assert View() == u;
      OthersLeaveAlone(w, run, i);
    }

    /** Others act, and then this relay may crash. In a calm environment only time passes. */
    method Interfere(i: Id, calm: bool) returns (up: bool)
      requires Valid() && i != 0 && i in relays && !relays[i].Gone?
      modifies this`clock, this`rows, this`lease, this`log, this`arrivals, this`relays, this`solo
      ensures Valid() && Later(old(View()), View()) && (solo ==> old(solo))
      ensures i in relays && (if up then relays[i] == old(relays[i]) else relays[i] == Gone)
      ensures solo ==> PaysOff(old(View()), View())
      ensures calm ==> up && View() == old(View()).(clock := clock) && old(clock) <= clock && solo == old(solo)
    {
      ghost var w := View();
      LaterSelf(w);
      up := true;
      if calm {
        var elapsed: nat :| elapsed >= 0;
        assert solo ==> Solo(w);
        Wait(elapsed);
        assert Solo(w) ==> Solo(View());
        forall h ensures PaidOff(w, View(), h, 0) {}
        return;
      }
      Others(i);
      ghost var u, alone := View(), solo;
      up := *;
      if !up {
        relays := relays[i := Gone];
        solo := solo && Solo(View());
        assert View() == Next(u, Crash(i));
        Stepped(u, Crash(i), alone);
        LaterTransitive(w, u, View());
        PaysOffSame(w, u, View());
      }
    }

    static lemma Ran(w: World, run: seq<Action>, solo: bool)
      requires Reached(w) && (solo ==> SoloInv(w))
      ensures Reached(Run(w, run)) && Later(w, Run(w, run)) && Run(w, run).duration == w.duration
      ensures solo && SoloRun(w, run) ==> SoloInv(Run(w, run)) && PaysOff(w, Run(w, run))
    {
      SameDuration(w, run);
      LaterRun(w, run);
      if solo && SoloRun(w, run) {
        SoloRunKeeps(w, run);
        forall h ensures PaidOff(w, Run(w, run), h, 0) { RunPaysOff(w, run, h); }
      }
    }

    // ---------- the relay's own reckoning ----------

    method Join(i: Id)
      requires Valid() && i != 0 && i !in relays
      modifies this`relays, this`solo
      ensures Does(RelaySystem.Join(i)) && At(i, Idle)
    {
      relays := relays[i := Idle];
      solo := solo && Solo(View());
      Stepped(old(View()), RelaySystem.Join(i), old(solo));
    }

    /** time.Now before asking for the lease. */
    method ReadClock(i: Id) returns (now: Time)
      requires At(i, Idle)
      modifies this`relays, this`solo
      ensures Does(Poll(i)) && now == clock && At(i, Asking(now))
    {
      now := clock;
      relays := relays[i := Asking(now)];
      solo := solo && Solo(View());
      Stepped(old(View()), Poll(i), old(solo));
    }

    /** time.Now after the fetch, and the batch the relay goes on with. */
    method Choose(i: Id, ghost until: Time, heads: seq<Row>, ghost fetchedAt: nat)
      returns (due: seq<Row>, nextAttempt: Time, now: Time)
      requires At(i, Fetched(until, heads, fetchedAt))
      modifies this`relays, this`solo
      ensures Does(Take(i)) && now == clock && due == FirstDue(heads, now) && IsEarliestRetry(heads, now, nextAttempt)
      ensures if due == [] then At(i, Idle) else At(i, Working(until, due, seq(|due|, _ => Calling(false)), fetchedAt))
    {
      now := clock;
      due, nextAttempt := Scan(heads, now);
      var next := TakeStep(View(), i);
      relays := next.relays;
      assert View() == next;
      solo := solo && Solo(View());
      Stepped(old(View()), Take(i), old(solo));
    }

    /** All workers are done. */
    method Finished(i: Id)
      requires Valid() && i != 0 && PhaseOf(View(), i).Working? && AllSettled(PhaseOf(View(), i).workers)
      modifies this`relays, this`solo
      ensures Does(Finish(i)) && At(i, Idle)
    {
      relays := relays[i := Idle];
      solo := solo && Solo(View());
      Stepped(old(View()), Finish(i), old(solo));
    }

    method Wait(elapsed: nat)
      requires Valid()
      modifies this`clock, this`solo
      ensures Does(Tick(elapsed)) && clock == old(clock) + elapsed
    {
      clock := clock + elapsed;
      solo := solo && Solo(View());
      Stepped(old(View()), Tick(elapsed), old(solo));
    }

    // ---------- the lease document ----------

    /** A driver error before the call took effect. */
    method Failed(i: Id)
      requires Valid() && i != 0
               && (PhaseOf(View(), i).Asking? || PhaseOf(View(), i).Inserting? || PhaseOf(View(), i).Leading?)
      modifies this`relays, this`solo
      ensures Does(Fail(i)) && At(i, Idle)
    {
      relays := relays[i := Idle];
      solo := solo && Solo(View());
      Stepped(old(View()), Fail(i), old(solo));
    }

    /** leases.FindOneAndUpdate, its match phase: the document has run out, or is the relay's. */
    method MatchLeaseDocument(i: Id, now: Time, heard: bool) returns (matched: bool)
      requires At(i, Asking(now))
      modifies this`lease, this`relays, this`solo
      ensures Does(MatchLease(i, heard)) && i in relays
      ensures matched == (old(lease).Some? && (old(lease).value.until <= now || old(lease).value.owner == i))
      ensures lease == if matched then Some(Lease(i, now + duration)) else old(lease)
      ensures relays[i] == if !matched then Inserting(now) else if heard then Leading(now + duration) else Idle
    {
      matched := lease.Some? && (lease.value.until <= now || lease.value.owner == i);
      if matched { lease := Some(Lease(i, now + duration)); }
      relays := relays[i := if !matched then Inserting(now) else if heard then Leading(now + duration) else Idle];
      assert View() == Next(old(View()), MatchLease(i, heard));
      solo := solo && Solo(View());
      Stepped(old(View()), MatchLease(i, heard), old(solo));
    }

    /** Its insert phase: a duplicate key if there is a document. */
    method InsertLeaseDocument(i: Id, now: Time, heard: bool) returns (inserted: bool)
      requires At(i, Inserting(now))
      modifies this`lease, this`relays, this`solo
      ensures Does(InsertLease(i, heard)) && i in relays
      ensures inserted == old(lease).None?
      ensures lease == if inserted then Some(Lease(i, now + duration)) else old(lease)
      ensures relays[i] == if inserted && heard then Leading(now + duration) else Idle
    {
      inserted := lease.None?;
      if inserted { lease := Some(Lease(i, now + duration)); }
      relays := relays[i := if inserted && heard then Leading(now + duration) else Idle];
      assert View() == Next(old(View()), InsertLease(i, heard));
      solo := solo && Solo(View());
      Stepped(old(View()), InsertLease(i, heard), old(solo));
    }

    /** leases.DeleteOne by owner, unless a driver error keeps it from taking effect; the relay
        ends either way. */
    method DeleteLeaseDocument(i: Id, applied: bool)
      requires At(i, Idle)
      modifies this`lease, this`relays, this`solo
      ensures Does(if applied then Stop(i) else Crash(i)) && i in relays && relays[i] == Gone
      ensures lease == if applied && old(lease).Some? && old(lease).value.owner == i then None else old(lease)
    {
      ghost var a := if applied then Stop(i) else Crash(i);
      if applied && lease.Some? && lease.value.owner == i { lease := None; }
      relays := relays[i := Gone];
      assert View() == Next(old(View()), a);
      solo := solo && Solo(View());
      Stepped(old(View()), a, old(solo));
    }

    // ---------- the events ----------

    /** events.Aggregate with the head pipeline. */
    method FindHeads(i: Id, ghost until: Time) returns (heads: seq<Row>)
      requires At(i, Leading(until))
      modifies this`relays, this`solo
      ensures Does(Fetch(i, heads)) && AreHeads(rows, 1000, heads)
      ensures if heads == [] then At(i, Idle) else At(i, Fetched(until, heads, |arrivals|))
    {
      KeyedRows(View());
      heads := PendingChannelHeads(rows, MAX_HEADS);
      relays := relays[i := if heads == [] then Idle else Fetched(relays[i].until, heads, |arrivals|)];
      assert View() == Next(old(View()), Fetch(i, heads));
      solo := solo && Solo(View());
      Stepped(old(View()), Fetch(i, heads), old(solo));
    }

    static lemma KeyedRows(w: World)
      requires Reached(w)
      ensures Keyed(w.rows)
    {
      ReachedFits(w);
      RowsKeyed(w);
    }

    /** Kafka appends the record of a running publish call. */
    method AppendRecord(i: Id, k: nat, r: Row)
      requires Valid() && i != 0 && AtWorker(View(), i, k)
      requires relays[i].workers[k] == Calling(false) && relays[i].batch[k] == r
      modifies this`log, this`relays, this`solo
      ensures Does(Append(i, k)) && Moved(old(View()), View(), i, k, Calling(true))
      ensures |log| == |old(log)| + 1 && log[..|old(log)|] == old(log)
      ensures log[|old(log)|].key == r.doc.partitionKey && log[|old(log)|].event == r.doc.event
    {
      log := log + [Record(r.doc.partitionKey, r.doc.event, r, relays[i].fetchedAt)];
      relays := relays[i := relays[i].(workers := relays[i].workers[k := Calling(true)])];
      assert View() == Next(old(View()), Append(i, k));
      solo := solo && Solo(View());
      Stepped(old(View()), Append(i, k), old(solo));
    }

    /** The publish call returns; the clock is read for a retry. */
    method ReturnCall(i: Id, k: nat, ok: bool, verdict: Verdict)
      requires Valid() && i != 0 && AtWorker(View(), i, k)
      requires relays[i].workers[k].Calling? && (ok ==> relays[i].workers[k].appended)
      requires verdict == if ok then Delivered else AfterFailure(relays[i].batch[k].attempts + 1, clock)
      modifies this`relays, this`solo
      ensures Does(Return(i, k, ok)) && Moved(old(View()), View(), i, k, Settling(verdict))
    {
      relays := relays[i := relays[i].(workers := relays[i].workers[k := Settling(verdict)])];
      assert View() == Next(old(View()), Return(i, k, ok));
      solo := solo && Solo(View());
      Stepped(old(View()), Return(i, k, ok), old(solo));
    }

    /** Only worker `k` of relay `i` moved, to `worker`. */
    static ghost predicate Moved(w: World, u: World, i: Id, k: nat, worker: Worker) {
      && AtWorker(w, i, k) && i in u.relays
      && u.relays[i] == PhaseOf(w, i).(workers := PhaseOf(w, i).workers[k := worker])
    }

    /** events.UpdateOne to published, if the event is pending. */
    method MarkPublished(i: Id, k: nat, e: Id, applied: bool) returns (err: bool)
      requires Valid() && i != 0 && AtWorker(View(), i, k)
      requires relays[i].workers[k] == Settling(Delivered) && relays[i].batch[k].id == e
      modifies this`rows, this`relays, this`solo
      ensures Does(Settle(i, k, applied)) && Moved(old(View()), View(), i, k, Settled)
      ensures err == !(applied && e in old(rows) && old(rows)[e].status.Pending?)
      ensures rows == if err then old(rows) else old(rows)[e := old(rows)[e].(status := Published)]
    {
      err := !(applied && e in rows && rows[e].status.Pending?);
      if !err { rows := rows[e := rows[e].(status := Published)]; }
      relays := relays[i := relays[i].(workers := relays[i].workers[k := Settled])];
      assert View() == Next(old(View()), Settle(i, k, applied));
      solo := solo && Solo(View());
      Stepped(old(View()), Settle(i, k, applied), old(solo));
    }

    /** events.UpdateOne to a later attempt, if the event is pending; it does not say whether. */
    method ScheduleRetry(i: Id, k: nat, e: Id, retryAt: Time, applied: bool) returns (err: bool)
      requires Valid() && i != 0 && AtWorker(View(), i, k)
      requires relays[i].workers[k] == Settling(Retry(retryAt)) && relays[i].batch[k].id == e
      modifies this`rows, this`relays, this`solo
      ensures Does(Settle(i, k, applied)) && Moved(old(View()), View(), i, k, Settled) && err == !applied
      ensures rows == if !applied || e !in old(rows) || !old(rows)[e].status.Pending? then old(rows)
                      else old(rows)[e := old(rows)[e].(nextAttemptAt := retryAt, attempts := old(rows)[e].attempts + 1)]
    {
      err := !applied;
      if applied && e in rows && rows[e].status.Pending? {
        rows := rows[e := rows[e].(nextAttemptAt := retryAt, attempts := rows[e].attempts + 1)];
      }
      relays := relays[i := relays[i].(workers := relays[i].workers[k := Settled])];
      assert View() == Next(old(View()), Settle(i, k, applied));
      solo := solo && Solo(View());
      Stepped(old(View()), Settle(i, k, applied), old(solo));
    }

    /** events.UpdateOne to failed, if the event is pending. */
    method MarkFailed(i: Id, k: nat, e: Id, attempts: int, applied: bool) returns (err: bool)
      requires Valid() && i != 0 && AtWorker(View(), i, k)
      requires relays[i].workers[k] == Settling(Park(attempts)) && relays[i].batch[k].id == e
      modifies this`rows, this`relays, this`solo
      ensures Does(Settle(i, k, applied)) && Moved(old(View()), View(), i, k, Settled)
      ensures err == !(applied && e in old(rows) && old(rows)[e].status.Pending?)
      ensures rows == if err then old(rows) else old(rows)[e := old(rows)[e].(status := Parked, attempts := attempts)]
    {
      err := !(applied && e in rows && rows[e].status.Pending?);
      if !err { rows := rows[e := rows[e].(status := Parked, attempts := attempts)]; }
      relays := relays[i := relays[i].(workers := relays[i].workers[k := Settled])];
      assert View() == Next(old(View()), Settle(i, k, applied));
      solo := solo && Solo(View());
      Stepped(old(View()), Settle(i, k, applied), old(solo));
    }
  }
}
