/** When an event whose publishing failed is tried again. */
module RelayBackoff {
  import opened Schema
  import opened Runs
  import opened OutboxHeads
  import opened RelayScan
  import opened RelaySystem
  import opened RelayLease
  import opened RelayInvariant
  import opened RelaySteps
  import opened RelayReach
  import opened RelayOrder
  import opened RelayTheorems

  /** How a call of event `r` that failed at time `now` is dealt with: a first failure is retried
      a second later, a second one two seconds later, and the third one parks the event. */
  predicate FailsWith(r: Row, now: Time, verdict: Verdict) {
    if r.attempts == 0 then verdict == Retry(now + 1_000_000_000)
    else if r.attempts == 1 then verdict == Retry(now + 2_000_000_000)
    else verdict == Park(r.attempts + 1)
  }

  lemma FailureDelays(r: Row, now: Time)
    requires r.attempts >= 0
    ensures FailsWith(r, now, AfterFailure(r.attempts + 1, now))
  {
    if r.attempts < 2 { FirstDelays(); }
  }

  /** A call failed between `from` and `to`, or succeeded. */
  predicate FailedWithin(r: Row, from: Time, to: Time, verdict: Verdict) {
    verdict.Delivered? || exists now :: from <= now <= to && FailsWith(r, now, verdict)
  }

  /** What a publish call that ended between `from` and `to`, and its state write, made of an
      event: published, due again a second or two after the end, or parked at the third failure. */
  predicate Ended(r: Row, q: Row, from: Time, to: Time) {
    && q.id == r.id && q.doc == r.doc
    && (|| (q.status.Published? && q.attempts == r.attempts)
        || (r.attempts == 0 && q.status.Pending? && q.attempts == 1
            && from + 1_000_000_000 <= q.nextAttemptAt <= to + 1_000_000_000)
        || (r.attempts == 1 && q.status.Pending? && q.attempts == 2
            && from + 2_000_000_000 <= q.nextAttemptAt <= to + 2_000_000_000)
        || (r.attempts == 2 && q.status.Parked? && q.attempts == 3))
  }

  lemma WriteEnds(r: Row, from: Time, to: Time, verdict: Verdict)
    requires r.status.Pending? && WithinBudget(r) && FailedWithin(r, from, to, verdict)
    ensures Ended(r, Marked(r, verdict), from, to) && Marked(r, verdict) != r
  {
  }

  // ---------- from the failure to the row ----------

  /** The run leaves worker `k` of relay `i` alone. */
  predicate Spares(run: seq<Action>, i: Id, k: nat) {
    forall a | a in run ::
      (a.Tick? || a.Enqueue? || a.relay != i || ((a.Append? || a.Return? || a.Settle?) && a.k != k))
  }

  /** It then stands where it stood. */
  lemma {:induction false} WorkerWaits(w: World, run: seq<Action>, i: Id, k: nat)
    requires AtWorker(w, i, k) && Spares(run, i, k)
    ensures var u := Run(w, run);
            && AtWorker(u, i, k) && PhaseOf(u, i).workers[k] == PhaseOf(w, i).workers[k]
            && PhaseOf(u, i).batch == PhaseOf(w, i).batch
    decreases |run|
  {
    if run != [] {
      var n := |run| - 1;
      assert run[n] in run;
      WorkerWaits(w, run[..n], i, k);
      OneWaits(Run(w, run[..n]), run[n], i, k);
    }
  }

  lemma OneWaits(w: World, a: Action, i: Id, k: nat)
    requires AtWorker(w, i, k) && Spares([a], i, k)
    ensures var u := Next(w, a);
            && AtWorker(u, i, k) && PhaseOf(u, i).workers[k] == PhaseOf(w, i).workers[k]
            && PhaseOf(u, i).batch == PhaseOf(w, i).batch
  {
    assert a in [a];
    if !a.Tick? && !a.Enqueue? && a.relay == i {
      assert a.k != k;
    }
  }

  /** Whatever happens between a failed call and its state write, the write makes the event due
      again a second after the first failure and two seconds after the second, counted from the
      end of the call, and parks it after the third. */
  lemma RetryIsLater(w: World, run: seq<Action>, i: Id, k: nat)
    requires SoloInv(w) && AtWorker(w, i, k) && PhaseOf(w, i).workers[k].Calling?
    requires SoloRun(Next(w, Return(i, k, false)), run) && Spares(run, i, k)
    ensures var v := Run(Next(w, Return(i, k, false)), run);
            var e := PhaseOf(w, i).batch[k].id;
            var u := Next(v, Settle(i, k, true));
            && e in v.rows && e in u.rows && v.rows[e].status.Pending?
            && 0 <= v.rows[e].attempts <= 2 && u.rows[e].attempts == v.rows[e].attempts + 1
            && (v.rows[e].attempts == 0 ==> u.rows[e].status.Pending? && u.rows[e].nextAttemptAt == w.clock + 1_000_000_000)
            && (v.rows[e].attempts == 1 ==> u.rows[e].status.Pending? && u.rows[e].nextAttemptAt == w.clock + 2_000_000_000)
            && (v.rows[e].attempts == 2 ==> u.rows[e].status.Parked?)
  {
    var r := PhaseOf(w, i).batch[k];
    var t := Next(w, Return(i, k, false));
    ReachesSettling(w, i, k);
    WorkerWaits(t, run, i, k);
    SoloRunKeeps(t, run);
    var v := Run(t, run);
    SettleFinds(v, i, k);
    FailureDelays(r, w.clock);
    assert Next(v, Settle(i, k, true)).rows == v.rows[r.id := Marked(r, AfterFailure(r.attempts + 1, w.clock))];
  }

  lemma ReachesSettling(w: World, i: Id, k: nat)
    requires SoloInv(w) && AtWorker(w, i, k) && PhaseOf(w, i).workers[k].Calling?
    ensures var t := Next(w, Return(i, k, false));
            && SoloInv(t) && AtWorker(t, i, k) && PhaseOf(t, i).batch == PhaseOf(w, i).batch
            && PhaseOf(t, i).workers[k] == Settling(AfterFailure(PhaseOf(w, i).batch[k].attempts + 1, w.clock))
            && PhaseOf(w, i).batch[k].attempts >= 0
  {
    SoloReturn(w, i, k, false);
    assert PhaseFits(w, i);
    var p := PhaseOf(w, i);
    assert TakenFits(w, p.batch[k], p.fetchedAt);
  }
}
