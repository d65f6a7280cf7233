/** Whole runs of the relays, and what they deliver. */
module RelayReach {
  import opened Schema
  import opened Runs
  import opened Counting
  import opened OutboxHeads
  import opened RelayScan
  import opened RelaySystem
  import opened RelayLease
  import opened RelayInvariant
  import opened RelaySteps

  lemma EvolvesReflexive(w: World)
    requires StoreInv(w)
    ensures Evolves(w, w)
  {
  }

  lemma EarlyGrows(w: World, e: Id, m: nat, n: nat)
    requires m <= n
    ensures Early(w, e, m) ==> Early(w, e, n)
  {
  }

  lemma EvolvesTransitive(w: World, u: World, v: World)
    requires Evolves(w, u) && Evolves(u, v)
    ensures Evolves(w, v)
  {
    forall e | e in v.rows && e !in w.rows ensures !Early(v, e, |w.arrivals|) {
      EarlyGrows(v, e, |w.arrivals|, |u.arrivals|);
      EarlyStays(u, v, e, |w.arrivals|);
    }
  }

  lemma {:induction false} RunKeeps(w: World, run: seq<Action>)
    requires StoreInv(w)
    ensures Kept(w, Run(w, run))
    decreases |run|
  {
    if run == [] {
      EvolvesReflexive(w);
    } else {
      var u := Run(w, run[..|run| - 1]);
      RunKeeps(w, run[..|run| - 1]);
      NextKeeps(u, run[|run| - 1]);
      EvolvesTransitive(w, u, Next(u, run[|run| - 1]));
    }
  }

  lemma InitialFits(duration: nat)
    ensures StoreInv(Initial(duration))
  {
  }

  lemma ReachedFits(w: World)
    requires Reached(w)
    ensures StoreInv(w)
  {
    var run :| Leads(Next, Initial(w.duration), run, w);
    LeadsAfter(Next, Initial(w.duration), run, w);
    InitialFits(w.duration);
    RunKeeps(Initial(w.duration), run);
  }

  /** Some further run leads from the reachable state `w` to `u`. */
  ghost predicate Later(w: World, u: World) {
    Reached(w) && exists run :: Leads(Next, w, run, u)
  }

  lemma {:induction false} ReachedRun(w: World, run: seq<Action>)
    requires Reached(w)
    ensures Reached(Run(w, run))
    decreases |run|
  {
    if run != [] {
      ReachedRun(w, run[..|run| - 1]);
      ReachedNext(Run(w, run[..|run| - 1]), run[|run| - 1]);
    }
  }

  lemma LaterRun(w: World, run: seq<Action>)
    requires Reached(w)
    ensures Later(w, Run(w, run)) && Reached(Run(w, run))
  {
    AfterLeads(Next, w, run);
    ReachedRun(w, run);
  }

  lemma LaterFits(w: World, u: World)
    requires Later(w, u)
    ensures StoreInv(w) && StoreInv(u) && Evolves(w, u) && Reached(u)
  {
    var run :| Leads(Next, w, run, u);
    LeadsAfter(Next, w, run, u);
    ReachedFits(w);
    RunKeeps(w, run);
    ReachedRun(w, run);
  }

  lemma LaterSelf(w: World)
    requires Reached(w)
    ensures Later(w, w)
  {
    LeadsAfter(Next, w, [], w);
  }

  lemma LaterNext(w: World, u: World, a: Action)
    requires Later(w, u)
    ensures Later(w, Next(u, a))
  {
    var run :| Leads(Next, w, run, u);
    LeadsAfter(Next, w, run, u);
    assert (run + [a])[..|run + [a]| - 1] == run;
    assert Next(u, a) == Run(w, run + [a]);
    AfterLeads(Next, w, run + [a]);
  }

  lemma LaterTransitive(w: World, u: World, v: World)
    requires Later(w, u) && Later(u, v)
    ensures Later(w, v)
  {
    var first :| Leads(Next, w, first, u);
    var second :| Leads(Next, u, second, v);
    LeadsAfter(Next, w, first, u);
    LeadsAfter(Next, u, second, v);
    AfterBoth(Next, w, first, second);
    AfterLeads(Next, w, first + second);
  }

  // ---------- at least once ----------

  /** An event is pending, then at most once becomes published or parked, and stays so; its
      envelope, key and age never change. */
  lemma StatusPath(w: World, u: World, e: Id)
    requires Later(w, u)
    requires e in w.rows
    ensures && e in u.rows && u.rows[e].id == e && u.rows[e].doc == w.rows[e].doc
            && (!w.rows[e].status.Pending? ==> u.rows[e] == w.rows[e])
  {
    LaterFits(w, u);
    assert RowEvolves(w.rows[e], u.rows[e]);
    assert RowFits(w, e);
  }

  /** With any number of relays and crashes: an event marked published is in the Kafka log, and
      the log never loses a record. */
  lemma PublishedIsLogged(w: World, u: World, e: Id)
    requires Later(w, u)
    requires e in w.rows && w.rows[e].status.Published?
    ensures exists k :: 0 <= k < |w.log| && w.log[k].row.id == e && w.log[k].event == w.rows[e].doc.event
                        && k < |u.log| && u.log[k] == w.log[k]
  {
    LaterFits(w, u);
    assert RowFits(w, e);
    var k :| 0 <= k < |w.log| && w.log[k].row.id == e;
    assert RecordFits(w, w.log[k]);
  }

  /** Every log record is the envelope of an outbox event, keyed by that event's channel. */
  lemma LogIsOutbox(w: World, k: nat)
    requires Reached(w)
    requires k < |w.log|
    ensures && w.log[k].row.id in w.rows
            && w.log[k].event == w.rows[w.log[k].row.id].doc.event
            && w.log[k].key == w.rows[w.log[k].row.id].doc.partitionKey
  {
    ReachedFits(w);
    assert RecordFits(w, w.log[k]);
  }
}
