/** The lease, and when two relays may work at once. */
module RelayLease {
  import opened Schema
  import opened Runs
  import opened OutboxHeads
  import opened RelayScan
  import opened RelaySystem

  /** From the fetch of the channel heads to the last state write. */
  predicate InPhase(p: Phase) {
    p.Fetched? || p.Working?
  }

  /** The relay has been told that it leads until `p.until`. */
  predicate HoldsLead(p: Phase) {
    p.Leading? || InPhase(p)
  }

  /** The relay leads, and by the shared clock its lease has not run out. */
  predicate Claims(w: World, i: Id) {
    HoldsLead(PhaseOf(w, i)) && w.clock < PhaseOf(w, i).until
  }

  ghost predicate ClaimFits(w: World, i: Id) {
    var p := PhaseOf(w, i);
    if p.Asking? || p.Inserting? then
      p.now <= w.clock && (w.lease.Some? && w.lease.value.owner == i ==> w.lease.value.until <= p.now + w.duration)
    else Claims(w, i) ==> w.lease == Some(Lease(i, p.until))
  }

  ghost predicate LeaseInv(w: World) {
    && (w.lease.Some? ==> w.lease.value.until <= w.clock + w.duration)
    && forall i {:trigger ClaimFits(w, i)} :: ClaimFits(w, i)
  }

  /** Writing the lease document is safe when the old one is the relay's own or has run out. */
  lemma LedKeeps(w: World, i: Id, now: Time, heard: bool)
    requires LeaseInv(w) && now <= w.clock && !HoldsLead(PhaseOf(w, i))
    requires w.lease.Some? ==> Takeable(w.lease, i, now)
    ensures LeaseInv(Led(w, i, now, heard))
  {
    var u := Led(w, i, now, heard);
    forall j ensures ClaimFits(u, j) {
      assert ClaimFits(w, j);
    }
  }

  /** Steps that leave the lease document alone. */
  lemma LeaseUntouched(w: World, a: Action)
    requires LeaseInv(w) && !a.MatchLease? && !a.InsertLease? && !a.Stop?
    ensures LeaseInv(Next(w, a))
  {
    var u := Next(w, a);
    forall i ensures ClaimFits(u, i) {
      assert ClaimFits(w, i);
    }
  }

  lemma LeaseReleased(w: World, i: Id)
    requires LeaseInv(w)
    ensures LeaseInv(Next(w, Stop(i)))
  {
    var u := Next(w, Stop(i));
    forall j ensures ClaimFits(u, j) {
      assert ClaimFits(w, j);
    }
  }

  /** Whoever leads was the last to write the lease document, or has run out of time. */
  lemma LeaseKept(w: World, a: Action)
    requires LeaseInv(w)
    ensures LeaseInv(Next(w, a)) && Next(w, a).duration == w.duration
  {
    if a.MatchLease? {
      assert ClaimFits(w, a.relay);
      if PhaseOf(w, a.relay).Asking? {
        var now := PhaseOf(w, a.relay).now;
        if Takeable(w.lease, a.relay, now) { LedKeeps(w, a.relay, now, a.heard); }
        else { MovedOn(w, a.relay, Inserting(now)); }
      }
    } else if a.InsertLease? {
      assert ClaimFits(w, a.relay);
      if PhaseOf(w, a.relay).Inserting? {
        if w.lease.None? { LedKeeps(w, a.relay, PhaseOf(w, a.relay).now, a.heard); }
        else { MovedOn(w, a.relay, Idle); }
      }
    } else if a.Stop? {
      LeaseReleased(w, a.relay);
    } else {
      LeaseUntouched(w, a);
    }
  }

  /** A relay that was asking asks on, or gives up. */
  lemma MovedOn(w: World, i: Id, phase: Phase)
    requires LeaseInv(w) && (phase.Idle? || (phase.Inserting? && PhaseOf(w, i) == Asking(phase.now)))
    ensures LeaseInv(Move(w, i, phase))
  {
    var u := Move(w, i, phase);
    assert ClaimFits(w, i);
    forall j ensures ClaimFits(u, j) {
      assert ClaimFits(w, j);
    }
  }

  lemma {:induction false} LeaseHolds(duration: nat, run: seq<Action>)
    ensures var w := Run(Initial(duration), run); LeaseInv(w) && w.duration == duration
    decreases |run|
  {
    if run != [] {
      LeaseHolds(duration, run[..|run| - 1]);
      LeaseKept(Run(Initial(duration), run[..|run| - 1]), run[|run| - 1]);
    }
  }

  /** A state of some run with a positive lease duration. */
  ghost predicate Reached(w: World) {
    w.duration > 0 && exists run :: Leads(Next, Initial(w.duration), run, w)
  }

  lemma RunReaches(duration: nat, run: seq<Action>)
    requires duration > 0
    ensures Reached(Run(Initial(duration), run))
  {
    LeaseHolds(duration, run);
    AfterLeads(Next, Initial(duration), run);
  }

  lemma ReachedLease(w: World)
    requires Reached(w)
    ensures LeaseInv(w)
  {
    var run :| Leads(Next, Initial(w.duration), run, w);
    LeadsAfter(Next, Initial(w.duration), run, w);
    LeaseHolds(w.duration, run);
  }

  lemma ReachedNext(w: World, a: Action)
    requires Reached(w)
    ensures Reached(Next(w, a))
  {
    var run :| Leads(Next, Initial(w.duration), run, w);
    LeadsAfter(Next, Initial(w.duration), run, w);
    assert (run + [a])[..|run + [a]| - 1] == run;
    assert Next(w, a) == Run(Initial(w.duration), run + [a]);
    RunReaches(w.duration, run + [a]);
  }

  // ---------- what the lease promises ----------

  /** At any instant at most one relay leads on a lease that is neither released nor run out,
      and the lease document names it, however stale the clock readings were. */
  lemma LeaseExclusion(w: World, i: Id, j: Id)
    requires Reached(w) && Claims(w, i) && Claims(w, j)
    ensures i == j && w.lease == Some(Lease(i, PhaseOf(w, i).until))
  {
    ReachedLease(w);
    assert ClaimFits(w, i) && ClaimFits(w, j);
  }

  /** Another relay takes the lease over only after it has run out, and strictly raises its
      end; its owner never lowers it. */
  lemma TakeoverRaises(w: World, a: Action)
    requires Reached(w) && w.lease.Some? && Next(w, a).lease.Some? && Next(w, a).lease != w.lease
    ensures var l, m := w.lease.value, Next(w, a).lease.value;
            && l.until <= m.until
            && (l.owner != m.owner ==> l.until <= w.clock && l.until < m.until)
  {
    ReachedLease(w);
    assert ClaimFits(w, Next(w, a).lease.value.owner);
  }

  /** Everyone who works does so within the lease. */
  predicate Timely(w: World) {
    forall i | i in w.relays && InPhase(w.relays[i]) :: w.clock < w.relays[i].until
  }

  /** At most one relay is between its fetch and its last state write. */
  predicate Solo(w: World) {
    forall i, j | i in w.relays && j in w.relays && InPhase(w.relays[i]) && InPhase(w.relays[j]) :: i == j
  }

  /** If fetching, publishing and writing never outlast the lease, no two relays overlap. */
  lemma TimelyIsSolo(w: World)
    requires Reached(w) && Timely(w)
    ensures Solo(w)
  {
    forall i, j | i in w.relays && j in w.relays && InPhase(w.relays[i]) && InPhase(w.relays[j]) ensures i == j {
      LeaseExclusion(w, i, j);
    }
  }
}
