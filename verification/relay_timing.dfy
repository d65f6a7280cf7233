/** How long a round may take. */
module RelayTiming {
  import opened Schema
  import opened Runs
  import opened OutboxHeads
  import opened RelayScan
  import opened RelaySystem
  import opened RelayLease
  import opened RelayTheorems

  /** Nobody at work read the clock for its lease more than `bound` ago. */
  predicate Within(w: World, bound: int) {
    forall i | i in w.relays && InPhase(w.relays[i]) :: w.clock + w.duration <= w.relays[i].until + bound
  }

  /** At no point of the run has a round taken longer than `bound`. */
  ghost predicate WithinRun(w: World, run: seq<Action>, bound: int) {
    Within(Run(w, run), bound) && (run != [] ==> WithinRun(w, run[..|run| - 1], bound))
  }

  ghost predicate ReachedWithin(w: World, bound: int) {
    w.duration > 0 && exists run :: Leads(Next, Initial(w.duration), run, w) && WithinRun(Initial(w.duration), run, bound)
  }

  /** Rounds shorter than the lease stay within it. */
  lemma {:induction false} ShortIsTimely(duration: nat, run: seq<Action>, bound: int)
    requires duration > 0 && bound < duration && WithinRun(Initial(duration), run, bound)
    ensures TimelyRun(Initial(duration), run)
    decreases |run|
  {
    LeaseHolds(duration, run);
    if run != [] { ShortIsTimely(duration, run[..|run| - 1], bound); }
  }

  // ---------- a run with two relays at work ----------

  /** An event of version 1, put in the outbox at time 0. */
  function SomeRow(): Row {
    Row(1, OutboxDoc(Event(1, ReadCursorAdvanced, 1, 1, ("", ""), CursorBody("", 0)), 1, 0), Pending, 0, 0)
  }

  lemma OnlyHead()
    ensures AreHeads(map[1 := SomeRow()], MAX_HEADS, [SomeRow()])
  {
    assert IsHead(map[1 := SomeRow()], SomeRow());
  }

  lemma StepTo(w: World, a: Action, u: World, bound: int)
    requires ReachedWithin(w, bound) && Next(w, a) == u && u.duration == w.duration && Within(u, bound)
    ensures ReachedWithin(u, bound)
  {
    var start := Initial(w.duration);
    var run :| Leads(Next, start, run, w) && WithinRun(start, run, bound);
    LeadsAfter(Next, start, run, w);
    var longer := run + [a];
    assert longer[..|longer| - 1] == run;
    LeadsAfter(Next, start, longer, u);
  }

  /** One event is in the outbox, and this is all that differs. */
  function TwoRelays(duration: nat, clock: Time, lease: Option<Lease>, first: Phase, second: Phase): World {
    World(duration, clock, map[1 := SomeRow()], [1], lease, [], map[1 := first, 2 := second])
  }

  lemma BothJoin(duration: nat, bound: int)
    requires duration > 0
    ensures ReachedWithin(TwoRelays(duration, 0, None, Idle, Idle), bound)
  {
    var w := Initial(duration);
    LeadsAfter(Next, w, [], w);
    assert WithinRun(w, [], bound);
    var w1 := World(duration, 0, map[1 := SomeRow()], [1], None, [], map[]);
    StepTo(w, Enqueue(1, SomeRow().doc), w1, bound);
    var w2 := w1.(relays := map[1 := Idle]);
    StepTo(w1, Join(1), w2, bound);
    StepTo(w2, Join(2), TwoRelays(duration, 0, None, Idle, Idle), bound);
  }

  lemma FirstAsks(duration: nat, bound: int)
    requires duration > 0
    ensures ReachedWithin(TwoRelays(duration, 0, None, Asking(0), Idle), bound)
  {
    BothJoin(duration, bound);
    StepTo(TwoRelays(duration, 0, None, Idle, Idle), Poll(1), TwoRelays(duration, 0, None, Asking(0), Idle), bound);
  }

  /** Relay 1 finds no lease document. */
  lemma FirstMisses(duration: nat, bound: int)
    requires duration > 0
    ensures ReachedWithin(TwoRelays(duration, 0, None, Inserting(0), Idle), bound)
  {
    FirstAsks(duration, bound);
    var w := TwoRelays(duration, 0, None, Asking(0), Idle);
    StepTo(w, MatchLease(1, true), TwoRelays(duration, 0, None, Inserting(0), Idle), bound);
  }

  /** Relay 1 leads; relay 2 has started. */
  lemma FirstLeads(duration: nat, bound: int)
    requires duration > 0
    ensures ReachedWithin(TwoRelays(duration, 0, Some(Lease(1, duration)), Leading(duration), Idle), bound)
  {
    FirstMisses(duration, bound);
    var w := TwoRelays(duration, 0, None, Inserting(0), Idle);
    StepTo(w, InsertLease(1, true), TwoRelays(duration, 0, Some(Lease(1, duration)), Leading(duration), Idle), bound);
  }

  /** Relay 1 has fetched when its lease runs out, and relay 2 takes over and fetches the same. */
  function BothFetched(duration: nat): World {
    TwoRelays(duration, duration, Some(Lease(2, duration + duration)), Fetched(duration, [SomeRow()], 1),
              Fetched(duration + duration, [SomeRow()], 1))
  }

  /** The lease runs out before relay 1 goes on. */
  lemma LeaseRunsOut(duration: nat, bound: int)
    requires duration > 0 && bound >= duration
    ensures ReachedWithin(TwoRelays(duration, duration, Some(Lease(1, duration)), Leading(duration), Idle), bound)
  {
    FirstLeads(duration, bound);
    var lease := Some(Lease(1, duration));
    StepTo(TwoRelays(duration, 0, lease, Leading(duration), Idle), Tick(duration),
           TwoRelays(duration, duration, lease, Leading(duration), Idle), bound);
  }

  /** Relay 1 fetches. */
  lemma FirstFetches(duration: nat, bound: int)
    requires duration > 0 && bound >= duration
    ensures ReachedWithin(TwoRelays(duration, duration, Some(Lease(1, duration)), Fetched(duration, [SomeRow()], 1), Idle), bound)
  {
    LeaseRunsOut(duration, bound);
    OnlyHead();
    var lease := Some(Lease(1, duration));
    var w := TwoRelays(duration, duration, lease, Leading(duration), Idle);
    StepTo(w, Fetch(1, [SomeRow()]), TwoRelays(duration, duration, lease, Fetched(duration, [SomeRow()], 1), Idle), bound);
  }

  lemma SecondAsks(duration: nat, bound: int)
    requires duration > 0 && bound >= duration
    ensures ReachedWithin(TwoRelays(duration, duration, Some(Lease(1, duration)), Fetched(duration, [SomeRow()], 1),
                                    Asking(duration)), bound)
  {
    FirstFetches(duration, bound);
    var lease, first := Some(Lease(1, duration)), Fetched(duration, [SomeRow()], 1);
    StepTo(TwoRelays(duration, duration, lease, first, Idle), Poll(2),
           TwoRelays(duration, duration, lease, first, Asking(duration)), bound);
  }

  /** Relay 2 takes over. */
  lemma SecondLeads(duration: nat, bound: int)
    requires duration > 0 && bound >= duration
    ensures ReachedWithin(TwoRelays(duration, duration, Some(Lease(2, duration + duration)), Fetched(duration, [SomeRow()], 1),
                                    Leading(duration + duration)), bound)
  {
    SecondAsks(duration, bound);
    var lease, taken := Some(Lease(1, duration)), Some(Lease(2, duration + duration));
    var first := Fetched(duration, [SomeRow()], 1);
    var w := TwoRelays(duration, duration, lease, first, Asking(duration));
    StepTo(w, MatchLease(2, true), TwoRelays(duration, duration, taken, first, Leading(duration + duration)), bound);
  }

  lemma SecondFetches(duration: nat, bound: int)
    requires duration > 0 && bound >= duration
    ensures ReachedWithin(BothFetched(duration), bound)
  {
    SecondLeads(duration, bound);
    OnlyHead();
    var w := TwoRelays(duration, duration, Some(Lease(2, duration + duration)), Fetched(duration, [SomeRow()], 1),
                       Leading(duration + duration));
    StepTo(w, Fetch(2, [SomeRow()]), BothFetched(duration), bound);
  }

  // ---------- what follows ----------

  /** Exactly if rounds are bounded by less than the lease does it elect one active relay: the
      time from the clock reading before a lease is asked for to the last state write counts. */
  lemma LeaseMustOutlastRound(duration: nat, bound: int)
    requires duration > 0
    ensures (forall run | WithinRun(Initial(duration), run, bound) ::
              SoloRun(Initial(duration), run)) <==> bound < duration
  {
    var start := Initial(duration);
    if bound < duration {
      forall run | WithinRun(start, run, bound) ensures SoloRun(start, run) {
        ShortIsTimely(duration, run, bound);
        TimelyRunIsSolo(duration, run);
      }
    } else {
      SecondFetches(duration, bound);
      var w := BothFetched(duration);
      var run :| Leads(Next, start, run, w) && WithinRun(start, run, bound);
      LeadsAfter(Next, start, run, w);
      assert InPhase(w.relays[1]) && InPhase(w.relays[2]);
      assert !SoloRun(start, run);
    }
  }

  /** Relays 1 and 2 both have a worker at the event, and neither has called Kafka yet. */
  predicate BothWork(w: World) {
    && PhaseOf(w, 1).Working? && PhaseOf(w, 1).batch == [SomeRow()] && PhaseOf(w, 1).workers == [Calling(false)]
    && PhaseOf(w, 2).Working? && PhaseOf(w, 2).batch == [SomeRow()] && PhaseOf(w, 2).workers == [Calling(false)]
  }

  /** That the lease outlasts the publish timeout is not enough, whatever either is: two relays
      may have fetched so that, if both take what is due, both work on the same event at once,
      and no time has passed since they took it. What the first relay's fetch took is missing
      from the comparison. */
  lemma TimeoutIsNotEnough(duration: nat)
    requires duration > 0
    ensures exists w :: && Reached(w) && w.duration == duration && PhaseOf(w, 1).Fetched? && PhaseOf(w, 2).Fetched?
                        && BothWork(Next(Next(w, Take(1)), Take(2)))
  {
    SecondFetches(duration, duration);
    var w := BothFetched(duration);
    assert Reached(w);
    OneTakes(w, 1);
    OneTakes(Next(w, Take(1)), 2);
    assert BothWork(Next(Next(w, Take(1)), Take(2)));
  }

  lemma OneTakes(w: World, i: Id)
    requires PhaseOf(w, i).Fetched? && PhaseOf(w, i).heads == [SomeRow()]
    ensures var p := PhaseOf(w, i);
            Next(w, Take(i)) == Move(w, i, Working(p.until, [SomeRow()], [Calling(false)], p.fetchedAt))
  {
    LoneDue(SomeRow(), w.clock);
    assert seq(1, _ => Calling(false)) == [Calling(false)];
  }
}
