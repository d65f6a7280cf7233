/** Every state of every run satisfies the invariant, and evolves from every earlier one.

    The first part puts the actions together: whatever a request does next keeps the
    invariant. The second shows that `Evolves` is transitive, so that it holds between any two
    states of a run. The third says what a run is, in two ways that agree: as the function
    `Run`, and as a sequence of states that `Next` leads through; `IsReachable` and `Later`
    use the second. */
module ChatReach {
  import opened Schema
  import opened Runs
  import opened ChatSystem
  import opened ChatInvariant
  import opened ChatStability
  import opened ChatFrame
  import opened ChatSteps
  import opened ChatStepsEarly
  import opened ChatStepsLate
  import opened ChatStepsVersion
  import opened ChatStepsWrite
  import opened ChatStepsRevise

  lemma PostGuardKeeps(s: System, r: Id, now: Time, doc: Id)
    requires Inv(s) && r in s.requests && s.requests[r].call.Post?
    requires s.requests[r].pc.GuardChannel? || s.requests[r].pc.GuardReply? || s.requests[r].pc.Lookup?
    ensures var t := PostStep(s, r, now, doc); Kept(s, t, r)
  {
    var pc := s.requests[r].pc;
    if pc.GuardChannel? { GuardChannelKeeps(s, r); }
    else if pc.GuardReply? { assert RequestFits(s, r); GuardReplyKeeps(s, r); }
    else { LookupKeeps(s, r, doc); }
  }

  lemma PostLatestKeeps(s: System, r: Id, doc: Id)
    requires Inv(s) && r in s.requests && s.requests[r].call.Post? && s.requests[r].pc.FindLatest?
    ensures var pc := s.requests[r].pc;
            var t := FindLatestStep(s, r, pc.attempt, pc.mark, pc.summary, doc); Kept(s, t, r)
  {
    var pc := s.requests[r].pc;
    if AnswersLatest(s, s.requests[r].call.channel, doc) {
      assert FindLatestStep(s, r, pc.attempt, pc.mark, pc.summary, doc) == Goto(s, r, Candidate(s, pc, doc));
      FindLatestKeeps(s, r, doc);
    } else {
      EvolvesReflexive(s);
    }
  }

  lemma PostFindKeeps(s: System, r: Id, now: Time, doc: Id)
    requires Inv(s) && r in s.requests && s.requests[r].call.Post?
    requires s.requests[r].pc.FindChannel? || s.requests[r].pc.FindLatest?
    ensures var t := PostStep(s, r, now, doc); Kept(s, t, r)
  {
    if s.requests[r].pc.FindChannel? { FindChannelKeeps(s, r); } else { PostLatestKeeps(s, r, doc); }
  }

  lemma PostInsertKeeps(s: System, r: Id, now: Time, doc: Id)
    requires Inv(s) && r in s.requests && s.requests[r].call.Post?
    requires s.requests[r].pc.Insert? || s.requests[r].pc.Recheck?
    ensures var t := PostStep(s, r, now, doc); Kept(s, t, r)
  {
    var pc := s.requests[r].pc;
    if pc.Recheck? { RecheckKeeps(s, r, doc); }
    else {
      var m := Draft(r, s.requests[r].call, pc.sequence);
      if InsertClashes(s, m) { ClashKeeps(s, r); } else { StoreKeeps(s, r, m); }
    }
  }

  lemma PostSummarizeKeeps(s: System, r: Id, now: Time, doc: Id)
    requires Inv(s) && r in s.requests && s.requests[r].call.Post? && s.requests[r].pc.Summarize?
    ensures var t := PostStep(s, r, now, doc); Kept(s, t, r)
  {
    if Visible(s, s.requests[r].call.channel, s.requests[r].call.actor) {
      SummarizeKeeps(s, r);
    } else {
      GoneKeeps(s, r);
    }
  }

  lemma GoneKeeps(s: System, r: Id)
    requires Inv(s) && r in s.requests && s.requests[r].call.Post? && s.requests[r].pc.Summarize?
    requires !Visible(s, s.requests[r].call.channel, s.requests[r].call.actor)
    ensures Kept(s, Goto(s, r, Rollback), r)
  {
    SummarizeIdentity(s, r);
    assert RequestFits(s, r);
    LateMoveKeeps(s, r, Rollback);
  }

  lemma PostEndKeeps(s: System, r: Id, now: Time, doc: Id)
    requires Inv(s) && r in s.requests && s.requests[r].call.Post?
    requires s.requests[r].pc.Rollback? || s.requests[r].pc.Emit?
    ensures var t := PostStep(s, r, now, doc); Kept(s, t, r)
  {
    if s.requests[r].pc.Rollback? {
      assert PostStep(s, r, now, doc) == Fail(s.(messages := s.messages - {r}), r, NotFound);
      RollbackKeeps(s, r);
    } else {
      PostEmitKeeps(s, r, now, doc);
    }
  }

  lemma PostStepKeeps(s: System, r: Id, now: Time, doc: Id)
    requires Inv(s) && r in s.requests && s.requests[r].call.Post?
    ensures var t := PostStep(s, r, now, doc); Kept(s, t, r)
  {
    var pc := s.requests[r].pc;
    if pc.GuardChannel? || pc.GuardReply? || pc.Lookup? { PostGuardKeeps(s, r, now, doc); }
    else if pc.FindChannel? || pc.FindLatest? { PostFindKeeps(s, r, now, doc); }
    else if pc.Insert? || pc.Recheck? { PostInsertKeeps(s, r, now, doc); }
    else if pc.Summarize? { PostSummarizeKeeps(s, r, now, doc); }
    else if pc.Rollback? || pc.Emit? { PostEndKeeps(s, r, now, doc); }
    else {
      assert PostStep(s, r, now, doc) == s;
      EvolvesReflexive(s);
    }
  }

  lemma MutateEarlyKeeps(s: System, r: Id, now: Time)
    requires Inv(s) && r in s.requests && s.requests[r].call.Mutate?
    requires s.requests[r].pc.Authorize? || s.requests[r].pc.AuthorizeChannel? || s.requests[r].pc.Swap?
    ensures var t := MutateStep(s, r, now); Kept(s, t, r)
  {
    var pc := s.requests[r].pc;
    if pc.Authorize? { AuthorizeKeeps(s, r); }
    else if pc.AuthorizeChannel? { AuthorizeChannelKeeps(s, r); }
    else { SwapKeeps(s, r, now); }
  }

  lemma MutateEmitKeeps(s: System, r: Id, now: Time)
    requires Inv(s) && r in s.requests && s.requests[r].call.Mutate? && s.requests[r].pc.Emit?
    ensures var t := MutateStep(s, r, now); Kept(s, t, r)
  {
    assert MutateStep(s, r, now) == EmitStep(s, r, s.requests[r].pc.event, s.requests[r].pc.answer, now);
    EmitKeeps(s, r, now);
  }

  lemma ReadEmitKeeps(s: System, r: Id, now: Time)
    requires Inv(s) && r in s.requests && s.requests[r].call.Read? && s.requests[r].pc.Emit?
    ensures var t := ReadStep(s, r, now); Kept(s, t, r)
  {
    assert ReadStep(s, r, now) == EmitStep(s, r, s.requests[r].pc.event, s.requests[r].pc.answer, now);
    EmitKeeps(s, r, now);
  }

  lemma PostEmitKeeps(s: System, r: Id, now: Time, doc: Id)
    requires Inv(s) && r in s.requests && s.requests[r].call.Post? && s.requests[r].pc.Emit?
    ensures var t := PostStep(s, r, now, doc); Kept(s, t, r)
  {
    assert PostStep(s, r, now, doc) == EmitStep(s, r, s.requests[r].pc.event, s.requests[r].pc.answer, now);
    EmitKeeps(s, r, now);
  }

  lemma MutateLateKeeps(s: System, r: Id, now: Time)
    requires Inv(s) && r in s.requests && s.requests[r].call.Mutate?
    requires s.requests[r].pc.Bump? || s.requests[r].pc.Emit?
    ensures var t := MutateStep(s, r, now); Kept(s, t, r)
  {
    if s.requests[r].pc.Bump? { BumpKeeps(s, r, now); } else { MutateEmitKeeps(s, r, now); }
  }

  lemma MutateStepKeeps(s: System, r: Id, now: Time)
    requires Inv(s) && r in s.requests && s.requests[r].call.Mutate?
    ensures var t := MutateStep(s, r, now); Kept(s, t, r)
  {
    var pc := s.requests[r].pc;
    if pc.Authorize? || pc.AuthorizeChannel? || pc.Swap? { MutateEarlyKeeps(s, r, now); }
    else if pc.Bump? || pc.Emit? { MutateLateKeeps(s, r, now); }
    else {
      assert MutateStep(s, r, now) == s;
      EvolvesReflexive(s);
    }
  }

  lemma UpsertKeeps(s: System, r: Id)
    requires Inv(s) && r in s.requests && s.requests[r].call.Read?
    requires s.requests[r].pc.UpsertMatch? || s.requests[r].pc.UpsertInsert?
    ensures s.requests[r].pc.UpsertMatch? ==> var t := UpsertMatchStep(s, r); Kept(s, t, r)
    ensures s.requests[r].pc.UpsertInsert? ==> var t := UpsertInsertStep(s, r); Kept(s, t, r)
  {
    var call := s.requests[r].call;
    var key := CursorKey(call);
    assert RequestFits(s, r);
    if s.requests[r].pc.UpsertMatch? {
      if key in s.states && s.states[key] < call.position { WriteKeeps(s, r); } else { UpsertMatchKeeps(s, r); }
    } else {
      if key in s.states { UpsertDuplicateKeeps(s, r); } else { WriteKeeps(s, r); }
    }
  }

  lemma ReadWriteKeeps(s: System, r: Id, now: Time)
    requires Inv(s) && r in s.requests && s.requests[r].call.Read?
    requires s.requests[r].pc.GuardRead? || s.requests[r].pc.UpsertMatch? || s.requests[r].pc.UpsertInsert?
    ensures var t := ReadStep(s, r, now); Kept(s, t, r)
  {
    if s.requests[r].pc.GuardRead? { GuardReadKeeps(s, r); } else { UpsertKeeps(s, r); }
  }

  lemma ReadLateKeeps(s: System, r: Id, now: Time)
    requires Inv(s) && r in s.requests && s.requests[r].call.Read?
    requires s.requests[r].pc.FindState? || s.requests[r].pc.BumpRead? || s.requests[r].pc.Emit?
    ensures var t := ReadStep(s, r, now); Kept(s, t, r)
  {
    if s.requests[r].pc.FindState? { FindStateKeeps(s, r, now); }
    else if s.requests[r].pc.BumpRead? { BumpReadKeeps(s, r, now); }
    else { ReadEmitKeeps(s, r, now); }
  }

  lemma ReadStepKeeps(s: System, r: Id, now: Time)
    requires Inv(s) && r in s.requests && s.requests[r].call.Read?
    ensures var t := ReadStep(s, r, now); Kept(s, t, r)
  {
    var pc := s.requests[r].pc;
    if pc.GuardRead? || pc.UpsertMatch? || pc.UpsertInsert? { ReadWriteKeeps(s, r, now); }
    else if pc.FindState? || pc.BumpRead? || pc.Emit? { ReadLateKeeps(s, r, now); }
    else {
      assert ReadStep(s, r, now) == s;
      EvolvesReflexive(s);
    }
  }

  lemma OpenInsertKeeps(s: System, r: Id)
    requires Inv(s) && r in s.requests && s.requests[r].call.Open? && s.requests[r].pc.OpenInsert?
    ensures var t := OpenInsertStep(s, r); Kept(s, t, r)
  {
    if PairTaken(s, PairOf(s.requests[r].call)) {
      assert RequestFits(s, r);
      GotoKeeps(s, r, OpenFind);
    } else {
      OpenChannelKeeps(s, r);
    }
  }

  lemma OpenStepKeeps(s: System, r: Id, doc: Id)
    requires Inv(s) && r in s.requests && s.requests[r].call.Open?
    ensures var t := OpenStep(s, r, doc); Kept(s, t, r)
  {
    var pc := s.requests[r].pc;
    if pc.OpenUpsert? { OpenUpsertKeeps(s, r, doc); }
    else if pc.OpenInsert? { OpenInsertKeeps(s, r); }
    else if pc.OpenFind? { OpenFindKeeps(s, r, doc); }
    else {
      assert OpenStep(s, r, doc) == s;
      EvolvesReflexive(s);
    }
  }

  function Actor(a: Action): Id {
    match a
    case Start(r, _) => r
    case Act(r, _, _) => r
    case Abandon(r) => r
    case Deactivate(_) => 0
  }

  /** One action of anyone keeps the invariant, and moves no request but the one that acts. */
  lemma NextKeeps(s: System, a: Action)
    requires Inv(s)
    ensures Kept(s, Next(s, a), Actor(a))
  {
    match a
    case Start(r, call) =>
      if r == 0 || r in s.requests { EvolvesReflexive(s); } else { StartKeeps(s, r, call); }
    case Abandon(r) => AbandonKeeps(s, r);
    case Deactivate(c) => if c in s.channels { DeactivateKeeps(s, c); } else { EvolvesReflexive(s); }
    case Act(r, now, doc) =>
      if r !in s.requests || !s.requests[r].alive { EvolvesReflexive(s); }
      else { ActKeeps(s, r, now, doc); }
  }

  lemma ActKeeps(s: System, r: Id, now: Time, doc: Id)
    requires Inv(s) && r in s.requests && s.requests[r].alive
    ensures Kept(s, Next(s, Act(r, now, doc)), r)
  {
    match s.requests[r].call
    case Post(_, _, _, _, _, _, _, _, _) => PostStepKeeps(s, r, now, doc);
    case Mutate(_, _, _) => MutateStepKeeps(s, r, now);
    case Read(_, _, _) => ReadStepKeeps(s, r, now);
    case Open(_, _, _) => OpenStepKeeps(s, r, doc);
  }

  // ---------- composing ----------

  lemma MessageTransitive(s: System, t: System, u: System, m: Id)
    requires Evolves(s, t) && Evolves(t, u)
    requires m in s.messages && s.messages[m].channelId in s.channels
    requires m in u.messages ==> MessageFits(u, m)
    ensures MessageEvolves(s, u, m)
  {
    assert MessageEvolves(s, t, m);
    if m in t.messages {
      assert MessageEvolves(t, u, m);
    } else {
      assert RequestEvolves(t, u, m);
      var c := s.messages[m].channelId;
      assert ChannelEvolves(t.channels[c], u.channels[c]);
    }
  }

  lemma BornTransitive(s: System, t: System, u: System, m: Id)
    requires Inv(u) && Evolves(s, t) && Evolves(t, u)
    requires m in u.messages && m !in s.messages
    ensures BornSince(u, u.messages[m].channelId, m, |History(s.born, u.messages[m].channelId)|)
  {
    var c := u.messages[m].channelId;
    assert History(s.born, c) <= History(t.born, c);
    if m in t.messages {
      assert MessageEvolves(t, u, m);
      BornStable(t, u, c, m, |History(s.born, c)|);
    } else {
      BornEarlier(u, c, m, |History(t.born, c)|, |History(s.born, c)|);
    }
  }

  lemma RequestTransitive(s: System, t: System, u: System, r: Id)
    requires Inv(u) && Evolves(s, t) && Evolves(t, u) && r in s.requests
    ensures RequestEvolves(s, u, r)
  {
    assert RequestEvolves(s, t, r);
    assert RequestEvolves(t, u, r);
    if Stored(s.requests[r].pc) && r in u.messages { assert MessageFits(u, r); }
  }

  lemma GrewTransitive<K(!new), V>(a: map<K, seq<V>>, b: map<K, seq<V>>, c: map<K, seq<V>>)
    requires Grew(a, b) && Grew(b, c)
    ensures Grew(a, c)
  {
    forall k ensures History(a, k) <= History(c, k) {
      assert History(a, k) <= History(b, k) <= History(c, k);
    }
  }

  lemma StartedTransitive(s: System, t: System, u: System)
    requires Evolves(s, t) && Evolves(t, u)
    ensures StartedSince(s, u)
  {
    forall r {:trigger u.requests[r]} | r in u.requests && r !in s.requests && u.requests[r].call.Post?
      ensures |History(s.born, u.requests[r].call.channel)| <= u.requests[r].base
    {
      var c := u.requests[r].call.channel;
      assert History(s.born, c) <= History(t.born, c);
      if r in t.requests { assert RequestEvolves(t, u, r); }
    }
  }

  lemma NotedTransitive(s: System, t: System, u: System, r: Id)
    requires Evolves(s, t) && Evolves(t, u) && r in u.requests
    ensures CursorNoted(s, u, r)
  {
    assert CursorNoted(t, u, r);
    if r in t.requests {
      assert CursorNoted(s, t, r);
      assert RequestEvolves(t, u, r);
    }
    if r in s.requests { assert RequestEvolves(s, t, r); }
  }

  lemma RequestsTransitive(s: System, t: System, u: System)
    requires Inv(u) && Evolves(s, t) && Evolves(t, u)
    ensures forall r {:trigger CursorNoted(s, u, r)} | r in u.requests :: CursorNoted(s, u, r)
    ensures forall r {:trigger RequestEvolves(s, u, r)} | r in s.requests :: RequestEvolves(s, u, r)
  {
    forall r {:trigger CursorNoted(s, u, r)} | r in u.requests ensures CursorNoted(s, u, r) {
      NotedTransitive(s, t, u, r);
    }
    forall r {:trigger RequestEvolves(s, u, r)} | r in s.requests ensures RequestEvolves(s, u, r) {
      RequestTransitive(s, t, u, r);
    }
  }

  lemma MessagesTransitive(s: System, t: System, u: System)
    requires Inv(s) && Inv(u) && Evolves(s, t) && Evolves(t, u)
    ensures forall m {:trigger MessageEvolves(s, u, m)} | m in s.messages :: MessageEvolves(s, u, m)
    ensures forall m | m in u.messages && m !in s.messages ::
              BornSince(u, u.messages[m].channelId, m, |History(s.born, u.messages[m].channelId)|)
  {
    forall m {:trigger MessageEvolves(s, u, m)} | m in s.messages ensures MessageEvolves(s, u, m) {
      StoredSeen(s, m);
      assert m in u.messages ==> MessageFits(u, m);
      MessageTransitive(s, t, u, m);
    }
    forall m | m in u.messages && m !in s.messages
      ensures BornSince(u, u.messages[m].channelId, m, |History(s.born, u.messages[m].channelId)|)
    {
      BornTransitive(s, t, u, m);
    }
  }

  lemma EvolvesTransitive(s: System, t: System, u: System)
    requires Inv(s) && Inv(u) && Evolves(s, t) && Evolves(t, u)
    ensures Evolves(s, u)
  {
    StartedTransitive(s, t, u);
    RequestsTransitive(s, t, u);
    MessagesTransitive(s, t, u);
    GrewTransitive(s.born, t.born, u.born);
    GrewTransitive(s.revisions, t.revisions, u.revisions);
    GrewTransitive(s.takers, t.takers, u.takers);
    GrewTransitive(s.advances, t.advances, u.advances);
    forall c | c in s.channels ensures c in u.channels && ChannelEvolves(s.channels[c], u.channels[c]) {
      assert ChannelEvolves(s.channels[c], t.channels[c]) && ChannelEvolves(t.channels[c], u.channels[c]);
    }
  }

  lemma EmptyFits()
    ensures Inv(Empty())
  {
  }

  /** Any continuation of a run. */
  lemma {:induction false} RunKeeps(s: System, run: seq<Action>)
    requires Inv(s)
    ensures Inv(Run(s, run)) && Evolves(s, Run(s, run))
    decreases |run|
  {
    if run == [] {
      EvolvesReflexive(s);
    } else {
      var t := Run(s, run[..|run| - 1]);
      RunKeeps(s, run[..|run| - 1]);
      NextKeeps(t, run[|run| - 1]);
      EvolvesTransitive(s, t, Next(t, run[|run| - 1]));
    }
  }

  /** Every state of every run of the service satisfies the invariant. */
  lemma Reachable(run: seq<Action>)
    ensures Inv(Run(Empty(), run))
  {
    EmptyFits();
    RunKeeps(Empty(), run);
  }

  /** Some run of the service, from empty collections, leads to `s`. */
  ghost predicate IsReachable(s: System) {
    exists run :: Leads(Next, Empty(), run, s)
  }

  /** Some further run leads from the reachable state `s` to `t`. */
  ghost predicate Later(s: System, t: System) {
    IsReachable(s) && exists run :: Leads(Next, s, run, t)
  }

  /** Any run from empty collections, and any further one. */
  lemma RunReaches(run: seq<Action>)
    ensures IsReachable(Run(Empty(), run))
  {
    AfterLeads(Next, Empty(), run);
  }

  lemma LaterRun(s: System, run: seq<Action>)
    requires IsReachable(s)
    ensures Later(s, Run(s, run)) && IsReachable(Run(s, run))
  {
    AfterLeads(Next, s, run);
    LaterReaches(s, Run(s, run));
  }

  lemma ReachableFits(s: System)
    requires IsReachable(s)
    ensures Inv(s)
  {
    var run :| Leads(Next, Empty(), run, s);
    LeadsAfter(Next, Empty(), run, s);
    Reachable(run);
  }

  lemma LaterReaches(s: System, t: System)
    requires Later(s, t)
    ensures IsReachable(t)
  {
    var first :| Leads(Next, Empty(), first, s);
    var second :| Leads(Next, s, second, t);
    LeadsAfter(Next, Empty(), first, s);
    LeadsAfter(Next, s, second, t);
    AfterBoth(Next, Empty(), first, second);
    RunReaches(first + second);
  }

  /** A later state is reachable, and evolved from the earlier one. */
  lemma LaterFits(s: System, t: System)
    requires Later(s, t)
    ensures Inv(s) && Inv(t) && Evolves(s, t) && IsReachable(t)
  {
    LaterReaches(s, t);
    ReachableFits(s);
    var second :| Leads(Next, s, second, t);
    LeadsAfter(Next, s, second, t);
    RunKeeps(s, second);
  }

  lemma LaterSelf(s: System)
    requires IsReachable(s)
    ensures Later(s, s)
  {
    LeadsAfter(Next, s, [], s);
  }

  lemma LaterNext(s: System, t: System, a: Action)
    requires Later(s, t)
    ensures Later(s, Next(t, a)) && IsReachable(Next(t, a))
  {
    var run :| Leads(Next, s, run, t);
    LeadsAfter(Next, s, run, t);
    assert (run + [a])[..|run + [a]| - 1] == run;
    assert Next(t, a) == Run(s, run + [a]);
    LaterRun(s, run + [a]);
  }

  lemma LaterTransitive(s: System, t: System, u: System)
    requires Later(s, t) && Later(t, u)
    ensures Later(s, u)
  {
    var first :| Leads(Next, s, first, t);
    var second :| Leads(Next, t, second, u);
    LeadsAfter(Next, s, first, t);
    LeadsAfter(Next, t, second, u);
    AfterBoth(Next, s, first, second);
    LaterRun(s, first + second);
  }
}
