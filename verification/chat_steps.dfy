/** Actions that move one request and write nothing.

    `Moved` is the state after such an action. The lemmas show that it evolves from the state
    before, and that it keeps the invariant as soon as the request fits its new place. The
    files that follow take the actions one by one: those that only look, those that store a
    message, those that take an event version, the summary and the rollback, the emission of
    an event, and those that revise a message, write a cursor or open a channel. */
module ChatSteps {
  import opened Schema
  import opened ChatSystem
  import opened ChatInvariant
  import opened ChatStability
  import opened ChatFrame

  /** A request moves on without touching a collection, before it has written anything. */
  function Moved(s: System, r: Id, base: nat, pc: Pc): System
    requires r in s.requests
  {
    s.(requests := s.requests[r := s.requests[r].(pc := pc, base := base)])
  }

  /** A read that moves past the match phase with its cursor there takes note of it. */
  ghost predicate Notes(s: System, r: Id, base: nat, pc: Pc)
    requires r in s.requests
  {
    s.requests[r].call.Read? && CursorKey(s.requests[r].call) in s.states && Unmatched(s.requests[r].pc) ==>
      Unmatched(pc) || base != 0
  }

  lemma MovedEvolves(s: System, r: Id, base: nat, pc: Pc)
    requires Inv(s) && r in s.requests && Early(s.requests[r].pc)
    requires s.requests[r].call.Post? ==> base == s.requests[r].base
    requires s.requests[r].base != 0 ==> base != 0
    requires Notes(s, r, base, pc)
    ensures OneStep(s, Moved(s, r, base, pc), r)
  {
    var t := Moved(s, r, base, pc);
    forall m | m in s.messages ensures MessageEvolves(s, t, m) {}
    forall q | q in s.requests ensures RequestEvolves(s, t, q) {}
    forall q {:trigger CursorNoted(s, t, q)} | q in t.requests ensures CursorNoted(s, t, q) {}
  }

  /** Apart from requests the two states agree. */
  ghost predicate SameData(s: System, t: System) {
    s == t.(requests := s.requests)
  }

  /** What a program point other than Emit asserts does not look at the requests. */
  lemma SameDataFits(s: System, t: System, r: Id, call: Call, base: nat, pc: Pc)
    requires SameData(s, t) && PcFits(s, r, call, base, pc) && !pc.Emit?
    ensures PcFits(t, r, call, base, pc)
  {
    match call
    case Post(_, _, _, _, _, _, _, _, _) => PostSame(s, t, r, call, base, pc);
    case Mutate(_, _, _) =>
    case Read(_, _, _) =>
    case Open(_, _, _) =>
  }

  lemma PostSame(s: System, t: System, r: Id, call: Call, base: nat, pc: Pc)
    requires SameData(s, t) && !pc.Emit? && call.Post? && PostFits(s, r, call, base, pc)
    ensures PostFits(t, r, call, base, pc)
  {
    assert ReplyFits(s, call) ==> ReplyFits(t, call);
    if pc.FindChannel? || pc.FindLatest? || pc.Insert? {
      assert LoopFits(t, call, base, pc.attempt, pc.mark) by {
        forall m | m in t.messages && HasKey(t.messages[m], call.channel, call.actor, call.clientId)
          ensures BornSince(t, call.channel, m, pc.mark)
        {
          assert BornSince(s, call.channel, m, pc.mark);
        }
      }
    }
  }

  lemma MoveKeeps(s: System, r: Id, base: nat, pc: Pc)
    requires Inv(s) && r in s.requests && Early(s.requests[r].pc)
    requires s.requests[r].call.Post? ==> base == s.requests[r].base
    requires s.requests[r].base != 0 ==> base != 0
    requires Notes(s, r, base, pc)
    requires PcFits(s, r, s.requests[r].call, base, pc) && !pc.Emit?
    ensures Kept(s, Moved(s, r, base, pc), r)
  {
    var t := Moved(s, r, base, pc);
    MovedEvolves(s, r, base, pc);
    SameDataFits(s, t, r, s.requests[r].call, base, pc);
    KeepAll(s, t, r);
  }

  /** An action of `r` that leaves the collections and histories alone, except the outbox. */
  lemma KeepAll(s: System, t: System, r: Id)
    requires OneStep(s, t, r) && KeysFit(t) && r in s.requests
    requires t.channels == s.channels && t.messages == s.messages && t.states == s.states
    requires t.born == s.born && t.revisions == s.revisions && t.takers == s.takers
    requires t.advances == s.advances
    requires s.requests[r].pc.Summarize? ==>
               r in t.requests && (t.requests[r].pc.Summarize? || !Active(t, s.requests[r].pc.message.channelId))
    requires forall e | e in t.outbox && e !in s.outbox :: OutboxFits(t, e)
    requires r in t.requests ==> RequestFits(t, r)
    ensures Inv(t)
  {
    KeepRequests(s, t, r);
    KeepOutbox(s, t, r);
    KeepTakers(s, t, r);
    KeepRevisions(s, t, r);
    KeepMessages(s, t, r);
    KeepCursors(s, t, r);
    forall m {:trigger MessageFits(t, m)} | m in t.messages ensures MessageFits(t, m) {
      assert MessageFits(s, m);
    }
    forall c {:trigger ChannelFits(t, c)} | c in t.channels ensures ChannelFits(t, c) {
      assert ChannelFits(s, c);
      if s.requests[r].pc.Summarize? { SummarizeIdentity(s, r); }
      KeepChannel(s, t, r, c);
    }
  }

  /** The message a post has just inserted is in the channel of its call. */
  lemma SummarizeIdentity(s: System, r: Id)
    requires Inv(s) && r in s.requests && s.requests[r].pc.Summarize?
    ensures r in s.messages && s.messages[r].channelId == s.requests[r].pc.message.channelId
    ensures s.requests[r].call.Post? && s.requests[r].pc.message.channelId == s.requests[r].call.channel
    ensures SameIdentity(s.messages[r], s.requests[r].pc.message)
  {
    assert RequestFits(s, r);
    SeenIdentity(s, s.requests[r].pc.message);
  }
}
