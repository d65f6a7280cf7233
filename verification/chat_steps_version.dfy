/** Taking an event version keeps the invariant.

    Posts, mutations and reads share one counter per channel. Whoever increments it becomes
    the taker of that version, and holds its event until it is in the outbox. The lemmas treat
    the increment once for all three kinds of request; they ask for a channel that differs
    from the stored one in its summary at most, and leave to the caller what is particular to
    the request that takes the version. */
module ChatStepsVersion {
  import opened Schema
  import opened ChatSystem
  import opened ChatInvariant
  import opened ChatStability
  import opened ChatFrame
  import opened ChatSteps
  import opened ChatStepsEarly

  /** `ch` is channel `c` with at most its summary advanced. */
  ghost predicate ReadyToTake(s: System, r: Id, c: Id, ch: Channel) {
    && r in s.requests && (s.requests[r].pc.Summarize? || s.requests[r].pc.Bump? || s.requests[r].pc.BumpRead?)
    && c in s.channels
    && ch == s.channels[c].(lastMessageSeq := ch.lastMessageSeq, lastMessageId := ch.lastMessageId)
    && s.channels[c].lastMessageSeq <= ch.lastMessageSeq
  }

  lemma TakeRequests(s: System, t: System, r: Id)
    requires r in s.requests && r in t.requests && t.requests == s.requests[r := t.requests[r]]
    requires s.requests[r].pc.Summarize? || s.requests[r].pc.Bump? || s.requests[r].pc.BumpRead?
    requires t.requests[r] == s.requests[r].(pc := t.requests[r].pc) && t.requests[r].pc.Emit?
    ensures forall q {:trigger RequestEvolves(s, t, q)} | q in s.requests :: RequestEvolves(s, t, q)
  {
  }

  lemma TakeNoted(s: System, t: System, r: Id)
    requires r in s.requests && r in t.requests && t.requests == s.requests[r := t.requests[r]] && t.states == s.states
    requires s.requests[r].pc.Summarize? || s.requests[r].pc.Bump? || s.requests[r].pc.BumpRead?
    requires t.requests[r] == s.requests[r].(pc := t.requests[r].pc) && t.requests[r].pc.Emit?
    ensures StartedSince(s, t)
    ensures forall q {:trigger CursorNoted(s, t, q)} | q in t.requests :: CursorNoted(s, t, q)
  {
  }

  lemma TakerIsNew(s: System, r: Id)
    requires Inv(s) && r in s.requests && !s.requests[r].pc.Done?
    ensures r !in s.outbox
  {
    assert r in s.outbox ==> OutboxFits(s, r);
  }

  lemma TakeEvolves(s: System, r: Id, c: Id, ch: Channel, kind: EventType, body: Body, answer: Outcome)
    requires Inv(s) && ReadyToTake(s, r, c, ch)
    ensures OneStep(s, TakeVersion(s, r, c, ch, kind, body, answer), r)
    ensures r !in s.outbox
  {
    var t := TakeVersion(s, r, c, ch, kind, body, answer);
    TakerIsNew(s, r);
    TakeRequests(s, t, r);
    TakeNoted(s, t, r);
    EvolvesBesideMessages(s, t, r);
  }

  lemma TakeBody(s: System, t: System, r: Id, ev: Event)
    requires Evolves(s, t) && BodyFits(s, r, ev)
    ensures BodyFits(t, r, ev)
  {
    if ev.body.CursorBody? {
      AdvancedStable(s, t, (ev.channelId, ev.body.user), r);
      assert RequestEvolves(s, t, r);
    } else {
      assert History(s.revisions, ev.body.message.id) <= History(t.revisions, ev.body.message.id);
    }
  }

  lemma TakeEvent(s: System, r: Id, c: Id, ch: Channel, kind: EventType, body: Body, answer: Outcome)
    requires Inv(s) && ReadyToTake(s, r, c, ch)
    requires BodyFits(s, r, Event(r, kind, c, ch.lastEventVersion + 1, ch.participants, body))
    ensures var t := TakeVersion(s, r, c, ch, kind, body, answer); EventFits(t, r, t.requests[r].pc.event)
  {
    var t := TakeVersion(s, r, c, ch, kind, body, answer);
    assert History(t.takers, c) == History(s.takers, c) + [r] && |History(s.takers, c)| == ch.lastEventVersion by {
      assert ChannelFits(s, c);
    }
    assert BodyFits(t, r, t.requests[r].pc.event) by {
      TakeEvolves(s, r, c, ch, kind, body, answer);
      TakeBody(s, t, r, t.requests[r].pc.event);
    }
  }

  lemma TakeRecords(s: System, r: Id, c: Id, ch: Channel, kind: EventType, body: Body, answer: Outcome)
    requires Inv(s) && ReadyToTake(s, r, c, ch)
    requires OneStep(s, TakeVersion(s, r, c, ch, kind, body, answer), r)
    ensures RecordsFit(TakeVersion(s, r, c, ch, kind, body, answer))
  {
    var t := TakeVersion(s, r, c, ch, kind, body, answer);
    KeepOutbox(s, t, r);
    KeepCursors(s, t, r);
    assert ChannelFits(s, c);
    forall d, k | 0 <= k < |History(t.takers, d)| ensures TakerFits(t, d, k) {
      if d != c || k < |History(s.takers, c)| { KeepTakers(s, t, r); assert k < |History(s.takers, d)|; }
    }
  }

  lemma TakeChannels(s: System, r: Id, c: Id, ch: Channel, kind: EventType, body: Body, answer: Outcome)
    requires Inv(s) && ReadyToTake(s, r, c, ch)
    requires OneStep(s, TakeVersion(s, r, c, ch, kind, body, answer), r)
    requires var t := TakeVersion(s, r, c, ch, kind, body, answer); SummaryFits(t, c)
    requires s.requests[r].pc.Summarize? ==>
               r in s.messages && s.messages[r].channelId == c && s.messages[r].sequence <= ch.lastMessageSeq
    ensures var t := TakeVersion(s, r, c, ch, kind, body, answer);
            forall d {:trigger ChannelFits(t, d)} | d in t.channels :: ChannelFits(t, d)
  {
    var t := TakeVersion(s, r, c, ch, kind, body, answer);
    forall d {:trigger ChannelFits(t, d)} | d in t.channels ensures ChannelFits(t, d) {
      assert ChannelFits(s, d);
      if d != c { KeepChannel(s, t, r, d); } else { TakeChannel(s, r, c, ch, kind, body, answer); }
    }
  }

  lemma TakeChannel(s: System, r: Id, c: Id, ch: Channel, kind: EventType, body: Body, answer: Outcome)
    requires Inv(s) && ReadyToTake(s, r, c, ch)
    requires OneStep(s, TakeVersion(s, r, c, ch, kind, body, answer), r)
    requires var t := TakeVersion(s, r, c, ch, kind, body, answer); SummaryFits(t, c)
    requires s.requests[r].pc.Summarize? ==>
               r in s.messages && s.messages[r].channelId == c && s.messages[r].sequence <= ch.lastMessageSeq
    ensures ChannelFits(TakeVersion(s, r, c, ch, kind, body, answer), c)
  {
    var t := TakeVersion(s, r, c, ch, kind, body, answer);
    assert ChannelFits(s, c) && RequestEvolves(s, t, c);
    if Active(t, c) {
      KeepDense(s, t, c);
      KeepCovered(s, t, c);
    }
  }

  lemma TakeKeeps(s: System, r: Id, c: Id, ch: Channel, kind: EventType, body: Body, answer: Outcome)
    requires Inv(s) && ReadyToTake(s, r, c, ch)
    requires var t := TakeVersion(s, r, c, ch, kind, body, answer); SummaryFits(t, c) && RequestFits(t, r)
    requires s.requests[r].pc.Summarize? ==>
               r in s.messages && s.messages[r].channelId == c && s.messages[r].sequence <= ch.lastMessageSeq
    ensures var t := TakeVersion(s, r, c, ch, kind, body, answer); Kept(s, t, r)
  {
    var t := TakeVersion(s, r, c, ch, kind, body, answer);
    TakeEvolves(s, r, c, ch, kind, body, answer);
    TakeRecords(s, r, c, ch, kind, body, answer);
    TakeChannels(s, r, c, ch, kind, body, answer);
    KeepPairs(s, t);
    KeepDocuments(s, t, r);
    KeepRequests(s, t, r);
  }
}
