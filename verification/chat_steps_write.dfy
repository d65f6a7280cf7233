/** The summary update, the rollback, the emission of an event, and the ends of requests.

    The summary update combines the max-merge with the increment of the version. The rollback
    takes back a message of a channel that is no longer active, which is the only way a stored
    message ever goes. Emitting an event ends a request. Starting a request, abandoning one
    and deactivating a channel complete the actions that do not belong to a mutation, a read
    or an open. */
module ChatStepsWrite {
  import opened Schema
  import opened ChatSystem
  import opened ChatInvariant
  import opened ChatStability
  import opened ChatFrame
  import opened ChatSteps
  import opened ChatStepsEarly
  import opened ChatStepsVersion

  // ---------- moves that touch no collection ----------

  lemma LateMoveEvolves(s: System, r: Id, pc: Pc)
    requires Inv(s) && r in s.requests && !pc.Emit? && !Early(pc)
    requires s.requests[r].pc.Bump? || s.requests[r].pc.FindState? || s.requests[r].pc.BumpRead?
             || (s.requests[r].pc.Summarize? && pc.Rollback? && !Active(s, s.requests[r].pc.message.channelId))
    ensures OneStep(s, Goto(s, r, pc), r)
  {
    var t := Goto(s, r, pc);
    assert r in s.messages && !s.requests[r].pc.Summarize? ==> MessageFits(s, r);
    forall q | q in s.requests ensures RequestEvolves(s, t, q) {}
    EvolvesBesideMessages(s, t, r);
  }

  lemma LateMoveKeeps(s: System, r: Id, pc: Pc)
    requires Inv(s) && r in s.requests && !pc.Emit? && !Early(pc)
    requires s.requests[r].pc.Bump? || s.requests[r].pc.FindState? || s.requests[r].pc.BumpRead?
             || (s.requests[r].pc.Summarize? && pc.Rollback? && !Active(s, s.requests[r].pc.message.channelId))
    requires PcFits(s, r, s.requests[r].call, s.requests[r].base, pc)
    ensures Kept(s, Goto(s, r, pc), r)
  {
    var t := Goto(s, r, pc);
    LateMoveEvolves(s, r, pc);
    SameDataFits(s, t, r, s.requests[r].call, s.requests[r].base, pc);
    KeepAll(s, t, r);
  }

  // ---------- the channel summary ----------

  lemma MergedSummary(s: System, r: Id, m: Message, kind: EventType, body: Body)
    requires Inv(s) && r in s.requests && s.requests[r].pc == Summarize(m) && s.requests[r].call.Post?
    requires m.channelId in s.channels && m.channelId == s.requests[r].call.channel
    ensures m.id == r && 0 < m.sequence
    ensures var ch := MaxMerged(s.channels[m.channelId], m);
            && ReadyToTake(s, r, m.channelId, ch)
            && m.sequence <= ch.lastMessageSeq
            && SummaryFits(TakeVersion(s, r, m.channelId, ch, kind, body, Posted(m, true)), m.channelId)
  {
    var c := m.channelId;
    var ch := MaxMerged(s.channels[c], m);
    var t := TakeVersion(s, r, c, ch, kind, body, Posted(m, true));
    SummarizeIdentity(s, r);
    StoredSeen(s, r);
    assert RevisionsFit(s, r);
    assert ChannelFits(s, c);
    if s.channels[c].lastMessageSeq >= m.sequence {
      TakeEvolves(s, r, c, ch, kind, body, Posted(m, true));
      KeepSummary(s, t, c);
    }
  }

  lemma SummarizeKeeps(s: System, r: Id)
    requires Inv(s) && r in s.requests && s.requests[r].call.Post? && s.requests[r].pc.Summarize?
    requires Visible(s, s.requests[r].call.channel, s.requests[r].call.actor)
    ensures var t := SummarizeStep(s, r, s.requests[r].pc.message); Kept(s, t, r)
  {
    var m := s.requests[r].pc.message;
    var call := s.requests[r].call;
    var c := call.channel;
    SummarizeIdentity(s, r);
    var body := MessageBody(PayloadOf(m));
    var ch := MaxMerged(s.channels[c], m);
    MergedSummary(s, r, m, MessageCreated, body);
    var t := TakeVersion(s, r, c, ch, MessageCreated, body, Posted(m, true));
    SummarizeRequest(s, r, m, c);
    TakeKeeps(s, r, c, ch, MessageCreated, body, Posted(m, true));
  }

  lemma SummarizeRequest(s: System, r: Id, m: Message, c: Id)
    requires Inv(s) && r in s.requests && s.requests[r].call.Post? && s.requests[r].pc == Summarize(m)
    requires c == s.requests[r].call.channel == m.channelId && c in s.channels && m.id == r
    requires var ch := MaxMerged(s.channels[c], m); ReadyToTake(s, r, c, ch) && m.sequence <= ch.lastMessageSeq
    ensures RequestFits(TakeVersion(s, r, c, MaxMerged(s.channels[c], m), MessageCreated,
                                    MessageBody(PayloadOf(m)), Posted(m, true)), r)
  {
    var ch := MaxMerged(s.channels[c], m);
    var body := MessageBody(PayloadOf(m));
    assert RequestFits(s, r);
    TakeEvent(s, r, c, ch, MessageCreated, body, Posted(m, true));
  }

  // ---------- rolling back ----------

  lemma RollbackFacts(s: System, r: Id)
    requires Inv(s) && r in s.requests && s.requests[r].call.Post? && s.requests[r].pc.Rollback?
    ensures r in s.messages && s.messages[r].channelId == s.requests[r].call.channel
    ensures !Active(s, s.messages[r].channelId)
  {
    assert RequestFits(s, r);
    assert MessageFits(s, r) && RevisionsFit(s, r);
    IdentityOf(s, r);
  }

  lemma RollbackEvolves(s: System, r: Id)
    requires Inv(s) && r in s.requests && s.requests[r].call.Post? && s.requests[r].pc.Rollback?
    ensures OneStep(s, Fail(s.(messages := s.messages - {r}), r, NotFound), r)
  {
    var t := Fail(s.(messages := s.messages - {r}), r, NotFound);
    RollbackFacts(s, r);
    forall m | m in s.messages ensures MessageEvolves(s, t, m) {}
    RollbackRequests(s, t, r);
  }

  lemma RollbackRequests(s: System, t: System, r: Id)
    requires r in s.requests && s.requests[r].pc.Rollback? && s.requests[r].call.Post? && r !in t.messages
    requires t.requests == s.requests[r := s.requests[r].(pc := Done(Failed(NotFound)))] && t.messages == s.messages - {r}
    ensures forall q {:trigger RequestEvolves(s, t, q)} | q in s.requests :: RequestEvolves(s, t, q)
  {
  }

  lemma RollbackRequest(s: System, r: Id)
    requires Inv(s) && r in s.requests && s.requests[r].call.Post? && s.requests[r].pc.Rollback?
    ensures RequestFits(Fail(s.(messages := s.messages - {r}), r, NotFound), r)
  {
    assert RequestFits(s, r);
  }

  lemma RollbackChannel(s: System, r: Id, c: Id)
    requires Inv(s) && r in s.requests && s.requests[r].call.Post? && s.requests[r].pc.Rollback? && c in s.channels
    ensures ChannelFits(Fail(s.(messages := s.messages - {r}), r, NotFound), c)
  {
    var t := Fail(s.(messages := s.messages - {r}), r, NotFound);
    RollbackFacts(s, r);
    RollbackEvolves(s, r);
    assert ChannelFits(s, c);
    KeepChannel(s, t, r, c);
  }

  lemma RollbackKeeps(s: System, r: Id)
    requires Inv(s) && r in s.requests && s.requests[r].call.Post? && s.requests[r].pc.Rollback?
    ensures var t := Fail(s.(messages := s.messages - {r}), r, NotFound); Kept(s, t, r)
  {
    var t := Fail(s.(messages := s.messages - {r}), r, NotFound);
    RollbackEvolves(s, r);
    RollbackRequest(s, r);
    KeepIndexes(s, t);
    KeepRecords(s, t, r);
    KeepRequests(s, t, r);
    forall m {:trigger RevisionsFit(t, m)} | m in t.revisions ensures RevisionsFit(t, m) { KeepRevisionsOf(s, t, r, m); }
    forall m {:trigger MessageFits(t, m)} | m in t.messages ensures MessageFits(t, m) {
      assert MessageFits(s, m);
      KeepMessage(s, t, m);
    }
    forall c {:trigger ChannelFits(t, c)} | c in t.channels ensures ChannelFits(t, c) { RollbackChannel(s, r, c); }
  }

  // ---------- the outbox ----------

  lemma EmitEvolves(s: System, r: Id, now: Time)
    requires Inv(s) && r in s.requests && s.requests[r].pc.Emit?
    ensures r !in s.outbox
    ensures OneStep(s, EmitStep(s, r, s.requests[r].pc.event, s.requests[r].pc.answer, now), r)
  {
    var t := EmitStep(s, r, s.requests[r].pc.event, s.requests[r].pc.answer, now);
    assert r in s.outbox ==> OutboxFits(s, r);
    assert RequestFits(s, r);
    assert r in s.messages ==> MessageFits(s, r) && RevisionsFit(s, r);
    forall q | q in s.requests ensures RequestEvolves(s, t, q) {}
    EvolvesBesideMessages(s, t, r);
  }

  lemma EmitFits(s: System, r: Id, now: Time)
    requires Inv(s) && r in s.requests && s.requests[r].pc.Emit?
    ensures var t := EmitStep(s, r, s.requests[r].pc.event, s.requests[r].pc.answer, now);
            RequestFits(t, r) && OutboxFits(t, r)
  {
    var t := EmitStep(s, r, s.requests[r].pc.event, s.requests[r].pc.answer, now);
    EmitEvolves(s, r, now);
    HeldEventFits(s, r);
    EventStable(s, t, r, s.requests[r].pc.event);
    EmittedFits(s, t, r);
  }

  lemma EmittedFits(s: System, t: System, r: Id)
    requires Inv(s) && Evolves(s, t) && r in s.requests && s.requests[r].pc.Emit?
    requires r in t.requests && t.requests[r] == s.requests[r].(pc := Done(s.requests[r].pc.answer))
    requires r in t.outbox && t.messages == s.messages && t.channels == s.channels
    ensures RequestFits(t, r) && (t.requests[r].call.Post? ==> Stored(t.requests[r].pc))
  {
    assert RequestFits(s, r);
  }

  lemma HeldEventFits(s: System, r: Id)
    requires Inv(s) && r in s.requests && s.requests[r].pc.Emit?
    ensures EventFits(s, r, s.requests[r].pc.event)
  {
    assert RequestFits(s, r);
  }

  lemma EmitKeeps(s: System, r: Id, now: Time)
    requires Inv(s) && r in s.requests && s.requests[r].pc.Emit?
    ensures var t := EmitStep(s, r, s.requests[r].pc.event, s.requests[r].pc.answer, now);
            Kept(s, t, r)
  {
    var t := EmitStep(s, r, s.requests[r].pc.event, s.requests[r].pc.answer, now);
    EmitEvolves(s, r, now);
    EmitFits(s, r, now);
    KeepAll(s, t, r);
  }

  // ---------- starting, abandoning, deactivating ----------

  lemma StartEvolves(s: System, r: Id, call: Call)
    requires Inv(s) && r != 0 && r !in s.requests
    ensures OneStep(s, Next(s, Start(r, call)), r)
  {
    var t := Next(s, Start(r, call));
    forall q | q in s.requests ensures RequestEvolves(s, t, q) {}
    EvolvesBesideMessages(s, t, r);
  }

  lemma StartChannel(s: System, r: Id, call: Call, c: Id)
    requires Inv(s) && r != 0 && r !in s.requests && c in s.channels
    ensures ChannelFits(Next(s, Start(r, call)), c)
  {
    StartEvolves(s, r, call);
    assert ChannelFits(s, c);
    KeepChannel(s, Next(s, Start(r, call)), r, c);
  }

  lemma StartKeeps(s: System, r: Id, call: Call)
    requires Inv(s) && r != 0 && r !in s.requests
    ensures var t := Next(s, Start(r, call)); Kept(s, t, r)
  {
    var t := Next(s, Start(r, call));
    StartEvolves(s, r, call);
    forall c {:trigger ChannelFits(t, c)} | c in t.channels ensures ChannelFits(t, c) {
      StartChannel(s, r, call, c);
    }
    KeepPairs(s, t);
    KeepDocuments(s, t, r);
    KeepRecords(s, t, r);
    KeepRequests(s, t, r);
  }

  function Abandoned(s: System, r: Id): System
    requires r in s.requests
  {
    s.(requests := s.requests[r := s.requests[r].(alive := false)])
  }

  lemma AbandonedKeeps(s: System, r: Id)
    requires Inv(s) && r in s.requests && !s.requests[r].pc.Done?
    ensures Kept(s, Abandoned(s, r), r)
  {
    var t := Abandoned(s, r);
    forall q | q in s.requests ensures RequestEvolves(s, t, q) {
      if q in s.messages { assert MessageFits(s, q); }
    }
    EvolvesBesideMessages(s, t, r);
    RequestStable(s, t, r);
    KeepAll(s, t, r);
  }

  lemma AbandonKeeps(s: System, r: Id)
    requires Inv(s)
    ensures var t := Next(s, Abandon(r)); Kept(s, t, r)
  {
    if r in s.requests && s.requests[r].alive && !s.requests[r].pc.Done? {
      assert Next(s, Abandon(r)) == Abandoned(s, r);
      AbandonedKeeps(s, r);
    } else {
      EvolvesReflexive(s);
    }
  }

  function Deactivated(s: System, c: Id): System
    requires c in s.channels
  {
    s.(channels := s.channels[c := s.channels[c].(active := false)])
  }

  lemma DeactivateEvolves(s: System, c: Id)
    requires Inv(s) && c in s.channels
    ensures OneStep(s, Deactivated(s, c), 0)
  {
    var t := Deactivated(s, c);
    forall q | q in s.requests ensures RequestEvolves(s, t, q) {}
    EvolvesBesideMessages(s, t, 0);
  }

  lemma DeactivateChannel(s: System, c: Id, d: Id)
    requires Inv(s) && c in s.channels && d in s.channels
    ensures ChannelFits(Deactivated(s, c), d)
  {
    DeactivateEvolves(s, c);
    assert ChannelFits(s, d);
    KeepChannel(s, Deactivated(s, c), 0, d);
  }

  lemma DeactivateKeeps(s: System, c: Id)
    requires Inv(s) && c in s.channels
    ensures Kept(s, Next(s, Deactivate(c)), 0)
  {
    var t := Deactivated(s, c);
    assert Next(s, Deactivate(c)) == t;
    DeactivateEvolves(s, c);
    forall d {:trigger ChannelFits(t, d)} | d in t.channels ensures ChannelFits(t, d) {
      DeactivateChannel(s, c, d);
    }
    KeepPairs(s, t);
    KeepDocuments(s, t, 0);
    KeepRecords(s, t, 0);
    KeepRequests(s, t, 0);
  }
}
