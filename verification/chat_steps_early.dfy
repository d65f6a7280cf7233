/** The actions that only look: every guard, query and failed insert keeps the invariant.

    Each lemma is about one Mongo call of one kind of request. It takes what the invariant
    says of the request at that call, works out where each answer leaves it, and shows that
    the request fits there. The allocation loop is the interesting case: the marks and the
    base of a post turn each failed attempt into an insert that someone else made since. */
module ChatStepsEarly {
  import opened Schema
  import opened ChatSystem
  import opened ChatInvariant
  import opened ChatStability
  import opened ChatFrame
  import opened ChatSteps

  lemma FailKeeps(s: System, r: Id, error: Error)
    requires Inv(s) && r in s.requests && Early(s.requests[r].pc)
    requires error != Conflict(RetriesExhausted)
    ensures Kept(s, Fail(s, r, error), r)
  {
    var q := s.requests[r];
    assert RequestFits(s, r);
    MoveKeeps(s, r, q.base, Done(Failed(error)));
    assert Fail(s, r, error) == Moved(s, r, q.base, Done(Failed(error)));
  }

  lemma GotoKeeps(s: System, r: Id, pc: Pc)
    requires Inv(s) && r in s.requests && Early(s.requests[r].pc) && !pc.Emit?
    requires PcFits(s, r, s.requests[r].call, s.requests[r].base, pc)
    requires Notes(s, r, s.requests[r].base, pc)
    ensures Kept(s, Goto(s, r, pc), r)
  {
    assert Goto(s, r, pc) == Moved(s, r, s.requests[r].base, pc);
    MoveKeeps(s, r, s.requests[r].base, pc);
    assert Goto(s, r, pc) == Moved(s, r, s.requests[r].base, pc);
  }

  lemma GotoPostKeeps(s: System, r: Id, pc: Pc)
    requires Inv(s) && r in s.requests && s.requests[r].call.Post? && Early(s.requests[r].pc) && !pc.Emit?
    requires PostFits(s, r, s.requests[r].call, s.requests[r].base, pc)
    ensures Kept(s, Goto(s, r, pc), r)
  {
    GotoKeeps(s, r, pc);
  }

  /** A stored document is the latest entry of its own history. */
  lemma StoredSeen(s: System, m: Id)
    requires Inv(s) && m in s.messages
    ensures s.messages[m].id == m && Seen(s, s.messages[m])
    ensures s.messages[m].revision == |s.revisions[m]|
    ensures SameIdentity(s.revisions[m][0].message, s.messages[m])
    ensures BornSince(s, s.messages[m].channelId, m, 0)
    ensures s.messages[m].channelId in s.channels
  {
    assert MessageFits(s, m);
    assert RevisionsFit(s, m);
    assert RevisionFits(s, m, |s.revisions[m]| - 1);
  }

  lemma ExistingKeeps(s: System, r: Id, doc: Id)
    requires Inv(s) && r in s.requests && s.requests[r].call.Post? && Early(s.requests[r].pc)
    requires doc in s.messages
    requires var call := s.requests[r].call;
             HasKey(s.messages[doc], call.channel, call.actor, call.clientId)
    ensures Kept(s, Existing(s, r, doc), r)
  {
    if s.messages[doc].hash != s.requests[r].call.hash {
      FailKeeps(s, r, Conflict(HashMismatch));
    } else {
      StoredSeen(s, doc);
      assert RequestFits(s, r);
      GotoKeeps(s, r, Done(Posted(s.messages[doc], false)));
    }
  }

  lemma GuardChannelKeeps(s: System, r: Id)
    requires Inv(s) && r in s.requests && s.requests[r].call.Post? && s.requests[r].pc.GuardChannel?
    ensures var t := GuardChannelStep(s, r); Kept(s, t, r)
  {
    var call := s.requests[r].call;
    assert RequestFits(s, r);
    if (call.ai && (!call.wellFormed || call.replyTo.None?))
      || (Visible(s, call.channel, call.actor) && !call.wellFormed) {
      FailKeeps(s, r, Invalid);
    } else if !Visible(s, call.channel, call.actor) {
      FailKeeps(s, r, NotFound);
    } else {
      GotoPostKeeps(s, r, if call.replyTo.Some? then GuardReply else Lookup);
    }
  }

  lemma GuardReplyKeeps(s: System, r: Id)
    requires Inv(s) && r in s.requests && s.requests[r].call.Post? && s.requests[r].pc.GuardReply?
    requires s.requests[r].call.replyTo.Some?
    ensures var t := GuardReplyStep(s, r); Kept(s, t, r)
  {
    var call := s.requests[r].call;
    var target := call.replyTo.value;
    assert RequestFits(s, r);
    if target !in s.messages {
      FailKeeps(s, r, NotFound);
    } else if call.ai && (s.messages[target].channelId != call.channel || s.messages[target].senderId == call.actor
                          || s.messages[target].kind.AI? || s.messages[target].recalledAt.Some?) {
      FailKeeps(s, r, Conflict(BadSource));
    } else if s.messages[target].channelId != call.channel {
      FailKeeps(s, r, Invalid);
    } else {
      StoredSeen(s, target);
      GotoPostKeeps(s, r, Lookup);
    }
  }

  lemma LookupKeeps(s: System, r: Id, doc: Id)
    requires Inv(s) && r in s.requests && s.requests[r].call.Post? && s.requests[r].pc.Lookup?
    ensures var t := LookupStep(s, r, doc); Kept(s, t, r)
  {
    var call := s.requests[r].call;
    assert RequestFits(s, r);
    if !AnswersKey(s, call.channel, call.actor, call.clientId, doc) {
      EvolvesReflexive(s);
    } else if doc != 0 {
      ExistingKeeps(s, r, doc);
    } else {
      GotoPostKeeps(s, r, FindChannel(0, |History(s.born, call.channel)|));
    }
  }

  /** In an active channel the summary never runs ahead of what was inserted. */
  lemma SummaryBound(s: System, c: Id)
    requires Inv(s) && c in s.channels
    ensures 0 <= s.channels[c].lastMessageSeq
    ensures s.channels[c].active ==> s.channels[c].lastMessageSeq <= |History(s.born, c)|
  {
    assert ChannelFits(s, c);
    if s.channels[c].active && s.channels[c].lastMessageSeq != 0 {
      ActiveSequence(s, s.channels[c].lastMessageId);
    }
  }

  /** In an active channel a message's sequence is its place in the insert history. */
  lemma ActiveSequence(s: System, m: Id)
    requires Inv(s) && m in s.messages && Active(s, s.messages[m].channelId)
    ensures var h := History(s.born, s.messages[m].channelId);
            1 <= s.messages[m].sequence <= |h| && h[s.messages[m].sequence - 1] == m
  {
    StoredSeen(s, m);
    assert ChannelFits(s, s.messages[m].channelId);
    var c := s.messages[m].channelId;
    var k :| 0 <= k < |History(s.born, c)| && History(s.born, c)[k] == m;
  }

  lemma FindChannelKeeps(s: System, r: Id)
    requires Inv(s) && r in s.requests && s.requests[r].call.Post? && s.requests[r].pc.FindChannel?
    ensures var t := FindChannelStep(s, r, s.requests[r].pc.attempt, s.requests[r].pc.mark); Kept(s, t, r)
  {
    var call := s.requests[r].call;
    assert RequestFits(s, r);
    if !Visible(s, call.channel, call.actor) {
      FailKeeps(s, r, NotFound);
    } else {
      SummaryBound(s, call.channel);
      GotoPostKeeps(s, r, FindLatest(s.requests[r].pc.attempt, s.requests[r].pc.mark,
                                     s.channels[call.channel].lastMessageSeq));
    }
  }

  function Candidate(s: System, pc: Pc, doc: Id): Pc
    requires pc.FindLatest? && (doc != 0 ==> doc in s.messages)
  {
    Insert(pc.attempt, pc.mark, Newest(s, pc.summary, doc) + 1)
  }

  /** The candidate sequence is free and, in an active channel, leaves no gap. */
  lemma CandidateFits(s: System, r: Id, call: Call, base: nat, pc: Pc, doc: Id)
    requires Inv(s) && call.Post? && pc.FindLatest? && PostFits(s, r, call, base, pc)
    requires AnswersLatest(s, call.channel, doc)
    ensures PostFits(s, r, call, base, Candidate(s, pc, doc))
  {
    if doc != 0 && Active(s, call.channel) { ActiveSequence(s, doc); }
  }

  lemma FindLatestKeeps(s: System, r: Id, doc: Id)
    requires Inv(s) && r in s.requests && s.requests[r].call.Post? && s.requests[r].pc.FindLatest?
    requires AnswersLatest(s, s.requests[r].call.channel, doc)
    ensures var t := Goto(s, r, Candidate(s, s.requests[r].pc, doc)); Kept(s, t, r)
  {
    var q := s.requests[r];
    assert PostFits(s, r, q.call, q.base, Candidate(s, q.pc, doc)) by {
      assert RequestFits(s, r);
      CandidateFits(s, r, q.call, q.base, q.pc, doc);
    }
    GotoPostKeeps(s, r, Candidate(s, q.pc, doc));
  }

  /** A duplicate key means that someone inserted since this request last looked. */
  lemma ClashKeeps(s: System, r: Id)
    requires Inv(s) && r in s.requests && s.requests[r].call.Post? && s.requests[r].pc.Insert?
    requires InsertClashes(s, Draft(r, s.requests[r].call, s.requests[r].pc.sequence))
    ensures var t := Goto(s, r, Recheck(s.requests[r].pc.attempt, s.requests[r].pc.mark)); Kept(s, t, r)
  {
    var call := s.requests[r].call;
    var pc := s.requests[r].pc;
    assert RequestFits(s, r);
    var i :| i in s.messages && Clashes(s.messages[i], Draft(r, call, pc.sequence));
    assert BornSince(s, call.channel, i, pc.mark);
    GotoPostKeeps(s, r, Recheck(pc.attempt, pc.mark));
  }

  /** After a failed attempt the next one starts with fresh marks; the last one gives up. */
  lemma AfterAttemptFits(s: System, r: Id, call: Call, base: nat, pc: Pc)
    requires Inv(s) && call.Post? && pc.Recheck? && PostFits(s, r, call, base, pc)
    requires AnswersKey(s, call.channel, call.actor, call.clientId, 0)
    requires r in s.requests && Early(s.requests[r].pc)
    ensures PostFits(s, r, call, base, AfterAttempt(s, call.channel, pc.attempt))
  {
    assert r in s.revisions ==> RevisionsFit(s, r);
  }

  lemma RecheckKeeps(s: System, r: Id, doc: Id)
    requires Inv(s) && r in s.requests && s.requests[r].call.Post? && s.requests[r].pc.Recheck?
    ensures var t := RecheckStep(s, r, s.requests[r].pc.attempt, doc); Kept(s, t, r)
  {
    var call := s.requests[r].call;
    var pc := s.requests[r].pc;
    assert RequestFits(s, r);
    if !AnswersKey(s, call.channel, call.actor, call.clientId, doc) {
      EvolvesReflexive(s);
    } else if doc != 0 {
      ExistingKeeps(s, r, doc);
    } else {
      AfterAttemptFits(s, r, call, s.requests[r].base, pc);
      GotoPostKeeps(s, r, AfterAttempt(s, call.channel, pc.attempt));
    }
  }

  lemma AuthorizeKeeps(s: System, r: Id)
    requires Inv(s) && r in s.requests && s.requests[r].call.Mutate? && s.requests[r].pc.Authorize?
    ensures var t := AuthorizeStep(s, r); Kept(s, t, r)
  {
    var call := s.requests[r].call;
    assert RequestFits(s, r);
    if call.change.Edit? && !call.change.wellFormed {
      FailKeeps(s, r, Invalid);
    } else if call.target !in s.messages {
      FailKeeps(s, r, NotFound);
    } else {
      StoredSeen(s, call.target);
      GotoKeeps(s, r, AuthorizeChannel(s.messages[call.target]));
    }
  }

  lemma AuthorizeChannelKeeps(s: System, r: Id)
    requires Inv(s) && r in s.requests && s.requests[r].call.Mutate? && s.requests[r].pc.AuthorizeChannel?
    ensures var t := AuthorizeChannelStep(s, r, s.requests[r].pc.seen); Kept(s, t, r)
  {
    var call := s.requests[r].call;
    var seen := s.requests[r].pc.seen;
    assert RequestFits(s, r);
    if !Visible(s, seen.channelId, call.actor) {
      FailKeeps(s, r, NotFound);
    } else if seen.senderId != call.actor {
      FailKeeps(s, r, Forbidden);
    } else if seen.recalledAt.None? {
      GotoKeeps(s, r, Swap(seen));
    } else if call.change.Edit? {
      FailKeeps(s, r, Conflict(StaleRevision));
    } else {
      GotoKeeps(s, r, Done(Mutated(seen)));
    }
  }

  lemma GuardReadKeeps(s: System, r: Id)
    requires Inv(s) && r in s.requests && s.requests[r].call.Read? && s.requests[r].pc.GuardRead?
    ensures var t := GuardReadStep(s, r); Kept(s, t, r)
  {
    var call := s.requests[r].call;
    assert RequestFits(s, r);
    if !Visible(s, call.channel, call.actor) {
      FailKeeps(s, r, NotFound);
    } else if call.position < 0 || call.position > s.channels[call.channel].lastMessageSeq {
      FailKeeps(s, r, Invalid);
    } else {
      GotoKeeps(s, r, UpsertMatch);
    }
  }

  lemma CursorSign(s: System, key: (Id, string))
    requires Inv(s) && key in s.states
    ensures 0 <= s.states[key]
  {
    assert CursorFits(s, key);
    var h := History(s.advances, key);
    assert AdvanceFits(s, key, h[|h| - 1]);
  }

  /** The match phase of the cursor upsert, when it does not update. */
  lemma UpsertMatchKeeps(s: System, r: Id)
    requires Inv(s) && r in s.requests && s.requests[r].call.Read? && s.requests[r].pc.UpsertMatch?
    requires var call := s.requests[r].call;
             (call.channel, call.actor) in s.states ==> s.states[(call.channel, call.actor)] >= call.position
    ensures var t := UpsertMatchStep(s, r); Kept(s, t, r)
  {
    var call := s.requests[r].call;
    assert ReadFits(s, r, call, 0, UpsertMatch) && s.requests[r].base == 0 by { assert RequestFits(s, r); }
    var base := if (call.channel, call.actor) in s.states then 2 else 0;
    assert UpsertMatchStep(s, r) == Moved(s, r, base, UpsertInsert);
    MoveKeeps(s, r, base, UpsertInsert);
  }

  /** The insert phase of the cursor upsert, when it meets a duplicate key. */
  lemma UpsertDuplicateKeeps(s: System, r: Id)
    requires Inv(s) && r in s.requests && s.requests[r].call.Read? && s.requests[r].pc.UpsertInsert?
    requires (s.requests[r].call.channel, s.requests[r].call.actor) in s.states
    ensures var t := UpsertInsertStep(s, r); Kept(s, t, r)
  {
    assert UpsertInsertStep(s, r) == Goto(s, r, FindState(false));
    assert RequestFits(s, r);
    CursorSign(s, (s.requests[r].call.channel, s.requests[r].call.actor));
    GotoKeeps(s, r, FindState(false));
  }

  lemma OpenUpsertKeeps(s: System, r: Id, doc: Id)
    requires Inv(s) && r in s.requests && s.requests[r].call.Open? && s.requests[r].pc.OpenUpsert?
    ensures var t := OpenUpsertStep(s, r, doc); Kept(s, t, r)
  {
    var call := s.requests[r].call;
    assert RequestFits(s, r);
    if call.actor == "" || !call.wellFormed || call.actor == call.peer {
      FailKeeps(s, r, Invalid);
    } else if !AnswersPair(s, Canonical(call.actor, call.peer), doc) {
      EvolvesReflexive(s);
    } else if doc != 0 {
      assert ChannelFits(s, doc);
      GotoKeeps(s, r, Done(Opened(doc)));
    } else {
      GotoKeeps(s, r, OpenInsert);
    }
  }

  lemma OpenFindKeeps(s: System, r: Id, doc: Id)
    requires Inv(s) && r in s.requests && s.requests[r].call.Open? && s.requests[r].pc.OpenFind?
    ensures var t := OpenFindStep(s, r, doc); Kept(s, t, r)
  {
    var call := s.requests[r].call;
    assert RequestFits(s, r);
    if !AnswersPair(s, Canonical(call.actor, call.peer), doc) {
      EvolvesReflexive(s);
    } else if doc == 0 {
      FailKeeps(s, r, StoreError);
    } else {
      assert ChannelFits(s, doc);
      GotoKeeps(s, r, Done(Opened(doc)));
    }
  }
}
