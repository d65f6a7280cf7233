/** The insert of a message keeps the invariant.

    The two unique indexes are what makes this true. A message that clashes with no stored one
    has a sequence nobody has, and at most one beyond the last; so in an active channel it is
    exactly the next one, and the insert history stays in sequence order. The rest is
    bookkeeping: the new message opens its own revision history, its reply target precedes
    it, and every request keeps what it knows. */
module ChatStepsLate {
  import opened Schema
  import opened ChatSystem
  import opened ChatInvariant
  import opened ChatStability
  import opened ChatFrame
  import opened ChatSteps
  import opened ChatStepsEarly

  // ---------- inserting a message ----------

  /** A post about to insert, whose candidate clashes with nothing stored. */
  ghost predicate ReadyToStore(s: System, r: Id, m: Message) {
    && r in s.requests && s.requests[r].call.Post? && s.requests[r].pc.Insert?
    && m == Draft(r, s.requests[r].call, s.requests[r].pc.sequence)
    && !InsertClashes(s, m)
  }

  /** In an active channel every sequence up to the insert count is in use. */
  lemma SlotTaken(s: System, c: Id, n: int)
    requires Inv(s)
    ensures Active(s, c) && 1 <= n <= |History(s.born, c)| ==>
              exists i :: i in s.messages && s.messages[i].channelId == c && s.messages[i].sequence == n
  {
    if Active(s, c) && 1 <= n <= |History(s.born, c)| {
      assert ChannelFits(s, c);
      var i := History(s.born, c)[n - 1];
      assert i in s.messages && s.messages[i].channelId == c && s.messages[i].sequence == n;
    }
  }

  lemma StoreFacts(s: System, r: Id, m: Message)
    requires Inv(s) && ReadyToStore(s, r, m)
    ensures r !in s.revisions && r !in s.messages
    ensures m.channelId in s.channels && Member(s, m.channelId, m.senderId)
    ensures m.sequence >= 1 && ReplyFits(s, s.requests[r].call)
    ensures Active(s, m.channelId) ==> m.sequence == |History(s.born, m.channelId)| + 1
  {
    var c := m.channelId;
    assert RequestFits(s, r);
    assert r in s.revisions ==> RevisionsFit(s, r);
    assert r in s.messages ==> MessageFits(s, r);
    assert forall i | i in s.messages :: !Clashes(s.messages[i], m);
    SlotTaken(s, c, m.sequence);
  }

  lemma StoreBorn(s: System, r: Id, m: Message)
    requires r in s.requests
    ensures var t := Store(s, r, m);
            Grew(s.born, t.born) && BornSince(t, m.channelId, r, |History(s.born, m.channelId)|)
    ensures BornSince(Store(s, r, m), m.channelId, r, 0)
  {
    var t := Store(s, r, m);
    var h := History(t.born, m.channelId);
    assert h[|h| - 1] == r;
    BornEarlier(t, m.channelId, r, |History(s.born, m.channelId)|, 0);
  }

  lemma StoreNoted(s: System, t: System, r: Id)
    requires r in s.requests && r in t.requests && t.requests == s.requests[r := t.requests[r]] && t.states == s.states
    requires s.requests[r].call.Post? && t.requests[r].call == s.requests[r].call
    ensures StartedSince(s, t)
    ensures forall q {:trigger CursorNoted(s, t, q)} | q in t.requests :: CursorNoted(s, t, q)
  {
  }

  lemma StoreEvolves(s: System, r: Id, m: Message)
    requires Inv(s) && ReadyToStore(s, r, m)
    ensures OneStep(s, Store(s, r, m), r)
  {
    var t := Store(s, r, m);
    assert r !in s.revisions && r !in s.messages by { StoreFacts(s, r, m); }
    StoreBorn(s, r, m);
    forall i | i in s.messages ensures MessageEvolves(s, t, i) {}
    EarlyRequests(s, t, r);
    StoreNoted(s, t, r);
    assert Grew(s.revisions, t.revisions);
  }

  lemma StoreBornFits(s: System, r: Id, m: Message)
    requires Inv(s) && ReadyToStore(s, r, m)
    ensures BornFits(Store(s, r, m), m.channelId)
  {
    StoreFacts(s, r, m);
    assert ChannelFits(s, m.channelId);
    assert History(Store(s, r, m).born, m.channelId) == History(s.born, m.channelId) + [r];
  }

  lemma StoreChannel(s: System, r: Id, m: Message, c: Id)
    requires Inv(s) && ReadyToStore(s, r, m) && c in s.channels
    ensures ChannelFits(Store(s, r, m), c)
  {
    StoreEvolves(s, r, m);
    if c != m.channelId {
      assert ChannelFits(s, c);
      KeepChannel(s, Store(s, r, m), r, c);
    } else {
      StoreOwnChannel(s, r, m);
    }
  }

  lemma StoreOwnChannel(s: System, r: Id, m: Message)
    requires Inv(s) && ReadyToStore(s, r, m) && m.channelId in s.channels
    requires OneStep(s, Store(s, r, m), r)
    ensures ChannelFits(Store(s, r, m), m.channelId)
  {
    StoreFacts(s, r, m);
    assert ChannelFits(s, m.channelId);
    assert RequestEvolves(s, Store(s, r, m), m.channelId);
    KeepSummary(s, Store(s, r, m), m.channelId);
    StoreBornFits(s, r, m);
  }

  lemma StoreRevisions(s: System, r: Id, m: Message)
    requires Inv(s) && ReadyToStore(s, r, m)
    ensures RevisionsFit(Store(s, r, m), r)
  {
    var t := Store(s, r, m);
    StoreFacts(s, r, m);
    assert ReplyFits(t, s.requests[r].call) by {
      StoreEvolves(s, r, m);
      ReplyStable(s, t, s.requests[r].call);
    }
    StoreBorn(s, r, m);
    assert RevisionFits(t, r, 0);
  }

  lemma StoreMessage(s: System, r: Id, m: Message)
    requires Inv(s) && ReadyToStore(s, r, m)
    ensures MessageFits(Store(s, r, m), r)
  {
    var t := Store(s, r, m);
    StoreFacts(s, r, m);
    if Active(t, m.channelId) && m.replyTo != 0 {
      var target := m.replyTo;
      StoredSeen(s, target);
      ActiveSequence(s, target);
    }
  }

  lemma StoreIndexes(s: System, r: Id, m: Message)
    requires Inv(s) && ReadyToStore(s, r, m)
    ensures IndexesUnique(Store(s, r, m))
  {
    var t := Store(s, r, m);
    forall i, j | i in t.messages && j in t.messages && i != j
      ensures !Clashes(t.messages[i], t.messages[j])
    {
      if i == r {
        assert !Clashes(s.messages[j], m);
      } else if j == r {
        assert !Clashes(s.messages[i], m);
      }
    }
  }

  lemma StoreRequest(s: System, r: Id, m: Message)
    requires Inv(s) && ReadyToStore(s, r, m)
    ensures RequestFits(Store(s, r, m), r)
  {
    var call := s.requests[r].call;
    assert PostReady(s, call) && s.requests[r].base <= |History(s.born, call.channel)| by {
      assert RequestFits(s, r);
    }
    assert PostReady(Store(s, r, m), call) by {
      StoreEvolves(s, r, m);
      ReplyStable(s, Store(s, r, m), call);
    }
  }

  lemma StoredRevisionsFit(s: System, r: Id, m: Message)
    requires Inv(s) && ReadyToStore(s, r, m) && OneStep(s, Store(s, r, m), r)
    ensures forall i {:trigger RevisionsFit(Store(s, r, m), i)} | i in Store(s, r, m).revisions ::
              RevisionsFit(Store(s, r, m), i)
  {
    var t := Store(s, r, m);
    forall i {:trigger RevisionsFit(t, i)} | i in t.revisions ensures RevisionsFit(t, i) {
      if i == r { StoreRevisions(s, r, m); } else { KeepRevisionsOf(s, t, r, i); }
    }
  }

  lemma StoreDocuments(s: System, r: Id, m: Message)
    requires Inv(s) && ReadyToStore(s, r, m) && OneStep(s, Store(s, r, m), r)
    ensures DocumentsFit(Store(s, r, m))
  {
    var t := Store(s, r, m);
    assert IndexesUnique(t) by { StoreIndexes(s, r, m); }
    assert KeysFit(t) && PairsUnique(t) by { StoreFacts(s, r, m); }
    StoredRevisionsFit(s, r, m);
    forall i {:trigger MessageFits(t, i)} | i in t.messages ensures MessageFits(t, i) {
      if i == r { StoreMessage(s, r, m); } else { assert MessageFits(s, i); KeepMessage(s, t, i); }
    }
    forall c {:trigger ChannelFits(t, c)} | c in t.channels ensures ChannelFits(t, c) { StoreChannel(s, r, m, c); }
  }

  lemma StoreKeeps(s: System, r: Id, m: Message)
    requires Inv(s) && ReadyToStore(s, r, m)
    ensures Kept(s, Store(s, r, m), r)
  {
    var t := Store(s, r, m);
    StoreEvolves(s, r, m);
    StoreDocuments(s, r, m);
    KeepRecords(s, t, r);
    KeepRequests(s, t, r);
    StoreRequest(s, r, m);
  }
}
