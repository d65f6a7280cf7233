/** Revisions of a message, writes of a read cursor, and new channels.

    A swap that goes through appends to the message's revision history, and its writer and
    number identify it from then on. A cursor write appends to the cursor's history, which is
    strictly increasing because the upsert only matches a cursor that is behind. A new channel
    starts with empty histories, and its pair is new because the unique index says so. */
module ChatStepsRevise {
  import opened Schema
  import opened ChatSystem
  import opened ChatInvariant
  import opened ChatStability
  import opened ChatFrame
  import opened ChatSteps
  import opened ChatStepsEarly
  import opened ChatStepsVersion
  import opened ChatStepsWrite

  // ---------- compare and swap ----------

  ghost predicate ReadyToSwap(s: System, r: Id, seen: Message) {
    && r in s.requests && s.requests[r].call.Mutate? && s.requests[r].pc == Swap(seen)
    && Swappable(s, seen)
  }

  function Swapped(s: System, r: Id, seen: Message, now: Time): Message
    requires r in s.requests && s.requests[r].call.Mutate? && seen.id in s.messages
  {
    Changed(s.messages[seen.id], s.requests[r].call.change, now)
  }

  lemma SwapFacts(s: System, r: Id, seen: Message, now: Time)
    requires Inv(s) && ReadyToSwap(s, r, seen)
    ensures seen.id in s.revisions && RevisionsFit(s, seen.id)
    ensures var u := Swapped(s, r, seen, now);
            && SameIdentity(s.messages[seen.id], u) && SameIdentity(s.revisions[seen.id][0].message, u)
            && u.revision == |s.revisions[seen.id]| + 1 && u.id == seen.id
            && seen.id == s.requests[r].call.target && u.senderId == s.requests[r].call.actor
            && s.messages[seen.id] == s.revisions[seen.id][|s.revisions[seen.id]| - 1].message
    ensures seen.id != r
  {
    StoredSeen(s, seen.id);
    assert MessageFits(s, seen.id);
    assert RevisionsFit(s, seen.id);
    assert RequestFits(s, r);
  }

  lemma ReviseEvolves(s: System, r: Id, i: Id, u: Message)
    requires r in s.requests && s.requests[r].pc.Swap? && s.requests[r].call.Mutate? && s.requests[r].base == 0
    requires i in s.messages && i in s.revisions && SameIdentity(s.messages[i], u) && u.revision > 0
    ensures var t := Revise(s, r, i, u); Evolves(s, t) && OnlyEarlyInsert(s, t) && Others(s, t, r)
  {
    var t := Revise(s, r, i, u);
    forall m | m in s.messages ensures MessageEvolves(s, t, m) {}
    EarlyRequests(s, t, r);
    Appends(s.revisions, i, Revision(r, u));
  }

  lemma SwapEvolves(s: System, r: Id, seen: Message, now: Time)
    requires Inv(s) && ReadyToSwap(s, r, seen)
    ensures OneStep(s, Revise(s, r, seen.id, Swapped(s, r, seen, now)), r)
  {
    var u := Swapped(s, r, seen, now);
    assert SameIdentity(s.messages[seen.id], u) && seen.id in s.revisions && u.revision > 0 by {
      SwapFacts(s, r, seen, now);
    }
    assert s.requests[r].base == 0 by { assert RequestFits(s, r); }
    ReviseEvolves(s, r, seen.id, u);
  }

  lemma SwapRevisions(s: System, r: Id, seen: Message, now: Time)
    requires Inv(s) && ReadyToSwap(s, r, seen)
    ensures RevisionsFit(Revise(s, r, seen.id, Swapped(s, r, seen, now)), seen.id)
  {
    var i := seen.id;
    var u := Swapped(s, r, seen, now);
    var t := Revise(s, r, i, u);
    SwapFacts(s, r, seen, now);
    SwapEvolves(s, r, seen, now);
    assert t.revisions[i] == s.revisions[i] + [Revision(r, u)];
    forall k | 0 <= k < |t.revisions[i]| ensures RevisionFits(t, i, k) {
      SwapRevision(s, r, seen, now, k);
    }
    assert RequestEvolves(s, t, i);
    ReplyStable(s, t, s.requests[i].call);
  }

  lemma SwapRevision(s: System, r: Id, seen: Message, now: Time, k: nat)
    requires Inv(s) && ReadyToSwap(s, r, seen)
    requires seen.id in s.revisions && k <= |s.revisions[seen.id]|
    ensures RevisionFits(Revise(s, r, seen.id, Swapped(s, r, seen, now)), seen.id, k)
  {
    var i := seen.id;
    var t := Revise(s, r, i, Swapped(s, r, seen, now));
    SwapFacts(s, r, seen, now);
    if k < |s.revisions[i]| {
      assert RevisionFits(s, i, k);
      SwapEvolves(s, r, seen, now);
      assert RequestEvolves(s, t, s.revisions[i][k].writer);
    }
  }

  lemma SwapMessage(s: System, r: Id, seen: Message, now: Time)
    requires Inv(s) && ReadyToSwap(s, r, seen)
    ensures MessageFits(Revise(s, r, seen.id, Swapped(s, r, seen, now)), seen.id)
  {
    var i := seen.id;
    var t := Revise(s, r, i, Swapped(s, r, seen, now));
    SwapFacts(s, r, seen, now);
    SwapEvolves(s, r, seen, now);
    assert MessageFits(s, i);
    if Active(t, t.messages[i].channelId) && t.messages[i].replyTo != 0 { KeepLink(s, t, i); }
  }

  lemma SwapRequest(s: System, r: Id, seen: Message, now: Time)
    requires Inv(s) && ReadyToSwap(s, r, seen)
    ensures RequestFits(Revise(s, r, seen.id, Swapped(s, r, seen, now)), r)
  {
    var i := seen.id;
    var u := Swapped(s, r, seen, now);
    var t := Revise(s, r, i, u);
    SwapFacts(s, r, seen, now);
    assert History(t.revisions, i) == s.revisions[i] + [Revision(r, u)];
  }

  lemma SwapDocuments(s: System, r: Id, seen: Message, now: Time)
    requires Inv(s) && ReadyToSwap(s, r, seen)
    requires OneStep(s, Revise(s, r, seen.id, Swapped(s, r, seen, now)), r)
    ensures DocumentsFit(Revise(s, r, seen.id, Swapped(s, r, seen, now)))
  {
    var t := Revise(s, r, seen.id, Swapped(s, r, seen, now));
    KeepIndexes(s, t);
    forall m {:trigger RevisionsFit(t, m)} | m in t.revisions ensures RevisionsFit(t, m) {
      if m == seen.id { SwapRevisions(s, r, seen, now); } else { KeepRevisionsOf(s, t, r, m); }
    }
    forall m {:trigger MessageFits(t, m)} | m in t.messages ensures MessageFits(t, m) {
      if m == seen.id { SwapMessage(s, r, seen, now); } else { assert MessageFits(s, m); KeepMessage(s, t, m); }
    }
    forall c {:trigger ChannelFits(t, c)} | c in t.channels ensures ChannelFits(t, c) {
      assert ChannelFits(s, c);
      KeepChannel(s, t, r, c);
    }
  }

  lemma SwapKeeps(s: System, r: Id, now: Time)
    requires Inv(s) && r in s.requests && s.requests[r].call.Mutate? && s.requests[r].pc.Swap?
    ensures var t := SwapStep(s, r, s.requests[r].pc.seen, now); Kept(s, t, r)
  {
    var seen := s.requests[r].pc.seen;
    if Swappable(s, seen) {
      var t := Revise(s, r, seen.id, Swapped(s, r, seen, now));
      SwapEvolves(s, r, seen, now);
      SwapDocuments(s, r, seen, now);
      KeepRecords(s, t, r);
      KeepRequests(s, t, r);
      SwapRequest(s, r, seen, now);
    } else {
      FailKeeps(s, r, Conflict(StaleRevision));
    }
  }

  /** Taking a version for a change that leaves the summary alone. */
  lemma PlainTakeKeeps(s: System, r: Id, c: Id, kind: EventType, body: Body, answer: Outcome)
    requires Inv(s) && c in s.channels && ReadyToTake(s, r, c, s.channels[c]) && !s.requests[r].pc.Summarize?
    requires RequestFits(TakeVersion(s, r, c, s.channels[c], kind, body, answer), r)
    ensures var t := TakeVersion(s, r, c, s.channels[c], kind, body, answer); Kept(s, t, r)
  {
    var t := TakeVersion(s, r, c, s.channels[c], kind, body, answer);
    assert SummaryFits(t, c) by {
      TakeEvolves(s, r, c, s.channels[c], kind, body, answer);
      assert ChannelFits(s, c);
      KeepSummary(s, t, c);
    }
    TakeKeeps(s, r, c, s.channels[c], kind, body, answer);
  }

  function KindOf(change: Change): EventType {
    if change.Edit? then MessageUpdated else MessageRecalled
  }

  lemma BumpRequest(s: System, r: Id, u: Message)
    requires Inv(s) && r in s.requests && s.requests[r].call.Mutate? && s.requests[r].pc == Bump(u)
    requires u.channelId in s.channels
    ensures RequestFits(TakeVersion(s, r, u.channelId, s.channels[u.channelId], KindOf(s.requests[r].call.change),
                                    MessageBody(PayloadOf(u)), Mutated(u)), r)
  {
    assert RequestFits(s, r);
    TakeEvent(s, r, u.channelId, s.channels[u.channelId], KindOf(s.requests[r].call.change),
              MessageBody(PayloadOf(u)), Mutated(u));
  }

  lemma BumpKeeps(s: System, r: Id, now: Time)
    requires Inv(s) && r in s.requests && s.requests[r].call.Mutate? && s.requests[r].pc.Bump?
    ensures var t := MutateStep(s, r, now); Kept(s, t, r)
  {
    var u := s.requests[r].pc.updated;
    if u.channelId !in s.channels || !s.channels[u.channelId].active {
      assert MutateStep(s, r, now) == Fail(s, r, NotFound);
      assert RequestFits(s, r);
      LateMoveKeeps(s, r, Done(Failed(NotFound)));
    } else {
      var kind := KindOf(s.requests[r].call.change);
      var body := MessageBody(PayloadOf(u));
      assert MutateStep(s, r, now) == TakeVersion(s, r, u.channelId, s.channels[u.channelId], kind, body, Mutated(u));
      BumpRequest(s, r, u);
      PlainTakeKeeps(s, r, u.channelId, kind, body, Mutated(u));
    }
  }

  // ---------- read cursors ----------

  /** The upsert writes: the cursor is behind, or does not exist. */
  ghost predicate ReadyToWrite(s: System, r: Id) {
    && r in s.requests && s.requests[r].call.Read?
    && (s.requests[r].pc.UpsertMatch? || s.requests[r].pc.UpsertInsert?)
    && var call := s.requests[r].call;
    && ReadReady(s, call)
    && (CursorKey(call) in s.states ==> s.states[CursorKey(call)] < call.position)
  }

  lemma WriteEvolves(s: System, r: Id)
    requires Inv(s) && ReadyToWrite(s, r)
    ensures var call := s.requests[r].call; OneStep(s, WriteCursor(s, r, CursorKey(call), call.position), r)
  {
    var call := s.requests[r].call;
    var t := WriteCursor(s, r, CursorKey(call), call.position);
    EarlyRequests(s, t, r);
    Appends(s.advances, CursorKey(call), Advance(r, call.position));
    EvolvesBesideMessages(s, t, r);
  }

  /** A cursor written beyond all its positions fits, if it did before. */
  lemma WrittenFits(s: System, t: System, r: Id, key: (Id, string), position: int)
    requires r in s.requests && t == WriteCursor(s, r, key, position) && AdvanceFits(t, key, Advance(r, position))
    requires Member(s, key.0, key.1) && position <= s.channels[key.0].lastMessageSeq
    requires if key in s.states then CursorFits(s, key) && s.states[key] < position else History(s.advances, key) == []
    requires forall k :: 0 <= k < |History(s.advances, key)| ==> AdvanceFits(t, key, History(s.advances, key)[k])
    ensures CursorFits(t, key)
  {
    assert History(t.advances, key) == History(s.advances, key) + [Advance(r, position)];
  }

  lemma WriteFits(s: System, r: Id)
    requires Inv(s) && ReadyToWrite(s, r)
    ensures var call := s.requests[r].call;
            CursorFits(WriteCursor(s, r, CursorKey(call), call.position), CursorKey(call))
  {
    var call := s.requests[r].call;
    var key := CursorKey(call);
    var t := WriteCursor(s, r, key, call.position);
    if key in s.states {
      assert CursorFits(s, key);
      assert Evolves(s, t) by { WriteEvolves(s, r); }
      KeepAdvances(s, t, key);
    }
    WrittenFits(s, t, r, key, call.position);
  }

  lemma WriteRequest(s: System, r: Id)
    requires Inv(s) && ReadyToWrite(s, r)
    ensures var call := s.requests[r].call; RequestFits(WriteCursor(s, r, CursorKey(call), call.position), r)
  {
    var call := s.requests[r].call;
    var key := CursorKey(call);
    var t := WriteCursor(s, r, key, call.position);
    var h := History(s.advances, key);
    assert History(t.advances, key) == h + [Advance(r, call.position)];
    assert History(t.advances, key)[|h|].writer == r;
  }

  lemma KeepAdvances(s: System, t: System, key: (Id, string))
    requires Evolves(s, t) && key in s.states && CursorFits(s, key)
    ensures forall k :: 0 <= k < |History(s.advances, key)| ==> AdvanceFits(t, key, History(s.advances, key)[k])
  {
    var h := History(s.advances, key);
    forall k | 0 <= k < |h| ensures AdvanceFits(t, key, h[k]) {
      assert RequestEvolves(s, t, h[k].writer);
    }
  }

  lemma WriteRecords(s: System, t: System, r: Id, key: (Id, string), position: int)
    requires OneStep(s, t, r) && r in s.requests && t == WriteCursor(s, r, key, position) && CursorFits(t, key)
    ensures RecordsFit(t)
  {
    KeepOutbox(s, t, r);
    KeepTakers(s, t, r);
    KeepCursors(s, t, r);
  }

  lemma WriteKeeps(s: System, r: Id)
    requires Inv(s) && ReadyToWrite(s, r)
    ensures var call := s.requests[r].call;
            var t := WriteCursor(s, r, CursorKey(call), call.position); Kept(s, t, r)
  {
    var call := s.requests[r].call;
    var t := WriteCursor(s, r, CursorKey(call), call.position);
    WriteEvolves(s, r);
    WriteFits(s, r);
    WriteRequest(s, r);
    WriteDocuments(s, t, r);
    WriteRecords(s, t, r, CursorKey(call), call.position);
    KeepRequests(s, t, r);
  }

  lemma WriteDocuments(s: System, t: System, r: Id)
    requires OneStep(s, t, r) && t.channels == s.channels && t.messages == s.messages
    requires t.born == s.born && t.revisions == s.revisions && t.takers == s.takers && t.states.Keys == t.advances.Keys
    requires 0 !in t.requests && r in s.requests && !s.requests[r].pc.Summarize?
    ensures DocumentsFit(t)
  {
    forall c {:trigger ChannelFits(t, c)} | c in t.channels ensures ChannelFits(t, c) {
      assert ChannelFits(s, c);
      KeepChannel(s, t, r, c);
    }
    KeepPairs(s, t);
    KeepDocuments(s, t, r);
  }

  /** What the cursor lookup answers: the stored position, or the position the event carries. */
  function AfterFind(s: System, call: Call, advanced: bool): Pc
    requires call.Read? && CursorKey(call) in s.states
  {
    if advanced then BumpRead(s.states[CursorKey(call)]) else Done(CursorAt(s.states[CursorKey(call)]))
  }

  lemma FindStateFits(s: System, r: Id)
    requires Inv(s) && r in s.requests && s.requests[r].call.Read? && s.requests[r].pc.FindState?
    ensures var q := s.requests[r];
            CursorFrom(s, q.call, 0) && PcFits(s, r, q.call, q.base, AfterFind(s, q.call, q.pc.advanced))
  {
    assert RequestFits(s, r);
    var key := CursorKey(s.requests[r].call);
    assert CursorFits(s, key);
    assert FromFirst(s, key, s.states[key]);
  }

  lemma FindStateKeeps(s: System, r: Id, now: Time)
    requires Inv(s) && r in s.requests && s.requests[r].call.Read? && s.requests[r].pc.FindState?
    ensures var t := ReadStep(s, r, now); Kept(s, t, r)
  {
    var q := s.requests[r];
    FindStateFits(s, r);
    assert ReadStep(s, r, now) == Goto(s, r, AfterFind(s, q.call, q.pc.advanced));
    LateMoveKeeps(s, r, AfterFind(s, q.call, q.pc.advanced));
  }

  lemma BumpReadRequest(s: System, r: Id, last: int)
    requires Inv(s) && r in s.requests && s.requests[r].call.Read? && s.requests[r].pc == BumpRead(last)
    requires s.requests[r].call.channel in s.channels
    ensures var call := s.requests[r].call;
            RequestFits(TakeVersion(s, r, call.channel, s.channels[call.channel], ReadCursorAdvanced,
                                    CursorBody(call.actor, last), CursorAt(last)), r)
  {
    var call := s.requests[r].call;
    assert RequestFits(s, r);
    TakeEvent(s, r, call.channel, s.channels[call.channel], ReadCursorAdvanced,
              CursorBody(call.actor, last), CursorAt(last));
  }

  lemma BumpReadKeeps(s: System, r: Id, now: Time)
    requires Inv(s) && r in s.requests && s.requests[r].call.Read? && s.requests[r].pc.BumpRead?
    ensures var t := ReadStep(s, r, now); Kept(s, t, r)
  {
    var call := s.requests[r].call;
    var last := s.requests[r].pc.lastRead;
    if !Visible(s, call.channel, call.actor) {
      assert ReadStep(s, r, now) == Fail(s, r, NotFound);
      LateMoveKeeps(s, r, Done(Failed(NotFound)));
    } else {
      var body := CursorBody(call.actor, last);
      assert ReadStep(s, r, now)
        == TakeVersion(s, r, call.channel, s.channels[call.channel], ReadCursorAdvanced, body, CursorAt(last));
      BumpReadRequest(s, r, last);
      PlainTakeKeeps(s, r, call.channel, ReadCursorAdvanced, body, CursorAt(last));
    }
  }

  // ---------- channels ----------

  lemma OpenEvolves(s: System, r: Id)
    requires Inv(s) && r in s.requests && s.requests[r].call.Open? && s.requests[r].pc.OpenInsert?
    ensures r !in s.channels
    ensures OneStep(s, OpenChannel(s, r, PairOf(s.requests[r].call)), r)
  {
    var t := OpenChannel(s, r, PairOf(s.requests[r].call));
    assert r in s.channels ==> ChannelFits(s, r);
    EarlyRequests(s, t, r);
    EvolvesBesideMessages(s, t, r);
  }

  lemma OpenedFits(s: System, r: Id)
    requires Inv(s) && r in s.requests && s.requests[r].call.Open? && s.requests[r].pc.OpenInsert?
    requires !PairTaken(s, PairOf(s.requests[r].call))
    ensures var t := OpenChannel(s, r, PairOf(s.requests[r].call));
            ChannelFits(t, r) && RequestFits(t, r) && PairsUnique(t)
  {
    var call := s.requests[r].call;
    var t := OpenChannel(s, r, PairOf(call));
    OpenEvolves(s, r);
    assert RequestFits(s, r);
    CanonicalPair(call.actor, call.peer);
    forall m | m in t.messages ensures t.messages[m].channelId != r {
      StoredSeen(s, m);
    }
    forall c, d | c in t.channels && d in t.channels && t.channels[c].directKey == t.channels[d].directKey
      ensures c == d
    {
      if c == r || d == r { assert forall e | e in s.channels :: s.channels[e].directKey != PairOf(call); }
    }
  }

  lemma OpenOther(s: System, r: Id, c: Id)
    requires Inv(s) && r in s.requests && s.requests[r].call.Open? && s.requests[r].pc.OpenInsert?
    requires c in s.channels && c != r
    ensures ChannelFits(OpenChannel(s, r, PairOf(s.requests[r].call)), c)
  {
    OpenEvolves(s, r);
    assert ChannelFits(s, c);
    KeepChannel(s, OpenChannel(s, r, PairOf(s.requests[r].call)), r, c);
  }

  lemma OpenChannels(s: System, r: Id)
    requires Inv(s) && r in s.requests && s.requests[r].call.Open? && s.requests[r].pc.OpenInsert?
    requires !PairTaken(s, PairOf(s.requests[r].call))
    ensures var t := OpenChannel(s, r, PairOf(s.requests[r].call));
            PairsUnique(t) && forall c {:trigger ChannelFits(t, c)} | c in t.channels :: ChannelFits(t, c)
  {
    var t := OpenChannel(s, r, PairOf(s.requests[r].call));
    OpenedFits(s, r);
    forall c {:trigger ChannelFits(t, c)} | c in t.channels ensures ChannelFits(t, c) {
      if c != r { OpenOther(s, r, c); }
    }
  }

  lemma OpenDocuments(s: System, r: Id)
    requires Inv(s) && r in s.requests && s.requests[r].call.Open? && s.requests[r].pc.OpenInsert?
    requires !PairTaken(s, PairOf(s.requests[r].call))
    requires OneStep(s, OpenChannel(s, r, PairOf(s.requests[r].call)), r) && r !in s.channels
    ensures DocumentsFit(OpenChannel(s, r, PairOf(s.requests[r].call)))
  {
    var t := OpenChannel(s, r, PairOf(s.requests[r].call));
    OpenChannels(s, r);
    KeepDocuments(s, t, r);
  }

  lemma OpenChannelKeeps(s: System, r: Id)
    requires Inv(s) && r in s.requests && s.requests[r].call.Open? && s.requests[r].pc.OpenInsert?
    requires !PairTaken(s, PairOf(s.requests[r].call))
    ensures var t := OpenChannel(s, r, PairOf(s.requests[r].call)); Kept(s, t, r)
  {
    var t := OpenChannel(s, r, PairOf(s.requests[r].call));
    OpenEvolves(s, r);
    OpenDocuments(s, r);
    OpenedFits(s, r);
    KeepOutbox(s, t, r);
    KeepTakers(s, t, r);
    KeepCursors(s, t, r);
    KeepRequests(s, t, r);
  }
}
