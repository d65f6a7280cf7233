/** The same: retry budget, event versions and summaries. */
module ChatTheoremsMore {
  import opened Schema
  import opened Counting
  import opened ChatSystem
  import opened ChatInvariant
  import opened ChatStability
  import opened ChatStepsEarly
  import opened ChatReach
  import opened ChatTheorems

  // ---------- the retry budget ----------

  /** A post that falls out of its 64 attempts has been overtaken by at least 64 different
      messages inserted in its channel after it started, none of them its own. */
  lemma RetryBudget(s: System, t: System, r: Id)
    requires Later(s, t)
    requires && r !in s.requests
             && r in t.requests && t.requests[r].call.Post?
             && t.requests[r].pc == Done(Failed(Conflict(RetriesExhausted)))
    ensures var before, after := History(s.born, t.requests[r].call.channel), History(t.born, t.requests[r].call.channel);
            && before <= after && |after| - |before| >= 64
            && Distinct(after) && r !in after
            && (forall k | |before| <= k < |after| :: after[k] !in s.messages)
  {
    LaterFits(s, t);
    var c := t.requests[r].call.channel;
    assert History(s.born, c) <= History(t.born, c);
    OvertakenOften(s, t, r);
    BornOthers(t, c, r);
    forall k | |History(s.born, c)| <= k < |History(t.born, c)| ensures History(t.born, c)[k] !in s.messages {
      BornInChannel(s, t, c, k);
    }
  }

  lemma OvertakenOften(s: System, t: System, r: Id)
    requires Inv(t) && Evolves(s, t) && r !in s.requests && r in t.requests && t.requests[r].call.Post?
    requires t.requests[r].pc == Done(Failed(Conflict(RetriesExhausted)))
    ensures |History(t.born, t.requests[r].call.channel)| - |History(s.born, t.requests[r].call.channel)| >= 64
    ensures r !in t.revisions
  {
    assert RequestFits(t, r);
    assert StartedSince(s, t);
  }

  /** No post ever makes a 65th attempt. */
  lemma AttemptsBounded(s: System, r: Id)
    requires IsReachable(s) && r in s.requests && s.requests[r].call.Post?
    ensures var pc := s.requests[r].pc;
            pc.FindChannel? || pc.FindLatest? || pc.Insert? || pc.Recheck? ==> pc.attempt <= 63
  {
    ReachableFits(s);
    assert RequestFits(s, r);
  }

  lemma BornOthers(t: System, c: Id, r: Id)
    requires Inv(t) && r !in t.revisions
    ensures Distinct(History(t.born, c)) && r !in History(t.born, c)
  {
    if c in t.channels { assert ChannelFits(t, c); }
  }

  /** A message stored at `s` was inserted at a place `s` already knows. */
  lemma BornInChannel(s: System, t: System, c: Id, k: nat)
    requires Inv(s) && Inv(t) && Evolves(s, t)
    requires k < |History(t.born, c)|
    ensures History(t.born, c)[k] in s.messages ==> k < |History(s.born, c)|
  {
    var m := History(t.born, c)[k];
    if m in s.messages {
      StoredSeen(s, m);
      var d := s.messages[m].channelId;
      var i :| 0 <= i < |History(s.born, d)| && History(s.born, d)[i] == m;
      assert History(s.born, d) <= History(t.born, d);
      assert History(s.born, c) <= History(t.born, c);
      assert History(s.revisions, m) <= History(t.revisions, m);
      assert ChannelFits(t, c);
    }
  }

  // ---------- event versions ----------

  /** Requests that put an event of channel `c` in the outbox. */
  function Emitted(s: System, c: Id): set<Id> {
    set e | e in s.outbox && s.outbox[e].event.channelId == c
  }

  /** Requests that took a version of channel `c` and have not written its event: in flight
      when alive, lost for good when not. */
  function Holding(s: System, c: Id, alive: bool): set<Id> {
    set r | r in s.requests && s.requests[r].pc.Emit? && s.requests[r].pc.event.channelId == c
            && s.requests[r].alive == alive
  }

  /** A channel's version counter equals its outbox events plus the versions held by requests
      still running plus those lost with abandoned requests; every event has its own version,
      between 1 and the counter. */
  lemma VersionConservation(s: System, c: Id)
    requires IsReachable(s)
    requires c in s.channels
    ensures && s.channels[c].lastEventVersion == |Emitted(s, c)| + |Holding(s, c, true)| + |Holding(s, c, false)|
            && (forall e | e in Emitted(s, c) :: 1 <= s.outbox[e].event.version <= s.channels[c].lastEventVersion)
            && (forall e, f | e in Emitted(s, c) && f in Emitted(s, c)
                              && s.outbox[e].event.version == s.outbox[f].event.version :: e == f)
  {
    ReachableFits(s);
    VersionCount(s, c);
    forall e | e in Emitted(s, c)
      ensures 1 <= s.outbox[e].event.version <= |History(s.takers, c)|
              && History(s.takers, c)[s.outbox[e].event.version - 1] == e
    {
      assert OutboxFits(s, e);
    }
    assert ChannelFits(s, c);
  }

  lemma VersionCount(s: System, c: Id)
    requires Inv(s)
    ensures |History(s.takers, c)| == |Emitted(s, c)| + |Holding(s, c, true)| + |Holding(s, c, false)|
  {
    TakersDistinct(s, c);
    DistinctSize(History(s.takers, c));
    TakersSplit(s, c);
    DisjointSize(Emitted(s, c), Holding(s, c, true), Holding(s, c, false));
  }

  lemma TakersDistinct(s: System, c: Id)
    requires Inv(s)
    ensures Distinct(History(s.takers, c))
  {
    var h := History(s.takers, c);
    forall i, j | 0 <= i < j < |h| ensures h[i] != h[j] {
      assert TakerFits(s, c, i) && TakerFits(s, c, j);
      if h[i] in s.outbox { assert OutboxFits(s, h[i]); }
    }
  }

  lemma TakersSplit(s: System, c: Id)
    requires Inv(s)
    ensures Elements(History(s.takers, c)) == Emitted(s, c) + Holding(s, c, true) + Holding(s, c, false)
    ensures Emitted(s, c) !! Holding(s, c, true) !! Holding(s, c, false)
  {
    var h := History(s.takers, c);
    forall r ensures r in Elements(h) <==> r in Emitted(s, c) + Holding(s, c, true) + Holding(s, c, false) {
      if r in Elements(h) {
        var k :| 0 <= k < |h| && h[k] == r;
        assert TakerFits(s, c, k);
      }
      if r in Emitted(s, c) { assert OutboxFits(s, r); }
      if r in Holding(s, c, true) + Holding(s, c, false) { HolderTook(s, r); }
    }
    forall r | r in Emitted(s, c) ensures r !in Holding(s, c, true) + Holding(s, c, false) {
      assert OutboxFits(s, r);
    }
  }

  /** A request that holds an event took its version. */
  lemma HolderTook(s: System, r: Id)
    requires Inv(s) && r in s.requests && s.requests[r].pc.Emit?
    ensures EventFits(s, r, s.requests[r].pc.event)
  {
    assert RequestFits(s, r);
  }

  // ---------- the channel summary ----------

  /** The summary never points back, and always names the stored message with its sequence,
      whatever is rolled back or deactivated. */
  lemma SummaryAdvances(s: System, t: System, c: Id)
    requires Later(s, t)
    requires c in s.channels
    ensures && c in t.channels
            && 0 <= s.channels[c].lastMessageSeq <= t.channels[c].lastMessageSeq
            && s.channels[c].lastEventVersion <= t.channels[c].lastEventVersion
            && var ch := t.channels[c];
            && (ch.lastMessageSeq > 0 ==>
                  ch.lastMessageId in InChannel(t, c) && t.messages[ch.lastMessageId].sequence == ch.lastMessageSeq)
  {
    LaterFits(s, t);
    assert ChannelEvolves(s.channels[c], t.channels[c]);
    assert ChannelFits(s, c);
    assert ChannelFits(t, c);
  }

  /** Whoever is told that it created a message finds the summary at its sequence or beyond. */
  lemma CreatedIsSummarized(s: System, r: Id)
    requires IsReachable(s)
    requires Answered(s, r, true)
    ensures var m := s.requests[r].pc.outcome.message;
            && r in s.messages && SameIdentity(s.messages[r], m)
            && m.channelId in s.channels && m.sequence <= s.channels[m.channelId].lastMessageSeq
  {
    ReachableFits(s);
    AnsweredFits(s, r, true);
    SeenIdentity(s, s.requests[r].pc.outcome.message);
  }

  /** When no post is between its insert and its summary, or was abandoned there, the summary
      of an active channel is its number of messages. */
  lemma QuietSummary(s: System, c: Id)
    requires IsReachable(s)
    requires Active(s, c)
    requires forall r | r in s.requests && s.requests[r].pc.Summarize? :: s.requests[r].pc.message.channelId != c
    ensures s.channels[c].lastMessageSeq == |InChannel(s, c)|
  {
    ReachableFits(s);
    GapFree(s, c);
    assert ChannelFits(s, c);
    SummaryBound(s, c);
    var h := History(s.born, c);
    if |h| > 0 {
      var m := h[|h| - 1];
      if m in s.requests && s.requests[m].pc.Summarize? { SummarizedElsewhere(s, m); }
    }
  }

  lemma SummarizedElsewhere(s: System, m: Id)
    requires Inv(s) && m in s.messages && m in s.requests && s.requests[m].pc.Summarize?
    ensures s.requests[m].pc.message.channelId == s.messages[m].channelId
  {
    assert RequestFits(s, m);
    StoredSeen(s, m);
    if s.requests[m].call.Post? { SeenIdentity(s, s.requests[m].pc.message); }
  }
}
