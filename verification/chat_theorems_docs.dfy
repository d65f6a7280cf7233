/** The same: revisions, cursors, replies and channels. */
module ChatTheoremsDocs {
  import opened Schema
  import opened Counting
  import opened ChatSystem
  import opened ChatInvariant
  import opened ChatStability
  import opened ChatStepsEarly
  import opened ChatReach
  import opened ChatTheorems

  // ---------- revisions ----------

  /** Mutations of message `m` whose compare-and-swap went through. */
  function Successes(s: System, m: Id): set<Id> {
    set r | r in s.requests && s.requests[r].call.Mutate? && s.requests[r].call.target == m && s.requests[r].base > 0
  }

  /** A stored message's revision is one more than the number of successful mutations of it. */
  lemma RevisionCounts(s: System, m: Id)
    requires IsReachable(s)
    requires m in s.messages
    ensures s.messages[m].revision == 1 + |Successes(s, m)|
  {
    ReachableFits(s);
    StoredSeen(s, m);
    var w := seq(|s.revisions[m]| - 1, k requires 0 <= k < |s.revisions[m]| - 1 => s.revisions[m][k + 1].writer);
    forall r ensures r in Elements(w) <==> r in Successes(s, m) {
      if r in Elements(w) {
        var k :| 0 <= k < |w| && w[k] == r;
        WriterFacts(s, m, k + 1);
      }
      if r in Successes(s, m) {
        SuccessWrote(s, m, r);
        assert w[s.requests[r].base - 2] == r;
      }
    }
    forall i, j | 0 <= i < j < |w| ensures w[i] != w[j] {
      WriterFacts(s, m, i + 1);
      WriterFacts(s, m, j + 1);
    }
    DistinctSize(w);
    assert Elements(w) == Successes(s, m);
  }

  lemma WriterFacts(s: System, m: Id, k: nat)
    requires Inv(s) && m in s.revisions && 0 < k < |s.revisions[m]|
    ensures var r := s.revisions[m][k].writer; r in Successes(s, m) && s.requests[r].base == k + 1
  {
    assert RevisionsFit(s, m);
    assert RevisionFits(s, m, k);
  }

  lemma SuccessWrote(s: System, m: Id, r: Id)
    requires Inv(s) && r in Successes(s, m)
    ensures var n := s.requests[r].base;
            n > 1 && m in s.revisions && n <= |s.revisions[m]| && s.revisions[m][n - 1].writer == r
  {
    assert RequestFits(s, r);
  }

  /** Of all mutations that saw one revision of a message, at most one goes through. */
  lemma OneWinner(s: System, m: Id, p: Id, q: Id)
    requires IsReachable(s)
    requires p in Successes(s, m) && q in Successes(s, m) && s.requests[p].base == s.requests[q].base
    ensures p == q
  {
    ReachableFits(s);
    SuccessWrote(s, m, p);
    SuccessWrote(s, m, q);
    var v := s.revisions[m][s.requests[p].base - 1];
    assert v.writer == p;
    assert v.writer == q;
  }

  ghost predicate TellsOf(s: System, e: Id, m: Id, revision: int) {
    && e in s.outbox && s.outbox[e].event.body.MessageBody?
    && s.outbox[e].event.body.message.id == m && s.outbox[e].event.body.message.revision == revision
  }

  /** Each revision of a message has at most one event. */
  lemma OneEventPerRevision(s: System, m: Id, revision: int, e: Id, f: Id)
    requires IsReachable(s)
    requires TellsOf(s, e, m, revision) && TellsOf(s, f, m, revision)
    ensures e == f
  {
    ReachableFits(s);
    assert OutboxFits(s, e);
    assert OutboxFits(s, f);
  }

  /** The event of the stored revision says exactly what is stored. */
  lemma EventMatchesStored(s: System, m: Id, e: Id)
    requires IsReachable(s)
    requires m in s.messages && TellsOf(s, e, m, s.messages[m].revision)
    ensures var p, stored := s.outbox[e].event.body.message, s.messages[m];
            && p.id == stored.id == m && p.channelId == stored.channelId && p.senderId == stored.senderId
            && p.kind == stored.kind && p.clientId == stored.clientId && p.contentType == stored.contentType
            && p.content == stored.content && p.sequence == stored.sequence && p.replyTo == stored.replyTo
            && p.revision == stored.revision && p.recalledAt == stored.recalledAt
    ensures var stored := s.messages[m];
            && s.outbox[e].event.channelId == stored.channelId
            && s.outbox[e].event.eventType == if stored.revision == 1 then MessageCreated
                                              else if stored.recalledAt.Some? then MessageRecalled else MessageUpdated
  {
    ReachableFits(s);
    StoredSeen(s, m);
    assert OutboxFits(s, e);
  }

  /** A recalled message is empty and never changes again. */
  lemma RecalledIsFrozen(s: System, t: System, m: Id)
    requires Later(s, t)
    requires m in s.messages && s.messages[m].recalledAt.Some?
    ensures s.messages[m].content == "" && (m in t.messages ==> t.messages[m] == s.messages[m])
  {
    LaterFits(s, t);
    StoredLast(s, m);
    RecalledLast(s, m, |s.revisions[m]|);
    assert History(s.revisions, m) <= History(t.revisions, m);
    if m in t.messages {
      StoredLast(t, m);
      RecalledLast(t, m, |s.revisions[m]|);
    }
  }

  lemma StoredLast(s: System, m: Id)
    requires Inv(s) && m in s.messages
    ensures m in s.revisions && |s.revisions[m]| > 0 && s.messages[m] == s.revisions[m][|s.revisions[m]| - 1].message
  {
    assert MessageFits(s, m);
  }

  /** A recalled revision is empty, and the last. */
  lemma RecalledLast(s: System, m: Id, n: nat)
    requires Inv(s) && m in s.revisions && 1 <= n <= |s.revisions[m]| && s.revisions[m][n - 1].message.recalledAt.Some?
    ensures n == |s.revisions[m]| && s.revisions[m][n - 1].message.content == ""
  {
    assert RevisionsFit(s, m);
    assert RevisionFits(s, m, n - 1);
  }

  /** A message's revision never goes back, and its identity never changes. */
  lemma RevisionAdvances(s: System, t: System, m: Id)
    requires Later(s, t)
    requires m in s.messages && m in t.messages
    ensures s.messages[m].revision <= t.messages[m].revision && SameIdentity(s.messages[m], t.messages[m])
  {
    LaterFits(s, t);
    StoredSeen(s, m);
    StoredSeen(t, m);
    assert History(s.revisions, m) <= History(t.revisions, m);
    assert MessageEvolves(s, t, m);
  }

  // ---------- read cursors ----------

  /** A cursor never goes back and never passes the channel's last message. */
  lemma CursorAdvances(s: System, t: System, c: Id, user: string)
    requires Later(s, t)
    requires (c, user) in s.states
    ensures && (c, user) in t.states && c in t.channels && IsParticipant(t.channels[c], user)
            && 0 <= s.states[(c, user)] <= t.states[(c, user)] <= t.channels[c].lastMessageSeq
  {
    LaterFits(s, t);
    CursorSign(s, (c, user));
    assert CursorFits(t, (c, user));
  }

  function CursorEvents(s: System, c: Id, user: string): set<Id> {
    set e | e in s.outbox && s.outbox[e].event.channelId == c
            && s.outbox[e].event.body.CursorBody? && s.outbox[e].event.body.user == user
  }

  /** Each write raises the cursor, so a user has at most one read event more than the channel
      has messages; not even that one if every request asks for position 1 or beyond, which is
      what the API lets through. */
  lemma CursorEventsBounded(s: System, c: Id, user: string)
    requires IsReachable(s)
    requires c in s.channels
    ensures && |CursorEvents(s, c, user)| <= s.channels[c].lastMessageSeq + 1
            && ((forall r | r in s.requests && s.requests[r].call.Read? :: s.requests[r].call.position >= 1) ==>
                  |CursorEvents(s, c, user)| <= s.channels[c].lastMessageSeq)
  {
    ReachableFits(s);
    var key := (c, user);
    var h := History(s.advances, key);
    var writers := seq(|h|, k requires 0 <= k < |h| => h[k].writer);
    var positions := seq(|h|, k requires 0 <= k < |h| => h[k].position);
    forall e | e in CursorEvents(s, c, user) ensures e in Elements(writers) {
      assert OutboxFits(s, e);
      var k :| 0 <= k < |h| && h[k].writer == e;
      assert writers[k] == e;
    }
    SubsetSize(CursorEvents(s, c, user), Elements(writers));
    ElementsBound(writers);
    SummaryBound(s, c);
    if |h| > 0 {
      assert CursorFits(s, key);
      assert AdvanceFits(s, key, h[0]);
      IncreasingBound(positions, positions[0]);
    }
  }

  /** A read whose cursor existed before it started answers at least what it asked for. */
  lemma ReadReachesRequest(s: System, t: System, r: Id)
    requires Later(s, t)
    requires && r !in s.requests && r in t.requests && t.requests[r].call.Read?
             && CursorKey(t.requests[r].call) in s.states
             && t.requests[r].pc.Done? && t.requests[r].pc.outcome.CursorAt?
    ensures var call := t.requests[r].call;
            && call.position <= t.requests[r].pc.outcome.lastRead
            && CursorKey(call) in t.states && t.requests[r].pc.outcome.lastRead <= t.states[CursorKey(call)]
  {
    LaterFits(s, t);
    assert CursorNoted(s, t, r);
    assert RequestFits(t, r);
  }

  // ---------- reply links ----------

  /** Following reply links in an active channel: each link leads to a stored message of the
      same channel with a smaller sequence, so the chain ends. */
  ghost function ReplyChain(s: System, m: Id): (chain: seq<Id>)
    requires IsReachable(s) && m in s.messages && Active(s, s.messages[m].channelId)
    ensures |chain| >= 1 && chain[0] == m && |chain| <= s.messages[m].sequence
    ensures forall i | i in chain ::
              i in s.messages && s.messages[i].channelId == s.messages[m].channelId
    ensures s.messages[chain[|chain| - 1]].replyTo == 0
    decreases s.messages[m].sequence
  {
    ReachableLink(s, m);
    if s.messages[m].replyTo == 0 then [m] else [m] + ReplyChain(s, s.messages[m].replyTo)
  }

  /** The link of one message. An AI message answers a message a person sent, and not the
      person it speaks for. */
  lemma ReachableLink(s: System, m: Id)
    requires IsReachable(s) && m in s.messages && Active(s, s.messages[m].channelId)
    ensures 1 <= s.messages[m].sequence
    ensures s.messages[m].replyTo != 0 ==>
              && s.messages[m].replyTo in s.messages
              && s.messages[s.messages[m].replyTo].channelId == s.messages[m].channelId
              && s.messages[s.messages[m].replyTo].sequence < s.messages[m].sequence
    ensures s.messages[m].kind.AI? ==>
              && s.messages[m].replyTo != 0
              && s.messages[s.messages[m].replyTo].kind.User?
              && s.messages[s.messages[m].replyTo].senderId != s.messages[m].senderId
  {
    ReachableFits(s);
    StoredSeen(s, m);
    assert RevisionsFit(s, m);
    assert MessageFits(s, m);
    ActiveSequence(s, m);
    var call := s.requests[m].call;
    if call.replyTo.Some? {
      var target := call.replyTo.value;
      assert target in s.messages;
      StoredSeen(s, target);
      assert RevisionsFit(s, target);
      assert target != 0;
    }
  }

  // ---------- direct channels ----------

  /** Whoever opens a channel for the same two users, in either order and at the same time,
      gets the same channel, which is theirs alone. */
  lemma OneChannelPerPair(s: System, p: Id, q: Id)
    requires IsReachable(s)
    requires && p in s.requests && s.requests[p].pc.Done? && s.requests[p].pc.outcome.Opened?
             && q in s.requests && s.requests[q].pc.Done? && s.requests[q].pc.outcome.Opened?
    ensures var a, b := s.requests[p].call, s.requests[q].call;
            var c, d := s.requests[p].pc.outcome.channel, s.requests[q].pc.outcome.channel;
            && a.Open? && b.Open? && c in s.channels
            && Precedes(s.channels[c].participants.0, s.channels[c].participants.1)
            && {s.channels[c].participants.0, s.channels[c].participants.1} == {a.actor, a.peer}
            && (c == d <==> {a.actor, a.peer} == {b.actor, b.peer})
  {
    ReachableFits(s);
    OpenedFacts(s, p);
    OpenedFacts(s, q);
    var a, b := s.requests[p].call, s.requests[q].call;
    CanonicalPair(a.actor, a.peer);
    if {a.actor, a.peer} == {b.actor, b.peer} {
      assert b.actor in {a.actor, a.peer} && b.peer in {a.actor, a.peer};
      CanonicalPair(a.peer, a.actor);
    }
  }

  lemma OpenedFacts(s: System, r: Id)
    requires Inv(s) && r in s.requests && s.requests[r].pc.Done? && s.requests[r].pc.outcome.Opened?
    ensures var call := s.requests[r].call;
            var c := s.requests[r].pc.outcome.channel;
            && call.Open? && c in s.channels && call.actor != call.peer
            && s.channels[c].participants == s.channels[c].directKey == Canonical(call.actor, call.peer)
  {
    assert RequestFits(s, r);
    assert ChannelFits(s, s.requests[r].pc.outcome.channel);
  }

  /** Only the two participants ever store messages in a channel. */
  lemma SendersAreParticipants(s: System, m: Id)
    requires IsReachable(s)
    requires m in s.messages
    ensures s.messages[m].channelId in s.channels
            && IsParticipant(s.channels[s.messages[m].channelId], s.messages[m].senderId)
  {
    ReachableFits(s);
    StoredSeen(s, m);
    assert RevisionsFit(s, m);
  }
}
