/** What holds of every reachable state of the service: sequences and idempotence. */
module ChatTheorems {
  import opened Schema
  import opened Counting
  import opened ChatSystem
  import opened ChatInvariant
  import opened ChatStability
  import opened ChatStepsEarly
  import opened ChatReach

  function InChannel(s: System, c: Id): set<Id> {
    set m | m in s.messages && s.messages[m].channelId == c
  }

  function Sequences(s: System, c: Id): set<int> {
    set m | m in s.messages && s.messages[m].channelId == c :: s.messages[m].sequence
  }

  /** The unique index on (channel, sender, client id). */
  lemma KeyDetermines(s: System, m: Id, n: Id)
    requires Inv(s) && m in s.messages && n in s.messages
    requires HasKey(s.messages[n], s.messages[m].channelId, s.messages[m].senderId, s.messages[m].clientId)
    ensures m == n
  {
  }

  // ---------- sequences ----------

  /** A channel that is active has been so all along; its stored sequences are exactly 1 to n,
      and the k-th message ever inserted in it has sequence k. */
  lemma GapFree(s: System, c: Id)
    requires IsReachable(s)
    requires Active(s, c)
    ensures var h := History(s.born, c);
            && Elements(h) == InChannel(s, c) && |InChannel(s, c)| == |h|
            && (forall k | 0 <= k < |h| :: h[k] in s.messages && s.messages[h[k]].sequence == k + 1)
            && (forall n :: n in Sequences(s, c) <==> 1 <= n <= |h|)
  {
    ReachableFits(s);
    ActiveChannel(s, c);
    var h := History(s.born, c);
    DistinctSize(h);
    forall n ensures n in Sequences(s, c) <==> 1 <= n <= |h| {
      if 1 <= n <= |h| { assert h[n - 1] in InChannel(s, c); }
    }
  }

  lemma ActiveChannel(s: System, c: Id)
    requires Inv(s) && Active(s, c)
    ensures c in s.born && Distinct(s.born[c]) && Elements(s.born[c]) == InChannel(s, c)
    ensures forall k | 0 <= k < |s.born[c]| ::
              s.born[c][k] in s.messages && s.messages[s.born[c][k]].channelId == c
              && s.messages[s.born[c][k]].sequence == k + 1
    ensures forall m | m in InChannel(s, c) ::
              1 <= s.messages[m].sequence <= |s.born[c]| && s.born[c][s.messages[m].sequence - 1] == m
  {
    assert ChannelFits(s, c);
    assert History(s.born, c) == s.born[c];
    forall m | m in InChannel(s, c)
      ensures 1 <= s.messages[m].sequence <= |s.born[c]| && s.born[c][s.messages[m].sequence - 1] == m
    {
      ActiveSequence(s, m);
    }
  }

  /** Later inserts go behind earlier ones: once stored in a channel that stays active, a
      message keeps its place, and every newcomer has a larger sequence. */
  lemma NewcomersFollow(s: System, t: System, c: Id, m: Id, n: Id)
    requires Later(s, t)
    requires && Active(t, c) && m in InChannel(s, c)
             && n in InChannel(t, c) && n !in s.messages
    ensures && m in t.messages && SameIdentity(s.messages[m], t.messages[m])
            && t.messages[m].sequence < t.messages[n].sequence
  {
    LaterFits(s, t);
    StoredSeen(s, m);
    assert MessageEvolves(s, t, m);
    assert ChannelEvolves(s.channels[c], t.channels[c]);
    ActiveSequence(s, m);
    BornBehind(s, t, c, n);
  }

  lemma BornBehind(s: System, t: System, c: Id, n: Id)
    requires Inv(t) && Evolves(s, t) && Active(t, c) && n in InChannel(t, c) && n !in s.messages
    ensures t.messages[n].sequence > |History(s.born, c)|
  {
    ActiveChannel(t, c);
    var k :| |History(s.born, c)| <= k < |History(t.born, c)| && History(t.born, c)[k] == n;
  }

  // ---------- idempotent creation ----------

  ghost predicate Answered(s: System, r: Id, created: bool) {
    && r in s.requests && s.requests[r].pc.Done?
    && s.requests[r].pc.outcome.Posted? && s.requests[r].pc.outcome.created == created
  }

  ghost predicate SameKey(a: Call, b: Call) {
    a.Post? && b.Post? && a.channel == b.channel && a.actor == b.actor && a.clientId == b.clientId
  }

  lemma AnsweredFits(s: System, r: Id, created: bool)
    requires Inv(s) && Answered(s, r, created)
    ensures var q := s.requests[r];
            q.call.Post? && PostedFits(s, r, q.call, q.pc.outcome.message, created)
            && (created ==> r in s.outbox)
  {
    assert RequestFits(s, r);
  }

  /** At most one call per (channel, sender, client id) is told that it created the message. */
  lemma OneCreator(s: System, p: Id, q: Id)
    requires IsReachable(s)
    requires Answered(s, p, true) && Answered(s, q, true) && SameKey(s.requests[p].call, s.requests[q].call)
    ensures p == q
  {
    ReachableFits(s);
    AnsweredFits(s, p, true);
    AnsweredFits(s, q, true);
    SeenIdentity(s, s.requests[p].pc.outcome.message);
    SeenIdentity(s, s.requests[q].pc.outcome.message);
    KeyDetermines(s, p, q);
  }

  /** In an active channel all successful calls with one key answer with one message, and it
      has the request hash of every one of them. */
  lemma OneAnswer(s: System, p: Id, q: Id, a: bool, b: bool)
    requires IsReachable(s)
    requires && Answered(s, p, a) && Answered(s, q, b) && SameKey(s.requests[p].call, s.requests[q].call)
             && Active(s, s.requests[p].call.channel)
    ensures var m, n := s.requests[p].pc.outcome.message, s.requests[q].pc.outcome.message;
            && m.id == n.id && m.id in s.messages
            && s.requests[p].call.hash == s.requests[q].call.hash == s.messages[m.id].hash
  {
    ReachableFits(s);
    AnsweredFits(s, p, a);
    AnsweredFits(s, q, b);
    var m, n := s.requests[p].pc.outcome.message, s.requests[q].pc.outcome.message;
    SeenIdentity(s, m);
    SeenIdentity(s, n);
    KeyDetermines(s, m.id, n.id);
  }

  /** Once a message with a key is stored, a call with that key succeeds only with the
      message's request hash, as long as the channel stays active. */
  lemma OnlyItsHashSucceeds(s: System, t: System, m: Id, r: Id, created: bool)
    requires Later(s, t)
    requires && m in s.messages && Active(t, s.messages[m].channelId)
             && Answered(t, r, created) && t.requests[r].call.Post?
             && HasKey(s.messages[m], t.requests[r].call.channel, t.requests[r].call.actor, t.requests[r].call.clientId)
    ensures t.requests[r].call.hash == s.messages[m].hash && t.requests[r].pc.outcome.message.id == m
  {
    LaterFits(s, t);
    assert MessageEvolves(s, t, m);
    AnsweredFits(t, r, created);
    var n := t.requests[r].pc.outcome.message;
    SeenIdentity(t, n);
    KeyDetermines(t, m, n.id);
  }

  /** At most one created event exists per (channel, sender, client id). */
  lemma OneCreatedEvent(s: System, e: Id, f: Id)
    requires IsReachable(s)
    requires && e in s.outbox && f in s.outbox
             && s.outbox[e].event.eventType == s.outbox[f].event.eventType == MessageCreated
             && s.outbox[e].event.body.MessageBody? && s.outbox[f].event.body.MessageBody?
             && var p, q := s.outbox[e].event.body.message, s.outbox[f].event.body.message;
             && p.channelId == q.channelId && p.senderId == q.senderId && p.clientId == q.clientId
    ensures e == f
  {
    ReachableFits(s);
    CreatedEvent(s, e);
    CreatedEvent(s, f);
    KeyDetermines(s, e, f);
  }

  /** A created event belongs to the post that stored the message, which is stored for good. */
  lemma CreatedEvent(s: System, e: Id)
    requires Inv(s) && e in s.outbox
    requires s.outbox[e].event.eventType == MessageCreated && s.outbox[e].event.body.MessageBody?
    ensures var p := s.outbox[e].event.body.message;
            && p.id == e && e in s.messages && s.messages[e].channelId == p.channelId
            && s.messages[e].senderId == p.senderId && s.messages[e].clientId == p.clientId
  {
    assert OutboxFits(s, e);
    var p := s.outbox[e].event.body.message;
    var m := History(s.revisions, p.id)[p.revision - 1].message;
    assert RevisionsFit(s, p.id);
    assert RevisionFits(s, p.id, p.revision - 1);
    AnsweredFits(s, e, true);
    SeenIdentity(s, m);
  }
}
