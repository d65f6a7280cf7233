/** What a consumer of the Kafka topic may believe. */
module Delivery {
  import opened Schema
  import opened Runs
  import Chat = ChatSystem
  import ChatInvariant
  import ChatReach
  import ChatStability
  import ChatTheorems
  import ChatTheoremsMore
  import ChatTheoremsDocs
  import ChatAnswers
  import ChatFrame
  import OutboxHeads
  import RelaySystem
  import RelayLease
  import RelayInvariant
  import RelayReach
  import RelayTheorems

  /** The outbox collection is shared: the service only inserts, the relays only mark. */
  datatype Whole = Whole(chat: Chat.System, relay: RelaySystem.World)

  /** A step of the service, or one of a relay, of Kafka or of time. */
  datatype Action = Serve(chat: Chat.Action) | Forward(relay: RelaySystem.Action)

  function Start(lease: nat): Whole {
    Whole(Chat.Empty(), RelaySystem.Initial(lease))
  }

  /** An event the service inserts enters the relays' outbox in the same step. */
  function Next(z: Whole, a: Action): Whole {
    match a
    case Serve(c) =>
      var chat := Chat.Next(z.chat, c);
      if c.Act? && c.r in chat.outbox && c.r !in z.chat.outbox
      then Whole(chat, RelaySystem.Next(z.relay, RelaySystem.Enqueue(c.r, chat.outbox[c.r])))
      else Whole(chat, z.relay)
    case Forward(r) => if r.Enqueue? then z else Whole(z.chat, RelaySystem.Next(z.relay, r))
  }

  function Run(z: Whole, run: seq<Action>): Whole {
    After(Next, z, run)
  }

  /** The relays work on exactly the events the service put in the outbox. */
  ghost predicate Linked(z: Whole) {
    && ChatReach.IsReachable(z.chat) && RelayLease.Reached(z.relay)
    && z.relay.rows.Keys == z.chat.outbox.Keys
    && forall e | e in z.chat.outbox :: z.relay.rows[e].doc == z.chat.outbox[e]
  }

  lemma ChatMoves(s: Chat.System, c: Chat.Action)
    requires ChatReach.IsReachable(s)
    ensures ChatReach.IsReachable(Chat.Next(s, c))
  {
    ChatReach.LaterSelf(s);
    ChatReach.LaterNext(s, s, c);
    ChatReach.LaterFits(s, Chat.Next(s, c));
  }

  lemma OutboxId(s: Chat.System, e: Id)
    requires ChatReach.IsReachable(s) && e in s.outbox
    ensures e != 0 && e in s.requests && s.requests[e].pc.Done?
  {
    ChatReach.ReachableFits(s);
    assert ChatInvariant.OutboxFits(s, e);
  }

  /** A step of the service leaves the events in the outbox alone, and adds at most its own. */
  lemma OutboxGrows(s: Chat.System, c: Chat.Action)
    requires ChatReach.IsReachable(s)
    ensures forall e | e in s.outbox :: e in Chat.Next(s, c).outbox && Chat.Next(s, c).outbox[e] == s.outbox[e]
    ensures forall e | e in Chat.Next(s, c).outbox && e !in s.outbox :: c.Act? && c.r == e
  {
    ChatReach.ReachableFits(s);
    ChatReach.NextKeeps(s, c);
    assert !c.Act? ==> Chat.Next(s, c).outbox == s.outbox;
  }

  lemma ServeLinks(z: Whole, c: Chat.Action)
    requires Linked(z)
    ensures Linked(Next(z, Serve(c)))
  {
    var y := Next(z, Serve(c));
    ChatMoves(z.chat, c);
    OutboxGrows(z.chat, c);
    if c.Act? && c.r in y.chat.outbox && c.r !in z.chat.outbox {
      OutboxId(y.chat, c.r);
      RelayLease.ReachedNext(z.relay, RelaySystem.Enqueue(c.r, y.chat.outbox[c.r]));
    }
  }

  /** What the service puts in the outbox is pending, due from the time it was written, and has
      spent no attempt. */
  lemma NewEventIsDue(z: Whole, c: Chat.Action, e: Id)
    requires Linked(z) && e in Next(z, Serve(c)).relay.rows && e !in z.relay.rows
    ensures c.Act? && c.r == e
    ensures var row := Next(z, Serve(c)).relay.rows[e];
            && row.id == e && row.status.Pending? && row.attempts == 0
            && row.nextAttemptAt == row.doc.createdAt && row.doc.partitionKey == row.doc.event.channelId
            && row.doc == Next(z, Serve(c)).chat.outbox[e]
  {
    ServeLinks(z, c);
    EventIsTrue(Next(z, Serve(c)).chat, e);
  }

  lemma ForwardLinks(z: Whole, r: RelaySystem.Action)
    requires Linked(z)
    ensures Linked(Next(z, Forward(r)))
  {
    if !r.Enqueue? {
      var u := RelaySystem.Next(z.relay, r);
      RelayLease.ReachedNext(z.relay, r);
      RelayReach.LaterSelf(z.relay);
      RelayReach.LaterNext(z.relay, z.relay, r);
      RelayReach.LaterFits(z.relay, u);
      NoNewRows(z.relay, r);
      assert forall e | e in z.relay.rows :: RelayInvariant.RowEvolves(z.relay.rows[e], u.rows[e]);
    }
  }

  /** Relays never insert events. */
  lemma NoNewRows(w: RelaySystem.World, r: RelaySystem.Action)
    requires !r.Enqueue?
    ensures RelaySystem.Next(w, r).rows.Keys <= w.rows.Keys
  {
  }

  lemma {:induction false} LaterWhole(z: Whole, run: seq<Action>)
    requires Linked(z)
    ensures Linked(Run(z, run)) && ChatReach.Later(z.chat, Run(z, run).chat)
    decreases |run|
  {
    if run == [] {
      ChatReach.LaterSelf(z.chat);
    } else {
      var y := Run(z, run[..|run| - 1]);
      LaterWhole(z, run[..|run| - 1]);
      match run[|run| - 1]
      case Serve(c) =>
        ServeLinks(y, c);
        ChatReach.LaterNext(z.chat, y.chat, c);
      case Forward(r) => ForwardLinks(y, r);
    }
  }

  lemma AlwaysLinked(lease: nat, run: seq<Action>)
    requires lease > 0
    ensures Linked(Run(Start(lease), run))
  {
    ChatReach.RunReaches([]);
    RelayLease.RunReaches(lease, []);
    LaterWhole(Start(lease), run);
  }

  // ---------- what the topic says ----------

  /** The payload says of every field what some revision of the message held. */
  predicate WasStored(s: Chat.System, p: Payload) {
    var h := Chat.History(s.revisions, p.id);
    1 <= p.revision <= |h| && Says(p, h[p.revision - 1].message)
  }

  /** The event says what some revision of the message said, or a position the cursor reached. */
  ghost predicate TellsTruth(s: Chat.System, ev: Event) {
    match ev.body
    case MessageBody(p) =>
      && p.channelId == ev.channelId && WasStored(s, p)
      && ev.eventType == if p.revision == 1 then MessageCreated
                         else if p.recalledAt.Some? then MessageRecalled else MessageUpdated
    case CursorBody(user, lastRead) =>
      && ev.eventType == ReadCursorAdvanced && (ev.channelId, user) in s.states
      && lastRead <= s.states[(ev.channelId, user)]
  }

  /** Every record of the log is an event of the service's outbox, keyed by its channel, with a
      version the channel has given out, and it says what the service stored. */
  lemma RecordIsTrue(z: Whole, k: nat)
    requires Linked(z) && k < |z.relay.log|
    ensures var rec := z.relay.log[k];
            && rec.event.eventId in z.chat.outbox && z.chat.outbox[rec.event.eventId].event == rec.event
            && rec.row.id == rec.event.eventId && rec.key == rec.event.channelId && rec.key in z.chat.channels
            && 1 <= rec.event.version <= z.chat.channels[rec.key].lastEventVersion
            && rec.event.participants == z.chat.channels[rec.key].participants
            && TellsTruth(z.chat, rec.event)
  {
    RelayReach.LogIsOutbox(z.relay, k);
    EventIsTrue(z.chat, z.relay.log[k].row.id);
  }

  lemma EventIsTrue(s: Chat.System, e: Id)
    requires ChatReach.IsReachable(s) && e in s.outbox
    ensures var ev := s.outbox[e].event;
            && ev.eventId == e && s.outbox[e].partitionKey == ev.channelId && ev.channelId in s.channels
            && 1 <= ev.version <= s.channels[ev.channelId].lastEventVersion
            && ev.participants == s.channels[ev.channelId].participants && TellsTruth(s, ev)
  {
    ChatReach.ReachableFits(s);
    assert ChatInvariant.OutboxFits(s, e);
    assert ChatInvariant.ChannelFits(s, s.outbox[e].event.channelId);
  }

  /** Records with one channel and one version are copies of one event, so a consumer that drops
      repeated versions, or repeated event ids, loses nothing. */
  lemma CopiesAgree(z: Whole, i: nat, j: nat)
    requires Linked(z) && i < |z.relay.log| && j < |z.relay.log|
    ensures var p, q := z.relay.log[i], z.relay.log[j];
            (p.key == q.key && p.event.version == q.event.version) <==> p.event.eventId == q.event.eventId
    ensures z.relay.log[i].event.eventId == z.relay.log[j].event.eventId ==> z.relay.log[i].event == z.relay.log[j].event
  {
    RecordIsTrue(z, i);
    RecordIsTrue(z, j);
    var p, q := z.relay.log[i], z.relay.log[j];
    if p.key == q.key {
      ChatTheoremsMore.VersionConservation(z.chat, p.key);
      assert p.event.eventId in ChatTheoremsMore.Emitted(z.chat, p.key);
      assert q.event.eventId in ChatTheoremsMore.Emitted(z.chat, p.key);
    }
  }

  /** Records about one revision of a message are copies of one event too. */
  lemma RevisionsAgree(z: Whole, i: nat, j: nat)
    requires Linked(z) && i < |z.relay.log| && j < |z.relay.log|
    requires z.relay.log[i].event.body.MessageBody? && z.relay.log[j].event.body.MessageBody?
    requires var p, q := z.relay.log[i].event.body.message, z.relay.log[j].event.body.message;
             p.id == q.id && p.revision == q.revision
    ensures z.relay.log[i].event == z.relay.log[j].event
  {
    RecordIsTrue(z, i);
    RecordIsTrue(z, j);
    var p, q := z.relay.log[i].event, z.relay.log[j].event;
    ChatTheoremsDocs.OneEventPerRevision(z.chat, p.body.message.id, p.body.message.revision, p.eventId, q.eventId);
  }

  /** A message whose creation was acknowledged is announced: its created event waits in the
      outbox, or was parked, or is in the log with the acknowledged content. */
  lemma AcknowledgedIsAnnounced(z: Whole, r: Id)
    requires Linked(z) && ChatTheorems.Answered(z.chat, r, true)
    ensures r in z.relay.rows
    ensures z.relay.rows[r].status.Published? ==>
              exists k :: 0 <= k < |z.relay.log| && z.relay.log[k].event.eventType == MessageCreated
                          && z.relay.log[k].event.body.MessageBody?
                          && Says(z.relay.log[k].event.body.message, z.chat.requests[r].pc.outcome.message)
                          && z.chat.requests[r].call.Post?
                          && z.relay.log[k].event.body.message.contentType == z.chat.requests[r].call.contentType
                          && z.relay.log[k].event.body.message.content == z.chat.requests[r].call.content
  {
    ChatAnswers.PostedMeans(z.chat, r, true);
    if z.relay.rows[r].status.Published? {
      RelayReach.LaterSelf(z.relay);
      RelayReach.PublishedIsLogged(z.relay, z.relay, r);
    }
  }
}
