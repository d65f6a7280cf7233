/** What an answer tells its caller. */
module ChatAnswers {
  import opened Schema
  import opened ChatSystem
  import opened ChatInvariant
  import opened ChatStability
  import opened ChatStepsEarly
  import opened ChatReach
  import opened ChatTheorems
  import opened ChatTheoremsDocs

  /** The outbox holds the created event of message `m`, keyed by its channel. */
  ghost predicate Announced(s: System, m: Message) {
    && m.id in s.outbox && s.outbox[m.id].partitionKey == m.channelId
    && s.outbox[m.id].event.eventType == MessageCreated && s.outbox[m.id].event.channelId == m.channelId
    && s.outbox[m.id].event.body.MessageBody? && Says(s.outbox[m.id].event.body.message, m)
  }

  /** The message holds what post `r` asked for, field by field. */
  predicate AsAsked(m: Message, r: Id, call: Call)
    requires call.Post?
  {
    && m.id == r && m.channelId == call.channel && m.senderId == call.actor && (m.kind.AI? <==> call.ai)
    && m.clientId == call.clientId && m.hash == call.hash
    && m.contentType == call.contentType && m.content == call.content
    && m.replyTo == (if call.replyTo.Some? then call.replyTo.value else 0)
    && m.revision == 1 && m.recalledAt.None?
  }

  /** The first thing ever stored of a message is what its post asked for. */
  lemma StoredAsAsked(s: System, m: Id)
    requires IsReachable(s) && |History(s.revisions, m)| > 0
    ensures var first := History(s.revisions, m)[0];
            && first.writer == m && m in s.requests && s.requests[m].call.Post?
            && var call, stored := s.requests[m].call, first.message;
            && AsAsked(stored, m, call) && 1 <= stored.sequence
            && stored.id == m && stored.channelId == call.channel && stored.senderId == call.actor
            && stored.kind == (if call.ai then AI else User) && stored.clientId == call.clientId && stored.hash == call.hash
            && stored.contentType == call.contentType && stored.content == call.content
            && stored.replyTo == (if call.replyTo.Some? then call.replyTo.value else 0)
            && stored.revision == 1 && stored.recalledAt == None
  {
    ReachableFits(s);
    assert RevisionsFit(s, m);
  }

  /** A post's answer is a message as it was stored, has the request's key and hash, and stays as long as the channel is
      active; a created one is the request's own message, numbered, summarized and announced. */
  ghost predicate PostMeans(s: System, r: Id, call: Call, m: Message, created: bool)
    requires call.Post?
  {
    && Seen(s, m) && m.hash == call.hash
    && m.channelId == call.channel && m.senderId == call.actor && m.clientId == call.clientId
    && (Active(s, call.channel) ==> m.id in s.messages && SameIdentity(s.messages[m.id], m))
    && (created ==>
          && AsAsked(m, r, call)
          && r in s.messages && SameIdentity(s.messages[r], m)
          && call.channel in s.channels && 1 <= m.sequence <= s.channels[call.channel].lastMessageSeq
          && Announced(s, m))
  }

  lemma PostedMeans(s: System, r: Id, created: bool)
    requires IsReachable(s) && Answered(s, r, created)
    ensures s.requests[r].call.Post? && PostMeans(s, r, s.requests[r].call, s.requests[r].pc.outcome.message, created)
  {
    ReachableFits(s);
    AnsweredFits(s, r, created);
    var m := s.requests[r].pc.outcome.message;
    SeenIdentity(s, m);
    if created {
      assert RevisionsFit(s, r);
      CreatedAnnounced(s, r, m);
    }
  }

  lemma CreatedAnnounced(s: System, r: Id, m: Message)
    requires Inv(s) && r in s.outbox && r in s.requests && s.requests[r].call.Post?
    requires Seen(s, m) && m.id == r && m.revision == 1
    ensures Announced(s, m)
  {
    assert OutboxFits(s, r);
    var p := s.outbox[r].event.body.message;
    assert RevisionsFit(s, p.id);
    assert RevisionFits(s, p.id, p.revision - 1);
  }

  /** A post that gave up stored nothing, while others stored at least 64 messages. */
  lemma GaveUpMeans(s: System, r: Id)
    requires IsReachable(s) && r in s.requests && s.requests[r].call.Post?
    requires s.requests[r].pc == Done(Failed(Conflict(RetriesExhausted)))
    ensures r !in s.messages && s.requests[r].base + 64 <= |History(s.born, s.requests[r].call.channel)|
  {
    ReachableFits(s);
    assert RequestFits(s, r);
    assert r in s.messages ==> MessageFits(s, r);
  }

  /** Why a post failed: it was cut short; its channel is no longer active; a message with its
      key and another hash is stored; or others stored at least 64 messages meanwhile. */
  ghost predicate PostExcused(s: System, r: Id, error: Error)
    requires r in s.requests && s.requests[r].call.Post?
  {
    var call := s.requests[r].call;
    if error == StoreError then !s.requests[r].alive
    else if error == NotFound then !Active(s, call.channel)
    else if error == Conflict(HashMismatch) then
      exists m :: m in s.messages && s.messages[m].channelId == call.channel && s.messages[m].senderId == call.actor
                  && s.messages[m].clientId == call.clientId && s.messages[m].hash != call.hash
    else
      && error == Conflict(RetriesExhausted) && r !in s.messages
      && s.requests[r].base + 64 <= |History(s.born, call.channel)|
  }

  /** The channel a post writes to was the sender's, so if it cannot be found it is inactive. */
  lemma HiddenIsInactive(s: System, r: Id)
    requires IsReachable(s) && r in s.requests && s.requests[r].call.Post?
    requires s.requests[r].pc.FindChannel? || s.requests[r].pc.Summarize?
    ensures var call := s.requests[r].call;
            call.channel in s.channels && (Visible(s, call.channel, call.actor) || !s.channels[call.channel].active)
  {
    ReachableFits(s);
    assert RequestFits(s, r);
  }

  lemma InactiveStays(s: System, t: System, c: Id)
    requires Later(s, t) && c in s.channels && !s.channels[c].active
    ensures !Active(t, c)
  {
    LaterFits(s, t);
    assert ChannelEvolves(s.channels[c], t.channels[c]);
  }

  // ---------- mutations ----------

  /** The outbox holds the event of request `r` for its change of a message into `m`. */
  ghost predicate ChangeAnnounced(s: System, r: Id, change: Change, m: Message) {
    && r in s.outbox && s.outbox[r].partitionKey == m.channelId && s.outbox[r].event.channelId == m.channelId
    && s.outbox[r].event.eventType == (if change.Edit? then MessageUpdated else MessageRecalled)
    && s.outbox[r].event.body.MessageBody? && Says(s.outbox[r].event.body.message, m)
  }

  /** The message is what the change makes of `seen`: an edit has the new content, a recall none
      and the time; nothing else differs but the revision. */
  predicate AsChanged(seen: Message, change: Change, now: Time, m: Message) {
    && SameIdentity(seen, m) && m.revision == seen.revision + 1
    && if change.Edit? then m.content == change.content && m.recalledAt.None?
       else m.content == "" && m.recalledAt == Some(now)
  }

  /** Every later revision of a message is the change its writer asked for, of the one before. */
  lemma RevisedAsAsked(s: System, i: Id, k: nat)
    requires IsReachable(s) && 0 < k < |History(s.revisions, i)|
    ensures var before, after := History(s.revisions, i)[k - 1].message, History(s.revisions, i)[k];
            && after.writer in s.requests && s.requests[after.writer].call.Mutate?
            && var call := s.requests[after.writer].call;
            && call.target == i && call.actor == before.senderId && before.recalledAt.None?
            && var m := after.message;
            && m.id == before.id && m.channelId == before.channelId && m.senderId == before.senderId
            && m.kind == before.kind && m.clientId == before.clientId && m.hash == before.hash
            && m.contentType == before.contentType && m.sequence == before.sequence && m.replyTo == before.replyTo
            && m.revision == before.revision + 1
            && (if call.change.Edit? then m.content == call.change.content && m.recalledAt.None?
                else m.content == "" && m.recalledAt.Some?)
  {
    ReachableFits(s);
    assert RevisionsFit(s, i);
    assert RevisionFits(s, i, k - 1) && RevisionFits(s, i, k);
  }

  /** The message has moved on from what was seen, or is gone. */
  ghost predicate Overtaken(s: System, seen: Message) {
    seen.id in s.messages ==> s.messages[seen.id].revision > seen.revision
  }

  /** Why a change of `seen` failed: it was cut short, someone else changed the message first,
      or the channel is not active. */
  ghost predicate ChangeExcused(s: System, r: Id, seen: Message, error: Error)
    requires r in s.requests
  {
    if error == StoreError then !s.requests[r].alive
    else if error == NotFound then !Active(s, seen.channelId)
    else error == Conflict(StaleRevision) && Overtaken(s, seen)
  }

  /** The swap finds exactly the message it saw, or one with a later revision. */
  lemma SwapFinds(s: System, r: Id, seen: Message)
    requires IsReachable(s) && r in s.requests && s.requests[r].call.Mutate? && s.requests[r].pc == Swap(seen)
    ensures if Swappable(s, seen) then s.messages[seen.id] == seen else Overtaken(s, seen)
  {
    ReachableFits(s);
    assert RequestFits(s, r);
    assert seen.id in s.messages ==> MessageFits(s, seen.id);
    assert RevisionsFit(s, seen.id);
    assert RevisionFits(s, seen.id, seen.revision - 1);
    if seen.id in s.messages { LastRevision(s, seen.id); }
  }

  lemma LastRevision(s: System, m: Id)
    requires Inv(s) && m in s.messages
    ensures m in s.revisions && s.messages[m].revision == |s.revisions[m]| > 0
    ensures SameIdentity(s.revisions[m][0].message, s.messages[m])
    ensures s.messages[m] == s.revisions[m][|s.revisions[m]| - 1].message
  {
    assert MessageFits(s, m);
    assert RevisionsFit(s, m);
    assert RevisionFits(s, m, |s.revisions[m]| - 1);
  }

  lemma StoredId(s: System, m: Id)
    requires IsReachable(s) && m in s.messages
    ensures s.messages[m].id == m
  {
    ReachableFits(s);
    LastRevision(s, m);
    assert RevisionsFit(s, m);
  }

  lemma OvertakenStays(s: System, t: System, seen: Message)
    requires Later(s, t) && seen.id in s.messages && s.messages[seen.id].revision > seen.revision
    ensures Overtaken(t, seen)
  {
    if seen.id in t.messages { RevisionAdvances(s, t, seen.id); }
  }

  // ---------- reads ----------

  /** The outbox holds the event of request `r` for the cursor at `lastRead`. */
  ghost predicate CursorAnnounced(s: System, r: Id, c: Id, user: string, lastRead: int) {
    && r in s.outbox && s.outbox[r].partitionKey == s.outbox[r].event.channelId == c
    && s.outbox[r].event.eventType == ReadCursorAdvanced && s.outbox[r].event.body == CursorBody(user, lastRead)
  }

  /** A request that has not ended has no event yet. */
  lemma NoEventYet(s: System, r: Id)
    requires IsReachable(s) && r in s.requests && !s.requests[r].pc.Done?
    ensures r !in s.outbox
  {
    ReachableFits(s);
    assert r in s.outbox ==> OutboxFits(s, r);
  }

  /** A read that is past its upsert finds the cursor. */
  lemma CursorThere(s: System, r: Id)
    requires IsReachable(s) && r in s.requests && s.requests[r].call.Read? && s.requests[r].pc.FindState?
    ensures CursorKey(s.requests[r].call) in s.states
  {
    ReachableFits(s);
    assert RequestFits(s, r);
  }

  /** The channel of a read was its user's, so if it cannot be found it is inactive. */
  lemma HiddenReadIsInactive(s: System, r: Id)
    requires IsReachable(s) && r in s.requests && s.requests[r].call.Read? && s.requests[r].pc.BumpRead?
    ensures var call := s.requests[r].call;
            call.channel in s.channels && (Visible(s, call.channel, call.actor) || !s.channels[call.channel].active)
  {
    ReachableFits(s);
    assert RequestFits(s, r);
  }

  lemma CursorKept(s: System, t: System, key: (Id, string))
    requires Later(s, t) && key in s.states
    ensures key in t.states && s.states[key] <= t.states[key]
  {
    LaterFits(s, t);
  }

  /** A read that meets an existing cursor, from its match phase on, reaches its position. */
  lemma ReadReaches(s: System, t: System, r: Id)
    requires Later(s, t) && r in s.requests && s.requests[r].call.Read? && s.requests[r].pc.UpsertMatch?
    requires CursorKey(s.requests[r].call) in s.states
    requires r in t.requests && t.requests[r].call == s.requests[r].call
    requires t.requests[r].pc.Done? && t.requests[r].pc.outcome.CursorAt?
    ensures t.requests[r].call.position <= t.requests[r].pc.outcome.lastRead
  {
    LaterFits(s, t);
    assert CursorNoted(s, t, r);
    assert RequestFits(t, r);
  }
}
