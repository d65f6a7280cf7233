/** What holds between any two Mongo calls, and what any stretch of a run preserves.

    `Inv` is the invariant of every reachable state. `Evolves` relates a state to every later
    one; it is what a request may rely on while others run. Nothing here mentions how many
    requests run or how they interleave. */
module ChatInvariant {
  import opened Schema
  import opened ChatSystem

  // ---------- small vocabulary ----------

  /** The request has not yet written anything. */
  ghost predicate Early(pc: Pc) {
    !(pc.Summarize? || pc.Rollback? || pc.Bump? || pc.FindState? || pc.BumpRead? || pc.Emit? || pc.Done?)
  }

  /** The post whose message is stored stands here. */
  ghost predicate Stored(pc: Pc) {
    pc.Summarize? || pc.Rollback? || pc.Emit? || (pc.Done? && pc.outcome.Posted? && pc.outcome.created)
  }

  /** The post's message is stored and counted in the channel summary. */
  ghost predicate Landed(pc: Pc) {
    (pc.Emit? && pc.answer.Posted? && pc.answer.created)
    || (pc.Done? && pc.outcome.Posted? && pc.outcome.created)
  }

  ghost predicate Member(s: System, c: Id, user: string) {
    c in s.channels && IsParticipant(s.channels[c], user)
  }

  ghost predicate Active(s: System, c: Id) {
    c in s.channels && s.channels[c].active
  }

  /** Message `m` was inserted in channel `c` at or after position `mark` of its insert history. */
  ghost predicate BornSince(s: System, c: Id, m: Id, mark: nat) {
    exists k :: mark <= k < |History(s.born, c)| && History(s.born, c)[k] == m
  }

  /** `m` is the content message `m.id` had at revision `m.revision`. */
  ghost predicate Seen(s: System, m: Message) {
    && 1 <= m.revision <= |History(s.revisions, m.id)|
    && History(s.revisions, m.id)[m.revision - 1].message == m
  }

  /** Request `r` wrote revision `m.revision` of message `m.id`. */
  ghost predicate Wrote(s: System, r: Id, m: Message) {
    Seen(s, m) && History(s.revisions, m.id)[m.revision - 1].writer == r
  }

  ghost predicate Advanced(s: System, key: (Id, string), r: Id) {
    exists k :: 0 <= k < |History(s.advances, key)| && History(s.advances, key)[k].writer == r
  }

  // ---------- what later states keep ----------

  ghost predicate Grew<K(!new), V>(a: map<K, seq<V>>, b: map<K, seq<V>>) {
    forall k :: History(a, k) <= History(b, k)
  }

  ghost predicate ChannelEvolves(a: Channel, b: Channel) {
    && a.directKey == b.directKey && a.participants == b.participants
    && (b.active ==> a.active)
    && a.lastMessageSeq <= b.lastMessageSeq
    && a.lastEventVersion <= b.lastEventVersion
  }

  ghost predicate RequestEvolves(s: System, t: System, r: Id)
    requires r in s.requests
  {
    && r in t.requests
    && var q, p := s.requests[r], t.requests[r];
    && q.call == p.call
    && (!Early(q.pc) ==> !Early(p.pc))
    && (!Early(q.pc) || q.call.Post? ==> p.base == q.base)
    && (q.base != 0 ==> p.base != 0)
    && (q.pc.Done? ==> p == q)
    && (q.pc.Emit? ==> p.pc == q.pc || (p.pc == Done(q.pc.answer) && r in t.outbox && t.outbox[r].event == q.pc.event))
    && (Stored(q.pc) && r in t.messages ==> Stored(p.pc))
  }

  /** A stored message keeps its identity; it goes only when its own post rolls it back, in a
      channel no longer active. */
  ghost predicate MessageEvolves(s: System, t: System, m: Id)
    requires m in s.messages
  {
    if m in t.messages then SameIdentity(s.messages[m], t.messages[m])
    else
      && !Active(t, s.messages[m].channelId)
      && m in t.requests && t.requests[m].pc == Done(Failed(NotFound))
  }

  /** A post that has started since counts its base from a later history. */
  ghost predicate StartedSince(s: System, t: System) {
    forall r {:trigger t.requests[r]} | r in t.requests && r !in s.requests && t.requests[r].call.Post? ::
      |History(s.born, t.requests[r].call.channel)| <= t.requests[r].base
  }

  /** The read has not been through the match phase of its upsert. */
  ghost predicate Unmatched(pc: Pc) {
    pc.GuardRead? || pc.UpsertMatch? || (pc.Done? && pc.outcome.Failed?)
  }

  /** A read that matches when its cursor exists takes note of it. */
  ghost predicate CursorNoted(s: System, t: System, r: Id)
    requires r in t.requests
  {
    var call := t.requests[r].call;
    call.Read? && CursorKey(call) in s.states && (r in s.requests ==> Unmatched(s.requests[r].pc)) ==>
      Unmatched(t.requests[r].pc) || t.requests[r].base != 0
  }

  ghost predicate Evolves(s: System, t: System) {
    && (forall c | c in s.channels :: c in t.channels && ChannelEvolves(s.channels[c], t.channels[c]))
    && Grew(s.born, t.born) && Grew(s.revisions, t.revisions)
    && Grew(s.takers, t.takers) && Grew(s.advances, t.advances)
    && (forall k | k in s.states :: k in t.states && s.states[k] <= t.states[k])
    && (forall e | e in s.outbox :: e in t.outbox && t.outbox[e] == s.outbox[e])
    && (forall r {:trigger RequestEvolves(s, t, r)} | r in s.requests :: RequestEvolves(s, t, r))
    && StartedSince(s, t)
    && (forall r {:trigger CursorNoted(s, t, r)} | r in t.requests :: CursorNoted(s, t, r))
    && (forall m {:trigger MessageEvolves(s, t, m)} | m in s.messages :: MessageEvolves(s, t, m))
    && (forall m | m in t.messages && m !in s.messages ::
          BornSince(t, t.messages[m].channelId, m, |History(s.born, t.messages[m].channelId)|))
  }

  // ---------- the invariant ----------

  ghost predicate KeysFit(s: System) {
    && 0 !in s.requests
    && s.born.Keys == s.channels.Keys && s.takers.Keys == s.channels.Keys
    && s.states.Keys == s.advances.Keys
  }

  /** The summary names a stored message with the summary's sequence. */
  ghost predicate SummaryFits(s: System, c: Id)
    requires c in s.channels
  {
    var ch := s.channels[c];
    if ch.lastMessageSeq == 0 then ch.lastMessageId == 0
    else
      && 0 < ch.lastMessageSeq && ch.lastMessageId in s.messages
      && s.messages[ch.lastMessageId].channelId == c
      && s.messages[ch.lastMessageId].sequence == ch.lastMessageSeq
      && ch.lastMessageId in s.requests && Landed(s.requests[ch.lastMessageId].pc)
  }

  /** Insertion order is sequence order, without gaps. */
  ghost predicate Dense(s: System, c: Id) {
    forall k | 0 <= k < |History(s.born, c)| ::
      && History(s.born, c)[k] in s.messages
      && s.messages[History(s.born, c)[k]].channelId == c
      && s.messages[History(s.born, c)[k]].sequence == k + 1
  }

  /** Every message the summary has not reached is still on its way there, or was abandoned. */
  ghost predicate Covered(s: System, c: Id)
    requires c in s.channels
  {
    forall m | m in s.messages && s.messages[m].channelId == c ::
      s.messages[m].sequence <= s.channels[c].lastMessageSeq
      || (m in s.requests && s.requests[m].pc.Summarize?)
  }

  /** Every insert is of another message. */
  ghost predicate BornFits(s: System, c: Id) {
    var h := History(s.born, c);
    && (forall k :: 0 <= k < |h| ==>
          |History(s.revisions, h[k])| > 0 && History(s.revisions, h[k])[0].message.channelId == c)
    && (forall i, j :: 0 <= i < j < |h| ==> h[i] != h[j])
  }

  ghost predicate ChannelFits(s: System, c: Id)
    requires c in s.channels
  {
    var ch := s.channels[c];
    && Precedes(ch.participants.0, ch.participants.1) && ch.directKey == ch.participants
    && c in s.requests && s.requests[c].call.Open? && s.requests[c].pc == Done(Opened(c))
    && ch.lastEventVersion == |History(s.takers, c)|
    && SummaryFits(s, c) && BornFits(s, c)
    && (ch.active ==> Dense(s, c) && Covered(s, c))
  }

  ghost predicate PairsUnique(s: System) {
    forall c, d | c in s.channels && d in s.channels && s.channels[c].directKey == s.channels[d].directKey ::
      c == d
  }

  /** What a change leaves in the two fields it may touch. */
  predicate Carries(change: Change, m: Message) {
    if change.Edit? then m.content == change.content && m.recalledAt.None? else m.content == "" && m.recalledAt.Some?
  }

  ghost predicate RevisionFits(s: System, m: Id, k: nat)
    requires m in s.revisions && k < |s.revisions[m]|
  {
    var rs := s.revisions[m];
    var v := rs[k];
    && v.message.id == m && v.message.revision == k + 1
    && SameIdentity(rs[0].message, v.message)
    && v.writer in s.requests && !Early(s.requests[v.writer].pc)
    && (k > 0 ==> s.requests[v.writer].call.Mutate? && s.requests[v.writer].call.target == m
                  && s.requests[v.writer].call.actor == v.message.senderId
                  && s.requests[v.writer].base == k + 1
                  && Carries(s.requests[v.writer].call.change, v.message))
    && (v.message.recalledAt.Some? ==> k == |rs| - 1 && k > 0 && v.message.content == "")
  }

  ghost predicate RevisionsFit(s: System, m: Id)
    requires m in s.revisions
  {
    var rs := s.revisions[m];
    && |rs| > 0 && rs[0].writer == m
    && m in s.requests && s.requests[m].call.Post? && !Early(s.requests[m].pc)
    && var first := rs[0].message;
    && first == Draft(m, s.requests[m].call, first.sequence) && first.sequence >= 1
    && Member(s, first.channelId, first.senderId)
    && BornSince(s, first.channelId, m, 0)
    && ReplyFits(s, s.requests[m].call)
    && (forall k {:trigger RevisionFits(s, m, k)} :: 0 <= k < |rs| ==> RevisionFits(s, m, k))
  }

  /** The message a post answers was once in its channel; while the channel is active it still
      is. An AI post answers a person's message, and not its own actor's. */
  ghost predicate ReplyFits(s: System, call: Call)
    requires call.Post?
  {
    && (call.ai ==> call.replyTo.Some?)
    && (call.replyTo.Some? ==>
          var target := call.replyTo.value;
          && |History(s.revisions, target)| > 0
          && var m := History(s.revisions, target)[0].message;
          && m.channelId == call.channel
          && (call.ai ==> m.kind.User? && m.senderId != call.actor)
          && (Active(s, call.channel) ==> target in s.messages))
  }

  ghost predicate MessageFits(s: System, m: Id)
    requires m in s.messages
  {
    && m in s.revisions && |s.revisions[m]| > 0
    && s.messages[m] == s.revisions[m][|s.revisions[m]| - 1].message
    && m in s.requests && Stored(s.requests[m].pc)
    && (Active(s, s.messages[m].channelId) && s.messages[m].replyTo != 0 ==>
          s.messages[m].replyTo in s.messages
          && s.messages[s.messages[m].replyTo].sequence < s.messages[m].sequence)
  }

  /** The unique indexes (channel, sequence) and (channel, sender, client id). */
  ghost predicate IndexesUnique(s: System) {
    forall m, n | m in s.messages && n in s.messages && m != n :: !Clashes(s.messages[m], s.messages[n])
  }

  function TypeOf(p: Payload): EventType {
    if p.revision == 1 then MessageCreated else if p.recalledAt.Some? then MessageRecalled else MessageUpdated
  }

  ghost predicate PayloadFits(s: System, r: Id, p: Payload) {
    && 1 <= p.revision <= |History(s.revisions, p.id)|
    && History(s.revisions, p.id)[p.revision - 1].writer == r
    && PayloadOf(History(s.revisions, p.id)[p.revision - 1].message) == p
  }

  ghost predicate BodyFits(s: System, r: Id, ev: Event) {
    match ev.body
    case MessageBody(p) =>
      p.channelId == ev.channelId && PayloadFits(s, r, p) && ev.eventType == TypeOf(p)
    case CursorBody(user, lastRead) =>
      && ev.eventType == ReadCursorAdvanced
      && r in s.requests && s.requests[r].call.Read?
      && s.requests[r].call.channel == ev.channelId && s.requests[r].call.actor == user
      && (ev.channelId, user) in s.states
      && s.requests[r].call.position <= lastRead <= s.states[(ev.channelId, user)]
      && Advanced(s, (ev.channelId, user), r)
  }

  ghost predicate EventFits(s: System, r: Id, ev: Event) {
    && ev.eventId == r && ev.channelId in s.channels
    && 1 <= ev.version <= |History(s.takers, ev.channelId)|
    && History(s.takers, ev.channelId)[ev.version - 1] == r
    && ev.participants == s.channels[ev.channelId].participants
    && BodyFits(s, r, ev)
  }

  ghost predicate OutboxFits(s: System, e: Id)
    requires e in s.outbox
  {
    && e in s.requests && s.requests[e].pc.Done?
    && (s.requests[e].call.Post? ==> Stored(s.requests[e].pc))
    && s.outbox[e].partitionKey == s.outbox[e].event.channelId
    && EventFits(s, e, s.outbox[e].event)
  }

  /** Whoever took a version holds its event or has put it in the outbox. */
  ghost predicate TakerFits(s: System, c: Id, k: nat)
    requires k < |History(s.takers, c)|
  {
    var r := History(s.takers, c)[k];
    && r in s.requests
    && ((s.requests[r].pc.Emit? && s.requests[r].pc.event.channelId == c && s.requests[r].pc.event.version == k + 1)
        || (r in s.outbox && s.outbox[r].event.channelId == c && s.outbox[r].event.version == k + 1))
  }

  ghost predicate AdvanceFits(s: System, key: (Id, string), a: Advance) {
    && a.writer in s.requests && !Early(s.requests[a.writer].pc)
    && s.requests[a.writer].call == Read(key.1, key.0, a.position)
    && 0 <= a.position
  }

  ghost predicate CursorFits(s: System, key: (Id, string))
    requires key in s.states
  {
    var h := History(s.advances, key);
    && |h| > 0 && h[|h| - 1].position == s.states[key]
    && Member(s, key.0, key.1) && s.states[key] <= s.channels[key.0].lastMessageSeq
    && (forall k {:trigger h[k]} :: 0 <= k < |h| ==> AdvanceFits(s, key, h[k]))
    && (forall i, j :: 0 <= i < j < |h| ==> h[i].position < h[j].position)
  }

  // ---------- what a request knows at each point ----------

  ghost predicate PostReady(s: System, call: Call)
    requires call.Post?
  {
    Member(s, call.channel, call.actor) && ReplyFits(s, call)
  }

  /** When the request last looked, none of the stored messages with its key was there. */
  ghost predicate KeyFresh(s: System, call: Call, mark: nat)
    requires call.Post?
  {
    forall m | m in s.messages && HasKey(s.messages[m], call.channel, call.actor, call.clientId) ::
      BornSince(s, call.channel, m, mark)
  }

  ghost predicate SequenceFresh(s: System, c: Id, sequence: int, mark: nat) {
    forall m | m in s.messages && s.messages[m].channelId == c && s.messages[m].sequence == sequence ::
      BornSince(s, c, m, mark)
  }

  /** Each failed attempt of the allocation loop has cost others at least one insert. */
  ghost predicate LoopFits(s: System, call: Call, base: nat, attempt: nat, mark: nat)
    requires call.Post?
  {
    && PostReady(s, call) && attempt < MAX_ATTEMPTS
    && base + attempt <= mark <= |History(s.born, call.channel)|
    && KeyFresh(s, call, mark)
  }

  ghost predicate PostedFits(s: System, r: Id, call: Call, m: Message, created: bool)
    requires call.Post?
  {
    && Seen(s, m) && m.hash == call.hash
    && HasKey(m, call.channel, call.actor, call.clientId)
    && (Active(s, call.channel) ==> m.id in s.messages)
    && (created ==> m.id == r && m.revision == 1 && r in s.messages
                    && call.channel in s.channels && m.sequence <= s.channels[call.channel].lastMessageSeq)
  }

  ghost predicate GaveUp(s: System, r: Id, call: Call, base: nat)
    requires call.Post?
  {
    r !in s.revisions && base + MAX_ATTEMPTS <= |History(s.born, call.channel)|
  }

  /** A post that has not inserted its message yet. */
  ghost predicate PostEarlyFits(s: System, call: Call, base: nat, pc: Pc)
    requires call.Post?
  {
    if pc.GuardChannel? then true
    else if pc.GuardReply? then Member(s, call.channel, call.actor) && call.replyTo.Some?
    else if pc.Lookup? then PostReady(s, call)
    else if pc.Recheck? then
      && PostReady(s, call) && pc.attempt < MAX_ATTEMPTS
      && base + pc.attempt + 1 <= |History(s.born, call.channel)|
    else
      && (pc.FindChannel? || pc.FindLatest? || pc.Insert?)
      && LoopFits(s, call, base, pc.attempt, pc.mark)
      && (pc.FindLatest? ==>
            && 0 <= pc.summary
            && (Active(s, call.channel) ==> pc.summary <= |History(s.born, call.channel)|))
      && (pc.Insert? ==>
            && 1 <= pc.sequence
            && (Active(s, call.channel) ==> pc.sequence <= |History(s.born, call.channel)| + 1)
            && SequenceFresh(s, call.channel, pc.sequence, pc.mark))
  }

  /** A post that has inserted its message, or has ended. */
  ghost predicate PostLateFits(s: System, r: Id, call: Call, base: nat, pc: Pc)
    requires call.Post?
  {
    if pc.Summarize? then
      && PostReady(s, call) && r in s.messages && Wrote(s, r, pc.message)
      && pc.message == Draft(r, call, pc.message.sequence)
    else if pc.Rollback? then PostReady(s, call) && r in s.messages && !Active(s, call.channel)
    else if pc.Emit? then
      && EventFits(s, r, pc.event)
      && pc.answer.Posted? && pc.answer.created && PostedFits(s, r, call, pc.answer.message, true)
    else
      && pc.Done?
      && if pc.outcome.Posted? then
           && PostedFits(s, r, call, pc.outcome.message, pc.outcome.created)
           && (pc.outcome.created ==> r in s.outbox)
         else
           pc.outcome.Failed?
           && (pc.outcome.error == Conflict(RetriesExhausted) ==> GaveUp(s, r, call, base))
  }

  ghost predicate PostFits(s: System, r: Id, call: Call, base: nat, pc: Pc)
    requires call.Post?
  {
    && base <= |History(s.born, call.channel)|
    && if Early(pc) then PostEarlyFits(s, call, base, pc) else PostLateFits(s, r, call, base, pc)
  }

  ghost predicate MutatedFits(s: System, r: Id, call: Call, m: Message)
    requires call.Mutate?
  {
    && Seen(s, m) && m.id == call.target && m.senderId == call.actor
    && (Wrote(s, r, m) || (call.change.Recall? && m.recalledAt.Some?))
  }

  /** Request `r` wrote revision `n` of message `m`. */
  ghost predicate WriterAt(s: System, m: Id, n: nat, r: Id) {
    1 <= n <= |History(s.revisions, m)| && History(s.revisions, m)[n - 1].writer == r
  }

  ghost predicate MutateFits(s: System, r: Id, call: Call, base: nat, pc: Pc)
    requires call.Mutate?
  {
    && (Early(pc) ==> base == 0)
    && (base > 0 ==> base > 1 && WriterAt(s, call.target, base, r))
    && (pc.Bump? || pc.Emit? ==> base > 0)
    && MutatePcFits(s, r, call, pc)
  }

  ghost predicate MutatePcFits(s: System, r: Id, call: Call, pc: Pc)
    requires call.Mutate?
  {
    if pc.Authorize? then true
    else if pc.AuthorizeChannel? then Seen(s, pc.seen) && pc.seen.id == call.target
    else if pc.Swap? then
      && Seen(s, pc.seen) && pc.seen.id == call.target
      && pc.seen.senderId == call.actor && pc.seen.recalledAt.None?
    else if pc.Bump? then
      && Wrote(s, r, pc.updated) && pc.updated.id == call.target
      && pc.updated.revision > 1 && pc.updated.senderId == call.actor
      && (pc.updated.recalledAt.Some? <==> call.change.Recall?)
    else if pc.Emit? then
      && EventFits(s, r, pc.event)
      && pc.answer.Mutated? && MutatedFits(s, r, call, pc.answer.message)
    else
      && pc.Done? && (pc.outcome.Failed? || pc.outcome.Mutated?)
      && (pc.outcome.Mutated? ==> MutatedFits(s, r, call, pc.outcome.message))
  }

  ghost predicate ReadReady(s: System, call: Call)
    requires call.Read?
  {
    && Member(s, call.channel, call.actor)
    && 0 <= call.position <= s.channels[call.channel].lastMessageSeq
  }

  /** The cursor of the reading user has a document, at `low` or beyond. */
  ghost predicate CursorFrom(s: System, call: Call, low: int)
    requires call.Read?
  {
    (call.channel, call.actor) in s.states && low <= s.states[(call.channel, call.actor)]
  }

  /** The cursor's first position is not beyond `position`. */
  ghost predicate FromFirst(s: System, key: (Id, string), position: int) {
    var h := History(s.advances, key);
    |h| > 0 && h[0].position <= position
  }

  ghost predicate ReadFits(s: System, r: Id, call: Call, base: nat, pc: Pc)
    requires call.Read?
  {
    var key := (call.channel, call.actor);
    if pc.GuardRead? then base == 0
    else if pc.UpsertMatch? then ReadReady(s, call) && base == 0
    else if pc.UpsertInsert? then
      ReadReady(s, call) && (base != 0 ==> CursorFrom(s, call, call.position))
    else if pc.FindState? then
      && ReadReady(s, call) && CursorFrom(s, call, 0)
      && (pc.advanced ==> base == 1 && Advanced(s, key, r))
      && (base != 0 ==> CursorFrom(s, call, call.position))
    else if pc.BumpRead? then
      && ReadReady(s, call) && Advanced(s, key, r)
      && call.position <= pc.lastRead && CursorFrom(s, call, pc.lastRead)
    else if pc.Emit? then
      && EventFits(s, r, pc.event) && pc.answer.CursorAt?
      && call.position <= pc.answer.lastRead && CursorFrom(s, call, pc.answer.lastRead)
    else
      && pc.Done? && (pc.outcome.Failed? || pc.outcome.CursorAt?)
      && (pc.outcome.CursorAt? ==>
            CursorFrom(s, call, pc.outcome.lastRead)
            && (base != 0 ==> call.position <= pc.outcome.lastRead)
            && (call.position <= pc.outcome.lastRead || FromFirst(s, key, pc.outcome.lastRead)))
  }

  ghost predicate OpenFits(s: System, call: Call, pc: Pc)
    requires call.Open?
  {
    if pc.OpenUpsert? then true
    else if pc.OpenInsert? || pc.OpenFind? then call.actor != call.peer
    else
      && pc.Done? && (pc.outcome.Failed? || pc.outcome.Opened?)
      && (pc.outcome.Opened? ==>
            && pc.outcome.channel in s.channels && call.actor != call.peer
            && s.channels[pc.outcome.channel].participants == Canonical(call.actor, call.peer))
  }

  ghost predicate PcFits(s: System, r: Id, call: Call, base: nat, pc: Pc) {
    match call
    case Post(_, _, _, _, _, _, _, _, _) => PostFits(s, r, call, base, pc)
    case Mutate(_, _, _) => MutateFits(s, r, call, base, pc)
    case Read(_, _, _) => ReadFits(s, r, call, base, pc)
    case Open(_, _, _) => OpenFits(s, call, pc)
  }

  ghost predicate RequestFits(s: System, r: Id)
    requires r in s.requests
  {
    var q := s.requests[r];
    PcFits(s, r, q.call, q.base, q.pc)
  }

  /** Channels and messages. */
  ghost predicate DocumentsFit(s: System) {
    && KeysFit(s) && PairsUnique(s) && IndexesUnique(s)
    && (forall c {:trigger ChannelFits(s, c)} | c in s.channels :: ChannelFits(s, c))
    && (forall m {:trigger RevisionsFit(s, m)} | m in s.revisions :: RevisionsFit(s, m))
    && (forall m {:trigger MessageFits(s, m)} | m in s.messages :: MessageFits(s, m))
  }

  /** Events, version takers and cursors. */
  ghost predicate RecordsFit(s: System) {
    && (forall e {:trigger OutboxFits(s, e)} | e in s.outbox :: OutboxFits(s, e))
    && (forall c, k {:trigger TakerFits(s, c, k)} | 0 <= k < |History(s.takers, c)| :: TakerFits(s, c, k))
    && (forall key {:trigger CursorFits(s, key)} | key in s.states :: CursorFits(s, key))
  }

  ghost predicate RequestsFit(s: System) {
    forall r {:trigger RequestFits(s, r)} | r in s.requests :: RequestFits(s, r)
  }

  ghost predicate Inv(s: System) {
    DocumentsFit(s) && RecordsFit(s) && RequestsFit(s)
  }
}
