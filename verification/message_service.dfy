/** The message service: the checks in front of the repository. Each method is one request,
    from its arrival to its answer, among everything else the service does. */
module MessageService {
  import opened Schema
  import opened ChatSystem
  import opened ChatInvariant
  import opened ChatReach
  import opened ChatTheorems
  import opened ChatTheoremsMore
  import opened ChatTheoremsDocs
  import opened ChatAnswers
  import opened Mongo
  import MessageRepo
  import opened ChannelService

  // ---------- posts ----------

  /** The message a post refers to is one it may refer to, from `s` to `t`. */
  ghost predicate MayReply(s: System, t: System, call: Call)
    requires call.Post?
  {
    if call.replyTo.None? then !call.ai
    else
      var target := call.replyTo.value;
      && target in s.messages && s.messages[target].channelId == call.channel
      && (call.ai ==> s.messages[target].senderId != call.actor && s.messages[target].kind.User?
                      && target in t.messages && t.messages[target].recalledAt.None?)
  }

  /** Nothing in the request, its channel or its source speaks against the post. */
  ghost predicate Deserves(s: System, t: System, call: Call)
    requires call.Post?
  {
    call.wellFormed && Visible(s, call.channel, call.actor) && Active(t, call.channel) && MayReply(s, t, call)
  }

  /** The channel is not open to the actor throughout. */
  ghost predicate Closed(s: System, t: System, c: Id, user: string) {
    !(Visible(s, c, user) && Active(t, c))
  }

  /** The message is not stored, or its channel did not stay active. */
  ghost predicate Missing(s: System, t: System, m: Id) {
    m in s.messages ==> !Active(t, s.messages[m].channelId)
  }

  /** The message a post answers is not of its channel. */
  ghost predicate Elsewhere(s: System, call: Call)
    requires call.Post? && call.replyTo.Some?
  {
    call.replyTo.value in s.messages ==> s.messages[call.replyTo.value].channelId != call.channel
  }

  /** The source of an AI reply is of another channel, its own actor's, an AI's, or recalled. */
  ghost predicate BadSourceAt(s: System, t: System, call: Call)
    requires call.Post? && call.replyTo.Some?
  {
    var target := call.replyTo.value;
    target in s.messages ==>
      || s.messages[target].channelId != call.channel || s.messages[target].senderId == call.actor
      || s.messages[target].kind.AI? || (target in t.messages && t.messages[target].recalledAt.Some?)
  }

  /** Why a post that arrived at `s` failed at `t`: it was cut short; a message with its key
      and another hash is stored; others stored at least 64 messages in its channel meanwhile;
      its channel is closed to the actor, or the message it answers missing; it is malformed, which
      only somebody who may see the channel learns, or answers a message of another channel; or its
      source is not one for an AI. */
  ghost predicate Excused(s: System, t: System, r: Id, error: Error)
    requires r in t.requests && t.requests[r].call.Post?
  {
    var call := t.requests[r].call;
    if error == StoreError then !t.requests[r].alive
    else if error == Conflict(HashMismatch) then
      exists m :: m in t.messages && t.messages[m].channelId == call.channel && t.messages[m].senderId == call.actor
                  && t.messages[m].clientId == call.clientId && t.messages[m].hash != call.hash
    else if error == Conflict(RetriesExhausted) then
      && r !in t.messages
      && |History(t.born, call.channel)| - |History(s.born, call.channel)| >= 64
    else if error == NotFound then
      Closed(s, t, call.channel, call.actor) || (call.replyTo.Some? && Missing(s, t, call.replyTo.value))
    else if error == Invalid then
      if call.ai then !call.wellFormed || call.replyTo.None?
      else (!call.wellFormed && Visible(t, call.channel, call.actor)) || (call.replyTo.Some? && Elsewhere(s, call))
    else error == Conflict(BadSource) && call.ai && call.replyTo.Some? && BadSourceAt(s, t, call)
  }

  /** The answer to a post that arrived at `s` and was answered at `t`. */
  ghost predicate Justified(s: System, t: System, r: Id, call: Call, answer: Outcome)
    requires call.Post?
  {
    && MessageRepo.Answers(t, r, answer) && t.requests[r].call == call
    && if answer.Posted? then PostMeans(t, r, call, answer.message, answer.created)
       else answer.Failed? && Excused(s, t, r, answer.error)
  }

  /** A post with nothing against it fails only if it was cut short, if a message with its key
      and another hash is stored, or if 64 others were inserted meanwhile. */
  lemma DeservingFails(s: System, t: System, r: Id, call: Call, error: Error)
    requires call.Post? && Justified(s, t, r, call, Failed(error)) && Deserves(s, t, call)
    ensures error in {StoreError, Conflict(HashMismatch), Conflict(RetriesExhausted)}
  {
  }

  lemma VisibleBetween(s: System, t: System, u: System, c: Id, user: string)
    requires Later(s, t) && Later(t, u) && Visible(s, c, user) && Active(u, c)
    ensures Visible(t, c, user)
  {
    LaterFits(s, t);
    LaterFits(t, u);
    assert ChannelEvolves(s.channels[c], t.channels[c]);
    assert ChannelEvolves(t.channels[c], u.channels[c]);
  }

  lemma StaysStored(s: System, t: System, m: Id, u: System)
    requires Later(s, t) && Later(t, u) && m in s.messages && Active(u, s.messages[m].channelId)
    ensures m in t.messages && SameIdentity(s.messages[m], t.messages[m])
  {
    LaterFits(s, t);
    LaterFits(t, u);
    assert MessageEvolves(s, t, m);
    var c := s.messages[m].channelId;
    if c in t.channels { assert ChannelEvolves(t.channels[c], u.channels[c]); }
    SendersAreParticipants(s, m);
    assert ChannelEvolves(s.channels[c], t.channels[c]);
  }

  /** The repository's answer, seen from the arrival of the request. */
  lemma RepoJustified(s: System, t: System, u: System, r: Id, answer: Outcome)
    requires Later(s, t) && Later(t, u) && Later(s, u) && r !in s.requests
    requires MessageRepo.PostAnswers(u, r, answer)
    ensures Justified(s, u, r, u.requests[r].call, answer)
  {
    if answer.Posted? {
      LaterReaches(s, u);
      PostedMeans(u, r, answer.created);
    } else if answer == Failed(Conflict(RetriesExhausted)) {
      CountedSince(s, u, r);
    }
  }

  /** A post's base was counted after it arrived. */
  lemma CountedSince(s: System, u: System, r: Id)
    requires Later(s, u) && r !in s.requests && r in u.requests && u.requests[r].call.Post?
    ensures |History(s.born, u.requests[r].call.channel)| <= u.requests[r].base
  {
    LaterFits(s, u);
    assert StartedSince(s, u);
  }

  /** The membership check: the channel is found, active, and has the sender as participant. */
  method CheckChannel(db: Database, r: Id, call: Call) returns (error: Option<Error>)
    requires db.Valid() && r != 0 && MessageRepo.StandsAt(db.View(), r, GuardChannel) && db.requests[r].call == call
    requires call.Post? && (call.ai ==> call.wellFormed && call.replyTo.Some?)
    modifies db
    ensures db.Valid() && Later(old(db.View()), db.View())
    ensures r in db.requests && db.requests[r].call == call
    ensures if error.None? then
              && call.wellFormed && Visible(db.View(), call.channel, call.actor)
              && MessageRepo.StandsAt(db.View(), r, if call.replyTo.Some? then GuardReply else Lookup)
            else
              && MessageRepo.Answers(db.View(), r, Failed(error.value))
              && if error.value == StoreError then !db.requests[r].alive
                 else if error.value == NotFound then !Visible(db.View(), call.channel, call.actor)
                 else error.value == Invalid && !call.wellFormed && Visible(db.View(), call.channel, call.actor)
  {
    ghost var s0 := db.View();
    var up := db.Interfere(r);
    if !up { return Some(StoreError); }
    ghost var s1 := db.View();
    var found := db.GetChannelForPost(r, call.channel);
    LaterTransitive(s0, s1, db.View());
    if !Admits(found, call.actor) { return Some(NotFound); }
    if !call.wellFormed { return Some(Invalid); }
    error := None;
  }

  /** The checks on the message replied to; those on an AI reply's source are stricter. */
  method CheckReply(db: Database, r: Id, call: Call) returns (error: Option<Error>)
    requires db.Valid() && r != 0 && MessageRepo.StandsAt(db.View(), r, GuardReply) && db.requests[r].call == call
    requires call.Post? && call.replyTo.Some?
    modifies db
    ensures db.Valid() && Later(old(db.View()), db.View())
    ensures r in db.requests && db.requests[r].call == call
    ensures if error.None? then SourceStands(db.View(), call) && MessageRepo.StandsAt(db.View(), r, Lookup)
            else
              && MessageRepo.Answers(db.View(), r, Failed(error.value))
              && if error.value == StoreError then !db.requests[r].alive
                 else RefusesSource(db.View(), call, error.value)
  {
    ghost var s0 := db.View();
    var up := db.Interfere(r);
    if !up { return Some(StoreError); }
    ghost var s1 := db.View();
    var found := db.GetReplyTarget(r, call.replyTo.value);
    LaterTransitive(s0, s1, db.View());
    if found.None? { return Some(NotFound); }
    var source := found.value;
    if call.ai {
      if source.channelId != call.channel || source.senderId == call.actor || source.kind.AI? || source.recalledAt.Some? {
        return Some(Conflict(BadSource));
      }
    } else if source.channelId != call.channel {
      return Some(Invalid);
    }
    error := None;
  }

  /** The answer to a reply whose target does not stand. */
  ghost predicate RefusesSource(s: System, call: Call, error: Error)
    requires call.Post? && call.replyTo.Some?
  {
    var target := call.replyTo.value;
    if target !in s.messages then error == NotFound
    else if call.ai then
      && error == Conflict(BadSource)
      && (s.messages[target].channelId != call.channel || s.messages[target].senderId == call.actor
          || s.messages[target].kind.AI? || s.messages[target].recalledAt.Some?)
    else error == Invalid && s.messages[target].channelId != call.channel
  }

  /** The message a post refers to is stored, and passes the checks. */
  ghost predicate SourceStands(s: System, call: Call)
    requires call.Post? && call.replyTo.Some?
  {
    var target := call.replyTo.value;
    && target in s.messages && s.messages[target].channelId == call.channel
    && (call.ai ==> s.messages[target].senderId != call.actor && s.messages[target].kind.User?
                    && s.messages[target].recalledAt.None?)
  }

  /** A check of the channel that failed at `t`, its last state, was right to do so. */
  lemma ChannelJustified(s: System, t: System, r: Id, call: Call, error: Error)
    requires Later(s, t) && call.Post? && r in t.requests && t.requests[r].call == call
    requires MessageRepo.Answers(t, r, Failed(error))
    requires if error == StoreError then !t.requests[r].alive
             else if error == NotFound then !Visible(t, call.channel, call.actor)
             else error == Invalid && !call.wellFormed && Visible(t, call.channel, call.actor)
    ensures Justified(s, t, r, call, Failed(error))
  {
    LaterFits(s, t);
    LaterSelf(t);
    if !Closed(s, t, call.channel, call.actor) { VisibleBetween(s, t, t, call.channel, call.actor); }
  }

  /** And so was a check of the message replied to. */
  lemma ReplyJustified(s: System, t: System, r: Id, call: Call, error: Error)
    requires Later(s, t) && call.Post? && call.replyTo.Some? && r in t.requests && t.requests[r].call == call
    requires MessageRepo.Answers(t, r, Failed(error))
    requires if error == StoreError then !t.requests[r].alive else RefusesSource(t, call, error)
    ensures Justified(s, t, r, call, Failed(error))
  {
    var target := call.replyTo.value;
    if error != StoreError {
      if target !in t.messages { TargetThere(s, t, target); }
      else if target in s.messages { RevisionAdvances(s, t, target); }
    }
  }

  /** After the checks, the message is built and handed to the repository. */
  method Save(db: Database, r: Id, call: Call, now: Time) returns (answer: Outcome)
    requires db.Valid() && r != 0 && MessageRepo.StandsAt(db.View(), r, Lookup) && db.requests[r].call == call
             && call.Post?
    modifies db
    ensures db.Valid() && Later(old(db.View()), db.View())
    ensures MessageRepo.PostAnswers(db.View(), r, answer) && db.requests[r].call == call
    ensures answer.Posted? && answer.created ==> MessageRepo.Dated(db.View(), r, now)
  {
    var msg := Message(r, call.channel, call.actor, if call.ai then AI else User, call.clientId, call.hash,
                       call.contentType, call.content, 0, if call.replyTo.Some? then call.replyTo.value else 0,
                       1, None);
    answer := MessageRepo.Create(db, r, msg, now);
  }

  method Create(db: Database, r: Id, actor: string, channel: Id, wellFormed: bool, clientId: string,
                contentType: string, content: string, replyTo: Option<Id>, hash: string, now: Time)
    returns (answer: Outcome)
    requires db.Valid() && r != 0 && r !in db.requests
    modifies db
    ensures db.Valid() && Later(old(db.View()), db.View())
    ensures Justified(old(db.View()), db.View(), r,
                      Post(false, actor, channel, wellFormed, clientId, contentType, content, replyTo, hash), answer)
    ensures answer.Posted? ==> wellFormed
    ensures answer.Posted? && answer.created ==> MessageRepo.Dated(db.View(), r, now)
  {
    ghost var s0 := db.View();
    var call := Post(false, actor, channel, wellFormed, clientId, contentType, content, replyTo, hash);
    db.Begin(r, call);
    ghost var s1 := db.View();
    var error := CheckChannel(db, r, call);
    LaterTransitive(s0, s1, db.View());
    if error.Some? {
      ChannelJustified(s0, db.View(), r, call, error.value);
      return Failed(error.value);
    }
    if replyTo.Some? {
      s1 := db.View();
      error := CheckReply(db, r, call);
      LaterTransitive(s0, s1, db.View());
      if error.Some? {
        ReplyJustified(s0, db.View(), r, call, error.value);
        return Failed(error.value);
      }
    }
    s1 := db.View();
    answer := Save(db, r, call, now);
    LaterTransitive(s0, s1, db.View());
    RepoJustified(s0, s1, db.View(), r, answer);
  }

  /** An AI reply speaks for a participant, and always answers the other one's own words. */
  method CreateAIReply(db: Database, r: Id, channel: Id, photographer: string, wellFormed: bool, clientId: string,
                       content: string, source: Option<Id>, hash: string, now: Time)
    returns (answer: Outcome)
    requires db.Valid() && r != 0 && r !in db.requests
    modifies db
    ensures db.Valid() && Later(old(db.View()), db.View())
    ensures Justified(old(db.View()), db.View(), r,
                      Post(true, photographer, channel, wellFormed, clientId, "text", content, source, hash), answer)
    ensures answer.Posted? ==> wellFormed
    ensures answer.Posted? && answer.created ==> MessageRepo.Dated(db.View(), r, now)
  {
    ghost var s0 := db.View();
    var call := Post(true, photographer, channel, wellFormed, clientId, "text", content, source, hash);
    db.Begin(r, call);
    ghost var s1 := db.View();
    if !wellFormed || source.None? {
      assert GuardChannelStep(s1, r) == Fail(s1, r, Invalid);
      db.Refuse(r);
      LaterTransitive(s0, s1, db.View());
      return Failed(Invalid);
    }
    var error := CheckChannel(db, r, call);
    LaterTransitive(s0, s1, db.View());
    if error.Some? {
      ChannelJustified(s0, db.View(), r, call, error.value);
      return Failed(error.value);
    }
    s1 := db.View();
    error := CheckReply(db, r, call);
    LaterTransitive(s0, s1, db.View());
    if error.Some? {
      ReplyJustified(s0, db.View(), r, call, error.value);
      return Failed(error.value);
    }
    s1 := db.View();
    answer := Save(db, r, call, now);
    LaterTransitive(s0, s1, db.View());
    RepoJustified(s0, s1, db.View(), r, answer);
  }

  // ---------- edits and recalls ----------

  /** Why a change is refused: someone else sent the message, which only somebody who may see its
      channel learns; or it, or its channel, is not there for the actor. */
  ghost predicate ChangeRefused(s: System, t: System, call: Call, error: Error)
    requires call.Mutate?
  {
    if error == Forbidden then
      call.target in s.messages ==>
        && s.messages[call.target].senderId != call.actor
        && Visible(t, s.messages[call.target].channelId, call.actor)
    else error == NotFound
         && (call.target in s.messages ==> Closed(s, t, s.messages[call.target].channelId, call.actor))
  }

  /** Nobody changed the message between `s` and `t`, and it is not recalled. */
  ghost predicate Untouched(s: System, t: System, m: Id) {
    && m in s.messages && s.messages[m].recalledAt.None?
    && m in t.messages && t.messages[m].revision == s.messages[m].revision
  }

  /** What a change of the message leads to, if it was recalled or not when it was seen. */
  function AfterAuthorized(seen: Message, change: Change): Pc {
    if seen.recalledAt.None? then Swap(seen)
    else if change.Edit? then Done(Failed(Conflict(StaleRevision))) else Done(Mutated(seen))
  }

  /** `seen` is the message `m` as it was stored at `s` or afterwards. */
  ghost predicate SeenSince(s: System, m: Id, seen: Message) {
    seen.id == m && (m in s.messages ==> SameIdentity(s.messages[m], seen) && s.messages[m].revision <= seen.revision
                                         && (s.messages[m].revision == seen.revision ==> s.messages[m] == seen)
                                         && (s.messages[m].recalledAt.Some? ==> s.messages[m] == seen))
  }

  lemma SeenLater(s: System, t: System, m: Id)
    requires Later(s, t) && m in t.messages
    ensures SeenSince(s, m, t.messages[m])
  {
    LaterFits(s, t);
    StoredId(t, m);
    if m in s.messages {
      RevisionAdvances(s, t, m);
      if s.messages[m].recalledAt.Some? { RecalledIsFrozen(s, t, m); }
      LastRevision(s, m);
      LastRevision(t, m);
      assert History(s.revisions, m) <= History(t.revisions, m);
    }
  }

  /** The stored message is `seen` or a later revision of it. */
  ghost predicate AtLeast(s: System, seen: Message) {
    seen.id in s.messages ==> s.messages[seen.id].revision >= seen.revision
  }

  lemma AtLeastStays(s: System, t: System, m: Id)
    requires Later(s, t) && m in s.messages
    ensures AtLeast(t, s.messages[m])
  {
    StoredId(s, m);
    if m in t.messages { RevisionAdvances(s, t, m); }
  }

  /** The message to change. */
  method GetTarget(db: Database, r: Id, call: Call) returns (error: Option<Error>, seen: Option<Message>)
    requires db.Valid() && r != 0 && MessageRepo.StandsAt(db.View(), r, Authorize) && db.requests[r].call == call
    requires call.Mutate? && (call.change.Edit? ==> call.change.wellFormed)
    modifies db
    ensures db.Valid() && Later(old(db.View()), db.View())
    ensures r in db.requests && db.requests[r].call == call
    ensures if error.None? then
              && seen.Some? && call.target in db.messages && db.messages[call.target] == seen.value
              && SeenSince(old(db.View()), call.target, seen.value)
              && MessageRepo.StandsAt(db.View(), r, AuthorizeChannel(seen.value))
            else
              && MessageRepo.Answers(db.View(), r, Failed(error.value))
              && if error.value == StoreError then !db.requests[r].alive
                 else error.value == NotFound && ChangeRefused(old(db.View()), db.View(), call, NotFound)
  {
    ghost var s0 := db.View();
    seen := None;
    var up := db.Interfere(r);
    if !up { return Some(StoreError), None; }
    ghost var s1 := db.View();
    seen := db.GetMessage(r, call.target);
    LaterTransitive(s0, s1, db.View());
    if seen.None? {
      TargetThere(s0, s1, call.target);
      return Some(NotFound), None;
    }
    SeenLater(s0, s1, call.target);
    error := None;
  }

  lemma AuthorizeEnds(s: System, r: Id, seen: Message)
    requires r in s.requests && s.requests[r].call.Mutate?
    ensures var call := s.requests[r].call;
            AuthorizeChannelStep(s, r, seen) ==
            Goto(s, r, if !Visible(s, seen.channelId, call.actor) then Done(Failed(NotFound))
                       else if seen.senderId != call.actor then Done(Failed(Forbidden))
                       else AfterAuthorized(seen, call.change))
  {
  }

  /** The channel of the message must be open to the actor, and the actor its sender. */
  method CheckOwner(db: Database, r: Id, call: Call, seen: Message) returns (error: Option<Error>)
    requires db.Valid() && r != 0 && MessageRepo.StandsAt(db.View(), r, AuthorizeChannel(seen))
    requires call.Mutate? && db.requests[r].call == call
    modifies db
    ensures db.Valid() && Later(old(db.View()), db.View())
    ensures r in db.requests && db.requests[r].call == call
    ensures if error.None? then
              && seen.senderId == call.actor && Visible(db.View(), seen.channelId, call.actor)
              && MessageRepo.StandsAt(db.View(), r, AfterAuthorized(seen, call.change))
            else
              && MessageRepo.Answers(db.View(), r, Failed(error.value))
              && if error.value == StoreError then !db.requests[r].alive
                 else if error.value == NotFound then !Visible(db.View(), seen.channelId, call.actor)
                 else error.value == Forbidden && seen.senderId != call.actor
                      && Visible(db.View(), seen.channelId, call.actor)
  {
    ghost var s0 := db.View();
    var up := db.Interfere(r);
    if !up { return Some(StoreError); }
    ghost var s1 := db.View();
    AuthorizeEnds(s1, r, seen);
    var ch := db.GetChannelOf(r, seen);
    LaterTransitive(s0, s1, db.View());
    if !Admits(ch, call.actor) { return Some(NotFound); }
    if seen.senderId != call.actor { return Some(Forbidden); }
    error := None;
  }

  /** Only the sender, and only through a channel open to them, gets past here. */
  method Authorized(db: Database, r: Id, call: Call) returns (error: Option<Error>, seen: Option<Message>)
    requires db.Valid() && r != 0 && MessageRepo.StandsAt(db.View(), r, Authorize) && db.requests[r].call == call
    requires call.Mutate? && (call.change.Edit? ==> call.change.wellFormed)
    modifies db
    ensures db.Valid() && Later(old(db.View()), db.View())
    ensures r in db.requests && db.requests[r].call == call
    ensures if error.None? then
              && seen.Some? && SeenSince(old(db.View()), call.target, seen.value) && AtLeast(db.View(), seen.value)
              && seen.value.senderId == call.actor && Visible(db.View(), seen.value.channelId, call.actor)
              && MessageRepo.StandsAt(db.View(), r, AfterAuthorized(seen.value, call.change))
            else
              && MessageRepo.Answers(db.View(), r, Failed(error.value))
              && if error.value == StoreError then !db.requests[r].alive
                 else ChangeRefused(old(db.View()), db.View(), call, error.value)
  {
    ghost var s0 := db.View();
    error, seen := GetTarget(db, r, call);
    if error.Some? { return; }
    ghost var s1 := db.View();
    error := CheckOwner(db, r, call, seen.value);
    LaterTransitive(s0, s1, db.View());
    AtLeastStays(s1, db.View(), call.target);
    if error == Some(NotFound) { HiddenFrom(s0, db.View(), call); }
  }

  lemma TargetThere(s: System, t: System, m: Id)
    requires Later(s, t) && m !in t.messages
    ensures m !in s.messages || !Active(t, s.messages[m].channelId)
  {
    LaterFits(s, t);
    assert m in s.messages ==> MessageEvolves(s, t, m);
  }

  lemma HiddenFrom(s: System, t: System, call: Call)
    requires Later(s, t) && call.Mutate?
    requires call.target in s.messages ==> !Visible(t, s.messages[call.target].channelId, call.actor)
    ensures ChangeRefused(s, t, call, NotFound)
  {
    LaterFits(s, t);
    LaterSelf(t);
    if call.target in s.messages && !Closed(s, t, s.messages[call.target].channelId, call.actor) {
      VisibleBetween(s, t, t, s.messages[call.target].channelId, call.actor);
    }
  }

  /** The answer to a change that arrived at `s` and was answered at `t`: one revision made of
      the message as it was stored, and announced, or a message recalled before; or a reason. */
  ghost predicate ChangeJustified(s: System, t: System, r: Id, call: Call, now: Time, answer: Outcome)
    requires call.Mutate?
  {
    && MessageRepo.Answers(t, r, answer) && t.requests[r].call == call
    && if answer.Mutated? then
         exists seen :: SeenSince(s, call.target, seen) && ChangeMeans(t, r, call, seen, now, answer.message)
       else
         && answer.Failed?
         && if answer.error == StoreError then !t.requests[r].alive
            else if answer.error == Invalid then call.change.Edit? && !call.change.wellFormed
            else if answer.error == Conflict(StaleRevision) then
              !Untouched(s, t, call.target)
              && (call.change.Recall? && call.target in s.messages ==> s.messages[call.target].recalledAt.None?)
            else ChangeRefused(s, t, call, answer.error)
  }

  /** The message `m` is what the call makes of `seen`, and was stored so. */
  ghost predicate ChangeMeans(t: System, r: Id, call: Call, seen: Message, now: Time, m: Message)
    requires call.Mutate?
  {
    && Seen(t, m)
    && if seen.recalledAt.Some? then call.change.Recall? && m == seen
       else AsChanged(seen, call.change, now, m) && Overtaken(t, seen)
            && ChangeAnnounced(t, r, call.change, m) && MessageRepo.Dated(t, r, now)
  }

  lemma MutatedIsStored(t: System, r: Id)
    requires IsReachable(t) && r in t.requests && t.requests[r].call.Mutate?
    requires t.requests[r].pc.Done? && t.requests[r].pc.outcome.Mutated?
    ensures Seen(t, t.requests[r].pc.outcome.message)
  {
    ReachableFits(t);
    assert RequestFits(t, r);
  }

  /** A failed swap means somebody else's change, not only a later one. */
  lemma OvertakenTouched(s: System, t: System, seen: Message)
    requires Later(s, t) && SeenSince(s, seen.id, seen)
    requires Overtaken(t, seen) || (seen.recalledAt.Some? && AtLeast(t, seen))
    ensures !Untouched(s, t, seen.id)
  {
  }

  lemma InactiveForbids(s: System, t: System, call: Call, seen: Message)
    requires call.Mutate? && SeenSince(s, call.target, seen) && !Active(t, seen.channelId)
    ensures ChangeRefused(s, t, call, NotFound)
  {
  }

  /** From the checks to the answer. */
  method ApplyChange(db: Database, r: Id, call: Call, now: Time) returns (answer: Outcome)
    requires db.Valid() && r != 0 && MessageRepo.StandsAt(db.View(), r, Authorize) && db.requests[r].call == call
    requires call.Mutate? && (call.change.Edit? ==> call.change.wellFormed)
    modifies db
    ensures db.Valid() && Later(old(db.View()), db.View())
    ensures ChangeJustified(old(db.View()), db.View(), r, call, now, answer)
  {
    ghost var s0 := db.View();
    var error, seen := Authorized(db, r, call);
    if error.Some? { return Failed(error.value); }
    if seen.value.recalledAt.Some? {
      if call.change.Edit? {
        OvertakenTouched(s0, db.View(), seen.value);
        return Failed(Conflict(StaleRevision));
      }
      MutatedIsStored(db.View(), r);
      assert ChangeMeans(db.View(), r, call, seen.value, now, seen.value);
      return Mutated(seen.value);
    }
    ghost var s1 := db.View();
    answer := MessageRepo.Mutate(db, r, seen.value, call.change, now);
    LaterTransitive(s0, s1, db.View());
    if answer.Mutated? {
      MutatedIsStored(db.View(), r);
      assert ChangeMeans(db.View(), r, call, seen.value, now, answer.message);
    } else if answer.error == Conflict(StaleRevision) {
      OvertakenTouched(s0, db.View(), seen.value);
    } else if answer.error == NotFound {
      InactiveForbids(s0, db.View(), call, seen.value);
    }
  }

  method Edit(db: Database, r: Id, actor: string, target: Id, content: string, wellFormed: bool, now: Time)
    returns (answer: Outcome)
    requires db.Valid() && r != 0 && r !in db.requests
    modifies db
    ensures db.Valid() && Later(old(db.View()), db.View())
    ensures answer == Failed(Invalid) <==> !wellFormed
    ensures ChangeJustified(old(db.View()), db.View(), r, Mutate(actor, target, Change.Edit(content, wellFormed)),
                            now, answer)
  {
    ghost var s0 := db.View();
    var call := Mutate(actor, target, Change.Edit(content, wellFormed));
    db.Begin(r, call);
    ghost var s1 := db.View();
    if !wellFormed {
      assert AuthorizeStep(s1, r) == Fail(s1, r, Invalid);
      db.Refuse(r);
      LaterTransitive(s0, s1, db.View());
      return Failed(Invalid);
    }
    answer := ApplyChange(db, r, call, now);
    LaterTransitive(s0, s1, db.View());
  }

  method Recall(db: Database, r: Id, actor: string, target: Id, now: Time) returns (answer: Outcome)
    requires db.Valid() && r != 0 && r !in db.requests
    modifies db
    ensures db.Valid() && Later(old(db.View()), db.View())
    ensures ChangeJustified(old(db.View()), db.View(), r, Mutate(actor, target, Change.Recall), now, answer)
  {
    ghost var s0 := db.View();
    var call := Mutate(actor, target, Change.Recall);
    db.Begin(r, call);
    ghost var s1 := db.View();
    answer := ApplyChange(db, r, call, now);
    LaterTransitive(s0, s1, db.View());
  }

  // ---------- reads ----------

  /** The answer to a read that arrived at `s` and was answered at `t`. */
  ghost predicate ReadJustified(s: System, t: System, r: Id, call: Call, answer: Outcome)
    requires call.Read?
  {
    && MessageRepo.Answers(t, r, answer) && t.requests[r].call == call
    && if answer.CursorAt? then
         && MessageRepo.ReadAnswers(t, r, call.channel, call.actor, answer)
         && MessageRepo.CursorWas(s, t, CursorKey(call), answer.lastRead)
         && (CursorKey(call) in s.states ==> call.position <= answer.lastRead)
         && 0 <= call.position && call.channel in t.channels && IsParticipant(t.channels[call.channel], call.actor)
         && call.position <= t.channels[call.channel].lastMessageSeq
       else
         && answer.Failed?
         && if answer.error == StoreError then !t.requests[r].alive
            else if answer.error == NotFound then !(Visible(s, call.channel, call.actor) && Active(t, call.channel))
            else answer.error == Invalid && Visible(t, call.channel, call.actor)
                 && !(call.channel in s.channels && 0 <= call.position <= s.channels[call.channel].lastMessageSeq)
  }

  lemma CursorWasEarlier(s: System, t: System, u: System, key: (Id, string), position: int)
    requires Later(s, t) && MessageRepo.CursorWas(t, u, key, position)
    ensures MessageRepo.CursorWas(s, u, key, position)
  {
    var v :| Later(t, v) && Later(v, u) && key in v.states && v.states[key] == position;
    LaterTransitive(s, t, v);
  }

  lemma ReadKnows(t: System, r: Id)
    requires IsReachable(t) && r in t.requests && t.requests[r].call.Read? && t.requests[r].pc.UpsertMatch?
    ensures var call := t.requests[r].call;
            && 0 <= call.position && call.channel in t.channels && IsParticipant(t.channels[call.channel], call.actor)
            && call.position <= t.channels[call.channel].lastMessageSeq
  {
    ReachableFits(t);
    assert RequestFits(t, r);
  }

  lemma ChannelKept(s: System, t: System, c: Id)
    requires Later(s, t) && c in s.channels
    ensures c in t.channels && ChannelEvolves(s.channels[c], t.channels[c])
  {
    LaterFits(s, t);
  }

  /** A read is of a channel open to its user, at a position the channel has. */
  method CheckRead(db: Database, r: Id, call: Call) returns (error: Option<Error>)
    requires db.Valid() && r != 0 && MessageRepo.StandsAt(db.View(), r, GuardRead) && db.requests[r].call == call
    requires call.Read?
    modifies db
    ensures db.Valid() && Later(old(db.View()), db.View())
    ensures r in db.requests && db.requests[r].call == call
    ensures if error.None? then
              && Visible(db.View(), call.channel, call.actor)
              && 0 <= call.position <= db.channels[call.channel].lastMessageSeq
              && MessageRepo.StandsAt(db.View(), r, UpsertMatch)
            else
              && MessageRepo.Answers(db.View(), r, Failed(error.value))
              && if error.value == StoreError then !db.requests[r].alive
                 else if error.value == NotFound then !Visible(db.View(), call.channel, call.actor)
                 else error.value == Invalid && Visible(db.View(), call.channel, call.actor)
                      && !(0 <= call.position <= db.channels[call.channel].lastMessageSeq)
  {
    ghost var s0 := db.View();
    var up := db.Interfere(r);
    if !up { return Some(StoreError); }
    ghost var s1 := db.View();
    var ch := db.GetChannelForRead(r, call.channel);
    LaterTransitive(s0, s1, db.View());
    if !Admits(ch, call.actor) { return Some(NotFound); }
    if call.position < 0 || call.position > ch.value.lastMessageSeq { return Some(Invalid); }
    error := None;
  }

  method Read(db: Database, r: Id, actor: string, channel: Id, position: int, now: Time) returns (answer: Outcome)
    requires db.Valid() && r != 0 && r !in db.requests
    modifies db
    ensures db.Valid() && Later(old(db.View()), db.View())
    ensures ReadJustified(old(db.View()), db.View(), r, Call.Read(actor, channel, position), answer)
    ensures answer.CursorAt? && db.requests[r].base == 1 ==> MessageRepo.Dated(db.View(), r, now)
  {
    ghost var s0 := db.View();
    var call := Call.Read(actor, channel, position);
    db.Begin(r, call);
    ghost var s1 := db.View();
    var error := CheckRead(db, r, call);
    LaterTransitive(s0, s1, db.View());
    if channel in s0.channels { ChannelKept(s0, db.View(), channel); }
    if error.Some? { return Failed(error.value); }
    s1 := db.View();
    ReadKnows(s1, r);
    if CursorKey(call) in s0.states { CursorKept(s0, s1, CursorKey(call)); }
    answer := MessageRepo.Read(db, r, channel, actor, position, now);
    LaterTransitive(s0, s1, db.View());
    ChannelKept(s1, db.View(), channel);
    if answer.CursorAt? { CursorWasEarlier(s0, s1, db.View(), CursorKey(call), answer.lastRead); }
  }
}
