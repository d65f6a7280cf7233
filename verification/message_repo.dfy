/** The message repository: the Mongo calls of each operation, in the order the code makes
    them, with everything else the service does in between. */
module MessageRepo {
  import opened Schema
  import opened ChatSystem
  import opened ChatInvariant
  import opened ChatReach
  import opened ChatTheorems
  import opened ChatAnswers
  import opened Mongo

  /** What the caller of request `r` is told: the outcome the request ended with, or an error
      when it was cut short. */
  ghost predicate Answers(s: System, r: Id, answer: Outcome) {
    r in s.requests && if s.requests[r].alive then s.requests[r].pc == Done(answer) else answer.Failed?
  }

  /** A post's answer, and if it failed, why. */
  ghost predicate PostAnswers(s: System, r: Id, answer: Outcome) {
    && Answers(s, r, answer) && s.requests[r].call.Post?
    && (answer.Posted? || (answer.Failed? && PostExcused(s, r, answer.error)))
  }

  /** The request is running and stands at `pc`. */
  ghost predicate StandsAt(s: System, r: Id, pc: Pc) {
    r in s.requests && s.requests[r].alive && s.requests[r].pc == pc
  }

  /** The stored message with the request's key answers the request, if the hash is the same. */
  function Repeat(found: Message, hash: string): Outcome {
    if found.hash != hash then Failed(Conflict(HashMismatch)) else Posted(found, false)
  }

  /** Sequences start at 1, so 0 can mean that none was taken. */
  lemma InsertPositive(s: System, r: Id)
    requires IsReachable(s) && r in s.requests && s.requests[r].call.Post? && s.requests[r].pc.Insert?
    ensures s.requests[r].pc.sequence > 0
  {
    ReachableFits(s);
    assert RequestFits(s, r);
  }

  lemma FindChannelEnds(s: System, r: Id)
    requires r in s.requests && s.requests[r].call.Post? && s.requests[r].pc.FindChannel?
    ensures var q := s.requests[r];
            var c := q.call.channel;
            FindChannelStep(s, r, q.pc.attempt, q.pc.mark) ==
            Goto(s, r, if !Visible(s, c, q.call.actor) then Done(Failed(NotFound))
                       else FindLatest(q.pc.attempt, q.pc.mark, s.channels[c].lastMessageSeq))
  {
  }

  lemma FindLatestEnds(s: System, r: Id, doc: Id)
    requires r in s.requests && s.requests[r].call.Post? && s.requests[r].pc.FindLatest?
    requires AnswersLatest(s, s.requests[r].call.channel, doc)
    ensures var pc := s.requests[r].pc;
            FindLatestStep(s, r, pc.attempt, pc.mark, pc.summary, doc) ==
            Goto(s, r, Insert(pc.attempt, pc.mark, Newest(s, pc.summary, doc) + 1))
  {
  }

  /** The sequence after the newest message, going by the summary and by the messages. */
  method NextSequence(db: Database, r: Id) returns (ended: Option<Outcome>, sequence: int)
    requires db.Stepping(r) && r != 0 && db.requests[r].call.Post? && db.requests[r].pc.FindChannel?
    modifies db
    ensures db.Valid() && Later(old(db.View()), db.View())
    ensures r in db.requests && db.requests[r].call == old(db.requests[r].call)
    ensures if ended.Some? then PostAnswers(db.View(), r, ended.value)
            else StandsAt(db.View(), r, Insert(old(db.requests[r].pc.attempt), old(db.requests[r].pc.mark), sequence))
                 && sequence > 0
    ensures ended.Some? ==> ended.value.Failed?
  {
    ghost var s0 := db.View();
    sequence := 0;
    var up := db.Interfere(r);
    if !up { return Some(Failed(StoreError)), 0; }
    ghost var s1 := db.View();
    FindChannelEnds(s1, r);
    var ch := db.FindActiveChannel(r);
    LaterTransitive(s0, s1, db.View());
    if ch.None? {
      HiddenIsInactive(s1, r);
      return Some(Failed(NotFound)), 0;
    }
    s1 := db.View();
    up := db.Interfere(r);
    LaterTransitive(s0, s1, db.View());
    if !up { return Some(Failed(StoreError)), 0; }
    s1 := db.View();
    sequence := ch.value.lastMessageSeq;
    var latest, doc := db.FindLatestMessage(r);
    FindLatestEnds(s1, r, doc);
    LaterTransitive(s0, s1, db.View());
    if latest.Some? && latest.value.sequence > sequence { sequence := latest.value.sequence; }
    sequence := sequence + 1;
    InsertPositive(db.View(), r);
    ended := None;
  }

  lemma RecheckEnds(s: System, r: Id, attempt: nat, doc: Id)
    requires r in s.requests && s.requests[r].call.Post?
    requires var call := s.requests[r].call; AnswersKey(s, call.channel, call.actor, call.clientId, doc)
    ensures RecheckStep(s, r, attempt, doc) ==
            Goto(s, r, if doc != 0 then Done(Repeat(s.messages[doc], s.requests[r].call.hash))
                       else AfterAttempt(s, s.requests[r].call.channel, attempt))
  {
    if doc != 0 { ExistingRepeats(s, r, doc); }
  }

  lemma LookupEnds(s: System, r: Id, doc: Id)
    requires r in s.requests && s.requests[r].call.Post?
    requires var call := s.requests[r].call; AnswersKey(s, call.channel, call.actor, call.clientId, doc)
    ensures LookupStep(s, r, doc) ==
            Goto(s, r, if doc != 0 then Done(Repeat(s.messages[doc], s.requests[r].call.hash))
                       else FindChannel(0, |History(s.born, s.requests[r].call.channel)|))
  {
    if doc != 0 { ExistingRepeats(s, r, doc); }
  }

  lemma ExistingRepeats(s: System, r: Id, doc: Id)
    requires r in s.requests && s.requests[r].call.Post? && doc in s.messages
    ensures ChatSystem.Existing(s, r, doc) == Goto(s, r, Done(Repeat(s.messages[doc], s.requests[r].call.hash)))
  {
  }

  /** The look for the request's own message, before ids are drawn. */
  method Existing(db: Database, r: Id, hash: string) returns (ended: Option<Outcome>)
    requires db.Stepping(r) && r != 0 && db.requests[r].call.Post? && hash == db.requests[r].call.hash
    requires db.requests[r].pc.Lookup?
    modifies db
    ensures db.Valid() && Later(old(db.View()), db.View())
    ensures r in db.requests && db.requests[r].call == old(db.requests[r].call)
    ensures ended.Some? && ended.value.Posted? ==> !ended.value.created
    ensures if ended.Some? then PostAnswers(db.View(), r, ended.value)
            else db.Stepping(r) && db.requests[r].pc.FindChannel? && db.requests[r].pc.attempt == 0
  {
    ghost var s0 := db.View();
    var up := db.Interfere(r);
    if !up { return Some(Failed(StoreError)); }
    ghost var s1 := db.View();
    var own, doc := db.FindOwnMessage(r);
    LookupEnds(s1, r, doc);
    LaterTransitive(s0, s1, db.View());
    ended := if own.Some? then Some(Repeat(own.value, hash)) else None;
  }

  /** The look for the request's own message after a duplicate key. */
  method ExistingAfterDuplicate(db: Database, r: Id, hash: string) returns (ended: Option<Outcome>)
    requires db.Stepping(r) && r != 0 && db.requests[r].call.Post? && hash == db.requests[r].call.hash
    requires db.requests[r].pc.Recheck?
    modifies db
    ensures db.Valid() && Later(old(db.View()), db.View())
    ensures r in db.requests && db.requests[r].call == old(db.requests[r].call)
    ensures ended.Some? && ended.value.Posted? ==> !ended.value.created
    ensures if ended.Some? then PostAnswers(db.View(), r, ended.value)
            else db.Stepping(r) && AfterRound(db.requests[r].pc, old(db.requests[r].pc.attempt))
  {
    ghost var s0 := db.View();
    var up := db.Interfere(r);
    if !up { return Some(Failed(StoreError)); }
    ghost var s1 := db.View();
    var own, doc := db.FindOwnMessageAgain(r);
    RecheckEnds(s1, r, s1.requests[r].pc.attempt, doc);
    LaterTransitive(s0, s1, db.View());
    ended := if own.Some? then Some(Repeat(own.value, hash)) else None;
  }

  /** Where a round that found nothing leaves the request. */
  ghost predicate AfterRound(pc: Pc, attempt: int) {
    if attempt + 1 < MAX_ATTEMPTS then pc.FindChannel? && pc.attempt == attempt + 1
    else pc == Done(Failed(Conflict(RetriesExhausted)))
  }

  /** One round of the allocation loop. A message with sequence 0 means a duplicate key that
      was not the request's own message. */
  method Attempt(db: Database, r: Id, msg: Message, attempt: nat) returns (ended: Option<Outcome>, stored: Message)
    requires db.Stepping(r) && r != 0 && db.requests[r].call.Post? && msg == Draft(r, db.requests[r].call, 0)
    requires db.requests[r].pc.FindChannel? && db.requests[r].pc.attempt == attempt
    modifies db
    ensures db.Valid() && Later(old(db.View()), db.View())
    ensures r in db.requests && db.requests[r].call == old(db.requests[r].call)
    ensures ended.Some? && ended.value.Posted? ==> !ended.value.created
    ensures if ended.Some? then PostAnswers(db.View(), r, ended.value)
            else if stored.sequence != 0 then StandsAt(db.View(), r, Summarize(stored))
              && stored == msg.(sequence := stored.sequence)
            else stored == msg && db.Stepping(r) && AfterRound(db.requests[r].pc, attempt)
  {
    ghost var s0 := db.View();
    stored := msg;
    var sequence;
    ended, sequence := NextSequence(db, r);
    if ended.Some? { return; }
    ghost var s1 := db.View();
    var up := db.Interfere(r);
    LaterTransitive(s0, s1, db.View());
    if !up { return Some(Failed(StoreError)), msg; }
    s1 := db.View();
    var candidate := msg.(sequence := sequence);
    var duplicate := db.InsertMessage(r, candidate);
    LaterTransitive(s0, s1, db.View());
    if !duplicate { return None, candidate; }
    s1 := db.View();
    ended := ExistingAfterDuplicate(db, r, msg.hash);
    LaterTransitive(s0, s1, db.View());
  }

  /** The event of request `r` is dated `now`, which decides its turn among the channels. */
  ghost predicate Dated(s: System, r: Id, now: Time) {
    r in s.outbox && s.outbox[r].createdAt == now
  }

  /** The last call of a request that writes: insert the event it holds. */
  method InsertOutbox(db: Database, r: Id, event: Event, now: Time, ghost answer: Outcome) returns (stored: bool)
    requires db.Valid() && r != 0 && StandsAt(db.View(), r, Emit(event, answer)) && !db.requests[r].call.Open?
    modifies db
    ensures db.Valid() && Later(old(db.View()), db.View())
    ensures r in db.requests && db.requests[r].call == old(db.requests[r].call)
    ensures db.requests[r].base == old(db.requests[r].base) && db.requests[r].alive == stored
    ensures stored ==> db.requests[r].pc == Done(answer) && r in db.outbox
                       && db.outbox[r] == OutboxDoc(event, event.channelId, now)
  {
    ghost var s0 := db.View();
    stored := db.Interfere(r);
    if !stored { return; }
    ghost var s1 := db.View();
    db.InsertEvent(r, event, now);
    LaterTransitive(s0, s1, db.View());
  }

  /** The message of a post whose channel is no longer active is deleted, if that call works. */
  method TakeBack(db: Database, r: Id)
    requires db.Valid() && r != 0 && StandsAt(db.View(), r, Rollback) && db.requests[r].call.Post?
    requires var c := db.requests[r].call.channel; c in db.channels && !db.channels[c].active
    modifies db
    ensures db.Valid() && Later(old(db.View()), db.View())
    ensures r in db.requests && db.requests[r].call == old(db.requests[r].call)
    ensures PostAnswers(db.View(), r, Failed(NotFound))
  {
    ghost var s0 := db.View();
    var up := db.Interfere(r);
    if up {
      ghost var s1 := db.View();
      db.DeleteMessage(r);
      LaterTransitive(s0, s1, db.View());
    }
    InactiveStays(s0, db.View(), s0.requests[r].call.channel);
  }

  lemma SummarizeEnds(s: System, r: Id, m: Message)
    requires r in s.requests && s.requests[r].call.Post?
    ensures var call := s.requests[r].call;
            var c := call.channel;
            SummarizeStep(s, r, m).requests ==
            s.requests[r := s.requests[r].(pc :=
              if !Visible(s, c, call.actor) then Rollback
              else Emit(Event(r, MessageCreated, c, s.channels[c].lastEventVersion + 1, s.channels[c].participants,
                              MessageBody(PayloadOf(m))), Posted(m, true)))]
  {
    var call := s.requests[r].call;
    if !Visible(s, call.channel, call.actor) {
      assert SummarizeStep(s, r, m) == Goto(s, r, Rollback);
    } else {
      assert SummarizeStep(s, r, m) == TakeVersion(s, r, call.channel, MaxMerged(s.channels[call.channel], m),
                                                   MessageCreated, MessageBody(PayloadOf(m)), Posted(m, true));
    }
  }

  /** The summary update, the rollback when the channel is gone, and the created event. */
  method Finish(db: Database, r: Id, msg: Message, now: Time) returns (answer: Outcome)
    requires db.Valid() && r != 0 && StandsAt(db.View(), r, Summarize(msg)) && db.requests[r].call.Post?
    requires db.requests[r].call.channel == msg.channelId
    modifies db
    ensures db.Valid() && Later(old(db.View()), db.View())
    ensures r in db.requests && db.requests[r].call == old(db.requests[r].call)
    ensures PostAnswers(db.View(), r, answer)
    ensures answer.Posted? ==> Dated(db.View(), r, now)
  {
    ghost var s0 := db.View();
    var up := db.Interfere(r);
    if !up { return Failed(StoreError); }
    ghost var s1 := db.View();
    var ch := db.SummarizeChannel(r, msg);
    LaterTransitive(s0, s1, db.View());
    SummarizeEnds(s1, r, msg);
    if ch.None? {
      HiddenIsInactive(s1, r);
      s1 := db.View();
      TakeBack(db, r);
      LaterTransitive(s0, s1, db.View());
      return Failed(NotFound);
    }
    s1 := db.View();
    answer := AnnounceCreated(db, r, msg, ch.value, now);
    LaterTransitive(s0, s1, db.View());
  }

  /** The created event, at the version the summary update gave out. */
  method AnnounceCreated(db: Database, r: Id, msg: Message, ch: Channel, now: Time) returns (answer: Outcome)
    requires db.Valid() && r != 0 && r in db.requests && db.requests[r].call.Post?
    requires StandsAt(db.View(), r, Emit(Event(r, MessageCreated, msg.channelId, ch.lastEventVersion, ch.participants,
                                               MessageBody(PayloadOf(msg))), Posted(msg, true)))
    modifies db
    ensures db.Valid() && Later(old(db.View()), db.View())
    ensures r in db.requests && db.requests[r].call == old(db.requests[r].call)
    ensures PostAnswers(db.View(), r, answer)
    ensures answer.Posted? ==> Dated(db.View(), r, now)
  {
    var event := Event(r, MessageCreated, msg.channelId, ch.lastEventVersion, ch.participants,
                       MessageBody(PayloadOf(msg)));
    var up := InsertOutbox(db, r, event, now, Posted(msg, true));
    answer := if up then Posted(msg, true) else Failed(StoreError);
  }

  method Create(db: Database, r: Id, msg: Message, now: Time) returns (answer: Outcome)
    requires db.Stepping(r) && r != 0 && db.requests[r].call.Post? && db.requests[r].pc.Lookup?
    requires msg == Draft(r, db.requests[r].call, 0)
    modifies db
    ensures db.Valid() && Later(old(db.View()), db.View())
    ensures r in db.requests && db.requests[r].call == old(db.requests[r].call)
    ensures PostAnswers(db.View(), r, answer)
    ensures answer.Posted? && answer.created ==> Dated(db.View(), r, now)
  {
    ghost var s0 := db.View();
    var ended := Existing(db, r, msg.hash);
    if ended.Some? { return ended.value; }
    ghost var s1 := db.View();
    var stored;
    ended, stored := Allocate(db, r, msg);
    LaterTransitive(s0, s1, db.View());
    if ended.Some? { return ended.value; }
    s1 := db.View();
    answer := Finish(db, r, stored, now);
    LaterTransitive(s0, s1, db.View());
  }

  /** The optimistic allocation of a sequence: at most 64 rounds. */
  method Allocate(db: Database, r: Id, msg: Message) returns (ended: Option<Outcome>, stored: Message)
    requires db.Stepping(r) && r != 0 && db.requests[r].call.Post? && msg == Draft(r, db.requests[r].call, 0)
    requires db.requests[r].pc.FindChannel? && db.requests[r].pc.attempt == 0
    modifies db
    ensures db.Valid() && Later(old(db.View()), db.View())
    ensures r in db.requests && db.requests[r].call == old(db.requests[r].call)
    ensures ended.Some? && ended.value.Posted? ==> !ended.value.created
    ensures if ended.Some? then PostAnswers(db.View(), r, ended.value)
            else StandsAt(db.View(), r, Summarize(stored)) && stored == msg.(sequence := stored.sequence)
  {
    ghost var s0 := db.View();
    LaterSelf(s0);
    stored := msg;
    var attempt := 0;
    while attempt < 64 && stored.sequence == 0
      invariant 0 <= attempt <= 64
      invariant Later(s0, db.View()) && db.Stepping(r) && db.requests[r].call == s0.requests[r].call
      invariant stored.sequence == 0 ==> stored == msg && AfterRound(db.requests[r].pc, attempt - 1)
      invariant stored.sequence != 0 ==>
                StandsAt(db.View(), r, Summarize(stored)) && stored == msg.(sequence := stored.sequence)
      decreases 64 - attempt, stored.sequence == 0
    {
      ghost var s1 := db.View();
      ended, stored := Attempt(db, r, stored, attempt);
      LaterTransitive(s0, s1, db.View());
      if ended.Some? { return; }
      attempt := attempt + 1;
    }
    if stored.sequence == 0 {
      GaveUpMeans(db.View(), r);
      return Some(Failed(Conflict(RetriesExhausted))), stored;
    }
    ended := None;
  }

  // ---------- edits and recalls ----------

  /** A change's answer: the message as the change made it of what was seen, announced, or why
      not. Whatever happens later, what was seen is then no longer the newest. */
  ghost predicate ChangeAnswers(s: System, r: Id, seen: Message, change: Change, now: Time, answer: Outcome) {
    && Answers(s, r, answer)
    && if answer.Mutated? then
         AsChanged(seen, change, now, answer.message) && ChangeAnnounced(s, r, change, answer.message)
           && Overtaken(s, seen)
       else answer.Failed? && ChangeExcused(s, r, seen, answer.error)
  }

  /** The version increment after a swap, and the event. */
  method AnnounceChange(db: Database, r: Id, updated: Message, change: Change, now: Time) returns (answer: Outcome)
    requires db.Valid() && r != 0 && StandsAt(db.View(), r, Bump(updated))
    requires db.requests[r].call.Mutate? && db.requests[r].call.change == change
    modifies db
    ensures db.Valid() && Later(old(db.View()), db.View())
    ensures r in db.requests && db.requests[r].call == old(db.requests[r].call)
    ensures Answers(db.View(), r, answer)
    ensures if answer.Mutated? then answer == Mutated(updated) && ChangeAnnounced(db.View(), r, change, updated)
            else answer.Failed? && if answer.error == StoreError then !db.requests[r].alive
                 else answer.error == NotFound && !Active(db.View(), updated.channelId)
    ensures answer.Mutated? ==> Dated(db.View(), r, now)
  {
    ghost var s0 := db.View();
    var up := db.Interfere(r);
    if !up { return Failed(StoreError); }
    ghost var s1 := db.View();
    var ch := db.BumpForMutation(r, updated);
    LaterTransitive(s0, s1, db.View());
    if ch.None? { return Failed(NotFound); }
    s1 := db.View();
    var event := Event(r, if change.Edit? then MessageUpdated else MessageRecalled, updated.channelId,
                       ch.value.lastEventVersion, ch.value.participants, MessageBody(PayloadOf(updated)));
    up := InsertOutbox(db, r, event, now, Mutated(updated));
    LaterTransitive(s0, s1, db.View());
    answer := if up then Mutated(updated) else Failed(StoreError);
  }

  lemma SwapMoves(s: System, r: Id, seen: Message, change: Change, now: Time)
    requires r in s.requests && s.requests[r].alive && s.requests[r].call.Mutate? && s.requests[r].call.change == change
    ensures var t := SwapStep(s, r, seen, now);
            r in t.requests && t.requests[r].call == s.requests[r].call
            && StandsAt(t, r, if Swappable(s, seen) then Bump(Changed(s.messages[seen.id], change, now))
                              else Done(Failed(Conflict(StaleRevision))))
  {
    if Swappable(s, seen) {
      assert SwapStep(s, r, seen, now) == Revise(s, r, seen.id, Changed(s.messages[seen.id], change, now));
    } else {
      assert SwapStep(s, r, seen, now) == Fail(s, r, Conflict(StaleRevision));
    }
  }

  method Mutate(db: Database, r: Id, seen: Message, change: Change, now: Time) returns (answer: Outcome)
    requires db.Valid() && r != 0 && StandsAt(db.View(), r, Swap(seen))
    requires db.requests[r].call.Mutate? && db.requests[r].call.change == change
    modifies db
    ensures db.Valid() && Later(old(db.View()), db.View())
    ensures r in db.requests && db.requests[r].call == old(db.requests[r].call)
    ensures ChangeAnswers(db.View(), r, seen, change, now, answer)
    ensures answer.Mutated? ==> Dated(db.View(), r, now)
  {
    ghost var s0 := db.View();
    var up := db.Interfere(r);
    if !up { return Failed(StoreError); }
    ghost var s1 := db.View();
    SwapFinds(s1, r, seen);
    SwapMoves(s1, r, seen, change, now);
    var updated := db.SwapMessage(r, seen, change, now);
    LaterTransitive(s0, s1, db.View());
    if updated.None? { return Failed(Conflict(StaleRevision)); }
    s1 := db.View();
    answer := AnnounceChange(db, r, updated.value, change, now);
    LaterTransitive(s0, s1, db.View());
    OvertakenStays(s1, db.View(), seen);
  }

  // ---------- the read cursor ----------

  /** A read's answer: a position the cursor has reached, announced exactly if this request
      wrote it; or why there is none. */
  ghost predicate ReadAnswers(s: System, r: Id, c: Id, user: string, answer: Outcome) {
    && Answers(s, r, answer)
    && if answer.CursorAt? then
         && (c, user) in s.states && answer.lastRead <= s.states[(c, user)]
         && if s.requests[r].base == 1 then CursorAnnounced(s, r, c, user, answer.lastRead) else r !in s.outbox
       else answer.Failed? && if answer.error == StoreError then !s.requests[r].alive
            else answer.error == NotFound && !Active(s, c)
  }

  /** The cursor upsert. Mongo does it in two phases, and a second one that loses the race for
      the insert gets a duplicate key, which the code takes for someone else's advance. */
  method UpsertCursor(db: Database, r: Id, c: Id, user: string, position: int) returns (up: bool, advanced: bool)
    requires db.Valid() && r != 0 && StandsAt(db.View(), r, UpsertMatch)
             && db.requests[r].call == Call.Read(user, c, position)
    modifies db
    ensures db.Valid() && Later(old(db.View()), db.View())
    ensures r in db.requests && db.requests[r].call == old(db.requests[r].call) && db.requests[r].alive == up
    ensures up ==> StandsAt(db.View(), r, FindState(advanced)) && (advanced <==> db.requests[r].base == 1)
  {
    ghost var s0 := db.View();
    advanced := false;
    up := db.Interfere(r);
    if !up { return; }
    ghost var s1 := db.View();
    advanced := db.MatchCursor(r, c, user, position);
    LaterTransitive(s0, s1, db.View());
    if !advanced {
      s1 := db.View();
      up := db.Interfere(r);
      LaterTransitive(s0, s1, db.View());
      if !up { return; }
      s1 := db.View();
      advanced := db.InsertCursor(r, c, user, position);
      LaterTransitive(s0, s1, db.View());
    }
  }

  /** The version increment of a read that advanced the cursor, and the event. */
  method AnnounceCursor(db: Database, r: Id, c: Id, user: string, lastRead: int, now: Time) returns (answer: Outcome)
    requires db.Valid() && r != 0 && StandsAt(db.View(), r, BumpRead(lastRead)) && db.requests[r].base == 1
    requires db.requests[r].call.Read? && CursorKey(db.requests[r].call) == (c, user)
    requires (c, user) in db.states && lastRead <= db.states[(c, user)]
    modifies db
    ensures db.Valid() && Later(old(db.View()), db.View())
    ensures r in db.requests && db.requests[r].call == old(db.requests[r].call)
    ensures ReadAnswers(db.View(), r, c, user, answer)
    ensures answer.CursorAt? ==> answer.lastRead == lastRead
    ensures answer.CursorAt? ==> Dated(db.View(), r, now)
  {
    ghost var s0 := db.View();
    var up := db.Interfere(r);
    if !up { return Failed(StoreError); }
    ghost var s1 := db.View();
    var ch := db.BumpForRead(r, c, user, lastRead);
    LaterTransitive(s0, s1, db.View());
    if ch.None? {
      HiddenReadIsInactive(s1, r);
      return Failed(NotFound);
    }
    s1 := db.View();
    var event := Event(r, ReadCursorAdvanced, c, ch.value.lastEventVersion, ch.value.participants,
                       CursorBody(user, lastRead));
    up := InsertOutbox(db, r, event, now, CursorAt(lastRead));
    LaterTransitive(s0, s1, db.View());
    CursorKept(s0, db.View(), (c, user));
    answer := if up then CursorAt(lastRead) else Failed(StoreError);
  }

  /** At some moment between `s` and `t` the cursor stood there. */
  ghost predicate CursorWas(s: System, t: System, key: (Id, string), position: int) {
    exists u :: Later(s, u) && Later(u, t) && key in u.states && u.states[key] == position
  }

  method Read(db: Database, r: Id, c: Id, user: string, position: int, now: Time) returns (answer: Outcome)
    requires db.Valid() && r != 0 && StandsAt(db.View(), r, UpsertMatch)
    requires db.requests[r].call == Call.Read(user, c, position)
    modifies db
    ensures db.Valid() && Later(old(db.View()), db.View())
    ensures r in db.requests && db.requests[r].call == old(db.requests[r].call)
    ensures ReadAnswers(db.View(), r, c, user, answer)
    ensures answer.CursorAt? && db.requests[r].base == 1 ==> Dated(db.View(), r, now)
    ensures answer.CursorAt? && (c, user) in old(db.states) ==> position <= answer.lastRead
    ensures answer.CursorAt? ==> CursorWas(old(db.View()), db.View(), (c, user), answer.lastRead)
  {
    ghost var s0 := db.View();
    var up, advanced := UpsertCursor(db, r, c, user, position);
    if !up { return Failed(StoreError); }
    ghost var s1 := db.View();
    up := db.Interfere(r);
    LaterTransitive(s0, s1, db.View());
    if !up { return Failed(StoreError); }
    s1 := db.View();
    CursorThere(s1, r);
    NoEventYet(s1, r);
    var state := db.FindCursor(r, c, user);
    ghost var found := db.View();
    LaterTransitive(s0, s1, found);
    LaterSelf(found);
    if state.None? { return Failed(StoreError); }
    if advanced {
      s1 := db.View();
      answer := AnnounceCursor(db, r, c, user, state.value, now);
      LaterTransitive(s0, s1, db.View());
    } else {
      answer := CursorAt(state.value);
    }
    if answer.CursorAt? {
      assert Later(found, db.View()) && found.states[(c, user)] == answer.lastRead;
      if (c, user) in s0.states { ReadReaches(s0, db.View(), r); }
    }
  }
}
