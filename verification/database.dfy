/** The Mongo database as the service's code sees it: each method is one call on a collection,
    atomic on its own, and `Interfere` is everything that may happen between two of them. */
module Mongo {
  import opened Schema
  import opened ChatSystem
  import opened ChatInvariant
  import opened ChatFrame
  import opened ChatReach

  /** No action of `run` is one of request `r`. */
  predicate ByOthers(run: seq<Action>, r: Id) {
    forall a | a in run :: Actor(a) != r
  }

  lemma {:induction false} OthersLeaveAlone(s: System, run: seq<Action>, r: Id)
    requires Inv(s) && ByOthers(run, r)
    ensures r in s.requests ==> r in Run(s, run).requests && Run(s, run).requests[r] == s.requests[r]
    ensures r !in s.requests ==> r !in Run(s, run).requests
    decreases |run|
  {
    if run != [] {
      var n := |run| - 1;
      var t := Run(s, run[..n]);
      OthersLeaveAlone(s, run[..n], r);
      RunKeeps(s, run[..n]);
      NextKeeps(t, run[n]);
      if r in t.requests { assert RequestEvolves(t, Next(t, run[n]), r); }
    }
  }

  // ---------- what the steps do to the collections ----------

  /** Only where requests stand has changed. */
  ghost predicate Looks(s: System, t: System) {
    t == s.(requests := t.requests)
  }

  lemma GuardChannelLooks(s: System, r: Id)
    requires r in s.requests && s.requests[r].call.Post?
    ensures Looks(s, GuardChannelStep(s, r))
  {
    var call := s.requests[r].call;
    if call.ai && (!call.wellFormed || call.replyTo.None?) { assert GuardChannelStep(s, r) == Fail(s, r, Invalid); }
    else if !Visible(s, call.channel, call.actor) { assert GuardChannelStep(s, r) == Fail(s, r, NotFound); }
    else if !call.wellFormed { assert GuardChannelStep(s, r) == Fail(s, r, Invalid); }
    else { assert GuardChannelStep(s, r) == Goto(s, r, if call.replyTo.Some? then GuardReply else Lookup); }
  }

  lemma GuardReplyLooks(s: System, r: Id)
    requires r in s.requests && s.requests[r].call.Post?
    ensures Looks(s, GuardReplyStep(s, r))
  {
    var call := s.requests[r].call;
    if call.replyTo.None? { assert GuardReplyStep(s, r) == s; }
    else if call.replyTo.value !in s.messages { assert GuardReplyStep(s, r) == Fail(s, r, NotFound); }
    else {
      var m := s.messages[call.replyTo.value];
      if call.ai && (m.channelId != call.channel || m.senderId == call.actor || m.kind.AI? || m.recalledAt.Some?) {
        assert GuardReplyStep(s, r) == Fail(s, r, Conflict(BadSource));
      } else if m.channelId != call.channel { assert GuardReplyStep(s, r) == Fail(s, r, Invalid); }
      else { assert GuardReplyStep(s, r) == Goto(s, r, Lookup); }
    }
  }

  lemma ExistingLooks(s: System, r: Id, doc: Id)
    requires r in s.requests && s.requests[r].call.Post? && doc in s.messages
    ensures Looks(s, Existing(s, r, doc))
  {
    if s.messages[doc].hash != s.requests[r].call.hash {
      assert Existing(s, r, doc) == Fail(s, r, Conflict(HashMismatch));
    }
    else { assert Existing(s, r, doc) == Goto(s, r, Done(Posted(s.messages[doc], false))); }
  }

  lemma LookupLooks(s: System, r: Id, doc: Id)
    requires r in s.requests && s.requests[r].call.Post?
    ensures Looks(s, LookupStep(s, r, doc))
  {
    var call := s.requests[r].call;
    if !AnswersKey(s, call.channel, call.actor, call.clientId, doc) { assert LookupStep(s, r, doc) == s; }
    else if doc != 0 {
      ExistingLooks(s, r, doc);
      assert LookupStep(s, r, doc) == Existing(s, r, doc);
    }
    else { assert LookupStep(s, r, doc) == Goto(s, r, FindChannel(0, |History(s.born, call.channel)|)); }
  }

  lemma RecheckLooks(s: System, r: Id, attempt: nat, doc: Id)
    requires r in s.requests && s.requests[r].call.Post?
    ensures Looks(s, RecheckStep(s, r, attempt, doc))
  {
    var call := s.requests[r].call;
    if !AnswersKey(s, call.channel, call.actor, call.clientId, doc) { assert RecheckStep(s, r, attempt, doc) == s; }
    else if doc != 0 {
      ExistingLooks(s, r, doc);
      assert RecheckStep(s, r, attempt, doc) == Existing(s, r, doc);
    }
    else { assert RecheckStep(s, r, attempt, doc) == Goto(s, r, AfterAttempt(s, call.channel, attempt)); }
  }

  lemma FindChannelLooks(s: System, r: Id, attempt: nat, mark: nat)
    requires r in s.requests && s.requests[r].call.Post?
    ensures Looks(s, FindChannelStep(s, r, attempt, mark))
  {
    var call := s.requests[r].call;
    if !Visible(s, call.channel, call.actor) { assert FindChannelStep(s, r, attempt, mark) == Fail(s, r, NotFound); }
    else {
      assert FindChannelStep(s, r, attempt, mark)
             == Goto(s, r, FindLatest(attempt, mark, s.channels[call.channel].lastMessageSeq));
    }
  }

  lemma FindLatestLooks(s: System, r: Id, attempt: nat, mark: nat, summary: int, doc: Id)
    requires r in s.requests && s.requests[r].call.Post?
    ensures Looks(s, FindLatestStep(s, r, attempt, mark, summary, doc))
  {
    var call := s.requests[r].call;
    if !AnswersLatest(s, call.channel, doc) { assert FindLatestStep(s, r, attempt, mark, summary, doc) == s; }
    else {
      assert FindLatestStep(s, r, attempt, mark, summary, doc)
             == Goto(s, r, Insert(attempt, mark, Newest(s, summary, doc) + 1));
    }
  }

  lemma AuthorizeLooks(s: System, r: Id)
    requires r in s.requests && s.requests[r].call.Mutate?
    ensures Looks(s, AuthorizeStep(s, r))
  {
    var call := s.requests[r].call;
    if call.change.Edit? && !call.change.wellFormed { assert AuthorizeStep(s, r) == Fail(s, r, Invalid); }
    else if call.target !in s.messages { assert AuthorizeStep(s, r) == Fail(s, r, NotFound); }
    else { assert AuthorizeStep(s, r) == Goto(s, r, AuthorizeChannel(s.messages[call.target])); }
  }

  lemma AuthorizeChannelLooks(s: System, r: Id, seen: Message)
    requires r in s.requests && s.requests[r].call.Mutate?
    ensures Looks(s, AuthorizeChannelStep(s, r, seen))
  {
    var call := s.requests[r].call;
    if !Visible(s, seen.channelId, call.actor) { assert AuthorizeChannelStep(s, r, seen) == Fail(s, r, NotFound); }
    else if seen.senderId != call.actor { assert AuthorizeChannelStep(s, r, seen) == Fail(s, r, Forbidden); }
    else if seen.recalledAt.None? { assert AuthorizeChannelStep(s, r, seen) == Goto(s, r, Swap(seen)); }
    else if call.change.Edit? { assert AuthorizeChannelStep(s, r, seen) == Fail(s, r, Conflict(StaleRevision)); }
    else { assert AuthorizeChannelStep(s, r, seen) == Goto(s, r, Done(Mutated(seen))); }
  }

  lemma GuardReadLooks(s: System, r: Id)
    requires r in s.requests && s.requests[r].call.Read?
    ensures Looks(s, GuardReadStep(s, r))
  {
    var call := s.requests[r].call;
    if !Visible(s, call.channel, call.actor) { assert GuardReadStep(s, r) == Fail(s, r, NotFound); }
    else if call.position < 0 || call.position > s.channels[call.channel].lastMessageSeq {
      assert GuardReadStep(s, r) == Fail(s, r, Invalid);
    }
    else { assert GuardReadStep(s, r) == Goto(s, r, UpsertMatch); }
  }

  lemma FindStateLooks(s: System, r: Id, advanced: bool)
    requires r in s.requests && s.requests[r].call.Read?
    ensures Looks(s, FindStateStep(s, r, advanced))
  {
    var call := s.requests[r].call;
    var key := CursorKey(call);
    if key !in s.states { assert FindStateStep(s, r, advanced) == Fail(s, r, StoreError); }
    else if !advanced { assert FindStateStep(s, r, advanced) == Goto(s, r, Done(CursorAt(s.states[key]))); }
    else { assert FindStateStep(s, r, advanced) == Goto(s, r, BumpRead(s.states[key])); }
  }

  lemma OpenUpsertLooks(s: System, r: Id, doc: Id)
    requires r in s.requests && s.requests[r].call.Open?
    ensures Looks(s, OpenUpsertStep(s, r, doc))
  {
    var call := s.requests[r].call;
    if Refused(call) { assert OpenUpsertStep(s, r, doc) == Fail(s, r, Invalid); }
    else if !AnswersPair(s, PairOf(call), doc) { assert OpenUpsertStep(s, r, doc) == s; }
    else if doc != 0 { assert OpenUpsertStep(s, r, doc) == Goto(s, r, Done(Opened(doc))); }
    else { assert OpenUpsertStep(s, r, doc) == Goto(s, r, OpenInsert); }
  }

  lemma OpenFindLooks(s: System, r: Id, doc: Id)
    requires r in s.requests && s.requests[r].call.Open?
    ensures Looks(s, OpenFindStep(s, r, doc))
  {
    var call := s.requests[r].call;
    if !AnswersPair(s, PairOf(call), doc) { assert OpenFindStep(s, r, doc) == s; }
    else if doc == 0 { assert OpenFindStep(s, r, doc) == Fail(s, r, StoreError); }
    else { assert OpenFindStep(s, r, doc) == Goto(s, r, Done(Opened(doc))); }
  }

  lemma UpsertMatchReach(s: System, r: Id)
    requires IsReachable(s) && r in s.requests && s.requests[r].alive && s.requests[r].call.Read?
             && s.requests[r].pc.UpsertMatch?
    ensures IsReachable(UpsertMatchStep(s, r)) && Later(s, UpsertMatchStep(s, r))
  {
    assert Next(s, Act(r, 0, 0)) == UpsertMatchStep(s, r);
    Database.Stepped(s, Act(r, 0, 0));
  }

  lemma UpsertMatchIs(s: System, r: Id, c: Id, user: string, position: int)
    requires r in s.requests && s.requests[r].call == Read(user, c, position)
    ensures var t := UpsertMatchStep(s, r);
            t == if (c, user) in s.states && s.states[(c, user)] < position
                 then s.(states := s.states[(c, user) := position], advances := t.advances, requests := t.requests)
                 else s.(requests := t.requests)
  {
  }

  lemma UpsertInsertReach(s: System, r: Id)
    requires IsReachable(s) && r in s.requests && s.requests[r].alive && s.requests[r].call.Read?
             && s.requests[r].pc.UpsertInsert?
    ensures IsReachable(UpsertInsertStep(s, r)) && Later(s, UpsertInsertStep(s, r))
  {
    assert Next(s, Act(r, 0, 0)) == UpsertInsertStep(s, r);
    Database.Stepped(s, Act(r, 0, 0));
  }

  lemma UpsertInsertIs(s: System, r: Id, c: Id, user: string, position: int)
    requires r in s.requests && s.requests[r].call == Read(user, c, position)
    ensures var t := UpsertInsertStep(s, r);
            t == if (c, user) !in s.states
                 then s.(states := s.states[(c, user) := position], advances := t.advances, requests := t.requests)
                 else s.(requests := t.requests)
  {
  }

  lemma OpenInsertReach(s: System, r: Id)
    requires IsReachable(s) && r in s.requests && s.requests[r].alive && s.requests[r].call.Open?
             && s.requests[r].pc.OpenInsert?
    ensures IsReachable(OpenInsertStep(s, r)) && Later(s, OpenInsertStep(s, r))
  {
    assert Next(s, Act(r, 0, 0)) == OpenInsertStep(s, r);
    Database.Stepped(s, Act(r, 0, 0));
  }

  lemma OpenInsertIs(s: System, r: Id, pair: (string, string))
    requires r in s.requests && s.requests[r].call.Open? && PairOf(s.requests[r].call) == pair
    ensures var t := OpenInsertStep(s, r);
            t == if !PairTaken(s, pair)
                 then s.(channels := s.channels[r := Channel(pair, pair, 0, 0, 0, true)],
                         born := t.born, takers := t.takers, requests := t.requests)
                 else s.(requests := t.requests)
  {
  }

  lemma SwapReach(s: System, r: Id, seen: Message, now: Time)
    requires IsReachable(s) && r in s.requests && s.requests[r].alive && s.requests[r].call.Mutate?
             && s.requests[r].pc == Swap(seen)
    ensures IsReachable(SwapStep(s, r, seen, now)) && Later(s, SwapStep(s, r, seen, now))
  {
    assert Next(s, Act(r, now, 0)) == SwapStep(s, r, seen, now);
    Database.Stepped(s, Act(r, now, 0));
  }

  lemma SwapIs(s: System, r: Id, seen: Message, change: Change, now: Time)
    requires r in s.requests && s.requests[r].call.Mutate? && s.requests[r].call.change == change
    ensures var t := SwapStep(s, r, seen, now);
            t == if Swappable(s, seen)
                 then s.(messages := s.messages[seen.id := Changed(s.messages[seen.id], change, now)],
                         revisions := t.revisions, requests := t.requests)
                 else s.(requests := t.requests)
  {
  }

  lemma BumpReach(s: System, r: Id, updated: Message)
    requires IsReachable(s) && r in s.requests && s.requests[r].alive && s.requests[r].call.Mutate?
             && s.requests[r].pc == Bump(updated)
    ensures IsReachable(BumpStep(s, r, updated)) && Later(s, BumpStep(s, r, updated))
  {
    assert Next(s, Act(r, 0, 0)) == BumpStep(s, r, updated);
    Database.Stepped(s, Act(r, 0, 0));
  }

  function Incremented(ch: Channel): Channel {
    ch.(lastEventVersion := ch.lastEventVersion + 1)
  }

  lemma BumpIs(s: System, r: Id, updated: Message)
    requires r in s.requests && s.requests[r].call.Mutate?
    ensures var t := BumpStep(s, r, updated);
            var c := updated.channelId;
            t == if c in s.channels && s.channels[c].active
                 then s.(channels := s.channels[c := Incremented(s.channels[c])], takers := t.takers, requests := t.requests)
                 else s.(requests := t.requests)
  {
  }

  lemma BumpReadReach(s: System, r: Id, lastRead: int)
    requires IsReachable(s) && r in s.requests && s.requests[r].alive && s.requests[r].call.Read?
             && s.requests[r].pc == BumpRead(lastRead)
    ensures IsReachable(BumpReadStep(s, r, lastRead)) && Later(s, BumpReadStep(s, r, lastRead))
  {
    assert Next(s, Act(r, 0, 0)) == BumpReadStep(s, r, lastRead);
    Database.Stepped(s, Act(r, 0, 0));
  }

  lemma BumpReadIs(s: System, r: Id, c: Id, user: string, lastRead: int)
    requires r in s.requests && s.requests[r].call.Read? && CursorKey(s.requests[r].call) == (c, user)
    ensures var t := BumpReadStep(s, r, lastRead);
            t == if Visible(s, c, user)
                 then s.(channels := s.channels[c := Incremented(s.channels[c])], takers := t.takers, requests := t.requests)
                 else s.(requests := t.requests)
  {
  }

  class Database {
    var channels: map<Id, Channel>
    var messages: map<Id, Message>
    var states: map<(Id, string), int>
    var outbox: map<Id, OutboxDoc>
    // Where every request stands, and the histories. What others do runs on them; the calls of a
    // request read no more of them than its own arguments.
    var requests: map<Id, Request>
    var born: map<Id, seq<Id>>
    var revisions: map<Id, seq<Revision>>
    var takers: map<Id, seq<Id>>
    var advances: map<(Id, string), seq<Advance>>

    function View(): System
      reads this
    {
      System(channels, messages, states, outbox, requests, born, revisions, takers, advances)
    }

    ghost predicate Valid()
      reads this
    {
      IsReachable(View())
    }

    /** Request `r` is running and stands at `pc`. */
    ghost predicate At(r: Id, call: Call, pc: Pc)
      reads this
    {
      r in requests && requests[r].alive && requests[r].call == call && requests[r].pc == pc
    }

    constructor ()
      ensures Valid() && View() == Empty()
    {
      channels, messages, states, outbox, requests := map[], map[], map[], map[], map[];
      born, revisions, takers, advances := map[], map[], map[], map[];
      new;
      RunReaches([]);
    }

    /** The collections are those of `next`. */
    ghost predicate AgreesWith(next: System)
      reads this
    {
      channels == next.channels && messages == next.messages && states == next.states && outbox == next.outbox
    }

    /** The bookkeeping of a Mongo call: the request moves on and the histories are extended. */
    method Note(next: System)
      modifies this`requests, this`born, this`revisions, this`takers, this`advances
      ensures requests == next.requests && born == next.born && revisions == next.revisions
      ensures takers == next.takers && advances == next.advances
    {
      requests, born, revisions := next.requests, next.born, next.revisions;
      takers, advances := next.takers, next.advances;
    }

    /** Any number of actions of other requests; then this request may die, as when its process
        crashes or its last or next call reports a driver error. */
    method Interfere(r: Id) returns (up: bool)
      requires Valid() && r != 0
      modifies this
      ensures Valid() && Later(old(View()), View())
      ensures r in old(requests) && up ==> r in requests && requests[r] == old(requests[r])
      ensures r in old(requests) && !up ==> r in requests && requests[r] == old(requests[r]).(alive := false)
      ensures r !in old(requests) ==> up && r !in requests
    {
      var run: seq<Action> :| ByOthers(run, r);
      var s := View();
      var t := Run(s, run);
      channels, messages, states, outbox := t.channels, t.messages, t.states, t.outbox;
      Note(t);
      assert View() == t;
      LaterRun(s, run);
      ReachableFits(s);
      OthersLeaveAlone(s, run, r);
      up := true;
      var dies: bool := *;
      if dies && r in requests && requests[r].alive && !requests[r].pc.Done? {
        up := false;
        requests := requests[r := requests[r].(alive := false)];
        assert View() == Next(t, Abandon(r));
        LaterNext(s, t, Abandon(r));
        LaterFits(s, View());
      }
    }

    /** Any number of actions of any requests. */
    method Elapse()
      requires Valid()
      modifies this
      ensures Valid() && Later(old(View()), View())
    {
      var run: seq<Action> := *;
      var t := Run(View(), run);
      LaterRun(View(), run);
      channels, messages, states, outbox := t.channels, t.messages, t.states, t.outbox;
      Note(t);
      assert View() == t;
    }

    /** A new request arrives and draws a fresh id. */
    method Begin(r: Id, call: Call)
      requires Valid() && r != 0 && r !in requests
      modifies this
      ensures Valid() && Later(old(View()), View())
      ensures At(r, call, FirstPc(call)) && View() == Next(old(View()), Start(r, call))
    {
      var next := Next(View(), Start(r, call));
      assert AgreesWith(next);
      Note(next);
      assert View() == next;
      Stepped(old(View()), Start(r, call));
    }

    static lemma Stepped(s: System, a: Action)
      requires IsReachable(s)
      ensures IsReachable(Next(s, a)) && Later(s, Next(s, a))
    {
      LaterSelf(s);
      LaterNext(s, s, a);
    }

    /** The request's Mongo call is done: it stands where the step leaves it. */
    ghost predicate Stepping(r: Id)
      reads this
    {
      Valid() && r in requests && requests[r].alive
    }

    /** A request whose own text is rejected ends without a Mongo call. */
    method Refuse(r: Id)
      requires Stepping(r) && Next(View(), Act(r, 0, 0)) == Fail(View(), r, Invalid)
      modifies this`requests
      ensures Valid() && Later(old(View()), View()) && View() == Fail(old(View()), r, Invalid)
    {
      requests := requests[r := requests[r].(pc := Done(Failed(Invalid)))];
      assert View() == Next(old(View()), Act(r, 0, 0));
      Stepped(old(View()), Act(r, 0, 0));
    }

    // ---------- calls of a post ----------

    /** channels.FindOne by id, in the membership check before a post. */
    method GetChannelForPost(r: Id, c: Id) returns (found: Option<Channel>)
      requires Stepping(r) && requests[r].call.Post? && requests[r].pc.GuardChannel?
      modifies this`requests
      ensures Valid() && Later(old(View()), View()) && View() == GuardChannelStep(old(View()), r)
      ensures found == if c in channels then Some(channels[c]) else None
    {
      found := if c in channels then Some(channels[c]) else None;
      var next := GuardChannelStep(View(), r);
      assert IsReachable(next) && Later(View(), next) by {
        assert next == Next(View(), Act(r, 0, 0));
        Stepped(View(), Act(r, 0, 0));
      }
      GuardChannelLooks(View(), r);
      requests := next.requests;
      assert View() == next;
    }

    /** messages.FindOne by id, for the message a post replies to. */
    method GetReplyTarget(r: Id, m: Id) returns (found: Option<Message>)
      requires Stepping(r) && requests[r].call.Post? && requests[r].pc.GuardReply?
      modifies this`requests
      ensures Valid() && Later(old(View()), View()) && View() == GuardReplyStep(old(View()), r)
      ensures found == if m in messages then Some(messages[m]) else None
    {
      found := if m in messages then Some(messages[m]) else None;
      var next := GuardReplyStep(View(), r);
      assert IsReachable(next) && Later(View(), next) by {
        assert next == Next(View(), Act(r, 0, 0));
        Stepped(View(), Act(r, 0, 0));
      }
      GuardReplyLooks(View(), r);
      requests := next.requests;
      assert View() == next;
    }

    /** A search through the unique index (channel, sender, client id); 0 for no document. */
    method SearchKey(c: Id, user: string, clientId: string) returns (doc: Id)
      requires Valid()
      ensures AnswersKey(View(), c, user, clientId, doc)
    {
      NoZeroDocument(View());
      if m: Id :| m in messages && HasKey(messages[m], c, user, clientId) {
        doc := m;
      } else {
        doc := 0;
      }
    }

    static lemma NoZeroDocument(s: System)
      requires IsReachable(s)
      ensures 0 !in s.messages && 0 !in s.channels
    {
      ReachableFits(s);
      forall m | m in s.messages ensures m != 0 { assert MessageFits(s, m); }
      forall c | c in s.channels ensures c != 0 { assert ChannelFits(s, c); }
    }

    /** messages.FindOne by key, before the ids are drawn. */
    method FindOwnMessage(r: Id) returns (found: Option<Message>, ghost doc: Id)
      requires Stepping(r) && requests[r].call.Post? && requests[r].pc.Lookup?
      modifies this`requests
      ensures Valid() && Later(old(View()), View())
      ensures var call := old(requests[r].call); AnswersKey(old(View()), call.channel, call.actor, call.clientId, doc)
      ensures if doc == 0 then found == None else doc in messages && found == Some(messages[doc])
      ensures View() == LookupStep(old(View()), r, doc)
    {
      var call := requests[r].call;
      var answer := SearchKey(call.channel, call.actor, call.clientId);
      doc := answer;
      found := if answer == 0 then None else Some(messages[answer]);
      var next := LookupStep(View(), r, answer);
      assert IsReachable(next) && Later(View(), next) by {
        assert next == Next(View(), Act(r, 0, answer));
        Stepped(View(), Act(r, 0, answer));
      }
      LookupLooks(View(), r, answer);
      requests := next.requests;
      assert View() == next;
    }

    /** messages.FindOne by key, after a duplicate key. */
    method FindOwnMessageAgain(r: Id) returns (found: Option<Message>, ghost doc: Id)
      requires Stepping(r) && requests[r].call.Post? && requests[r].pc.Recheck?
      modifies this`requests
      ensures Valid() && Later(old(View()), View())
      ensures var call := old(requests[r].call); AnswersKey(old(View()), call.channel, call.actor, call.clientId, doc)
      ensures if doc == 0 then found == None else doc in messages && found == Some(messages[doc])
      ensures View() == RecheckStep(old(View()), r, old(requests[r].pc.attempt), doc)
    {
      var call := requests[r].call;
      var attempt := requests[r].pc.attempt;
      var answer := SearchKey(call.channel, call.actor, call.clientId);
      doc := answer;
      found := if answer == 0 then None else Some(messages[answer]);
      var next := RecheckStep(View(), r, attempt, answer);
      assert IsReachable(next) && Later(View(), next) by {
        assert next == Next(View(), Act(r, 0, answer));
        Stepped(View(), Act(r, 0, answer));
      }
      RecheckLooks(View(), r, attempt, answer);
      requests := next.requests;
      assert View() == next;
    }

    /** channels.FindOne by id, active, with the sender as participant. */
    method FindActiveChannel(r: Id) returns (found: Option<Channel>)
      requires Stepping(r) && requests[r].call.Post? && requests[r].pc.FindChannel?
      modifies this`requests
      ensures Valid() && Later(old(View()), View())
      ensures View() == FindChannelStep(old(View()), r, old(requests[r].pc.attempt), old(requests[r].pc.mark))
      ensures var call := old(requests[r].call);
              found == if Visible(View(), call.channel, call.actor) then Some(channels[call.channel]) else None
    {
      var call := requests[r].call;
      found := if Visible(View(), call.channel, call.actor) then Some(channels[call.channel]) else None;
      var next := FindChannelStep(View(), r, requests[r].pc.attempt, requests[r].pc.mark);
      assert IsReachable(next) && Later(View(), next) by {
        assert next == Next(View(), Act(r, 0, 0));
        Stepped(View(), Act(r, 0, 0));
      }
      FindChannelLooks(View(), r, requests[r].pc.attempt, requests[r].pc.mark);
      requests := next.requests;
      assert View() == next;
    }

    /** A walk over the channel's messages for the largest sequence; 0 for no document. */
    method SearchLatest(c: Id) returns (doc: Id)
      requires Valid()
      ensures AnswersLatest(View(), c, doc)
    {
      NoZeroDocument(View());
      doc := 0;
      var rest := messages.Keys;
      while rest != {}
        invariant rest <= messages.Keys
        invariant doc != 0 ==> doc in messages && messages[doc].channelId == c
        invariant forall m | m in messages.Keys - rest && messages[m].channelId == c ::
                    doc != 0 && messages[m].sequence <= messages[doc].sequence
        decreases |rest|
      {
        var m :| m in rest;
        if messages[m].channelId == c && (doc == 0 || messages[m].sequence > messages[doc].sequence) {
          doc := m;
        }
        rest := rest - {m};
      }
    }

    /** messages.FindOne in the channel, by descending sequence. */
    method FindLatestMessage(r: Id) returns (found: Option<Message>, ghost doc: Id)
      requires Stepping(r) && requests[r].call.Post? && requests[r].pc.FindLatest?
      modifies this`requests
      ensures Valid() && Later(old(View()), View())
      ensures AnswersLatest(old(View()), old(requests[r].call).channel, doc)
      ensures if doc == 0 then found == None else doc in messages && found == Some(messages[doc])
      ensures View() == FindLatestStep(old(View()), r, old(requests[r].pc.attempt), old(requests[r].pc.mark),
                                            old(requests[r].pc.summary), doc)
    {
      var pc := requests[r].pc;
      var answer := SearchLatest(requests[r].call.channel);
      doc := answer;
      found := if answer == 0 then None else Some(messages[answer]);
      var next := FindLatestStep(View(), r, pc.attempt, pc.mark, pc.summary, answer);
      assert IsReachable(next) && Later(View(), next) by {
        assert next == Next(View(), Act(r, 0, answer));
        Stepped(View(), Act(r, 0, answer));
      }
      FindLatestLooks(View(), r, pc.attempt, pc.mark, pc.summary, answer);
      requests := next.requests;
      assert View() == next;
    }

    /** messages.InsertOne, arbitrated by the two unique indexes. */
    method InsertMessage(r: Id, m: Message) returns (duplicate: bool)
      requires Stepping(r) && requests[r].call.Post? && requests[r].pc.Insert?
      requires m == Draft(r, requests[r].call, requests[r].pc.sequence)
      modifies this`messages, this`requests, this`born, this`revisions, this`takers, this`advances
      ensures Valid() && Later(old(View()), View())
      ensures View() == InsertStep(old(View()), r, old(requests[r].pc.attempt), old(requests[r].pc.mark), m.sequence)
      ensures duplicate == InsertClashes(old(View()), m)
      ensures messages == if duplicate then old(messages) else old(messages)[m.id := m]
    {
      var pc := requests[r].pc;
      var next := InsertStep(View(), r, pc.attempt, pc.mark, pc.sequence);
      assert IsReachable(next) && Later(View(), next) by {
        assert next == Next(View(), Act(r, 0, 0));
        Stepped(View(), Act(r, 0, 0));
      }
      duplicate := exists i | i in messages :: Clashes(messages[i], m);
      if !duplicate { messages := messages[m.id := m]; }
      assert AgreesWith(next);
      Note(next);
      assert View() == next;
    }

    /** channels.FindOneAndUpdate with the max-merge pipeline. */
    method SummarizeChannel(r: Id, m: Message) returns (after: Option<Channel>)
      requires Stepping(r) && requests[r].call.Post? && requests[r].pc == Summarize(m)
      modifies this`channels, this`requests, this`born, this`revisions, this`takers, this`advances
      ensures Valid() && Later(old(View()), View()) && View() == SummarizeStep(old(View()), r, m)
      ensures var call := old(requests[r].call);
              if Visible(old(View()), call.channel, call.actor) then call.channel in channels
                && after == Some(channels[call.channel]) else after == None
    {
      var call := requests[r].call;
      var next := SummarizeStep(View(), r, m);
      assert IsReachable(next) && Later(View(), next) by {
        assert next == Next(View(), Act(r, 0, 0));
        Stepped(View(), Act(r, 0, 0));
      }
      after := None;
      if Visible(View(), call.channel, call.actor) {
        var ch := channels[call.channel];
        // Both conditions look at the document as it was before the update.
        channels := channels[call.channel := ch.(
          lastMessageSeq := if ch.lastMessageSeq < m.sequence then m.sequence else ch.lastMessageSeq,
          lastMessageId := if ch.lastMessageSeq < m.sequence then m.id else ch.lastMessageId,
          lastEventVersion := ch.lastEventVersion + 1)];
        after := Some(channels[call.channel]);
      }
      assert AgreesWith(next);
      Note(next);
      assert View() == next;
    }

    /** messages.DeleteOne, when the channel turned out to be inactive. */
    method DeleteMessage(r: Id)
      requires Stepping(r) && requests[r].call.Post? && requests[r].pc.Rollback?
      modifies this`messages, this`requests
      ensures Valid() && Later(old(View()), View())
      ensures View() == Fail(old(View()).(messages := old(messages) - {r}), r, NotFound)
    {
      var next := Fail(View().(messages := messages - {r}), r, NotFound);
      assert IsReachable(next) && Later(View(), next) by {
        assert next == Next(View(), Act(r, 0, 0));
        Stepped(View(), Act(r, 0, 0));
      }
      messages := messages - {r};
      requests := next.requests;
      assert View() == next;
    }

    // ---------- calls of every request that writes ----------

    /** outbox.InsertOne of a pending document, due at once. */
    method InsertEvent(r: Id, event: Event, now: Time)
      requires Stepping(r) && requests[r].pc.Emit? && requests[r].pc.event == event
      requires !requests[r].call.Open?
      modifies this`outbox, this`requests
      ensures Valid() && Later(old(View()), View())
      ensures View() == EmitStep(old(View()), r, event, old(requests[r].pc.answer), now)
      ensures outbox == old(outbox)[r := OutboxDoc(event, event.channelId, now)]
    {
      var next := EmitStep(View(), r, event, requests[r].pc.answer, now);
      assert IsReachable(next) && Later(View(), next) by {
        assert next == Next(View(), Act(r, now, 0));
        Stepped(View(), Act(r, now, 0));
      }
      outbox := outbox[r := OutboxDoc(event, event.channelId, now)];
      requests := next.requests;
      assert View() == next;
    }

    // ---------- calls of a mutation ----------

    /** messages.FindOne by id, in the authorization of a mutation. */
    method GetMessage(r: Id, m: Id) returns (found: Option<Message>)
      requires Stepping(r) && requests[r].call.Mutate? && requests[r].pc.Authorize?
      modifies this`requests
      ensures Valid() && Later(old(View()), View()) && View() == AuthorizeStep(old(View()), r)
      ensures found == if m in messages then Some(messages[m]) else None
    {
      found := if m in messages then Some(messages[m]) else None;
      var next := AuthorizeStep(View(), r);
      assert IsReachable(next) && Later(View(), next) by {
        assert next == Next(View(), Act(r, 0, 0));
        Stepped(View(), Act(r, 0, 0));
      }
      AuthorizeLooks(View(), r);
      requests := next.requests;
      assert View() == next;
    }

    /** channels.FindOne by id, in the authorization of a mutation. */
    method GetChannelOf(r: Id, seen: Message) returns (found: Option<Channel>)
      requires Stepping(r) && requests[r].call.Mutate? && requests[r].pc == AuthorizeChannel(seen)
      modifies this`requests
      ensures Valid() && Later(old(View()), View()) && View() == AuthorizeChannelStep(old(View()), r, seen)
      ensures found == if seen.channelId in channels then Some(channels[seen.channelId]) else None
    {
      found := if seen.channelId in channels then Some(channels[seen.channelId]) else None;
      var next := AuthorizeChannelStep(View(), r, seen);
      assert IsReachable(next) && Later(View(), next) by {
        assert next == Next(View(), Act(r, 0, 0));
        Stepped(View(), Act(r, 0, 0));
      }
      AuthorizeChannelLooks(View(), r, seen);
      requests := next.requests;
      assert View() == next;
    }

    /** The change and its bookkeeping. */
    method ApplyChange(r: Id, seen: Message, change: Change, now: Time) returns (after: Option<Message>)
      requires r in requests && requests[r].alive && requests[r].call.Mutate? && requests[r].pc == Swap(seen)
      requires requests[r].call.change == change
      modifies this`messages, this`requests, this`born, this`revisions, this`takers, this`advances
      ensures View() == SwapStep(old(View()), r, seen, now)
      ensures after == if Swappable(old(View()), seen) then Some(Changed(old(messages)[seen.id], change, now)) else None
      ensures messages == if after.Some? then old(messages)[seen.id := after.value] else old(messages)
    {
      var before := View();
      var next := SwapStep(before, r, seen, now);
      SwapIs(before, r, seen, change, now);
      requests := next.requests;
      after := None;
      if Swappable(before, seen) {
        var m := before.messages[seen.id];
        after := Some(if change.Recall? then m.(content := "", revision := m.revision + 1, recalledAt := Some(now))
                      else m.(content := change.content, revision := m.revision + 1));
        messages, revisions := before.messages[seen.id := after.value], next.revisions;
        return;
      }
    }

    /** messages.FindOneAndUpdate on (id, sender, revision, not recalled). */
    method SwapMessage(r: Id, seen: Message, change: Change, now: Time) returns (after: Option<Message>)
      requires Stepping(r) && requests[r].call.Mutate? && requests[r].pc == Swap(seen)
      requires requests[r].call.change == change
      modifies this`messages, this`requests, this`born, this`revisions, this`takers, this`advances
      ensures Valid() && Later(old(View()), View()) && View() == SwapStep(old(View()), r, seen, now)
      ensures after == if Swappable(old(View()), seen) then Some(Changed(old(messages)[seen.id], change, now)) else None
      ensures messages == if after.Some? then old(messages)[seen.id := after.value] else old(messages)
    {
      SwapReach(View(), r, seen, now);
      after := ApplyChange(r, seen, change, now);
    }

    /** The increment and its bookkeeping. */
    method IncrementForMutation(r: Id, updated: Message) returns (after: Option<Channel>)
      requires r in requests && requests[r].alive && requests[r].call.Mutate? && requests[r].pc == Bump(updated)
      modifies this`channels, this`requests, this`born, this`revisions, this`takers, this`advances
      ensures View() == BumpStep(old(View()), r, updated)
      ensures var c := updated.channelId;
              after == if c in old(channels) && old(channels)[c].active then Some(Incremented(old(channels)[c])) else None
    {
      var c := updated.channelId;
      var before := View();
      var next := BumpStep(before, r, updated);
      BumpIs(before, r, updated);
      requests := next.requests;
      after := None;
      if c in before.channels && before.channels[c].active {
        after := Some(Incremented(before.channels[c]));
        channels, takers := before.channels[c := after.value], next.takers;
        return;
      }
    }

    /** channels.FindOneAndUpdate that only increments the version, for a mutation. */
    method BumpForMutation(r: Id, updated: Message) returns (after: Option<Channel>)
      requires Stepping(r) && requests[r].call.Mutate? && requests[r].pc == Bump(updated)
      modifies this`channels, this`requests, this`born, this`revisions, this`takers, this`advances
      ensures Valid() && Later(old(View()), View()) && View() == BumpStep(old(View()), r, updated)
      ensures var c := updated.channelId;
              after == if c in old(channels) && old(channels)[c].active then Some(Incremented(old(channels)[c])) else None
    {
      BumpReach(View(), r, updated);
      after := IncrementForMutation(r, updated);
    }

    // ---------- calls of a read ----------

    /** channels.FindOne by id, in the check before a read. */
    method GetChannelForRead(r: Id, c: Id) returns (found: Option<Channel>)
      requires Stepping(r) && requests[r].call.Read? && requests[r].pc.GuardRead?
      modifies this`requests
      ensures Valid() && Later(old(View()), View()) && View() == GuardReadStep(old(View()), r)
      ensures found == if c in channels then Some(channels[c]) else None
    {
      found := if c in channels then Some(channels[c]) else None;
      var next := GuardReadStep(View(), r);
      assert IsReachable(next) && Later(View(), next) by {
        assert next == Next(View(), Act(r, 0, 0));
        Stepped(View(), Act(r, 0, 0));
      }
      GuardReadLooks(View(), r);
      requests := next.requests;
      assert View() == next;
    }

    /** The match phase of the cursor upsert: update the cursor if it is behind. */
    method MatchCursor(r: Id, c: Id, user: string, position: int) returns (matched: bool)
      requires Stepping(r) && requests[r].call == Read(user, c, position) && requests[r].pc.UpsertMatch?
      modifies this`states, this`requests, this`born, this`revisions, this`takers, this`advances
      ensures Valid() && Later(old(View()), View()) && View() == UpsertMatchStep(old(View()), r)
      ensures matched == ((c, user) in old(states) && old(states)[(c, user)] < position)
      ensures states == if matched then old(states)[(c, user) := position] else old(states)
    {
      var before := View();
      var next := UpsertMatchStep(before, r);
      UpsertMatchReach(before, r);
      UpsertMatchIs(before, r, c, user, position);
      requests := next.requests;
      matched := (c, user) in states && states[(c, user)] < position;
      if matched {
        states, advances := before.states[(c, user) := position], next.advances;
        return;
      }
    }

    /** The insert phase of the cursor upsert: duplicate key if a cursor is there. */
    method InsertCursor(r: Id, c: Id, user: string, position: int) returns (inserted: bool)
      requires Stepping(r) && requests[r].call == Read(user, c, position) && requests[r].pc.UpsertInsert?
      modifies this`states, this`requests, this`born, this`revisions, this`takers, this`advances
      ensures Valid() && Later(old(View()), View()) && View() == UpsertInsertStep(old(View()), r)
      ensures inserted == ((c, user) !in old(states))
      ensures states == if inserted then old(states)[(c, user) := position] else old(states)
    {
      var before := View();
      var next := UpsertInsertStep(before, r);
      UpsertInsertReach(before, r);
      UpsertInsertIs(before, r, c, user, position);
      requests := next.requests;
      inserted := (c, user) !in states;
      if inserted {
        states, advances := before.states[(c, user) := position], next.advances;
        return;
      }
    }

    /** states.FindOne by (channel, user). */
    method FindCursor(r: Id, c: Id, user: string) returns (found: Option<int>)
      requires Stepping(r) && requests[r].call.Read? && CursorKey(requests[r].call) == (c, user)
      requires requests[r].pc.FindState?
      modifies this`requests
      ensures Valid() && Later(old(View()), View())
      ensures View() == FindStateStep(old(View()), r, old(requests[r].pc.advanced))
      ensures found == if (c, user) in states then Some(states[(c, user)]) else None
    {
      found := if (c, user) in states then Some(states[(c, user)]) else None;
      var next := FindStateStep(View(), r, requests[r].pc.advanced);
      assert IsReachable(next) && Later(View(), next) by {
        assert next == Next(View(), Act(r, 0, 0));
        Stepped(View(), Act(r, 0, 0));
      }
      FindStateLooks(View(), r, requests[r].pc.advanced);
      requests := next.requests;
      assert View() == next;
    }

    /** The increment and its bookkeeping. */
    method IncrementForRead(r: Id, c: Id, user: string, lastRead: int) returns (after: Option<Channel>)
      requires r in requests && requests[r].alive && requests[r].call.Read? && CursorKey(requests[r].call) == (c, user)
      requires requests[r].pc == BumpRead(lastRead)
      modifies this`channels, this`requests, this`born, this`revisions, this`takers, this`advances
      ensures View() == BumpReadStep(old(View()), r, lastRead)
      ensures after == if Visible(old(View()), c, user) then Some(Incremented(old(channels)[c])) else None
    {
      var before := View();
      var next := BumpReadStep(before, r, lastRead);
      BumpReadIs(before, r, c, user, lastRead);
      requests := next.requests;
      after := None;
      if Visible(before, c, user) {
        after := Some(Incremented(before.channels[c]));
        channels, takers := before.channels[c := after.value], next.takers;
        return;
      }
    }

    /** channels.FindOneAndUpdate that only increments the version, for a participant's read. */
    method BumpForRead(r: Id, c: Id, user: string, lastRead: int) returns (after: Option<Channel>)
      requires Stepping(r) && requests[r].call.Read? && CursorKey(requests[r].call) == (c, user)
      requires requests[r].pc == BumpRead(lastRead)
      modifies this`channels, this`requests, this`born, this`revisions, this`takers, this`advances
      ensures Valid() && Later(old(View()), View()) && View() == BumpReadStep(old(View()), r, lastRead)
      ensures after == if Visible(old(View()), c, user) then Some(Incremented(old(channels)[c])) else None
    {
      BumpReadReach(View(), r, lastRead);
      after := IncrementForRead(r, c, user, lastRead);
    }

    // ---------- calls of an open ----------

    /** A search through the unique index on the direct key; 0 for no document. */
    method SearchPair(pair: (string, string)) returns (doc: Id)
      requires Valid()
      ensures AnswersPair(View(), pair, doc)
    {
      NoZeroDocument(View());
      if c: Id :| c in channels && channels[c].directKey == pair {
        doc := c;
      } else {
        doc := 0;
      }
    }

    /** The match phase of the channel upsert. */
    method MatchChannel(r: Id, pair: (string, string)) returns (found: Option<Id>, ghost doc: Id)
      requires Stepping(r) && requests[r].call.Open? && requests[r].pc.OpenUpsert? && PairOf(requests[r].call) == pair
      modifies this`requests
      ensures Valid() && Later(old(View()), View())
      ensures AnswersPair(old(View()), pair, doc)
      ensures found == if doc == 0 then None else Some(doc)
      ensures View() == OpenUpsertStep(old(View()), r, doc)
    {
      var answer := SearchPair(pair);
      doc := answer;
      found := if answer == 0 then None else Some(answer);
      var next := OpenUpsertStep(View(), r, answer);
      assert IsReachable(next) && Later(View(), next) by {
        assert next == Next(View(), Act(r, 0, answer));
        Stepped(View(), Act(r, 0, answer));
      }
      OpenUpsertLooks(View(), r, answer);
      requests := next.requests;
      assert View() == next;
    }

    /** The insert and its bookkeeping. */
    method CreateChannel(r: Id, pair: (string, string)) returns (inserted: bool)
      requires r in requests && requests[r].alive && requests[r].call.Open? && requests[r].pc.OpenInsert?
               && PairOf(requests[r].call) == pair
      modifies this`channels, this`requests, this`born, this`revisions, this`takers, this`advances
      ensures View() == OpenInsertStep(old(View()), r)
      ensures inserted == !PairTaken(old(View()), pair)
      ensures channels == if inserted then old(channels)[r := Channel(pair, pair, 0, 0, 0, true)] else old(channels)
    {
      var before := View();
      var next := OpenInsertStep(before, r);
      OpenInsertIs(before, r, pair);
      requests := next.requests;
      inserted := !PairTaken(before, pair);
      if inserted {
        channels := before.channels[r := Channel(pair, pair, 0, 0, 0, true)];
        born, takers := next.born, next.takers;
        return;
      }
    }

    /** The insert phase of the channel upsert: duplicate key if the pair has a channel. */
    method InsertChannel(r: Id, pair: (string, string)) returns (inserted: bool)
      requires Stepping(r) && requests[r].call.Open? && requests[r].pc.OpenInsert? && PairOf(requests[r].call) == pair
      modifies this`channels, this`requests, this`born, this`revisions, this`takers, this`advances
      ensures Valid() && Later(old(View()), View()) && View() == OpenInsertStep(old(View()), r)
      ensures inserted == !PairTaken(old(View()), pair)
      ensures channels == if inserted then old(channels)[r := Channel(pair, pair, 0, 0, 0, true)] else old(channels)
    {
      OpenInsertReach(View(), r);
      inserted := CreateChannel(r, pair);
    }

    /** channels.FindOne by direct key, after the duplicate key. */
    method FindChannelByPair(r: Id, pair: (string, string)) returns (found: Option<Id>, ghost doc: Id)
      requires Stepping(r) && requests[r].call.Open? && requests[r].pc.OpenFind? && PairOf(requests[r].call) == pair
      modifies this`requests
      ensures Valid() && Later(old(View()), View())
      ensures AnswersPair(old(View()), pair, doc)
      ensures found == if doc == 0 then None else Some(doc)
      ensures View() == OpenFindStep(old(View()), r, doc)
    {
      var answer := SearchPair(pair);
      doc := answer;
      found := if answer == 0 then None else Some(answer);
      var next := OpenFindStep(View(), r, answer);
      assert IsReachable(next) && Later(View(), next) by {
        assert next == Next(View(), Act(r, 0, answer));
        Stepped(View(), Act(r, 0, answer));
      }
      OpenFindLooks(View(), r, answer);
      requests := next.requests;
      assert View() == next;
    }
  }
}
