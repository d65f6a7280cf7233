/** A version that nobody ever announces. */
module ChatLostVersion {
  import opened Schema
  import opened Runs
  import opened ChatSystem
  import opened ChatInvariant
  import opened ChatReach
  import opened ChatFrame

  /** An abandoned request has taken a version and holds its event. */
  ghost predicate LostAt(s: System, r: Id, c: Id, version: int) {
    && r in s.requests && !s.requests[r].alive && s.requests[r].pc.Emit?
    && s.requests[r].pc.event.channelId == c && s.requests[r].pc.event.version == version
  }

  lemma OtherStays(s: System, t: System, i: Id, r: Id)
    requires Others(s, t, i) && r != i && r in s.requests && r in t.requests
    ensures t.requests[r] == s.requests[r]
  {
  }

  lemma DeadRests(s: System, a: Action, r: Id)
    requires r in s.requests && !s.requests[r].alive && Actor(a) == r && r != 0
    ensures Next(s, a) == s
  {
  }

  lemma DeadStays(s: System, a: Action, r: Id)
    requires Inv(s) && r in s.requests && !s.requests[r].alive
    ensures r in Next(s, a).requests && Next(s, a).requests[r] == s.requests[r]
  {
    assert r != 0;
    if Actor(a) == r {
      DeadRests(s, a, r);
    } else {
      assert Others(s, Next(s, a), Actor(a)) && r in Next(s, a).requests by {
        NextKeeps(s, a);
        assert RequestEvolves(s, Next(s, a), r);
      }
      OtherStays(s, Next(s, a), Actor(a), r);
    }
  }

  lemma {:induction false} StaysLost(s: System, run: seq<Action>, r: Id, c: Id, version: int)
    requires Inv(s) && LostAt(s, r, c, version)
    ensures LostAt(Run(s, run), r, c, version)
    decreases |run|
  {
    if run != [] {
      StaysLost(s, run[..|run| - 1], r, c, version);
      RunKeeps(s, run[..|run| - 1]);
      DeadStays(Run(s, run[..|run| - 1]), run[|run| - 1], r);
    }
  }

  lemma TakenOnce(s: System, r: Id, c: Id, version: int, e: Id)
    requires Inv(s) && LostAt(s, r, c, version) && e in s.outbox && s.outbox[e].event.channelId == c
    ensures s.outbox[e].event.version != version
  {
    assert RequestFits(s, r) && OutboxFits(s, e);
  }

  /** The version of a lost event is in no other event, in no later state. */
  lemma LostIsNeverEmitted(s: System, t: System, r: Id, c: Id, version: int, e: Id)
    requires Later(s, t) && LostAt(s, r, c, version) && e in t.outbox && t.outbox[e].event.channelId == c
    ensures LostAt(t, r, c, version) && t.outbox[e].event.version != version
  {
    assert LostAt(t, r, c, version) && Inv(t) by {
      LaterFits(s, t);
      var run :| Leads(Next, s, run, t);
      LeadsAfter(Next, s, run, t);
      StaysLost(s, run, r, c, version);
    }
    TakenOnce(t, r, c, version, e);
  }

  // ---------- a post up to its event ----------

  /** Request `r` stands at `pc`, and the rest is as in `s`. */
  function With(s: System, r: Id, call: Call, base: nat, pc: Pc): System {
    s.(requests := s.requests[r := Request(call, pc, base, true)])
  }

  lemma More(s: System, run: seq<Action>, a: Action)
    ensures Run(s, run + [a]) == Next(Run(s, run), a)
  {
    assert (run + [a])[..|run|] == run;
  }

  function Plain(actor: string, c: Id, clientId: string): Call {
    Post(false, actor, c, true, clientId, "text", "hello", None, "hash")
  }

  lemma Posts(s: System, r: Id, actor: string, c: Id, clientId: string) returns (run: seq<Action>)
    requires r != 0 && r !in s.requests && Visible(s, c, actor)
    ensures Run(s, run) == With(s, r, Plain(actor, c, clientId), |History(s.born, c)|, Lookup)
  {
    var call, n := Plain(actor, c, clientId), |History(s.born, c)|;
    run := [Start(r, call)];
    More(s, [], Start(r, call));
    assert Run(s, run) == With(s, r, call, n, GuardChannel);
    More(s, run, Act(r, 0, 0));
    run := run + [Act(r, 0, 0)];
  }

  /** A post with a key of its own, on its first attempt. */
  lemma LooksUp(s: System, r: Id, actor: string, c: Id, clientId: string, n: nat)
    requires Visible(s, c, actor) && AnswersKey(s, c, actor, clientId, 0)
    ensures Next(With(s, r, Plain(actor, c, clientId), n, Lookup), Act(r, 0, 0))
            == With(s, r, Plain(actor, c, clientId), n, FindChannel(0, |History(s.born, c)|))
  {
  }

  lemma FindsChannel(s: System, r: Id, actor: string, c: Id, clientId: string, n: nat, m: nat)
    requires Visible(s, c, actor)
    ensures Next(With(s, r, Plain(actor, c, clientId), n, FindChannel(0, m)), Act(r, 0, 0))
            == With(s, r, Plain(actor, c, clientId), n, FindLatest(0, m, s.channels[c].lastMessageSeq))
  {
  }

  lemma FindsLatest(s: System, r: Id, actor: string, c: Id, clientId: string, n: nat, m: nat, summary: int, latest: Id)
    requires AnswersLatest(s, c, latest) && (latest != 0 ==> s.messages[latest].sequence == summary)
    ensures Next(With(s, r, Plain(actor, c, clientId), n, FindLatest(0, m, summary)), Act(r, 0, latest))
            == With(s, r, Plain(actor, c, clientId), n, Insert(0, m, summary + 1))
  {
  }

  /** The collections with one more message. */
  function Grown(s: System, r: Id, m: Message): System {
    s.(messages := s.messages[r := m], born := s.born[m.channelId := History(s.born, m.channelId) + [r]],
       revisions := s.revisions[r := [Revision(r, m)]])
  }

  lemma Inserts(s: System, r: Id, actor: string, c: Id, clientId: string, n: nat, m: nat, sequence: int)
    requires AnswersKey(s, c, actor, clientId, 0)
    requires forall i | i in s.messages && s.messages[i].channelId == c :: s.messages[i].sequence < sequence
    ensures var draft := Draft(r, Plain(actor, c, clientId), sequence);
            Next(With(s, r, Plain(actor, c, clientId), n, Insert(0, m, sequence)), Act(r, 0, 0))
            == With(Grown(s, r, draft), r, Plain(actor, c, clientId), n, Summarize(draft))
  {
  }

  /** The channel with a version taken by `r`. */
  function Bumped(s: System, r: Id, c: Id, ch: Channel): System {
    s.(channels := s.channels[c := ch.(lastEventVersion := ch.lastEventVersion + 1)],
       takers := s.takers[c := History(s.takers, c) + [r]])
  }

  lemma Summarizes(s: System, r: Id, actor: string, c: Id, clientId: string, n: nat, draft: Message)
    requires Visible(s, c, actor)
    ensures var ch := MaxMerged(s.channels[c], draft);
            Next(With(s, r, Plain(actor, c, clientId), n, Summarize(draft)), Act(r, 0, 0))
            == With(Bumped(s, r, c, ch), r, Plain(actor, c, clientId), n,
                    Emit(Event(r, MessageCreated, c, ch.lastEventVersion + 1, ch.participants,
                               MessageBody(PayloadOf(draft))),
                         Posted(draft, true)))
  {
  }

  /** What a post with a key of its own leaves behind just before its event is inserted. */
  function Announcing(s: System, r: Id, actor: string, c: Id, clientId: string): System
    requires c in s.channels
  {
    var ch := s.channels[c];
    var draft := Draft(r, Plain(actor, c, clientId), ch.lastMessageSeq + 1);
    With(Bumped(Grown(s, r, draft), r, c, MaxMerged(ch, draft)), r, Plain(actor, c, clientId), |History(s.born, c)|,
         Emit(Event(r, MessageCreated, c, ch.lastEventVersion + 1, ch.participants, MessageBody(PayloadOf(draft))),
              Posted(draft, true)))
  }

  /** `latest` being the newest message of the channel, or 0. */
  lemma ComesToInsert(s: System, r: Id, actor: string, c: Id, clientId: string, latest: Id) returns (run: seq<Action>)
    requires r != 0 && r !in s.requests && Visible(s, c, actor) && AnswersKey(s, c, actor, clientId, 0)
    requires AnswersLatest(s, c, latest) && (latest != 0 ==> s.messages[latest].sequence == s.channels[c].lastMessageSeq)
    ensures var n := |History(s.born, c)|;
            Run(s, run) == With(s, r, Plain(actor, c, clientId), n, Insert(0, n, s.channels[c].lastMessageSeq + 1))
  {
    var n := |History(s.born, c)|;
    run := Posts(s, r, actor, c, clientId);
    LooksUp(s, r, actor, c, clientId, n);
    More(s, run, Act(r, 0, 0));
    run := run + [Act(r, 0, 0)];
    FindsChannel(s, r, actor, c, clientId, n, n);
    More(s, run, Act(r, 0, 0));
    run := run + [Act(r, 0, 0)];
    FindsLatest(s, r, actor, c, clientId, n, n, s.channels[c].lastMessageSeq, latest);
    More(s, run, Act(r, 0, latest));
    run := run + [Act(r, 0, latest)];
  }

  lemma ComesToEvent(s: System, r: Id, actor: string, c: Id, clientId: string, latest: Id) returns (run: seq<Action>)
    requires r != 0 && r !in s.requests && Visible(s, c, actor) && AnswersKey(s, c, actor, clientId, 0)
    requires AnswersLatest(s, c, latest) && (latest != 0 ==> s.messages[latest].sequence == s.channels[c].lastMessageSeq)
    ensures Run(s, run) == Announcing(s, r, actor, c, clientId)
  {
    var n, sequence := |History(s.born, c)|, s.channels[c].lastMessageSeq + 1;
    var draft := Draft(r, Plain(actor, c, clientId), sequence);
    run := ComesToInsert(s, r, actor, c, clientId, latest);
    Inserts(s, r, actor, c, clientId, n, n, sequence);
    More(s, run, Act(r, 0, 0));
    run := run + [Act(r, 0, 0)];
    Summarizes(Grown(s, r, draft), r, actor, c, clientId, n, draft);
    More(s, run, Act(r, 0, 0));
    run := run + [Act(r, 0, 0)];
  }

  // ---------- the run ----------

  /** The channel of "a" and "b", just opened by request 1. */
  lemma OpensChannel() returns (run: seq<Action>)
    ensures Run(Empty(), run) == JustOpened()
  {
    run := [Start(1, Open("a", "b", true))];
    More(Empty(), [], Start(1, Open("a", "b", true)));
    More(Empty(), run, Act(1, 0, 0));
    run := run + [Act(1, 0, 0)];
    assert Run(Empty(), run) == Waiting();
    More(Empty(), run, Act(1, 0, 0));
    run := run + [Act(1, 0, 0)];
  }

  function Waiting(): System {
    Empty().(requests := map[1 := Request(Open("a", "b", true), OpenInsert, 0, true)])
  }

  function JustOpened(): System {
    OpenChannel(Waiting(), 1, ("a", "b"))
  }

  /** Request 2 takes version 1 of the channel and is abandoned before its event is inserted. */
  lemma FirstAbandoned() returns (run: seq<Action>)
    ensures Run(Empty(), run) == Next(Announcing(JustOpened(), 2, "a", 1, ""), Abandon(2))
  {
    var opens := OpensChannel();
    var first := ComesToEvent(JustOpened(), 2, "a", 1, "", 0);
    AfterBoth(Next, Empty(), opens, first);
    run := opens + first;
    More(Empty(), run, Abandon(2));
    run := run + [Abandon(2)];
  }

  /** Request 3 takes version 2, and stands before the same insert. */
  lemma FirstVersionLost() returns (run: seq<Action>)
    ensures var s := Run(Empty(), run);
            && LostAt(s, 2, 1, 1) && s.outbox == map[] && 3 in s.requests && s.requests[3].alive
              && s.requests[3].call.Post?
            && s.requests[3].pc.Emit? && s.requests[3].pc.event.channelId == 1 && s.requests[3].pc.event.version == 2
  {
    var first := FirstAbandoned();
    var s := Next(Announcing(JustOpened(), 2, "a", 1, ""), Abandon(2));
    var second := ComesToEvent(s, 3, "b", 1, "", 2);
    AfterBoth(Next, Empty(), first, second);
    run := first + second;
  }
}
