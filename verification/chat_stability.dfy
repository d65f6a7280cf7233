/** What a request knows survives whatever others do.

    `Evolves` is the rely condition: a request that has looked at the collections and comes
    back later finds them evolved. Every fact in `PcFits` is one that `Evolves` keeps, and the
    lemmas here say so, fact by fact and then for each kind of request, so that a step of one
    request never has to mention what another one knows. The last of them, `RequestStable`, is
    the one the proofs of the actions use. */
module ChatStability {
  import opened Schema
  import opened ChatSystem
  import opened ChatInvariant

  lemma EvolvesReflexive(s: System)
    ensures Evolves(s, s)
  {
  }

  lemma BornStable(s: System, t: System, c: Id, m: Id, mark: nat)
    requires Grew(s.born, t.born) && BornSince(s, c, m, mark)
    ensures BornSince(t, c, m, mark)
  {
    var k :| mark <= k < |History(s.born, c)| && History(s.born, c)[k] == m;
    assert History(s.born, c) <= History(t.born, c);
    assert History(t.born, c)[k] == m;
  }

  lemma SeenStable(s: System, t: System, m: Message)
    requires Grew(s.revisions, t.revisions) && Seen(s, m)
    ensures Seen(t, m)
    ensures forall r :: Wrote(s, r, m) ==> Wrote(t, r, m)
  {
    assert History(s.revisions, m.id) <= History(t.revisions, m.id);
  }

  lemma AdvancedStable(s: System, t: System, key: (Id, string), r: Id)
    requires Grew(s.advances, t.advances) && Advanced(s, key, r)
    ensures Advanced(t, key, r)
  {
    var k :| 0 <= k < |History(s.advances, key)| && History(s.advances, key)[k].writer == r;
    assert History(s.advances, key) <= History(t.advances, key);
    assert History(t.advances, key)[k].writer == r;
  }

  lemma ReplyStable(s: System, t: System, call: Call)
    requires Evolves(s, t) && call.Post? && call.channel in s.channels && ReplyFits(s, call)
    requires forall m | m in s.messages :: MessageFits(s, m)
    requires forall m | m in s.revisions :: RevisionsFit(s, m)
    ensures ReplyFits(t, call)
  {
    if call.replyTo.Some? {
      var target := call.replyTo.value;
      assert History(s.revisions, target) <= History(t.revisions, target);
      if Active(t, call.channel) {
        assert Active(s, call.channel);
        assert target in s.messages && MessageEvolves(s, t, target);
        assert s.messages[target].channelId == call.channel by { IdentityOf(s, target); }
      }
    }
  }

  /** A stored message has the identity it was inserted with. */
  lemma IdentityOf(s: System, m: Id)
    requires m in s.messages && MessageFits(s, m) && RevisionsFit(s, m)
    ensures SameIdentity(s.revisions[m][0].message, s.messages[m])
    ensures s.messages[m].id == m
    ensures s.messages[m].channelId == s.requests[m].call.channel
  {
    assert RevisionFits(s, m, |s.revisions[m]| - 1);
  }

  lemma PostReadyStable(s: System, t: System, call: Call)
    requires Inv(s) && Evolves(s, t) && call.Post? && PostReady(s, call)
    ensures PostReady(t, call)
  {
    ReplyStable(s, t, call);
  }

  lemma LoopStable(s: System, t: System, call: Call, base: nat, attempt: nat, mark: nat)
    requires Inv(s) && Evolves(s, t) && call.Post? && LoopFits(s, call, base, attempt, mark)
    ensures LoopFits(t, call, base, attempt, mark)
  {
    PostReadyStable(s, t, call);
    var c := call.channel;
    assert History(s.born, c) <= History(t.born, c);
    forall m | m in t.messages && HasKey(t.messages[m], c, call.actor, call.clientId)
      ensures BornSince(t, c, m, mark)
    {
      if m in s.messages {
        assert MessageEvolves(s, t, m);
        BornStable(s, t, c, m, mark);
      } else {
        BornEarlier(t, c, m, |History(s.born, c)|, mark);
      }
    }
  }

  lemma BornEarlier(s: System, c: Id, m: Id, mark: nat, earlier: nat)
    requires BornSince(s, c, m, mark) && earlier <= mark
    ensures BornSince(s, c, m, earlier)
  {
    var k :| mark <= k < |History(s.born, c)| && History(s.born, c)[k] == m;
    assert earlier <= k;
  }

  lemma SequenceFreshStable(s: System, t: System, c: Id, sequence: int, mark: nat)
    requires Evolves(s, t) && SequenceFresh(s, c, sequence, mark) && mark <= |History(s.born, c)|
    ensures SequenceFresh(t, c, sequence, mark)
  {
    forall m | m in t.messages && t.messages[m].channelId == c && t.messages[m].sequence == sequence
      ensures BornSince(t, c, m, mark)
    {
      if m in s.messages {
        assert MessageEvolves(s, t, m);
        BornStable(s, t, c, m, mark);
      } else {
        BornEarlier(t, c, m, |History(s.born, c)|, mark);
      }
    }
  }

  lemma EventStable(s: System, t: System, r: Id, ev: Event)
    requires Evolves(s, t) && EventFits(s, r, ev)
    ensures EventFits(t, r, ev)
  {
    var c := ev.channelId;
    assert History(s.takers, c) <= History(t.takers, c);
    match ev.body
    case MessageBody(p) =>
      assert History(s.revisions, p.id) <= History(t.revisions, p.id);
    case CursorBody(user, lastRead) =>
      AdvancedStable(s, t, (c, user), r);
      assert RequestEvolves(s, t, r);
  }

  /** Every content ever seen of a message shares the identity of the stored document. */
  lemma SeenIdentity(s: System, m: Message)
    requires Inv(s) && Seen(s, m)
    ensures m.id in s.revisions && SameIdentity(s.revisions[m.id][0].message, m)
    ensures m.id in s.messages ==> SameIdentity(s.messages[m.id], m)
    ensures m.id in s.requests && s.requests[m.id].call.Post?
    ensures m.channelId == s.requests[m.id].call.channel && m.channelId in s.channels
  {
    assert RevisionsFit(s, m.id);
    assert RevisionFits(s, m.id, m.revision - 1);
    if m.id in s.messages { IdentityOf(s, m.id); }
  }

  lemma PostedStable(s: System, t: System, r: Id, call: Call, m: Message, created: bool)
    requires Inv(s) && Evolves(s, t) && call.Post? && PostedFits(s, r, call, m, created)
    requires r in s.requests && r in t.requests
    requires created ==> t.requests[r].pc != Done(Failed(NotFound))
    ensures PostedFits(t, r, call, m, created)
  {
    SeenStable(s, t, m);
    if Active(t, call.channel) || created {
      SeenIdentity(s, m);
      if m.id in s.messages { assert MessageEvolves(s, t, m.id); }
    }
  }

  /** Requests that are past their first write insert no message any more. */
  ghost predicate OnlyEarlyInsert(s: System, t: System) {
    forall m | m in t.revisions && m !in s.revisions && m in s.requests :: Early(s.requests[m].pc)
  }

  lemma PostEarlyStable(s: System, t: System, call: Call, base: nat, pc: Pc)
    requires Inv(s) && Evolves(s, t)
    requires call.Post? && PostEarlyFits(s, call, base, pc)
    ensures PostEarlyFits(t, call, base, pc)
  {
    assert History(s.born, call.channel) <= History(t.born, call.channel);
    if pc.Lookup? || pc.Recheck? {
      PostReadyStable(s, t, call);
    } else if pc.FindChannel? || pc.FindLatest? || pc.Insert? {
      LoopStable(s, t, call, base, pc.attempt, pc.mark);
      if pc.Insert? { SequenceFreshStable(s, t, call.channel, pc.sequence, pc.mark); }
    }
  }

  lemma PostLateStable(s: System, t: System, r: Id, call: Call, base: nat, pc: Pc)
    requires Inv(s) && Evolves(s, t) && OnlyEarlyInsert(s, t) && !Early(pc)
    requires r in s.requests && s.requests[r].pc == pc && r in t.requests && t.requests[r].pc == pc
    requires call.Post? && PostLateFits(s, r, call, base, pc)
    ensures PostLateFits(t, r, call, base, pc)
  {
    if pc.Summarize? || pc.Rollback? {
      PostReadyStable(s, t, call);
      assert MessageEvolves(s, t, r);
      if pc.Summarize? { SeenStable(s, t, pc.message); }
    } else if pc.Emit? {
      EventStable(s, t, r, pc.event);
      PostedStable(s, t, r, call, pc.answer.message, true);
    } else if pc.outcome.Posted? {
      PostedStable(s, t, r, call, pc.outcome.message, pc.outcome.created);
    } else {
      assert History(s.born, call.channel) <= History(t.born, call.channel);
    }
  }

  lemma MutateStable(s: System, t: System, r: Id, call: Call, base: nat, pc: Pc)
    requires Evolves(s, t) && call.Mutate? && MutateFits(s, r, call, base, pc)
    ensures MutateFits(t, r, call, base, pc)
  {
    assert History(s.revisions, call.target) <= History(t.revisions, call.target);
    if pc.AuthorizeChannel? || pc.Swap? {
      SeenStable(s, t, pc.seen);
    } else if pc.Bump? {
      SeenStable(s, t, pc.updated);
    } else if pc.Emit? {
      EventStable(s, t, r, pc.event);
      SeenStable(s, t, pc.answer.message);
    } else if pc.Done? && pc.outcome.Mutated? {
      SeenStable(s, t, pc.outcome.message);
    }
  }

  lemma ReadStable(s: System, t: System, r: Id, call: Call, base: nat, pc: Pc)
    requires Inv(s) && Evolves(s, t) && call.Read? && ReadFits(s, r, call, base, pc)
    ensures ReadFits(t, r, call, base, pc)
  {
    var key := (call.channel, call.actor);
    assert History(s.advances, key) <= History(t.advances, key);
    if pc.BumpRead? || (pc.FindState? && pc.advanced) {
      AdvancedStable(s, t, key, r);
    } else if pc.Emit? {
      EventStable(s, t, r, pc.event);
    }
  }

  /** What a request knows at its program point holds in every later state in which it still
      stands there, whatever the others did. */
  lemma RequestStable(s: System, t: System, r: Id)
    requires Inv(s) && Evolves(s, t) && OnlyEarlyInsert(s, t) && r in s.requests && r in t.requests
    requires t.requests[r] == s.requests[r].(alive := t.requests[r].alive)
    ensures RequestFits(t, r)
  {
    var q := s.requests[r];
    assert RequestFits(s, r);
    match q.call
    case Post(_, _, _, _, _, _, _, _, _) =>
      assert History(s.born, q.call.channel) <= History(t.born, q.call.channel);
      if Early(q.pc) { PostEarlyStable(s, t, q.call, q.base, q.pc); }
      else { PostLateStable(s, t, r, q.call, q.base, q.pc); }
    case Mutate(_, _, _) => MutateStable(s, t, r, q.call, q.base, q.pc);
    case Read(_, _, _) => ReadStable(s, t, r, q.call, q.base, q.pc);
    case Open(_, _, _) =>
  }
}
