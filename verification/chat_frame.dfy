/** Whatever one action leaves alone keeps its part of the invariant.

    Each lemma takes one conjunct of `Inv`, says which fields of the state it depends on, and
    carries it from a state to the next when the action left those fields alone, or changed
    them only in the ways `Evolves` allows. `Others` says that only one request moved, and
    `Kept` is the conclusion every action has to reach. The proofs of the actions consist of
    these lemmas and of what is particular to the action. */
module ChatFrame {
  import opened Schema
  import opened ChatSystem
  import opened ChatInvariant
  import opened ChatStability

  /** A history with one more entry. */
  lemma Appends<K(!new), V>(m: map<K, seq<V>>, k: K, v: V)
    ensures Grew(m, m[k := History(m, k) + [v]])
  {
  }

  /** `t` follows `s` by an action of request `r` alone. */
  ghost predicate OneStep(s: System, t: System, r: Id) {
    Inv(s) && Evolves(s, t) && OnlyEarlyInsert(s, t) && Others(s, t, r)
  }

  ghost predicate Others(s: System, t: System, r: Id) {
    && (forall q {:trigger t.requests[q]} {:trigger q in t.requests} ::
          q in t.requests && q != r ==> q in s.requests && t.requests[q] == s.requests[q])
    && (forall e {:trigger e in t.outbox} :: e in t.outbox && e != r ==> e in s.outbox)
  }

  /** What every action of `r` does: it keeps the invariant, evolves, and moves nobody else. */
  ghost predicate Kept(s: System, t: System, r: Id) {
    Inv(t) && Evolves(s, t) && Others(s, t, r)
  }

  /** Only `r` moved, and not from beyond its first write. */
  lemma EarlyRequests(s: System, t: System, r: Id)
    requires r in s.requests && Early(s.requests[r].pc)
    requires r in t.requests && t.requests[r].call == s.requests[r].call
    requires s.requests[r].call.Post? ==> t.requests[r].base == s.requests[r].base
    requires s.requests[r].base != 0 ==> t.requests[r].base != 0
    requires t.requests == s.requests[r := t.requests[r]]
    ensures forall q {:trigger RequestEvolves(s, t, q)} | q in s.requests :: RequestEvolves(s, t, q)
  {
  }

  lemma KeepRequests(s: System, t: System, r: Id)
    requires OneStep(s, t, r)
    ensures forall q {:trigger RequestFits(t, q)} | q in t.requests && q != r :: RequestFits(t, q)
  {
    forall q | q in t.requests && q != r ensures RequestFits(t, q) {
      RequestStable(s, t, q);
    }
  }

  lemma KeepOutbox(s: System, t: System, r: Id)
    requires OneStep(s, t, r)
    ensures forall e {:trigger OutboxFits(t, e)} | e in s.outbox :: e in t.outbox && OutboxFits(t, e)
  {
    forall e | e in s.outbox ensures e in t.outbox && OutboxFits(t, e) {
      assert OutboxFits(s, e) && RequestEvolves(s, t, e);
      EventStable(s, t, e, s.outbox[e].event);
    }
  }

  lemma KeepTakers(s: System, t: System, r: Id)
    requires OneStep(s, t, r)
    ensures forall c, k {:trigger TakerFits(t, c, k)} | 0 <= k < |History(s.takers, c)| ::
              k < |History(t.takers, c)| && TakerFits(t, c, k)
  {
    forall c, k | 0 <= k < |History(s.takers, c)|
      ensures k < |History(t.takers, c)| && TakerFits(t, c, k)
    {
      assert TakerFits(s, c, k);
      assert History(s.takers, c) <= History(t.takers, c);
      assert RequestEvolves(s, t, History(s.takers, c)[k]);
    }
  }

  lemma KeepRevision(s: System, t: System, m: Id, k: nat)
    requires Evolves(s, t) && m in s.revisions && k < |s.revisions[m]| && RevisionFits(s, m, k)
    requires m in t.revisions && t.revisions[m] == s.revisions[m]
    ensures RevisionFits(t, m, k)
  {
    assert RequestEvolves(s, t, s.revisions[m][k].writer);
  }

  lemma KeepRevisionsOf(s: System, t: System, r: Id, m: Id)
    requires OneStep(s, t, r)
    requires m in s.revisions && m in t.revisions && t.revisions[m] == s.revisions[m]
    ensures RevisionsFit(t, m)
  {
    assert RevisionsFit(s, m) && RequestEvolves(s, t, m);
    var first := s.revisions[m][0].message;
    BornStable(s, t, first.channelId, m, 0);
    ReplyStable(s, t, s.requests[m].call);
    forall k | 0 <= k < |s.revisions[m]| ensures RevisionFits(t, m, k) {
      KeepRevision(s, t, m, k);
    }
  }

  lemma KeepRevisions(s: System, t: System, r: Id)
    requires OneStep(s, t, r)
    ensures forall m {:trigger RevisionsFit(t, m)} |
              m in s.revisions && m in t.revisions && t.revisions[m] == s.revisions[m] :: RevisionsFit(t, m)
  {
    forall m | m in s.revisions && m in t.revisions && t.revisions[m] == s.revisions[m]
      ensures RevisionsFit(t, m)
    {
      KeepRevisionsOf(s, t, r, m);
    }
  }

  /** The reply link of a stored message survives as long as its channel is active. */
  lemma KeepLink(s: System, t: System, m: Id)
    requires Inv(s) && Evolves(s, t) && m in s.messages && m in t.messages
    requires Active(t, t.messages[m].channelId) && t.messages[m].replyTo != 0
    ensures t.messages[m].replyTo in t.messages
    ensures t.messages[t.messages[m].replyTo].sequence < t.messages[m].sequence
  {
    assert MessageFits(s, m) && MessageEvolves(s, t, m);
    IdentityOf(s, m);
    assert RevisionsFit(s, m);
    var target := s.messages[m].replyTo;
    assert Active(s, s.messages[m].channelId);
    assert MessageFits(s, target) && MessageEvolves(s, t, target);
    IdentityOf(s, target);
  }

  lemma KeepMessage(s: System, t: System, m: Id)
    requires Inv(s) && Evolves(s, t) && m in s.messages && m in t.messages && t.messages[m] == s.messages[m]
    requires m in s.revisions && m in t.revisions && t.revisions[m] == s.revisions[m]
    ensures MessageFits(t, m)
  {
    assert MessageFits(s, m) && RequestEvolves(s, t, m);
    if Active(t, t.messages[m].channelId) && t.messages[m].replyTo != 0 { KeepLink(s, t, m); }
  }

  lemma KeepMessages(s: System, t: System, r: Id)
    requires OneStep(s, t, r)
    ensures forall m {:trigger MessageFits(t, m)} |
              && m in s.messages && m in t.messages && t.messages[m] == s.messages[m]
              && m in s.revisions && m in t.revisions && t.revisions[m] == s.revisions[m] :: MessageFits(t, m)
  {
    forall m | && m in s.messages && m in t.messages && t.messages[m] == s.messages[m]
               && m in s.revisions && m in t.revisions && t.revisions[m] == s.revisions[m]
      ensures MessageFits(t, m)
    {
      KeepMessage(s, t, m);
    }
  }

  lemma KeepCursor(s: System, t: System, key: (Id, string))
    requires Evolves(s, t) && key in s.states && CursorFits(s, key)
    requires key in t.states && t.states[key] == s.states[key]
    requires History(t.advances, key) == History(s.advances, key)
    ensures CursorFits(t, key)
  {
    var h := History(s.advances, key);
    forall k | 0 <= k < |h| ensures AdvanceFits(t, key, h[k]) {
      assert RequestEvolves(s, t, h[k].writer);
    }
  }

  lemma KeepCursors(s: System, t: System, r: Id)
    requires OneStep(s, t, r)
    ensures forall key {:trigger CursorFits(t, key)} |
              && key in s.states && key in t.states && t.states[key] == s.states[key]
              && History(t.advances, key) == History(s.advances, key) :: CursorFits(t, key)
  {
    forall key | && key in s.states && key in t.states && t.states[key] == s.states[key]
                 && History(t.advances, key) == History(s.advances, key)
      ensures CursorFits(t, key)
    {
      assert CursorFits(s, key);
      KeepCursor(s, t, key);
    }
  }

  /** An action that adds no event, version or cursor write keeps all records. */
  lemma KeepRecords(s: System, t: System, r: Id)
    requires OneStep(s, t, r)
    requires t.outbox == s.outbox && t.takers == s.takers
    requires t.advances == s.advances && t.states == s.states
    ensures RecordsFit(t)
  {
    KeepOutbox(s, t, r);
    KeepTakers(s, t, r);
    KeepCursors(s, t, r);
  }

  lemma KeepPairs(s: System, t: System)
    requires Inv(s) && Evolves(s, t) && t.channels.Keys == s.channels.Keys
    ensures PairsUnique(t)
  {
    forall c | c in s.channels ensures t.channels[c].directKey == s.channels[c].directKey {
      assert ChannelEvolves(s.channels[c], t.channels[c]);
    }
  }

  /** An action that leaves messages and their revisions alone. */
  lemma KeepDocuments(s: System, t: System, r: Id)
    requires OneStep(s, t, r) && KeysFit(t) && PairsUnique(t)
    requires t.messages == s.messages && t.revisions == s.revisions
    requires forall c {:trigger ChannelFits(t, c)} | c in t.channels :: ChannelFits(t, c)
    ensures DocumentsFit(t)
  {
    assert IndexesUnique(t);
    forall m {:trigger RevisionsFit(t, m)} | m in t.revisions ensures RevisionsFit(t, m) {
      KeepRevisionsOf(s, t, r, m);
    }
    forall m {:trigger MessageFits(t, m)} | m in t.messages ensures MessageFits(t, m) {
      assert MessageFits(s, m);
      KeepMessage(s, t, m);
    }
  }

  /** Messages and revisions untouched, histories grown, requests evolved: the state evolves. */
  lemma EvolvesBesideMessages(s: System, t: System, r: Id)
    requires Inv(s) && t.messages == s.messages && t.revisions == s.revisions
    requires forall c | c in s.channels :: c in t.channels && ChannelEvolves(s.channels[c], t.channels[c])
    requires Grew(s.born, t.born) && Grew(s.takers, t.takers) && Grew(s.advances, t.advances)
    requires forall k | k in s.states :: k in t.states && s.states[k] <= t.states[k]
    requires forall e | e in s.outbox :: e in t.outbox && t.outbox[e] == s.outbox[e]
    requires forall q {:trigger RequestEvolves(s, t, q)} | q in s.requests :: RequestEvolves(s, t, q)
    requires Others(s, t, r) && StartedSince(s, t)
    requires forall q {:trigger CursorNoted(s, t, q)} | q in t.requests :: CursorNoted(s, t, q)
    ensures OneStep(s, t, r)
  {
    forall m | m in s.messages ensures MessageEvolves(s, t, m) {}
  }

  lemma KeepIndexes(s: System, t: System)
    requires Inv(s) && Evolves(s, t) && t.messages.Keys <= s.messages.Keys
    ensures IndexesUnique(t)
  {
    forall m, n | m in t.messages && n in t.messages && m != n
      ensures !Clashes(t.messages[m], t.messages[n])
    {
      assert MessageEvolves(s, t, m) && MessageEvolves(s, t, n);
    }
  }

  /** A channel none of whose messages is new keeps its density. */
  lemma KeepDense(s: System, t: System, c: Id)
    requires Evolves(s, t) && c in s.channels && Dense(s, c) && Active(t, c)
    requires History(t.born, c) == History(s.born, c)
    ensures Dense(t, c)
  {
    forall k | 0 <= k < |History(t.born, c)|
      ensures && History(t.born, c)[k] in t.messages
              && t.messages[History(t.born, c)[k]].channelId == c
              && t.messages[History(t.born, c)[k]].sequence == k + 1
    {
      assert MessageEvolves(s, t, History(s.born, c)[k]);
    }
  }

  lemma KeepBorn(s: System, t: System, c: Id)
    requires Evolves(s, t) && BornFits(s, c) && History(t.born, c) == History(s.born, c)
    ensures BornFits(t, c)
  {
    var h := History(s.born, c);
    forall k | 0 <= k < |h| 
      ensures |History(t.revisions, h[k])| > 0 && History(t.revisions, h[k])[0].message.channelId == c
    {
      assert History(s.revisions, h[k]) <= History(t.revisions, h[k]);
    }
  }

  lemma KeepSummary(s: System, t: System, c: Id)
    requires Evolves(s, t) && c in s.channels && c in t.channels && SummaryFits(s, c)
    requires t.channels[c].lastMessageSeq == s.channels[c].lastMessageSeq
    requires t.channels[c].lastMessageId == s.channels[c].lastMessageId
    ensures SummaryFits(t, c)
  {
    var i := s.channels[c].lastMessageId;
    if s.channels[c].lastMessageSeq != 0 {
      assert MessageEvolves(s, t, i) && RequestEvolves(s, t, i);
    }
  }

  /** No message of the channel is new, and whoever was about to summarize still is. */
  lemma KeepCovered(s: System, t: System, c: Id)
    requires Evolves(s, t) && c in s.channels && c in t.channels && Covered(s, c)
    requires s.channels[c].lastMessageSeq <= t.channels[c].lastMessageSeq
    requires History(t.born, c) == History(s.born, c)
    requires forall m | && m in t.messages && m in s.messages && s.messages[m].channelId == c
                        && m in s.requests && s.requests[m].pc.Summarize? ::
               t.messages[m].sequence <= t.channels[c].lastMessageSeq
               || (m in t.requests && t.requests[m].pc.Summarize?)
    ensures Covered(t, c)
  {
    forall m | m in t.messages && t.messages[m].channelId == c
      ensures t.messages[m].sequence <= t.channels[c].lastMessageSeq
              || (m in t.requests && t.requests[m].pc.Summarize?)
    {
      if m in s.messages { assert MessageEvolves(s, t, m); }
    }
  }

  /** A channel changes little unless `r` inserts into it, summarizes or takes a version of it. */
  lemma KeepChannel(s: System, t: System, r: Id, c: Id)
    requires Evolves(s, t) && Others(s, t, r)
    requires c in s.channels && c in t.channels && ChannelFits(s, c)
    requires t.channels[c] == s.channels[c].(active := t.channels[c].active)
    requires History(t.born, c) == History(s.born, c) && History(t.takers, c) == History(s.takers, c)
    requires r in s.requests && s.requests[r].pc.Summarize? ==>
               (r in t.requests && t.requests[r].pc.Summarize?)
               || (r in s.messages && s.messages[r].channelId == c ==> !Active(t, c))
    ensures ChannelFits(t, c)
  {
    assert RequestEvolves(s, t, c);
    KeepSummary(s, t, c);
    KeepBorn(s, t, c);
    if Active(t, c) {
      KeepDense(s, t, c);
      forall m | && m in t.messages && m in s.messages && s.messages[m].channelId == c
                 && m in s.requests && s.requests[m].pc.Summarize?
        ensures m in t.requests && t.requests[m].pc.Summarize?
      {
        assert RequestEvolves(s, t, m);
      }
      KeepCovered(s, t, c);
    }
  }
}
