/** Get-or-create of a direct channel. */
module ChannelRepo {
  import opened Schema
  import opened ChatSystem
  import opened ChatInvariant
  import opened ChatReach
  import opened ChatTheoremsDocs
  import opened Mongo
  import opened MessageRepo

  /** Channels are never removed, and their key never changes. */
  lemma PairStays(s: System, t: System, pair: (string, string))
    requires Later(s, t) && PairTaken(s, pair)
    ensures !AnswersPair(t, pair, 0)
  {
    LaterFits(s, t);
    var c :| c in s.channels && s.channels[c].directKey == pair;
    assert ChannelEvolves(s.channels[c], t.channels[c]);
  }

  /** Answers the one channel of the pair; only being cut short prevents that. */
  ghost predicate OpenAnswers(s: System, r: Id, pair: (string, string), answer: Outcome) {
    && Answers(s, r, answer)
    && if answer.Opened? then
         && answer.channel in s.channels
         && s.channels[answer.channel].participants == s.channels[answer.channel].directKey == pair
         && forall c | c in s.channels && s.channels[c].directKey == pair :: c == answer.channel
       else answer == Failed(StoreError) && !s.requests[r].alive
  }

  lemma OpenedIsTheOne(s: System, r: Id, pair: (string, string), answer: Outcome)
    requires IsReachable(s) && Answers(s, r, answer) && answer.Opened?
    requires s.requests[r].call.Open? && PairOf(s.requests[r].call) == pair
    ensures OpenAnswers(s, r, pair, answer)
  {
    ReachableFits(s);
    OpenedFacts(s, r);
  }

  /** The upsert by key, and the second look after a duplicate key. */
  method GetOrCreate(db: Database, r: Id, pair: (string, string)) returns (answer: Outcome)
    requires db.Valid() && r != 0 && StandsAt(db.View(), r, OpenUpsert) && db.requests[r].call.Open?
    requires PairOf(db.requests[r].call) == pair && !Refused(db.requests[r].call)
    modifies db
    ensures db.Valid() && Later(old(db.View()), db.View())
    ensures r in db.requests && db.requests[r].call == old(db.requests[r].call)
    ensures OpenAnswers(db.View(), r, pair, answer)
    ensures answer == Opened(r) ==> db.channels[r].active && db.channels[r].lastMessageSeq == 0
  {
    ghost var s0 := db.View();
    var up := db.Interfere(r);
    if !up { return Failed(StoreError); }
    ghost var s1 := db.View();
    NotYetOpened(s1, r);
    var found, doc := db.MatchChannel(r, pair);
    LaterTransitive(s0, s1, db.View());
    if found.Some? {
      OpenedIsTheOne(db.View(), r, pair, Opened(found.value));
      return Opened(found.value);
    }
    s1 := db.View();
    up := db.Interfere(r);
    LaterTransitive(s0, s1, db.View());
    if !up { return Failed(StoreError); }
    s1 := db.View();
    var inserted := db.InsertChannel(r, pair);
    LaterTransitive(s0, s1, db.View());
    if inserted {
      OpenedIsTheOne(db.View(), r, pair, Opened(r));
      return Opened(r);
    }
    s1 := db.View();
    answer := FindAfterDuplicate(db, r, pair);
    LaterTransitive(s0, s1, db.View());
  }

  /** A request that has not ended has not inserted a channel. */
  lemma NotYetOpened(s: System, r: Id)
    requires IsReachable(s) && r in s.requests && !s.requests[r].pc.Done?
    ensures r !in s.channels
  {
    ReachableFits(s);
    assert r in s.channels ==> ChannelFits(s, r);
  }

  method FindAfterDuplicate(db: Database, r: Id, pair: (string, string)) returns (answer: Outcome)
    requires db.Valid() && r != 0 && StandsAt(db.View(), r, OpenFind) && db.requests[r].call.Open?
    requires PairOf(db.requests[r].call) == pair && PairTaken(db.View(), pair)
    modifies db
    ensures db.Valid() && Later(old(db.View()), db.View())
    ensures r in db.requests && db.requests[r].call == old(db.requests[r].call)
    ensures OpenAnswers(db.View(), r, pair, answer) && answer != Opened(r)
  {
    ghost var s0 := db.View();
    var up := db.Interfere(r);
    if !up { return Failed(StoreError); }
    ghost var s1 := db.View();
    NotYetOpened(s1, r);
    PairStays(s0, s1, pair);
    var found, doc := db.FindChannelByPair(r, pair);
    LaterTransitive(s0, s1, db.View());
    if found.None? { return Failed(StoreError); }
    OpenedIsTheOne(db.View(), r, pair, Opened(found.value));
    answer := Opened(found.value);
  }
}
