/** Who may open a direct channel, and who may see it. */
module ChannelService {
  import opened Schema
  import opened ChatSystem
  import opened ChatReach
  import opened ChatTheoremsDocs
  import opened Mongo
  import opened MessageRepo
  import ChannelRepo

  /** The membership check on a channel found by its id. */
  predicate Admits(found: Option<Channel>, user: string) {
    found.Some? && found.value.active && (found.value.participants.0 == user || found.value.participants.1 == user)
  }

  /** The two users of an open, sorted; `pair` is a two-element slice sorted in place. */
  method SortedPair(actor: string, peer: string) returns (pair: (string, string))
    ensures pair == Canonical(actor, peer)
    ensures {pair.0, pair.1} == {actor, peer} && !Precedes(pair.1, pair.0)
  {
    PrecedesTotal(actor, peer);
    pair := (actor, peer);
    if Precedes(pair.1, pair.0) { pair := (pair.1, pair.0); }
  }

  /** A channel is open to exactly the two users it was opened for, as long as it is active. */
  lemma OpenToBoth(s: System, r: Id)
    requires IsReachable(s) && r in s.requests && s.requests[r].pc.Done? && s.requests[r].pc.outcome.Opened?
    ensures var call, c := s.requests[r].call, s.requests[r].pc.outcome.channel;
            && call.Open? && c in s.channels
            && forall u :: Visible(s, c, u) <==> s.channels[c].active && (u == call.actor || u == call.peer)
  {
    ReachableFits(s);
    OpenedFacts(s, r);
    var call, c := s.requests[r].call, s.requests[r].pc.outcome.channel;
    CanonicalPair(call.actor, call.peer);
    var p := s.channels[c].participants;
    assert call.actor in {p.0, p.1} && call.peer in {p.0, p.1};
    assert p.0 in {call.actor, call.peer} && p.1 in {call.actor, call.peer};
  }

  /** Opening a channel gives the only channel of the two users, whoever asks; it is refused
      exactly for a missing name, a malformed one, or a channel with oneself. */
  method Create(db: Database, r: Id, actor: string, peer: string, wellFormed: bool) returns (answer: Outcome)
    requires db.Valid() && r != 0 && r !in db.requests
    modifies db
    ensures db.Valid() && Later(old(db.View()), db.View())
    ensures r in db.requests && db.requests[r].call == Open(actor, peer, wellFormed)
    ensures answer == Failed(Invalid) <==> actor == "" || !wellFormed || actor == peer
    ensures answer != Failed(Invalid) ==> ChannelRepo.OpenAnswers(db.View(), r, Canonical(actor, peer), answer)
    ensures answer.Opened? ==>
              forall u :: Visible(db.View(), answer.channel, u) <==>
                          db.channels[answer.channel].active && (u == actor || u == peer)
    ensures answer == Opened(r) ==> db.channels[r].active
  {
    ghost var s0 := db.View();
    db.Begin(r, Open(actor, peer, wellFormed));
    ghost var s1 := db.View();
    if actor == "" || !wellFormed || actor == peer {
      assert OpenUpsertStep(s1, r, 0) == Fail(s1, r, Invalid);
      db.Refuse(r);
      LaterTransitive(s0, s1, db.View());
      return Failed(Invalid);
    }
    var pair := SortedPair(actor, peer);
    answer := ChannelRepo.GetOrCreate(db, r, pair);
    LaterTransitive(s0, s1, db.View());
    if answer.Opened? { OpenToBoth(db.View(), r); }
  }
}
