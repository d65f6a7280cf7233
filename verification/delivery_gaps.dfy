/** Versions a consumer never sees. */
module DeliveryGaps {
  import opened Schema
  import opened Runs
  import Chat = ChatSystem
  import ChatInvariant
  import ChatReach
  import ChatLostVersion
  import OutboxHeads
  import RelayScan
  import RelaySystem
  import RelayLease
  import RelayInvariant
  import RelayReach
  import RelayTheorems
  import opened Delivery

  // ---------- why a smaller version is missing ----------

  /** The request that took version `u` of channel `c`. */
  function Taker(s: Chat.System, c: Id, u: int): Id
    requires 1 <= u <= |Chat.History(s.takers, c)|
  {
    Chat.History(s.takers, c)[u - 1]
  }

  /** A record was published before version `u` of its channel, or instead of it, for one of
      three reasons: the request that took `u` has not inserted its event (and never will if it
      was abandoned), the event was parked, or it entered the outbox after the record's batch
      had been fetched. */
  lemma SkippedFor(z: Whole, k: nat, u: int)
    requires Linked(z) && k < |z.relay.log| && 1 <= u < z.relay.log[k].event.version
    ensures var rec := z.relay.log[k];
            && u <= |Chat.History(z.chat.takers, rec.key)|
            && var r := Taker(z.chat, rec.key, u);
            && r in z.chat.requests
            && if r !in z.relay.rows then
                 z.chat.requests[r].pc.Emit? && z.chat.requests[r].pc.event.channelId == rec.key
                 && z.chat.requests[r].pc.event.version == u
               else
                 && z.relay.rows[r].doc.event.channelId == rec.key && z.relay.rows[r].doc.event.version == u
                 && (z.relay.rows[r].status.Published? ==> RelayInvariant.Logged(z.relay, r))
                 && (z.relay.rows[r].status.Pending? ==>
                       forall p | 0 <= p < |z.relay.arrivals| && z.relay.arrivals[p] == r :: p >= rec.fetchedAt)
  {
    var rec := z.relay.log[k];
    RecordIsTrue(z, k);
    ChatReach.ReachableFits(z.chat);
    assert ChatInvariant.ChannelFits(z.chat, rec.key);
    assert ChatInvariant.TakerFits(z.chat, rec.key, u - 1);
    var r := Taker(z.chat, rec.key, u);
    if r in z.relay.rows {
      assert ChatInvariant.OutboxFits(z.chat, r);
      RelayReach.ReachedFits(z.relay);
      assert RelayInvariant.RecordFits(z.relay, rec) && RelayInvariant.RowFits(z.relay, r);
      if z.relay.rows[r].status.Pending? {
        forall p | 0 <= p < |z.relay.arrivals| && z.relay.arrivals[p] == r ensures p >= rec.fetchedAt {
          assert p < rec.fetchedAt ==> RelayInvariant.Early(z.relay, r, rec.fetchedAt);
        }
      }
    }
  }

  /** Version `u` of the record's channel is in the log before it. */
  ghost predicate Precedes(z: Whole, k: nat, u: int)
    requires k < |z.relay.log|
  {
    exists j :: 0 <= j < k && z.relay.log[j].key == z.relay.log[k].key && z.relay.log[j].event.version == u
  }

  /** The record of a version is about the event of its taker. */
  lemma RecordOfTaker(z: Whole, j: nat)
    requires Linked(z) && j < |z.relay.log|
    ensures var rec := z.relay.log[j];
            && 1 <= rec.event.version <= |Chat.History(z.chat.takers, rec.key)|
            && rec.row.id == Taker(z.chat, rec.key, rec.event.version) && rec.row.id in z.relay.rows
            && RelayInvariant.Early(z.relay, rec.row.id, rec.fetchedAt)
  {
    RecordIsTrue(z, j);
    ChatReach.ReachableFits(z.chat);
    assert ChatInvariant.OutboxFits(z.chat, z.relay.log[j].event.eventId);
    RelayReach.ReachedFits(z.relay);
    assert RelayInvariant.RecordFits(z.relay, z.relay.log[j]);
  }

  /** A published event that the record's fetch could see comes before the record. */
  lemma SeenPrecedes(z: Whole, k: nat, u: int, r: Id)
    requires Linked(z) && RelayTheorems.SoloReached(z.relay) && k < |z.relay.log| && u < z.relay.log[k].event.version
    requires r in z.relay.rows && z.relay.rows[r].doc.event.channelId == z.relay.log[k].key
    requires z.relay.rows[r].doc.event.version == u && RelayInvariant.Logged(z.relay, r)
    requires RelayInvariant.Early(z.relay, r, z.relay.log[k].fetchedAt)
    ensures Precedes(z, k, u)
  {
    var j :| 0 <= j < |z.relay.log| && z.relay.log[j].row.id == r;
    RelayReach.LogIsOutbox(z.relay, j);
    assert z.relay.log[j].key == z.relay.log[k].key by { RecordIsTrue(z, j); }
    if j > k { RelayTheorems.ChannelOrder(z.relay, k, j); }
  }

  /** Without overlapping relays, a smaller version comes before a record exactly if its event
      had entered the outbox when the record's batch was fetched; only a parked event, whose
      publish errors may or may not have been true, can be missing nevertheless. */
  lemma PrecedesExactly(z: Whole, k: nat, u: int)
    requires Linked(z) && RelayTheorems.SoloReached(z.relay) && k < |z.relay.log| && 1 <= u < z.relay.log[k].event.version
    ensures var rec := z.relay.log[k];
            && u <= |Chat.History(z.chat.takers, rec.key)|
            && var r := Taker(z.chat, rec.key, u);
            && (Precedes(z, k, u) ==> RelayInvariant.Early(z.relay, r, rec.fetchedAt))
            && (RelayInvariant.Early(z.relay, r, rec.fetchedAt) ==>
                  r in z.relay.rows && (z.relay.rows[r].status.Parked? || Precedes(z, k, u)))
  {
    SkippedFor(z, k, u);
    var rec := z.relay.log[k];
    var r := Taker(z.chat, rec.key, u);
    if Precedes(z, k, u) {
      var j :| 0 <= j < k && z.relay.log[j].key == rec.key && z.relay.log[j].event.version == u;
      RecordOfTaker(z, j);
      RelayTheorems.FetchOrder(z.relay, j, k);
      RelayReach.EarlyGrows(z.relay, r, z.relay.log[j].fetchedAt, rec.fetchedAt);
    }
    if RelayInvariant.Early(z.relay, r, rec.fetchedAt) {
      RelayReach.ReachedFits(z.relay);
      assert r in z.relay.rows;
      if z.relay.rows[r].status.Published? { SeenPrecedes(z, k, u, r); }
    }
  }

  // ---------- a version that is skipped for good ----------

  /** A run of the service that inserts no event is one of the whole. */
  lemma {:induction false} Served(z: Whole, run: seq<Chat.Action>) returns (more: seq<Action>)
    requires Linked(z) && Chat.Run(z.chat, run).outbox == z.chat.outbox
    ensures Run(z, more) == Whole(Chat.Run(z.chat, run), z.relay)
    decreases |run|
  {
    if run == [] {
      more := [];
    } else {
      var n := |run| - 1;
      var s := Chat.Run(z.chat, run[..n]);
      OutboxBetween(z.chat, run);
      more := Served(z, run[..n]);
      more := more + [Serve(run[n])];
      assert more[..|more| - 1] + [Serve(run[n])] == more;
      AfterBoth(Next, z, more[..|more| - 1], [Serve(run[n])]);
      One(Whole(s, z.relay), Serve(run[n]));
    }
  }

  lemma OutboxBetween(s: Chat.System, run: seq<Chat.Action>)
    requires ChatReach.IsReachable(s) && run != [] && Chat.Run(s, run).outbox == s.outbox
    ensures Chat.Run(s, run[..|run| - 1]).outbox == s.outbox
  {
    var t := Chat.Run(s, run[..|run| - 1]);
    ChatReach.LaterRun(s, run[..|run| - 1]);
    OutboxGrows(t, run[|run| - 1]);
    assert forall e | e in s.outbox :: e in t.outbox && t.outbox[e] == s.outbox[e] by {
      ChatReach.LaterFits(s, t);
    }
  }

  lemma One(z: Whole, a: Action)
    ensures Run(z, [a]) == Next(z, a)
  {
    AfterBoth(Next, z, [], [a]);
    assert [a][..0] == [];
  }

  lemma {:induction false} Forwarded(z: Whole, run: seq<RelaySystem.Action>) returns (more: seq<Action>)
    requires forall a | a in run :: !a.Enqueue?
    ensures Run(z, more) == Whole(z.chat, RelaySystem.Run(z.relay, run))
    decreases |run|
  {
    if run == [] {
      more := [];
    } else {
      var n := |run| - 1;
      more := Forwarded(z, run[..n]);
      AfterBoth(Next, z, more, [Forward(run[n])]);
      One(Run(z, more), Forward(run[n]));
      assert run[n] in run;
      more := more + [Forward(run[n])];
    }
  }

  // ---------- a relay that publishes a lone event ----------

  function Lone(doc: OutboxDoc): OutboxHeads.Row {
    OutboxHeads.Row(3, doc, OutboxHeads.Pending, 0, doc.createdAt)
  }

  function Outbox(lease: nat, doc: OutboxDoc): RelaySystem.World {
    RelaySystem.World(lease, 0, map[3 := Lone(doc)], [3], None, [], map[])
  }

  function Relay(lease: nat, doc: OutboxDoc, phase: RelaySystem.Phase): RelaySystem.World {
    Outbox(lease, doc).(lease := Some(RelaySystem.Lease(1, lease)), relays := map[1 := phase])
  }

  lemma Then(w: RelaySystem.World, run: seq<RelaySystem.Action>, a: RelaySystem.Action)
    ensures RelaySystem.Run(w, run + [a]) == RelaySystem.Next(RelaySystem.Run(w, run), a)
  {
    assert (run + [a])[..|run|] == run;
  }

  /** A relay starts and gets the lease. */
  lemma Elected(lease: nat, doc: OutboxDoc) returns (run: seq<RelaySystem.Action>)
    ensures (forall a | a in run :: !a.Enqueue?)
              && RelaySystem.Run(Outbox(lease, doc), run) == Relay(lease, doc, RelaySystem.Leading(lease))
  {
    var w := Outbox(lease, doc);
    run := [RelaySystem.Join(1)];
    Then(w, [], RelaySystem.Join(1));
    Then(w, run, RelaySystem.Poll(1));
    run := run + [RelaySystem.Poll(1)];
    assert RelaySystem.Run(w, run) == w.(relays := map[1 := RelaySystem.Asking(0)]);
    Then(w, run, RelaySystem.MatchLease(1, true));
    run := run + [RelaySystem.MatchLease(1, true)];
    assert RelaySystem.Run(w, run) == w.(relays := map[1 := RelaySystem.Inserting(0)]);
    Then(w, run, RelaySystem.InsertLease(1, true));
    run := run + [RelaySystem.InsertLease(1, true)];
  }

  lemma Fetches(lease: nat, doc: OutboxDoc)
    ensures RelaySystem.Next(Relay(lease, doc, RelaySystem.Leading(lease)), RelaySystem.Fetch(1, [Lone(doc)]))
            == Relay(lease, doc, RelaySystem.Fetched(lease, [Lone(doc)], 1))
  {
    assert OutboxHeads.IsHead(map[3 := Lone(doc)], Lone(doc));
  }

  lemma Takes(lease: nat, doc: OutboxDoc)
    requires doc.createdAt == 0
    ensures RelaySystem.Next(Relay(lease, doc, RelaySystem.Fetched(lease, [Lone(doc)], 1)), RelaySystem.Take(1))
            == Relay(lease, doc, RelaySystem.Working(lease, [Lone(doc)], [RelaySystem.Calling(false)], 1))
  {
    var w := Relay(lease, doc, RelaySystem.Fetched(lease, [Lone(doc)], 1));
    RelayScan.LoneDue(Lone(doc), 0);
    assert seq(1, _ => RelaySystem.Calling(false)) == [RelaySystem.Calling(false)];
    assert RelaySystem.TakeStep(w, 1)
      == RelaySystem.Move(w, 1, RelaySystem.Working(lease, [Lone(doc)], [RelaySystem.Calling(false)], 1));
  }

  lemma Publishes(lease: nat, doc: OutboxDoc)
    ensures RelaySystem.Next(Relay(lease, doc, RelaySystem.Working(lease, [Lone(doc)], [RelaySystem.Calling(false)], 1)),
                             RelaySystem.Append(1, 0)).log
            == [RelaySystem.Record(doc.partitionKey, doc.event, Lone(doc), 1)]
  {
    var w := Relay(lease, doc, RelaySystem.Working(lease, [Lone(doc)], [RelaySystem.Calling(false)], 1));
    assert RelaySystem.AtWorker(w, 1, 0);
    assert RelaySystem.Next(w, RelaySystem.Append(1, 0)) == RelaySystem.AppendStep(w, 1, 0);
  }

  lemma Sends(lease: nat, doc: OutboxDoc) returns (run: seq<RelaySystem.Action>)
    requires doc.createdAt == 0
    ensures forall a | a in run :: !a.Enqueue?
    ensures RelaySystem.Run(Outbox(lease, doc), run).log
              == [RelaySystem.Record(doc.partitionKey, doc.event, Lone(doc), 1)]
  {
    var w := Outbox(lease, doc);
    run := Elected(lease, doc);
    Then(w, run, RelaySystem.Fetch(1, [Lone(doc)]));
    Fetches(lease, doc);
    run := run + [RelaySystem.Fetch(1, [Lone(doc)])];
    Then(w, run, RelaySystem.Take(1));
    Takes(lease, doc);
    run := run + [RelaySystem.Take(1)];
    Then(w, run, RelaySystem.Append(1, 0));
    Publishes(lease, doc);
    run := run + [RelaySystem.Append(1, 0)];
  }

  // ---------- the whole run ----------

  /** A version whose request was abandoned before it inserted the event is never published. */
  lemma LostIsNeverLogged(z: Whole, run: seq<Action>, r: Id, c: Id, version: int, k: nat)
    requires Linked(z) && ChatLostVersion.LostAt(z.chat, r, c, version)
    requires k < |Run(z, run).relay.log| && Run(z, run).relay.log[k].key == c
    ensures Run(z, run).relay.log[k].event.version != version
  {
    var y := Run(z, run);
    LaterWhole(z, run);
    RecordIsTrue(y, k);
    ChatLostVersion.LostIsNeverEmitted(z.chat, y.chat, r, c, version, y.relay.log[k].event.eventId);
  }

  /** So a channel may publish version 2 although version 1 is not published, and never will. */
  lemma SkipsForGood(lease: nat) returns (run: seq<Action>)
    requires lease > 0
    ensures var z := Run(Start(lease), run);
            && |z.relay.log| == 1 && z.relay.log[0].key == 1 && z.relay.log[0].event.version == 2
            && forall more, k | 0 <= k < |Run(z, more).relay.log| && Run(z, more).relay.log[k].key == 1 ::
                 Run(z, more).relay.log[k].event.version != 1
  {
    var z0 := Start(lease);
    AlwaysLinked(lease, []);
    var loses := ChatLostVersion.FirstVersionLost();
    var s := Chat.Run(Chat.Empty(), loses);
    var served := Served(z0, loses);
    var doc := OutboxDoc(s.requests[3].pc.event, 1, 0);
    One(Whole(s, z0.relay), Serve(Chat.Act(3, 0, 0)));
    AfterBoth(Next, z0, served, [Serve(Chat.Act(3, 0, 0))]);
    var y := Whole(Chat.Next(s, Chat.Act(3, 0, 0)), Outbox(lease, doc));
    assert Run(z0, served + [Serve(Chat.Act(3, 0, 0))]) == y;
    var sends := Sends(lease, doc);
    var forwarded := Forwarded(y, sends);
    AfterBoth(Next, z0, served + [Serve(Chat.Act(3, 0, 0))], forwarded);
    run := served + [Serve(Chat.Act(3, 0, 0))] + forwarded;
    var z := Run(z0, run);
    AlwaysLinked(lease, run);
    assert ChatLostVersion.LostAt(z.chat, 2, 1, 1);
    forall more, k | 0 <= k < |Run(z, more).relay.log| && Run(z, more).relay.log[k].key == 1
      ensures Run(z, more).relay.log[k].event.version != 1
    {
      LostIsNeverLogged(z, more, 2, 1, 1, k);
    }
  }
}
