/** A consumer that applies newer revisions only. */
module DeliveryConsumer {
  import opened Schema
  import Chat = ChatSystem
  import ChatInvariant
  import ChatReach
  import ChatStepsEarly
  import ChatTheoremsDocs
  import RelaySystem
  import opened Delivery

  /** What it holds of each message after reading the log. */
  function Applied(log: seq<RelaySystem.Record>): map<Id, Payload> {
    if log == [] then map[]
    else
      var known := Applied(log[..|log| - 1]);
      match log[|log| - 1].event.body
      case MessageBody(p) => if p.id in known && p.revision <= known[p.id].revision then known else known[p.id := p]
      case CursorBody(_, _) => known
  }

  /** Record `k` is about message `m`. */
  predicate About(log: seq<RelaySystem.Record>, k: int, m: Id) {
    0 <= k < |log| && log[k].event.body.MessageBody? && log[k].event.body.message.id == m
  }

  function Said(log: seq<RelaySystem.Record>, k: int, m: Id): Payload
    requires About(log, k, m)
  {
    log[k].event.body.message
  }

  /** It holds something that was said, and nothing newer was. */
  lemma {:induction false} HoldsLargest(log: seq<RelaySystem.Record>, m: Id)
    ensures m in Applied(log) ==> exists k :: About(log, k, m) && Said(log, k, m) == Applied(log)[m]
    ensures forall k :: About(log, k, m) ==> m in Applied(log) && Said(log, k, m).revision <= Applied(log)[m].revision
    decreases |log|
  {
    if log != [] {
      var n := |log| - 1;
      HoldsLargest(log[..n], m);
      assert forall k :: 0 <= k < n ==> log[..n][k] == log[k];
      assert forall k :: About(log[..n], k, m) ==> About(log, k, m) && Said(log, k, m) == Said(log[..n], k, m);
      forall k | About(log, k, m) ensures m in Applied(log) && Said(log, k, m).revision <= Applied(log)[m].revision {
        assert k < n ==> About(log[..n], k, m);
      }
      if About(log, n, m) { assert Said(log, n, m) == log[n].event.body.message; }
    }
  }

  lemma SaidWasStored(z: Whole, k: int, m: Id)
    requires Linked(z) && About(z.relay.log, k, m)
    ensures WasStored(z.chat, Said(z.relay.log, k, m))
  {
    RecordIsTrue(z, k);
  }

  /** The stored message is its last revision. */
  lemma StoredIsLast(s: Chat.System, m: Id)
    requires ChatReach.IsReachable(s) && m in s.messages
    ensures var h := Chat.History(s.revisions, m);
            && s.messages[m].id == m && 1 <= s.messages[m].revision == |h|
            && h[|h| - 1].message == s.messages[m]
  {
    ChatReach.ReachableFits(s);
    ChatStepsEarly.StoredSeen(s, m);
    ChatTheoremsDocs.StoredLast(s, m);
  }

  /** What it holds of a message was once stored, field by field, and it is what is stored now
      exactly if the event of the stored revision has been published, whatever was repeated, lost
      or late. */
  lemma ConsumerKeepsUp(z: Whole, m: Id)
    requires Linked(z) && m in z.chat.messages
    ensures var log, stored := z.relay.log, z.chat.messages[m];
            && (m in Applied(log) ==> Applied(log)[m].id == m && WasStored(z.chat, Applied(log)[m])
                                      && Applied(log)[m].revision <= stored.revision)
            && ((m in Applied(log) && Says(Applied(log)[m], stored))
                <==> exists k :: About(log, k, m) && Said(log, k, m).revision == stored.revision)
  {
    var log := z.relay.log;
    HoldsLargest(log, m);
    StoredIsLast(z.chat, m);
    forall k | About(log, k, m) ensures WasStored(z.chat, Said(log, k, m)) {
      SaidWasStored(z, k, m);
    }
  }
}
