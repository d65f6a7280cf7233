/** The documents the service stores, and the answers it gives. Ids are naturals, 0 the zero
    id; times are naturals, 0 the zero time. */
module Schema {
  type Id = nat
  type Time = nat

  datatype Option<T> = None | Some(value: T)

  datatype Kind = User | AI

  datatype Message = Message(
    id: Id, channelId: Id, senderId: string, kind: Kind, clientId: string, hash: string,
    contentType: string, content: string, sequence: int, replyTo: Id, revision: int,
    recalledAt: Option<Time>)

  datatype Channel = Channel(
    directKey: (string, string), participants: (string, string),
    lastMessageId: Id, lastMessageSeq: int, lastEventVersion: int, active: bool)

  datatype EventType = MessageCreated | MessageUpdated | MessageRecalled | ReadCursorAdvanced

  /** What an event says about a message: everything but the request hash. */
  datatype Payload = Payload(
    id: Id, channelId: Id, senderId: string, kind: Kind, clientId: string, contentType: string,
    content: string, sequence: int, replyTo: Id, revision: int, recalledAt: Option<Time>)

  datatype Body = MessageBody(message: Payload) | CursorBody(user: string, lastRead: int)

  datatype Event = Event(
    eventId: Id, eventType: EventType, channelId: Id, version: int,
    participants: (string, string), body: Body)

  /** An outbox document as the writer inserts it: pending, no attempts, due at once. */
  datatype OutboxDoc = OutboxDoc(event: Event, partitionKey: Id, createdAt: Time)

  /** Why a request got the conflict answer. All four are the one ErrConflict of the API. */
  datatype Cause = HashMismatch | RetriesExhausted | BadSource | StaleRevision

  datatype Error = Invalid | NotFound | Forbidden | Conflict(cause: Cause) | StoreError

  datatype Outcome =
    | Posted(message: Message, created: bool)
    | Mutated(message: Message)
    | CursorAt(lastRead: int)
    | Opened(channel: Id)
    | Failed(error: Error)

  function PayloadOf(m: Message): Payload {
    Payload(m.id, m.channelId, m.senderId, m.kind, m.clientId, m.contentType,
            m.content, m.sequence, m.replyTo, m.revision, m.recalledAt)
  }

  /** The payload says of every field what the message holds. */
  predicate Says(p: Payload, m: Message) {
    && p.id == m.id && p.channelId == m.channelId && p.senderId == m.senderId && p.kind == m.kind
    && p.clientId == m.clientId && p.contentType == m.contentType && p.content == m.content
    && p.sequence == m.sequence && p.replyTo == m.replyTo && p.revision == m.revision
    && p.recalledAt == m.recalledAt
  }

  /** The fields no later write ever touches. */
  predicate SameIdentity(m: Message, n: Message) {
    && m.id == n.id && m.channelId == n.channelId && m.senderId == n.senderId
    && m.kind == n.kind && m.clientId == n.clientId && m.hash == n.hash
    && m.contentType == n.contentType && m.sequence == n.sequence && m.replyTo == n.replyTo
  }

  predicate IsParticipant(ch: Channel, user: string) {
    ch.participants.0 == user || ch.participants.1 == user
  }

  /** Byte-wise string order, as sort.Strings uses it. */
  predicate Precedes(a: string, b: string) {
    b != [] && (a == [] || a[0] < b[0] || (a[0] == b[0] && Precedes(a[1..], b[1..])))
  }

  /** The pair both spellings of a direct channel share. */
  function Canonical(a: string, b: string): (string, string) {
    if Precedes(b, a) then (b, a) else (a, b)
  }

  lemma SameStart(a: string, b: string, k: int)
    requires 0 <= k <= |a| && k < |b| && a[..k] == b[..k]
    ensures k > 0 ==> a[0] == b[0]
  {
    if k > 0 { assert a[..k][0] == b[..k][0]; }
  }

  /** It is ascending: the first byte in which the two differ decides, and a prefix comes first. */
  lemma {:induction false} PrecedesMeans(a: string, b: string)
    ensures Precedes(a, b) <==>
              exists k :: 0 <= k <= |a| && k < |b| && a[..k] == b[..k] && (k == |a| || a[k] < b[k])
    decreases |a|
  {
    if a != [] && b != [] && a[0] == b[0] {
      PrecedesMeans(a[1..], b[1..]);
      if Precedes(a, b) {
        var k :| 0 <= k <= |a[1..]| && k < |b[1..]| && a[1..][..k] == b[1..][..k]
                 && (k == |a[1..]| || a[1..][k] < b[1..][k]);
        assert a[..k + 1] == [a[0]] + a[1..][..k] && b[..k + 1] == [b[0]] + b[1..][..k];
        assert k + 1 == |a| || a[k + 1] < b[k + 1];
      }
      if k :| 0 <= k <= |a| && k < |b| && a[..k] == b[..k] && (k == |a| || a[k] < b[k]) {
        assert k > 0;
        assert a[1..][..k - 1] == a[..k][1..] && b[1..][..k - 1] == b[..k][1..];
        assert k - 1 == |a[1..]| || a[1..][k - 1] < b[1..][k - 1];
      }
    } else if Precedes(a, b) {
      assert a[..0] == b[..0];
      assert a == [] || a[0] < b[0];
    } else if k :| 0 <= k <= |a| && k < |b| && a[..k] == b[..k] && (k == |a| || a[k] < b[k]) {
      SameStart(a, b, k);
      assert false;
    }
  }

  lemma {:induction false} PrecedesTotal(a: string, b: string)
    ensures Precedes(a, b) || Precedes(b, a) || a == b
    ensures !(Precedes(a, b) && Precedes(b, a))
    ensures Precedes(a, b) ==> a != b
  {
    if a != [] && b != [] {
      PrecedesTotal(a[1..], b[1..]);
      assert a == [a[0]] + a[1..] && b == [b[0]] + b[1..];
    }
  }

  /** Either caller of a pair computes the same key, and the key determines the pair. */
  lemma CanonicalPair(a: string, b: string)
    requires a != b
    ensures Canonical(a, b) == Canonical(b, a)
    ensures Precedes(Canonical(a, b).0, Canonical(a, b).1)
    ensures {Canonical(a, b).0, Canonical(a, b).1} == {a, b}
    ensures forall c, d | Canonical(c, d) == Canonical(a, b) :: {c, d} == {a, b}
  {
    PrecedesTotal(a, b);
  }
}
