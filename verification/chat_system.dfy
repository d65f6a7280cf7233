/** The chat service as one transition system over the shared Mongo collections.

    A request is a small program; each Mongo call it makes is one atomic action, and the
    actions of different requests interleave in any order. `Next` is deterministic: an action
    carries the clock reading and the query answer it depends on, and does nothing when that
    answer is not the right one or the action is not enabled. A run is therefore a plain
    sequence of actions, and `Run` over all sequences covers every interleaving.

    The number of a request also stands for the fresh object ids and UUID it draws: a request
    stores at most one new message or channel and at most one event. */
module ChatSystem {
  import opened Schema
  import opened Runs

  const MAX_ATTEMPTS := 64

  datatype Change = Edit(content: string, wellFormed: bool) | Recall

  /** The five calls that write. `wellFormed` is the outcome of the checks on the request's
      own text (lengths, blanks, UTF-8, type), which precede or follow the first lookup. */
  datatype Call =
    | Post(ai: bool, actor: string, channel: Id, wellFormed: bool, clientId: string,
           contentType: string, content: string, replyTo: Option<Id>, hash: string)
    | Mutate(actor: string, target: Id, change: Change)
    | Read(actor: string, channel: Id, position: int)
    | Open(actor: string, peer: string, wellFormed: bool)

  /** Where a request stands: the Mongo call it makes next, with the locals it needs.
      `mark` is the number of messages ever inserted in the channel when the request last
      looked for its own message; it is history, not program state. */
  datatype Pc =
    | GuardChannel
    | GuardReply
    | Lookup
    | FindChannel(attempt: nat, mark: nat)
    | FindLatest(attempt: nat, mark: nat, summary: int)
    | Insert(attempt: nat, mark: nat, sequence: int)
    | Recheck(attempt: nat, mark: nat)
    | Summarize(message: Message)
    | Rollback
    | Authorize
    | AuthorizeChannel(seen: Message)
    | Swap(seen: Message)
    | Bump(updated: Message)
    | GuardRead
    | UpsertMatch
    | UpsertInsert
    | FindState(advanced: bool)
    | BumpRead(lastRead: int)
    | OpenUpsert
    | OpenInsert
    | OpenFind
    | Emit(event: Event, answer: Outcome)
    | Done(outcome: Outcome)

  /** `alive` turns false when the request crashes or a driver error ends it at `pc`.
      `base` is history: for a post, the insert count of its channel when it started; for a
      mutation, the revision it wrote; for a read, 1 when it wrote the cursor, 2 when its match
      phase saw a cursor at or beyond the position; 0 otherwise. */
  datatype Request = Request(call: Call, pc: Pc, base: nat, alive: bool)

  datatype Revision = Revision(writer: Id, message: Message)
  datatype Advance = Advance(writer: Id, position: int)

  /** Four collections, the requests, and four append-only histories: messages inserted per
      channel, contents each message ever had, requests that took an event version per
      channel, and writes of each read cursor. */
  datatype System = System(
    channels: map<Id, Channel>,
    messages: map<Id, Message>,
    states: map<(Id, string), int>,
    outbox: map<Id, OutboxDoc>,
    requests: map<Id, Request>,
    born: map<Id, seq<Id>>,
    revisions: map<Id, seq<Revision>>,
    takers: map<Id, seq<Id>>,
    advances: map<(Id, string), seq<Advance>>)

  /** Start a request; perform the next Mongo call of a request (`doc` is the id of the
      document its query returns, 0 for none); end a request by crash or driver error;
      deactivate a channel, which nothing in the service does but its queries allow for. */
  datatype Action =
    | Start(r: Id, call: Call)
    | Act(r: Id, now: Time, doc: Id)
    | Abandon(r: Id)
    | Deactivate(channel: Id)

  function Empty(): System {
    System(map[], map[], map[], map[], map[], map[], map[], map[], map[])
  }

  // ---------- queries ----------

  function History<K, V>(m: map<K, seq<V>>, k: K): seq<V> {
    if k in m then m[k] else []
  }

  /** Query {_id: c, active: true, participant_ids: user}. */
  predicate Visible(s: System, c: Id, user: string) {
    c in s.channels && s.channels[c].active && IsParticipant(s.channels[c], user)
  }

  predicate HasKey(m: Message, c: Id, user: string, clientId: string) {
    m.channelId == c && m.senderId == user && m.clientId == clientId
  }

  /** `doc` answers FindOne on (channel, sender, client id). */
  predicate AnswersKey(s: System, c: Id, user: string, clientId: string, doc: Id) {
    if doc == 0 then forall m | m in s.messages :: !HasKey(s.messages[m], c, user, clientId)
    else doc in s.messages && HasKey(s.messages[doc], c, user, clientId)
  }

  /** `doc` answers FindOne on the channel, sorted by descending sequence. */
  predicate AnswersLatest(s: System, c: Id, doc: Id) {
    if doc == 0 then forall m | m in s.messages :: s.messages[m].channelId != c
    else
      && doc in s.messages && s.messages[doc].channelId == c
      && forall m | m in s.messages && s.messages[m].channelId == c ::
           s.messages[m].sequence <= s.messages[doc].sequence
  }

  /** `doc` answers FindOne on the direct key. */
  predicate AnswersPair(s: System, key: (string, string), doc: Id) {
    if doc == 0 then forall c | c in s.channels :: s.channels[c].directKey != key
    else doc in s.channels && s.channels[doc].directKey == key
  }

  /** The two unique indexes of the messages collection. */
  predicate Clashes(m: Message, n: Message) {
    m.channelId == n.channelId
    && (m.sequence == n.sequence || (m.senderId == n.senderId && m.clientId == n.clientId))
  }

  predicate InsertClashes(s: System, m: Message) {
    exists i | i in s.messages :: Clashes(s.messages[i], m)
  }

  // ---------- steps ----------

  function Goto(s: System, r: Id, pc: Pc): System
    requires r in s.requests
  {
    s.(requests := s.requests[r := s.requests[r].(pc := pc)])
  }

  function Fail(s: System, r: Id, error: Error): System
    requires r in s.requests
  {
    Goto(s, r, Done(Failed(error)))
  }

  function FirstPc(call: Call): Pc {
    match call
    case Post(_, _, _, _, _, _, _, _, _) => GuardChannel
    case Mutate(_, _, _) => Authorize
    case Read(_, _, _) => GuardRead
    case Open(_, _, _) => OpenUpsert
  }

  function FirstBase(s: System, call: Call): nat {
    if call.Post? then |History(s.born, call.channel)| else 0
  }

  function Next(s: System, a: Action): System {
    match a
    case Start(r, call) =>
      if r == 0 || r in s.requests then s
      else s.(requests := s.requests[r := Request(call, FirstPc(call), FirstBase(s, call), true)])
    case Abandon(r) =>
      if r in s.requests && s.requests[r].alive && !s.requests[r].pc.Done?
      then s.(requests := s.requests[r := s.requests[r].(alive := false)])
      else s
    case Deactivate(c) =>
      if c in s.channels then s.(channels := s.channels[c := s.channels[c].(active := false)]) else s
    case Act(r, now, doc) =>
      if r !in s.requests || !s.requests[r].alive then s
      else
        match s.requests[r].call
        case Post(_, _, _, _, _, _, _, _, _) => PostStep(s, r, now, doc)
        case Mutate(_, _, _) => MutateStep(s, r, now)
        case Read(_, _, _) => ReadStep(s, r, now)
        case Open(_, _, _) => OpenStep(s, r, doc)
  }

  /** The message a post stores, before and after it is given a sequence. */
  function Draft(r: Id, call: Call, sequence: int): Message
    requires call.Post?
  {
    Message(r, call.channel, call.actor, if call.ai then AI else User, call.clientId, call.hash,
            call.contentType, call.content, sequence,
            if call.replyTo.Some? then call.replyTo.value else 0, 1, None)
  }

  function PostStep(s: System, r: Id, now: Time, doc: Id): System
    requires r in s.requests && s.requests[r].call.Post?
  {
    match s.requests[r].pc
    case GuardChannel => GuardChannelStep(s, r)
    case GuardReply => GuardReplyStep(s, r)
    case Lookup => LookupStep(s, r, doc)
    case FindChannel(attempt, mark) => FindChannelStep(s, r, attempt, mark)
    case FindLatest(attempt, mark, summary) => FindLatestStep(s, r, attempt, mark, summary, doc)
    case Insert(attempt, mark, sequence) => InsertStep(s, r, attempt, mark, sequence)
    case Recheck(attempt, mark) => RecheckStep(s, r, attempt, doc)
    case Summarize(m) => SummarizeStep(s, r, m)
    case Rollback => Fail(s.(messages := s.messages - {r}), r, NotFound)
    case Emit(event, answer) => EmitStep(s, r, event, answer, now)
    case _ => s
  }

  function GuardChannelStep(s: System, r: Id): System
    requires r in s.requests && s.requests[r].call.Post?
  {
    var call := s.requests[r].call;
    if call.ai && (!call.wellFormed || call.replyTo.None?) then Fail(s, r, Invalid)
    else if !Visible(s, call.channel, call.actor) then Fail(s, r, NotFound)
    else if !call.wellFormed then Fail(s, r, Invalid)
    else Goto(s, r, if call.replyTo.Some? then GuardReply else Lookup)
  }

  function GuardReplyStep(s: System, r: Id): System
    requires r in s.requests && s.requests[r].call.Post?
  {
    var call := s.requests[r].call;
    if call.replyTo.None? then s
    else if call.replyTo.value !in s.messages then Fail(s, r, NotFound)
    else
      var m := s.messages[call.replyTo.value];
      if call.ai && (m.channelId != call.channel || m.senderId == call.actor || m.kind.AI? || m.recalledAt.Some?)
      then Fail(s, r, Conflict(BadSource))
      else if m.channelId != call.channel then Fail(s, r, Invalid)
      else Goto(s, r, Lookup)
  }

  /** The look for the request's own message, before the ids are drawn. */
  function LookupStep(s: System, r: Id, doc: Id): System
    requires r in s.requests && s.requests[r].call.Post?
  {
    var call := s.requests[r].call;
    if !AnswersKey(s, call.channel, call.actor, call.clientId, doc) then s
    else if doc != 0 then Existing(s, r, doc)
    else Goto(s, r, FindChannel(0, |History(s.born, call.channel)|))
  }

  /** The request's own message is already stored: same request hash, or conflict. */
  function Existing(s: System, r: Id, doc: Id): System
    requires r in s.requests && s.requests[r].call.Post? && doc in s.messages
  {
    if s.messages[doc].hash != s.requests[r].call.hash then Fail(s, r, Conflict(HashMismatch))
    else Goto(s, r, Done(Posted(s.messages[doc], false)))
  }

  function FindChannelStep(s: System, r: Id, attempt: nat, mark: nat): System
    requires r in s.requests && s.requests[r].call.Post?
  {
    var call := s.requests[r].call;
    if !Visible(s, call.channel, call.actor) then Fail(s, r, NotFound)
    else Goto(s, r, FindLatest(attempt, mark, s.channels[call.channel].lastMessageSeq))
  }

  function FindLatestStep(s: System, r: Id, attempt: nat, mark: nat, summary: int, doc: Id): System
    requires r in s.requests && s.requests[r].call.Post?
  {
    if !AnswersLatest(s, s.requests[r].call.channel, doc) then s
    else Goto(s, r, Insert(attempt, mark, Newest(s, summary, doc) + 1))
  }

  /** The larger of the summary's sequence and that of the latest stored message. */
  function Newest(s: System, summary: int, doc: Id): int
    requires doc != 0 ==> doc in s.messages
  {
    if doc != 0 && s.messages[doc].sequence > summary then s.messages[doc].sequence else summary
  }

  function InsertStep(s: System, r: Id, attempt: nat, mark: nat, sequence: int): System
    requires r in s.requests && s.requests[r].call.Post?
  {
    var m := Draft(r, s.requests[r].call, sequence);
    if InsertClashes(s, m) then Goto(s, r, Recheck(attempt, mark)) else Store(s, r, m)
  }

  function Store(s: System, r: Id, m: Message): System
    requires r in s.requests
  {
    Goto(s.(messages := s.messages[r := m],
            born := s.born[m.channelId := History(s.born, m.channelId) + [r]],
            revisions := s.revisions[r := [Revision(r, m)]]),
         r, Summarize(m))
  }

  /** After a duplicate key: the request's own message, another attempt, or conflict. */
  function RecheckStep(s: System, r: Id, attempt: nat, doc: Id): System
    requires r in s.requests && s.requests[r].call.Post?
  {
    var call := s.requests[r].call;
    if !AnswersKey(s, call.channel, call.actor, call.clientId, doc) then s
    else if doc != 0 then Existing(s, r, doc)
    else Goto(s, r, AfterAttempt(s, call.channel, attempt))
  }

  function AfterAttempt(s: System, c: Id, attempt: nat): Pc {
    if attempt + 1 < MAX_ATTEMPTS then FindChannel(attempt + 1, |History(s.born, c)|)
    else Done(Failed(Conflict(RetriesExhausted)))
  }

  /** One pipeline update: every expression reads the channel as it was before the stage. */
  function SummarizeStep(s: System, r: Id, m: Message): System
    requires r in s.requests && s.requests[r].call.Post?
  {
    var call := s.requests[r].call;
    if !Visible(s, call.channel, call.actor) then Goto(s, r, Rollback)
    else
      var ch := s.channels[call.channel];
      TakeVersion(s, r, call.channel, MaxMerged(ch, m),
                  MessageCreated, MessageBody(PayloadOf(m)), Posted(m, true))
  }

  function MaxMerged(ch: Channel, m: Message): Channel {
    if ch.lastMessageSeq < m.sequence then ch.(lastMessageSeq := m.sequence, lastMessageId := m.id) else ch
  }

  /** Take the next event version of channel `c` and hold the event for the outbox. */
  function TakeVersion(s: System, r: Id, c: Id, ch: Channel, kind: EventType, body: Body,
                       answer: Outcome): System
    requires r in s.requests
  {
    var version := ch.lastEventVersion + 1;
    Goto(s.(channels := s.channels[c := ch.(lastEventVersion := version)],
            takers := s.takers[c := History(s.takers, c) + [r]]),
         r, Emit(Event(r, kind, c, version, ch.participants, body), answer))
  }

  function EmitStep(s: System, r: Id, event: Event, answer: Outcome, now: Time): System
    requires r in s.requests
  {
    Goto(s.(outbox := s.outbox[r := OutboxDoc(event, event.channelId, now)]), r, Done(answer))
  }

  function MutateStep(s: System, r: Id, now: Time): System
    requires r in s.requests && s.requests[r].call.Mutate?
  {
    match s.requests[r].pc
    case Authorize => AuthorizeStep(s, r)
    case AuthorizeChannel(seen) => AuthorizeChannelStep(s, r, seen)
    case Swap(seen) => SwapStep(s, r, seen, now)
    case Bump(updated) => BumpStep(s, r, updated)
    case Emit(event, answer) => EmitStep(s, r, event, answer, now)
    case _ => s
  }

  function AuthorizeStep(s: System, r: Id): System
    requires r in s.requests && s.requests[r].call.Mutate?
  {
    var call := s.requests[r].call;
    if call.change.Edit? && !call.change.wellFormed then Fail(s, r, Invalid)
    else if call.target !in s.messages then Fail(s, r, NotFound)
    else Goto(s, r, AuthorizeChannel(s.messages[call.target]))
  }

  function AuthorizeChannelStep(s: System, r: Id, seen: Message): System
    requires r in s.requests && s.requests[r].call.Mutate?
  {
    var call := s.requests[r].call;
    if !Visible(s, seen.channelId, call.actor) then Fail(s, r, NotFound)
    else if seen.senderId != call.actor then Fail(s, r, Forbidden)
    else if seen.recalledAt.None? then Goto(s, r, Swap(seen))
    else if call.change.Edit? then Fail(s, r, Conflict(StaleRevision))
    else Goto(s, r, Done(Mutated(seen)))
  }

  /** The compare-and-swap on (id, sender, revision, not recalled). */
  predicate Swappable(s: System, seen: Message) {
    && seen.id in s.messages && s.messages[seen.id].senderId == seen.senderId
    && s.messages[seen.id].revision == seen.revision && s.messages[seen.id].recalledAt.None?
  }

  function SwapStep(s: System, r: Id, seen: Message, now: Time): System
    requires r in s.requests && s.requests[r].call.Mutate?
  {
    if !Swappable(s, seen) then Fail(s, r, Conflict(StaleRevision))
    else Revise(s, r, seen.id, Changed(s.messages[seen.id], s.requests[r].call.change, now))
  }

  function Changed(m: Message, change: Change, now: Time): Message {
    match change
    case Edit(content, _) => m.(content := content, revision := m.revision + 1)
    case Recall => m.(content := "", revision := m.revision + 1, recalledAt := Some(now))
  }

  function Revise(s: System, r: Id, i: Id, updated: Message): System
    requires r in s.requests
  {
    s.(messages := s.messages[i := updated],
       revisions := s.revisions[i := History(s.revisions, i) + [Revision(r, updated)]],
       requests := s.requests[r := s.requests[r].(pc := Bump(updated),
                                                  base := if updated.revision < 0 then 0 else updated.revision)])
  }

  function BumpStep(s: System, r: Id, updated: Message): System
    requires r in s.requests && s.requests[r].call.Mutate?
  {
    var c := updated.channelId;
    if c !in s.channels || !s.channels[c].active then Fail(s, r, NotFound)
    else
      TakeVersion(s, r, c, s.channels[c],
                  if s.requests[r].call.change.Edit? then MessageUpdated else MessageRecalled,
                  MessageBody(PayloadOf(updated)), Mutated(updated))
  }

  function ReadStep(s: System, r: Id, now: Time): System
    requires r in s.requests && s.requests[r].call.Read?
  {
    match s.requests[r].pc
    case GuardRead => GuardReadStep(s, r)
    case UpsertMatch => UpsertMatchStep(s, r)
    case UpsertInsert => UpsertInsertStep(s, r)
    case FindState(advanced) => FindStateStep(s, r, advanced)
    case BumpRead(lastRead) => BumpReadStep(s, r, lastRead)
    case Emit(event, answer) => EmitStep(s, r, event, answer, now)
    case _ => s
  }

  function GuardReadStep(s: System, r: Id): System
    requires r in s.requests && s.requests[r].call.Read?
  {
    var call := s.requests[r].call;
    if !Visible(s, call.channel, call.actor) then Fail(s, r, NotFound)
    else if call.position < 0 || call.position > s.channels[call.channel].lastMessageSeq
    then Fail(s, r, Invalid)
    else Goto(s, r, UpsertMatch)
  }

  function CursorKey(call: Call): (Id, string)
    requires call.Read?
  {
    (call.channel, call.actor)
  }

  /** First phase of the upsert: update the cursor if the filter matches it. */
  function UpsertMatchStep(s: System, r: Id): System
    requires r in s.requests && s.requests[r].call.Read?
  {
    var call := s.requests[r].call;
    var key := CursorKey(call);
    if key in s.states && s.states[key] < call.position then WriteCursor(s, r, key, call.position)
    else
      s.(requests := s.requests[r := s.requests[r].(pc := UpsertInsert, base := if key in s.states then 2 else 0)])
  }

  /** Second phase: insert the cursor, unless its key is already there. */
  function UpsertInsertStep(s: System, r: Id): System
    requires r in s.requests && s.requests[r].call.Read?
  {
    var call := s.requests[r].call;
    var key := CursorKey(call);
    if key in s.states then Goto(s, r, FindState(false)) else WriteCursor(s, r, key, call.position)
  }

  function WriteCursor(s: System, r: Id, key: (Id, string), position: int): System
    requires r in s.requests
  {
    s.(states := s.states[key := position],
       advances := s.advances[key := History(s.advances, key) + [Advance(r, position)]],
       requests := s.requests[r := s.requests[r].(pc := FindState(true), base := 1)])
  }

  function FindStateStep(s: System, r: Id, advanced: bool): System
    requires r in s.requests && s.requests[r].call.Read?
  {
    var key := CursorKey(s.requests[r].call);
    if key !in s.states then Fail(s, r, StoreError)
    else if !advanced then Goto(s, r, Done(CursorAt(s.states[key])))
    else Goto(s, r, BumpRead(s.states[key]))
  }

  function BumpReadStep(s: System, r: Id, lastRead: int): System
    requires r in s.requests && s.requests[r].call.Read?
  {
    var call := s.requests[r].call;
    if !Visible(s, call.channel, call.actor) then Fail(s, r, NotFound)
    else
      TakeVersion(s, r, call.channel, s.channels[call.channel],
                  ReadCursorAdvanced, CursorBody(call.actor, lastRead), CursorAt(lastRead))
  }

  function OpenStep(s: System, r: Id, doc: Id): System
    requires r in s.requests && s.requests[r].call.Open?
  {
    match s.requests[r].pc
    case OpenUpsert => OpenUpsertStep(s, r, doc)
    case OpenInsert => OpenInsertStep(s, r)
    case OpenFind => OpenFindStep(s, r, doc)
    case _ => s
  }

  function PairOf(call: Call): (string, string)
    requires call.Open?
  {
    Canonical(call.actor, call.peer)
  }

  /** The checks on the two names, before any Mongo call. */
  predicate Refused(call: Call)
    requires call.Open?
  {
    call.actor == "" || !call.wellFormed || call.actor == call.peer
  }

  function OpenUpsertStep(s: System, r: Id, doc: Id): System
    requires r in s.requests && s.requests[r].call.Open?
  {
    var call := s.requests[r].call;
    if Refused(call) then Fail(s, r, Invalid)
    else if !AnswersPair(s, PairOf(call), doc) then s
    else if doc != 0 then Goto(s, r, Done(Opened(doc)))
    else Goto(s, r, OpenInsert)
  }

  predicate PairTaken(s: System, pair: (string, string)) {
    exists c | c in s.channels :: s.channels[c].directKey == pair
  }

  function OpenInsertStep(s: System, r: Id): System
    requires r in s.requests && s.requests[r].call.Open?
  {
    var pair := PairOf(s.requests[r].call);
    if PairTaken(s, pair) then Goto(s, r, OpenFind) else OpenChannel(s, r, pair)
  }

  function OpenChannel(s: System, r: Id, pair: (string, string)): System
    requires r in s.requests
  {
    Goto(s.(channels := s.channels[r := Channel(pair, pair, 0, 0, 0, true)],
            born := s.born[r := []], takers := s.takers[r := []]),
         r, Done(Opened(r)))
  }

  function OpenFindStep(s: System, r: Id, doc: Id): System
    requires r in s.requests && s.requests[r].call.Open?
  {
    if !AnswersPair(s, PairOf(s.requests[r].call), doc) then s
    else if doc == 0 then Fail(s, r, StoreError)
    else Goto(s, r, Done(Opened(doc)))
  }

  /** The state after the actions of `run`, oldest first. */
  function Run(s: System, run: seq<Action>): System {
    After(Next, s, run)
  }
}
