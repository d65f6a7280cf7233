# Direct chat service: writer, paging and outbox relay

The service stores direct messages in MongoDB without transactions and announces every change to
Kafka through an outbox. Its guarantees rest on single-document updates, unique indexes, and
retries. This project models the service and the relays as two transition systems, gives the
service's operations as methods over the shared collections with everyone else's actions in
between, and proves what callers and consumers may rely on.

## How it is laid out

- `schema.dfy`, `counting.dfy`, `runs.dfy`: the documents, cardinalities of listed sets, and runs
  of a transition system.
- `chat_system.dfy`: the writer. A request is a small program, each of its Mongo calls is one
  atomic action, and actions of different requests interleave in any order. A request may stop
  for good at any point. `Next` is a function of the state and the action, so a run is a sequence
  of actions.
- `chat_invariant.dfy`, `chat_stability.dfy`, `chat_frame.dfy`, `chat_steps*.dfy`,
  `chat_reach.dfy`: the invariant of every reachable state (`Inv`), what later states keep
  (`Evolves`), and the proof that each action respects both.
- `chat_theorems*.dfy`, `chat_answers.dfy`, `chat_read_race.dfy`, `chat_lost_version.dfy`: what
  follows for sequences, retries, versions, summaries, revisions, cursors, replies and channels.
- `database.dfy`: the collections as a mutable object with one method for each Mongo call, and
  `Interfere` for whatever others do in between. `message_repo.dfy`, `channel_repo.dfy`,
  `message_service.dfy` and `channel_service.dfy` are the operations over it; `paging.dfy` is
  reading the history.
- `outbox_heads.dfy`, `relay_scan.dfy`: the head pipeline, selection, waiting and backoff.
- `relay_system.dfy`: any number of relays with a shared clock, the lease document, and the Kafka
  log. `relay_lease.dfy`, `relay_invariant.dfy`, `relay_steps.dfy`, `relay_reach.dfy`,
  `relay_order.dfy`, `relay_theorems.dfy`, `relay_timing.dfy` and `relay_backoff.dfy` hold its
  invariants and results.
- `outbox_store.dfy`, `relay.dfy`, `relay_drain.dfy`: the outbox as a mutable object, the relay's
  code over it, and draining.
- `delivery.dfy`, `delivery_gaps.dfy`, `delivery_consumer.dfy`: both systems joined at the outbox,
  and what a consumer of the topic sees.

`IsReachable(s)` says that some run from empty collections leads to `s`, and `Later(s, t)` that a
further run leads from there to `t`; `Reached` and `Later` say the same of the relays. Request
numbers stand for the fresh ids a request draws. Some fields are history, on which nothing that is
stored, published or answered depends: `born`, `revisions`, `takers`, `advances`, `base`, `mark`,
`arrivals`, and `row` and `fetchedAt` of a log record.

## Where the code differs from what is written about it

- README.md:102 says that a channel publishes only the next `aggregate_version`. The code takes
  the smallest pending version of the channel (internal/outbox/repository.go:87-101).
  `SkipsForGood` is a run in which version 2 is published and version 1 never will be, because its
  request was abandoned before the outbox insert. `SkippedFor` gives the only reasons for which a
  smaller version can be missing, and `PrecedesExactly` says when it is published first.
- internal/outbox/repository.go:44 says that the lease elects one active relay, and
  internal/initialize/config.go:94 only asks that the lease outlast the publish timeout. The lease,
  the fetch and the state writes take time as well. `TimeoutIsNotEnough` shows two relays at work
  at once although no time has passed since they chose their batches, and `LeaseMustOutlastRound`
  that there is one active relay exactly if rounds take less than the lease.
- internal/message/repo/message.repo.go:333 takes a duplicate key for a cursor that has advanced
  far enough. If two first reads race, it may not have: `ReadMayFallShort` shows the answer below
  the request, and `ReadHoldsExactly` that this can happen exactly as long as there is no cursor
  and somebody may ask for less.

## Model

| member | source | states |
|---|---|---|
| Schema.CanonicalPair | internal/channel/channel.service.go:27-30 | both spellings of a pair give one sorted key, and the key determines the pair |
| Schema.PrecedesMeans | internal/channel/channel.service.go:28 | the order of the key is ascending by bytes, a prefix coming first |
| ChatReach.NextKeeps | README.md:103 | every action of anyone keeps the invariant, takes nothing back, and moves no request but its own |
| ChatReach.LaterFits | README.md:103 | the same over any further run of the service |
| ChatTheorems.GapFree | internal/message/repo/message.repo.go:66-107 | in an active channel the stored sequences are exactly 1 to n, and the k-th insert has sequence k |
| ChatTheorems.NewcomersFollow | internal/message/repo/message.repo.go:76-105 | a stored message keeps its place, and every later insert gets a larger sequence |
| ChatTheorems.OneCreator | internal/message/repo/message.repo.go:42-58 | at most one call per (channel, sender, client id) is told that it created the message |
| ChatTheorems.OneAnswer | internal/message/repo/message.repo.go:54-58 | while the channel stays active, all successful calls with one key answer with one stored message, whose request hash they share |
| ChatTheorems.OnlyItsHashSucceeds | internal/message/repo/message.repo.go:43-53 | once a message is stored, and while its channel stays active, a call with its key and another hash never succeeds |
| ChatTheorems.OneCreatedEvent | internal/message/repo/message.repo.go:141-172 | at most one created event exists per (channel, sender, client id) |
| ChatTheoremsMore.RetryBudget | internal/message/repo/message.repo.go:66-110 | falling out of the 64 attempts means that at least 64 other messages were inserted in the channel since the request started |
| ChatTheoremsMore.AttemptsBounded | internal/message/repo/message.repo.go:66 | attempts are numbered from 0 to 63 |
| ChatTheoremsMore.VersionConservation | internal/message/repo/message.repo.go:125-171 | last_event_version equals outbox events plus versions held in flight plus versions lost with abandoned requests; every event has its own version in 1..last_event_version |
| ChatTheoremsMore.SummaryAdvances | internal/message/repo/message.repo.go:116-139 | last_message_seq never decreases, and last_message_id always names the stored message with that sequence |
| ChatTheoremsMore.CreatedIsSummarized | internal/message/repo/message.repo.go:128-139 | a created answer implies that the summary has reached its sequence |
| ChatTheoremsMore.QuietSummary | internal/message/repo/message.repo.go:112-127 | with no post between its insert and its summary, the summary is the number of messages |
| ChatTheoremsDocs.RevisionCounts | internal/message/repo/message.repo.go:249-259 | a revision is one more than the number of successful mutations of the message |
| ChatTheoremsDocs.OneWinner | internal/message/repo/message.repo.go:251 | of all mutations that produce one revision, at most one went through |
| ChatTheoremsDocs.OneEventPerRevision | internal/message/repo/message.repo.go:274-302 | each (message, revision) has at most one event |
| ChatTheoremsDocs.EventMatchesStored | internal/message/repo/message.repo.go:182-198 | every field of the event of the stored revision equals the field stored, and its type tells creation, recall and edit apart |
| ChatTheoremsDocs.RecalledIsFrozen | internal/message/repo/message.repo.go:246-253 | a recalled message is empty and never changes again |
| ChatTheoremsDocs.RevisionAdvances | internal/message/repo/message.repo.go:249-254 | revisions never go back, and a message's identity never changes |
| ChatTheoremsDocs.CursorAdvances | internal/message/message.service.go:222-237 | a cursor never decreases, never passes the channel's last sequence, and belongs to a participant |
| ChatTheoremsDocs.CursorEventsBounded | internal/message/repo/message.repo.go:319-346 | with requests of at least 1, a user's read events number at most last_message_seq |
| ChatTheoremsDocs.ReadReachesRequest | internal/message/repo/message.repo.go:340-347 | a read whose cursor existed before it started answers at least what it asked for |
| ChatTheoremsDocs.ReplyChain | internal/message/message.service.go:49-62 | following reply links in an active channel stays in the channel and ends |
| ChatTheoremsDocs.ReachableLink | internal/message/message.service.go:93-116 | a reply targets a stored message of its channel with a smaller sequence; an AI message answers a person other than the one it speaks for |
| ChatTheoremsDocs.OneChannelPerPair | internal/channel/repo/channel.repo.go:26-36 | two opens give the same channel exactly when they name the same two users, in either order |
| ChatTheoremsDocs.SendersAreParticipants | internal/message/repo/message.repo.go:67-69 | every stored message was sent by a participant of its channel |
| ChatReadRace.ReadMayFallShort | internal/message/repo/message.repo.go:332-346 | as long as there is no cursor, two first reads of any two positions can race so that the one that asks for more answers with the smaller position |
| ChatReadRace.ReadHoldsExactly | internal/message/repo/message.repo.go:319-347 | no read of a position can answer less exactly when the cursor exists or the position is the smallest anyone asks for: 0 for the service, 1 for the API |
| ChatAnswers.PostedMeans | internal/message/repo/message.repo.go:112-172 | any answer is a message as it was stored, with the request's key and hash; a created one holds what the request asked for, field by field, and is numbered, summarized and announced |
| ChatAnswers.StoredAsAsked | internal/message/message.service.go:48 | the first thing ever stored of a message is what its post asked for, field by field: channel, sender, kind, client id, hash, type, content, reply target, revision 1, not recalled |
| ChatAnswers.RevisedAsAsked | internal/message/repo/message.repo.go:249-312 | each later revision is the change its writer, the sender, asked for: an edit has the new content, a recall none and a time, and nothing else differs from the one before but the revision |
| ChatAnswers.GaveUpMeans | internal/message/repo/message.repo.go:108-110 | a post that gave up stored nothing |
| Mongo.Database.Interfere | README.md:103 | anything others do, and then perhaps the end of this request |
| Mongo.Database.FindOwnMessage | internal/message/repo/message.repo.go:43-58 | the lookup by key before ids are drawn |
| Mongo.Database.FindOwnMessageAgain | internal/message/repo/message.repo.go:95-104 | the lookup by key after a duplicate key |
| Mongo.Database.FindActiveChannel | internal/message/repo/message.repo.go:67-74 | the channel is found exactly when it is active and the sender takes part |
| Mongo.Database.SearchLatest | internal/message/repo/message.repo.go:78-85 | the message of the channel with the largest sequence, or none |
| Mongo.Database.FindLatestMessage | internal/message/repo/message.repo.go:77-88 | the same as a step of a post |
| Mongo.Database.InsertMessage | internal/message/repo/message.repo.go:89-94 | inserts exactly when no stored message shares the channel and sequence, or the channel, sender and client id |
| Mongo.Database.SummarizeChannel | internal/message/repo/message.repo.go:116-133 | max-merge of the summary and the version increment, all reading the document as it was before |
| Mongo.Database.DeleteMessage | internal/message/repo/message.repo.go:134-137 | the rollback when the channel is gone |
| Mongo.Database.InsertEvent | internal/message/repo/message.repo.go:158-168 | one pending outbox document keyed by the channel |
| Mongo.Database.SwapMessage | internal/message/repo/message.repo.go:245-259 | changes the message exactly when sender and revision match and it is not recalled |
| Mongo.Database.BumpForMutation | internal/message/repo/message.repo.go:261-272 | increments the version of an active channel, nothing else |
| Mongo.Database.MatchCursor | internal/message/repo/message.repo.go:319-331 | match phase of the upsert: writes exactly when the cursor exists and is behind |
| Mongo.Database.InsertCursor | internal/message/repo/message.repo.go:327-336 | insert phase: writes exactly when there is no cursor |
| Mongo.Database.FindCursor | internal/message/repo/message.repo.go:340-343 | the cursor as stored |
| Mongo.Database.BumpForRead | internal/message/repo/message.repo.go:349-360 | increments the version for a participant of an active channel |
| Mongo.Database.MatchChannel | internal/channel/repo/channel.repo.go:27-31 | match phase of the channel upsert |
| Mongo.Database.InsertChannel | internal/channel/repo/channel.repo.go:29-31 | inserts the channel exactly when its key is free |
| Mongo.Database.FindChannelByPair | internal/channel/repo/channel.repo.go:32-34 | the second look after a duplicate key |
| MessageRepo.NextSequence | internal/message/repo/message.repo.go:67-90 | the candidate sequence is the one after the larger of summary and latest message, or the channel is no longer active |
| MessageRepo.Attempt | internal/message/repo/message.repo.go:66-107 | one round stores the message, ends the request with a reason, or leaves it for the next round |
| MessageRepo.Existing | internal/message/repo/message.repo.go:43-58 | the request's own message answers it if the hash is the same and refuses it otherwise; without one the request goes on |
| MessageRepo.Allocate | internal/message/repo/message.repo.go:66-110 | at most 64 rounds end with the message stored, with a reason, or with at least 64 inserts by others |
| MessageRepo.Finish | internal/message/repo/message.repo.go:112-172 | after the insert: summarized and announced, or taken back because the channel is no longer active |
| MessageRepo.Create | internal/message/repo/message.repo.go:41-173 | the answer is the outcome of the request, the event of a creation is dated by it, and a failure has one of four reasons that hold of the collections |
| MessageRepo.Mutate | internal/message/repo/message.repo.go:231-312 | success is the message as it was seen with the new content, or emptied and recalled now, at the next revision, announced field by field; a conflict means that somebody else changed it first |
| MessageRepo.UpsertCursor | internal/message/repo/message.repo.go:319-339 | reports an advance exactly when this request wrote the cursor |
| MessageRepo.Read | internal/message/repo/message.repo.go:314-390 | answers where the cursor stood at some moment of the request, announced exactly when this request wrote it, and at least the requested position if the cursor existed |
| ChannelRepo.GetOrCreate | internal/channel/repo/channel.repo.go:26-36 | answers the only channel of the pair, unless cut short; one it inserted itself is active and empty |
| ChannelService.SortedPair | internal/channel/channel.service.go:27-28 | the two users, sorted |
| ChannelService.Create | internal/channel/channel.service.go:23-31 | refuses exactly a missing or malformed name or oneself, and otherwise gives the pair's only channel, open to both while it is active and to nobody else |
| ChannelService.OpenToBoth | internal/channel/channel.service.go:33-43 | a channel is open to exactly the two users it was opened for, as long as it is active |
| MessageService.CheckChannel | internal/message/message.service.go:41-47 | unless cut short, passes exactly a well-formed request of a participant of a channel that is active at the check; a closed channel is not found, a malformed request invalid |
| MessageService.CheckReply | internal/message/message.service.go:49-62 | unless cut short, passes exactly a target stored in the same channel, for an AI reply one a person other than its own sent and has not recalled; a missing target is not found, one elsewhere invalid, a bad AI source a conflict |
| MessageService.Create | internal/message/message.service.go:35-70 | a created answer is what the call asked for, field by field; each error has its own reason: cut short, another hash under the key, 64 others inserted, closed channel or missing target, malformed or target elsewhere |
| MessageService.DeservingFails | internal/message/message.service.go:35-70 | a post with nothing against it fails only if cut short, if a message with its key and another hash is stored, or if 64 others were inserted meanwhile |
| MessageService.CreateAIReply | internal/message/message.service.go:72-124 | the same for an AI reply, whose source must answer the stricter checks |
| MessageService.Authorized | internal/message/message.service.go:167-188 | only the sender of the message as it was seen, through a channel open to them at the check, gets past; someone else's message is forbidden, a missing one or a closed channel not found |
| MessageService.Edit | internal/message/message.service.go:190-208 | the message as it was stored with exactly the new content, at the next revision, stored and announced; or a reason: malformed, forbidden, not there, recalled or changed by someone else, or cut short |
| MessageService.Recall | internal/message/message.service.go:210-220 | the same for a recall, which empties the message and sets the time; a message recalled before is answered as it is and never a conflict |
| MessageService.Read | internal/message/message.service.go:222-237 | the repository's answer for a position between 0 and the last sequence; otherwise a reason |
| Paging.FindPage | internal/message/repo/message.repo.go:216-229 | the first `limit` messages below `before` by descending sequence, 0 meaning from the top |
| Paging.List | internal/message/message.service.go:150-165 | errors exactly outside 1..100 and for channels the user may not see at the check; otherwise the page as stored at the later query |
| Paging.ReverseInPlace | internal/message/message.service.go:144-146 | the two-index swap reverses the slice |
| Paging.ListForAI | internal/message/message.service.go:126-148 | errors exactly outside 1..30 and for channels hidden at the check; otherwise the page at the later query, ascending |
| Paging.PageIsStretch | internal/message/repo/message.repo.go:216-223 | a page of an active channel is a stretch of the insert history without gaps, as long as limit and history allow |
| Paging.Walk | internal/message/message.service.go:150-165 | walking down with `before` gives every message of the first page's moment exactly once, newest first and nothing else, whatever is written between any two calls, in one page more than would hold them, while the channel stays active; else that holds up to the last page |
| OutboxHeads.PendingChannelHeads | internal/outbox/repository.go:86-113 | the pipeline gives the heads in ascending (created_at, _id), each with the least (version, created_at, _id) of its channel, the `limit` first of them |
| OutboxHeads.HeadIsLeast | internal/outbox/repository.go:88-97 | a head comes before every other pending event of its channel by (version, created_at, _id) |
| OutboxHeads.LeftOutIsLater | internal/outbox/repository.go:98-101 | a channel with pending events is left out only if the limit is reached by heads with smaller (created_at, _id) than its own |
| OutboxHeads.HeadsUnique | internal/outbox/repository.go:84-101 | that description leaves no choice |
| RelayScan.RetryDelay | internal/outbox/relay.go:174-183 | for every 64-bit attempt the doubling loop gives min(2^(max(attempt, 1) - 1) s, 5 min), without overflow |
| RelayScan.BackoffDoubles | internal/outbox/relay.go:174-183 | the first delay is a second, and each further one twice the last, up to five minutes |
| RelayScan.BackoffGrows | internal/outbox/relay.go:174-183 | delays never shrink with the attempt and stay between a second and five minutes |
| RelayScan.Scan | internal/outbox/relay.go:81-95 | one pass takes exactly the first 16 due heads and the earliest retry of the others |
| RelayScan.DisplacedByOlder | internal/outbox/relay.go:84-95 | a due head is left out only for 16 due heads, or a full fetch, with smaller (created_at, _id) |
| RelayScan.IdleDelay | internal/outbox/relay.go:96-103 | the idle wait exceeds neither the poll interval nor the earliest retry |
| RelayLease.LeaseExclusion | internal/outbox/repository.go:47-82 | with arbitrarily stale clock readings, at most one relay leads on a lease that is neither released nor run out |
| RelayLease.TakeoverRaises | internal/outbox/repository.go:48-62 | another relay takes over only after the lease has run out, and strictly raises lease_until |
| RelayLease.TimelyIsSolo | internal/outbox/relay.go:49-66 | when everyone at work is within the lease, at most one relay is between its fetch and its last state write |
| RelayTiming.TimeoutIsNotEnough | internal/initialize/config.go:94 | for every lease duration two relays may have fetched so that both, taking their batches at once, work on the same event although no publish call has taken any time |
| RelayTiming.LeaseMustOutlastRound | internal/outbox/repository.go:44-82 | if rounds take at most `bound`, from the clock reading for the lease to the last state write, then no run has two relays at work exactly if `bound` is less than the lease duration |
| RelayReach.StatusPath | internal/outbox/repository.go:115-177 | an event is pending, then at most one of published or parked, for good; its envelope never changes |
| RelayReach.PublishedIsLogged | internal/outbox/relay.go:125-162 | with any number of relays and crashes, an event marked published is in the Kafka log |
| RelayReach.LogIsOutbox | internal/outbox/publisher.go:68-78 | every log entry is an outbox envelope keyed by its own channel |
| RelayTheorems.TimelyRunIsSolo | internal/outbox/relay.go:124 | runs that stay within the lease are runs without overlap |
| RelayTheorems.ChannelOrder | internal/outbox/relay.go:113-172 | a smaller version published after a larger one of its channel entered the outbox only after the larger one was fetched |
| RelayTheorems.FetchOrder | internal/outbox/relay.go:113-172 | without overlap the log follows the order in which the batches were fetched |
| RelayTheorems.VersionsInOrder | internal/outbox/relay.go:66-109 | if events enter in version order, a channel's versions never go back in the log |
| RelayTheorems.AttemptBudget | internal/outbox/relay.go:132-153 | a pending event has spent at most two attempts; exactly the parked ones have spent three |
| RelayTheorems.DebtConserved | internal/outbox/relay.go:127-162 | attempts left at the end are those at the start plus three per new event less what the applied state writes paid, at least one each |
| RelayTheorems.DrainedIsEmpty | internal/outbox/repository.go:133-177 | no attempts left means nothing pending, and the other way round |
| OutboxStore.Outbox.MatchLeaseDocument | internal/outbox/repository.go:48-69 | the match phase takes the lease exactly when it has run out or is the relay's own |
| OutboxStore.Outbox.InsertLeaseDocument | internal/outbox/repository.go:64-72 | the insert phase takes it exactly when there is none |
| OutboxStore.Outbox.DeleteLeaseDocument | internal/outbox/repository.go:79-82 | releases exactly the relay's own lease, or leaves it if the call fails |
| OutboxStore.Outbox.MarkPublished | internal/outbox/repository.go:115-131 | marks a pending event, and reports an error for any other |
| OutboxStore.Outbox.ScheduleRetry | internal/outbox/repository.go:133-150 | sets the retry time and counts the attempt of a pending event |
| OutboxStore.Outbox.MarkFailed | internal/outbox/repository.go:152-177 | parks a pending event, and reports an error for any other |
| Relay.AcquireRelayLease | internal/outbox/repository.go:47-77 | being told that one leads means that the lease document says so; a free lease is taken |
| Relay.EndCall | internal/outbox/relay.go:124-144 | success only for an appended record; a first failure is retried a second later, a second one two seconds later, and the third parks the event |
| RelayBackoff.RetryIsLater | internal/outbox/relay.go:127-162 | whatever happens between a failed call and its state write, the write makes the event due one second (first failure) or two (second) after the end of the call, and parks it after the third |
| Relay.WriteState | internal/outbox/relay.go:133-162 | the write the verdict asks for, on that event alone |
| Relay.PublishChannelHeads | internal/outbox/relay.go:113-172 | every worker of the batch is done; each state write that worked has spent at least one attempt for good; if nobody else acts meanwhile, each event of the batch and no other is published, due again one or two seconds after the end of its call, or parked at the third failure |
| Relay.Lead | internal/outbox/relay.go:66-109 | if nobody else acts, a round publishes exactly the first heads that are due when it chooses, or waits for a poll interval or until the earliest retry, whichever comes first |
| Relay.Run | internal/outbox/relay.go:39-111 | the loop and the release at its end, whose error is only logged: the lease is gone if the release took effect, and sure to be if it reported no error |
| RelayDrain.Drain | internal/outbox/relay.go:49-110 | one relay, working state writes and no new events: everything ends up published and logged, or parked after three attempts, whatever Kafka does and however long every call takes |
| RelayDrain.AwaitTurn | internal/outbox/relay.go:81-109 | then a due channel head gets its turn after at most as many publish attempts as the older events still have |
| Delivery.AlwaysLinked | internal/message/repo/message.repo.go:158-168 | in every run of service and relays together, the relays work on exactly what the service put in the outbox |
| Delivery.RecordIsTrue | internal/outbox/relay.go:125 | every Kafka record says, field by field, what some revision or cursor said, under its channel's key and a version the channel gave out |
| Delivery.NewEventIsDue | internal/message/repo/message.repo.go:158-168 | a new outbox event is pending, has spent no attempt and is due from the time it was written |
| Delivery.CopiesAgree | README.md:98 | two records have one channel and version exactly when they are copies of one event |
| Delivery.RevisionsAgree | README.md:98 | records about one revision of a message are copies of one event |
| DeliveryGaps.SkippedFor | README.md:102 | with any relays, a version below a logged one is published and logged itself, or its request still holds the event or lost it, or it was parked, or it entered the outbox after the logged one's fetch |
| DeliveryGaps.PrecedesExactly | README.md:102 | without overlapping relays a smaller version, unless parked, is in the log before a record exactly if it had entered the outbox when the record's batch was fetched |
| DeliveryGaps.SkipsForGood | README.md:102-103 | a run publishes version 2 of a channel although version 1 is in no record of any later state |
| DeliveryGaps.LostIsNeverLogged | README.md:103 | a version whose request was abandoned before its outbox insert is never published |
| DeliveryConsumer.ConsumerKeepsUp | README.md:98 | a consumer that applies newer revisions only holds of each message what some revision held, field by field, and the stored message exactly if its revision's event is in the log |
| Delivery.AcknowledgedIsAnnounced | internal/message/repo/message.repo.go:141-172 | an acknowledged creation is in the outbox, and once marked published the log holds every field of it, with the type and content the call asked for |

## Left out

- Checks on a request's own text (lengths, blanks, UTF-8, type, hexadecimal ids): one input `wellFormed` stands for their outcome. An AI reply whose source id is not hexadecimal is refused before the channel is looked up, the code refuses it after.
- Trimming of an AI reply's content: the content is the trimmed one.
- SHA-256 of the request and of the pair: the hash is an input, and the pair itself is the direct key; collisions are not modelled.
- `created_at`, `updated_at`, `last_message_at` and other times that only describe a document, and BSON's truncation to milliseconds.
- The width of sequences, revisions and versions: they are unbounded integers. Only `RetryDelay` works on 64-bit integers.
- Mongo and Kafka themselves: single-document operations are atomic, unique indexes hold, ids are fresh, and a publish call appends at most once and only while it runs.
- A call that is reported as failed took effect before the report, or never does.
- A driver error for a request's very last insert that took effect all the same: the request counts as answered.
- Several clock readings of one request: one reading dates both the recall and the event.
- What switches a channel's `active` off: an action may do it at any time; results that need an active channel say so.
- The four reasons behind the one conflict error are told apart in the model only.
- Listing a user's channels, HTTP, authentication, metrics, telemetry, logging, configuration loading other than the lease check, and operator replay of parked events.
- Error texts stored with a failed event, and `published_at` and `failed_at`.
- MessageRepo.Create: its reasons for failing speak of the collections when the answer is given, not of the moment the check was made.
- Relay.Run: the loop runs for any number of rounds given in advance, which stands for the context's lifetime; workers of a batch take turns in any order.
- ChannelOrder: with overlapping relays neither the order nor the attempt budget is claimed; `LeaseMustOutlastRound` says when they do not overlap.
- Drain: the state writes work and nobody else acts; a driver error of a lease or fetch call, which would only cost a round, is left out of the undisturbed case.
