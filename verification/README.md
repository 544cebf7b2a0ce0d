# Aelora: a verified model of delivery, membership, limits, ids and live clients

Aelora is a chat backend. Postgres holds the truth (rooms, messages, deduplication keys, the outbox); Valkey holds room
streams, the event stream, a membership cache and presence. This project models the parts where the two have to agree
while calls fail, processes crash and goroutines interleave, and proves what the system promises about them.

| file | what it models |
|---|---|
| `Domain.dfy`, `Text.dfy` | messages and their validation, how a call to a service can end, decimal text, UTF-8 and string order |
| `Outbox.dfy` | the outbox table, one function for each SQL statement, and the JSON payload codec |
| `Delivery.dfy` | senders, relays, SYNC backfills, the stores, crashes and the clock as one state machine |
| `DeliveryInvariants.dfy`, `DeliveryOrigins.dfy` | what holds in every reachable state of it, and that what is saved is what was asked for |
| `DeliveryLeases.dfy`, `DeliveryFaults.dfy` | leases, fencing and at-most-once relaying, and exactly which kinds of faults break it |
| `DeliveryOnce.dfy` | senders and relays together: each message exactly once in its stream and among the events |
| `DeliveryProgress.dfy` | that leases lapse and one working relay then delivers everything accepted |
| `Backend.dfy`, `SendMessage.dfy`, `OutboxRelay.dfy` | the adapters, `Execute` and the relay's loop as imperative code over objects, each proved to be a run of the state machine; how a relay drains the outbox |
| `RoomCache.dfy`, `RoomCacheConvergence.dfy`, `RoomCacheFaults.dfy` | the cached room repository under interleaving: safety, convergence, and exactly which kinds of faults break it |
| `RoomCacheRepository.dfy` | the repository as one object, each operation proved to be a run of one call of that protocol |
| `Conversations.dfy` | delivery and membership composed: who may have sent what, and that SYNC brings every replied-to message |
| `Sync.dfy` | stream ids and cursors, paging, the history query, recovery, reply hydration |
| `RoomId.dfy`, `MessageId.dfy` | the Feistel room ids, the time-ordered message ids |
| `FixedWindow.dfy`, `FixedWindowConcurrent.dfy`, `FixedWindowMaximum.dfy` | the rate limiter as one object and under concurrent atomic steps, inside a window and across windows |
| `Hub.dfy`, `HubProgress.dfy`, `HubHealth.dfy`, `WebSocketHub.dfy` | WebSocket clients and the hub, one lock or channel operation at a time (safety, that nobody gets stuck, who is dropped), and as objects |
| `Presence.dfy`, `PresenceFaults.dfy` | presence keys and expiring device sets, one command at a time and as one object; exactly which kinds of faults and races make a device be overlooked |
| `LoadTest.dfy`, `LoadTestResults.dfy` | the load tester of the browser console, turn by turn of its event loop, and what its final figures mean |

Common ground. A call to Postgres or Valkey ends in one of three ways: it works, it fails without effect, or it fails
although its effect took place (`Domain.Fault`). Where the clock, random bytes, the id generator, a rate limiter's
answer or another repository's answer enter a procedure, they are parameters, or values chosen freely. The parameter
`up` of a method makes its calls succeed; without it they may end in any way. State machines quantify over every
interleaving of any number of processes. Methods with ghost parameters `s` and `acts` are refinements: the steps the
method takes are a run of the state machine from `s`, so the theorems about reachable states apply to it.

`hide` statements only shorten proofs: inside the proof they stand in, the named definitions are not unfolded.

Six places where the code differs from what one might expect, and what is proved instead:

* Clean-up of the limiter is invisible if and only if the time to live is long enough (`ttl + 1 >= window`); the
  constructor does not enforce that (`FixedWindow.CleanupInvisibleIff`, with `FixedWindow.ShortTtlForgets` giving the
  requests on which a shorter one changes an answer).
* Calls that overlap the start of a window can push the limiter over its maximum. It is kept, over any number of windows
  and threads, if and only if no call counts itself in between the swap of the window's start and the store of its
  count, and none takes its count back after a new one has been stored (`FixedWindowMaximum.MaximumIff`).
* Successive message ids do not always rise: they do if and only if the clock has risen, or stands still and the
  entropy does not wrap (`MessageId.SuccessiveIdsRise`).
* The membership cache does not always converge. It does under a set of kinds of faults if and only if none of them is
  harmful (`RoomCacheFaults.CacheAgreesIff`). Harmful are, of an AddMember: an insert that takes effect but is reported
  failed; after the insert, a failed look at the cache, a failed second read of the primary, a lost write of the member
  to the cache, and a crash before the member is cached; and of any call: the room being dropped from the cache between
  the call's look at it and the write that relies on it. Every other fault is harmless, among them every failure and
  crash of a Get or a Create and every cache write that only seems to fail (`RoomCacheConvergence.Harmful`).
* Presence is not always right. For users with no `SetOnline` under way it is, under a set of kinds of faults, races and
  delays, if and only if none of them is harmful (`PresenceFaults.PresenceExactIff`). Harmful are: a `SetOnline` that
  sets its key and reports a failure; one that, having set it, stops, is told that SADD failed, loses EXPIRE, or meets a
  set that expires between the two; and a `SetOffline` or `IsOnline` that drops a device which has come back since.
  Everything else is harmless: a SET without effect, an EXPIRE that only seems to fail, any failure or crash of a
  `SetOffline` or `IsOnline` (`PresenceFaults.Harmful`). Nobody is ever shown online who is not
  (`PresenceFaults.NeverFalselyOnline`). The configured time to live is met if and only if it is whole seconds
  (`Presence.ConfiguredTtlIff`).
* Relays may append or publish a message twice. Under a set of kinds of faults they never do if and only if none of them
  is harmful (`DeliveryFaults.AtMostOnceIff`). Harmful are: a read or a write of a mark that fails, unless the write only
  seems to; a crash between a successful append or publish and its mark; a lease that ends under a relay at work; and
  rows claimed with a lease already over. Every other fault is harmless (`DeliveryLeases.Harmful`).

`Enqueue` names six columns and gives four values (internal/adapters/outbound/postgres/outbox_repo.go:17-21); Postgres
refuses such a statement. The model has its evident intent, an undispatched, unclaimed row; the safety theorems hold
however often it fails, so also if it always fails.

## Model

| member | source | states |
|---|---|---|
| DeliveryInvariants.AcceptedNeverLost | internal/application/send_message.go:101-131 | in every reachable state, whatever failed, crashed or expired, a message whose sender was told it is accepted is saved, and is in both its room's stream and the event stream or waits undispatched in the outbox |
| DeliveryInvariants.RowFlagsNeverLie | internal/adapters/outbound/postgres/outbox_repo.go:59-66 | a row flagged as appended has its message in the stream; a dispatched row has it appended and published |
| DeliveryInvariants.CopyFlagsNeverLie | internal/workers/outbox_relay.go:48-61 | the same of the copy a relay works on, however old it is |
| DeliveryInvariants.FlagsOnlyRise | internal/adapters/outbound/postgres/outbox_repo.go:117-133 | along every run both flags of a row only go from false to true, although marking is an unguarded read and write that two relays may interleave |
| DeliveryInvariants.VisibleIsDurable | internal/application/sync_messages.go:92-121 | every stream entry and every event, whether from a sender, a relay or a backfill, is a message already saved, in its own room's stream |
| DeliveryInvariants.SavedOnce | internal/adapters/outbound/postgres/message_repo.go:13-48 | no two saved messages share sender and client id, or id, although check and save are separate steps |
| DeliveryInvariants.TakenKeys | internal/adapters/outbound/postgres/message_repo.go:42-48 | a key is taken exactly when a saved message carries it |
| DeliveryOrigins.SavedAsAsked | internal/application/send_message.go:57-88 | in every run each saved message has the sender, room, content, client id and reply of a command some caller began with, an id handed to that caller afterwards, and the time of the clock then |
| DeliveryInvariants.DedupKeyInjective | internal/adapters/outbound/postgres/message_repo.go:110-113 | for senders without a NUL the hashed text is the same if and only if sender and client id are |
| DeliveryInvariants.DedupKeyNeedsNoNul | internal/adapters/outbound/postgres/message_repo.go:110-113 | a pair of ids shares its hashed text with no other pair if and only if neither id contains a NUL |
| DeliveryInvariants.StoredConversations | internal/application/send_message.go:89-100 | every saved message is valid, what it answers was saved earlier in its room, and its reply chain ends within as many steps as messages came before |
| DeliveryInvariants.Thread | internal/application/send_message.go:89-97 | from any message the reply chain goes through ever earlier messages of the room to one that answers nothing |
| DeliveryInvariants.StepKeepsInv | internal/workers/outbox_relay.go:28-73 | every step of every process keeps the invariant, and the stores only grow |
| DeliveryInvariants.ReachableGoesOn | internal/application/send_message.go:57-132 | what a reachable system goes on to do is reachable |
| Delivery.RunsConcat | internal/workers/outbox_relay.go:38-72 | two runs one after the other are one run |
| DeliveryLeases.LeaseExcludesOthers | internal/adapters/outbound/postgres/outbox_repo.go:68-93 | along every run in which the holder does not give it back, no other relay gets a claimed row before the lease is over, unless it is dispatched |
| DeliveryLeases.StepKeepsClaim | internal/adapters/outbound/postgres/outbox_repo.go:77-93 | one step keeps a claim whose lease is not over, unless its holder releases it or the row is dispatched |
| DeliveryLeases.StaleReleaseIsHarmless | internal/adapters/outbound/postgres/outbox_repo.go:135-142 | a release by a relay that lost its lease changes nobody else's claim |
| DeliveryLeases.ReleaseFrees | internal/adapters/outbound/postgres/outbox_repo.go:135-142 | a release by the holder leaves an undispatched row unclaimed at once, with its payload |
| DeliveryLeases.FailedItemIsFreed | internal/workers/outbox_relay.go:50-68 | after a failed append, mark or publish and the release that follows, the row is unclaimed and still to dispatch, its flags as they were but for a mark that took effect unnoticed, and the relay is at its next item |
| DeliveryLeases.LostDispatchKeepsClaim | internal/workers/outbox_relay.go:69-71 | a final mark that is lost is not followed by a release: the row stays claimed, and the relay goes on |
| DeliveryLeases.SoleOwner | internal/workers/outbox_relay.go:43-71 | in orderly states two relays never work on the same row |
| DeliveryLeases.RelayedAtMostOnce | internal/workers/outbox_relay.go:43-71 | in every run without a harmful fault relays successfully append and publish each message at most once, and no two hold the same row |
| DeliveryFaults.AtMostOnceIff | internal/workers/outbox_relay.go:43-71 | for every set of kinds of faults: in all runs of all configurations that show no harmful fault but of these kinds each message is successfully appended and published by relays at most once, if and only if none of the kinds is harmful |
| DeliveryFaults.HarmfulRepeats | internal/workers/outbox_relay.go:48-70 | each harmful kind has a run that shows no other and appends or publishes a message twice |
| DeliveryOnce.DeliveredOnce | internal/application/send_message.go:107-131 | after every run without harmful faults, without an append or publish that takes effect unnoticed, and without recovered pages, each saved message stands at most once in its stream and once among the events, whether sender or relay put it there; an accepted one that the outbox does not hold back, exactly once in both |
| DeliveryProgress.LeasesLapse | internal/adapters/outbound/postgres/outbox_repo.go:68-93 | from every reachable state, once a lease has passed every row still to dispatch can be claimed |
| DeliveryProgress.AcceptedGetsDelivered | internal/workers/outbox_relay.go:28-73 | from every reachable state, whatever failed before, one idle relay whose calls work can by itself bring every accepted message into its stream and the event stream, and empty the outbox |
| Outbox.PayloadRoundTrip | internal/adapters/outbound/postgres/outbox_repo.go:154-168 | decoding undoes encoding exactly for payloads with a message id, and for the one empty payload that both forms share |
| Outbox.MessageRoundTrip | internal/adapters/outbound/postgres/outbox_repo.go:163-167 | decoding a message undoes encoding it |
| Outbox.LegacyPayload | internal/adapters/outbound/postgres/outbox_repo.go:162-167 | a row in the older form, a bare message, is read as that message, already appended |
| Backend.OldestExists | internal/adapters/outbound/postgres/outbox_repo.go:78-84 | there is always a choice of the oldest eligible rows of the size a claim asks for |
| Backend.ClaimsOldestFirst | internal/adapters/outbound/postgres/outbox_repo.go:78-84 | a claim takes undispatched rows that are unclaimed or whose lease is over; it leaves such a row only when it has its full number of rows no newer |
| Backend.ClaimedRows | internal/adapters/outbound/postgres/outbox_repo.go:85-91 | claiming stored rows is claiming the rows they decode to |
| Backend.WrittenRow | internal/adapters/outbound/postgres/outbox_repo.go:12-23 | a stored row decodes to the message it was written for |
| Backend.Postgres.ExistsByClientMsgId | internal/adapters/outbound/postgres/message_repo.go:42-48 | answers whether the key is taken |
| Backend.Postgres.HasReplyTarget | internal/adapters/outbound/postgres/message_repo.go:81-108 | answers whether the room has a saved message with the id |
| Backend.Postgres.Save | internal/adapters/outbound/postgres/message_repo.go:13-40 | stores key and message together or neither; reports a duplicate exactly when the key was taken |
| Backend.Postgres.Enqueue | internal/adapters/outbound/postgres/outbox_repo.go:12-23 | adds an undispatched, unclaimed row that decodes to the message and flag, and leaves a row already there alone |
| Backend.Postgres.ClaimPending | internal/adapters/outbound/postgres/outbox_repo.go:68-115 | claims exactly the oldest eligible rows up to the limit for the holder, changes nothing else, and answers their decoded payloads, with the defaults for limit and lease |
| Backend.Postgres.Scan | internal/adapters/outbound/postgres/outbox_repo.go:99-114 | the loop over returned rows answers each row's message once, in some order |
| Backend.Postgres.ReadPayload | internal/adapters/outbound/postgres/outbox_repo.go:117-125 | answers the decoded payload of the row, if there is one |
| Backend.Postgres.WritePayload | internal/adapters/outbound/postgres/outbox_repo.go:126-132 | the row then decodes to the payload written; no other row changes |
| Backend.Postgres.MarkDispatched | internal/adapters/outbound/postgres/outbox_repo.go:59-66 | dispatches the row and drops its claim, whoever holds it |
| Backend.Postgres.ReleaseClaim | internal/adapters/outbound/postgres/outbox_repo.go:135-142 | drops the claim only for its holder |
| Backend.Valkey.AppendMessage | internal/adapters/outbound/valkey/stream_repo.go:40-62 | adds the message at the end of its room's stream only |
| Backend.Valkey.PublishMessageCreated | internal/adapters/outbound/valkey/stream_repo.go:104-122 | adds the message at the end of the event stream |
| SendMessage.SendMessageUseCase.Execute | internal/application/send_message.go:57-132 | with every early return and both fallbacks, the call is a run of the protocol's sender, with its own arguments, from the state it finds to the one it leaves, ending with the same reply; an accepted message has the five fields of the command, the given id and the given time; a refusal as rate limited comes exactly when the limiter says so, one as upstream only after a failed call or an unreadable room; when no store fails, reply and stores are those of a reference definition |
| SendMessage.AcceptsExactly | internal/application/send_message.go:57-131 | by that definition exactly the commands that are let through, new, from a member, complete, not blank, of at most 4000 bytes, and answering, if anything, a message of the room are accepted, each as one new row, one stream entry and one event of the message made from it; any other changes nothing |
| SendMessage.RefusesFor | internal/application/send_message.go:57-106 | each refusal names a reason that holds, the limiter's first and a duplicate next |
| Text.Utf8RoundTrip | internal/domain/message.go:31-33 | the length that is limited is that of the UTF-8 form (section 3 of RFC 3629), from which every character can be read back |
| SendMessage.SendMessageUseCase.Check | internal/application/send_message.go:57-100 | the same up to saving: without failures it refuses exactly as the reference does, and never changes a store |
| SendMessage.SendMessageUseCase.Spread | internal/application/send_message.go:107-131 | the same from the append on: without failures the message is at the end of both streams, once; with an outbox it fails only when the enqueue does |
| SendMessage.SendMessageUseCase.Store | internal/application/send_message.go:101-131 | the same from saving on: without failures a duplicate changes nothing and any other message is saved and is at the end of both streams |
| SendMessage.SendMessageUseCase.Enqueue | internal/application/send_message.go:112-117 | the fallback is the protocol's enqueue step, and the caller succeeds exactly when it does |
| SendMessage.ReplyIsTrue | internal/application/send_message.go:107-131 | in any system the call runs in, a success it reports is a message that is saved and delivered or waiting in the outbox |
| OutboxRelay.MessageOutboxRelay.Run | internal/workers/outbox_relay.go:28-73 | the ticker loop is a run of the protocol's relay with one poll for each tick; when nothing fails, n open rows are all dispatched after k ticks if and only if k is at least n over the batch size, rounded up |
| OutboxRelay.MessageOutboxRelay.Tick | internal/workers/outbox_relay.go:42-71 | one tick is such a run; when nothing fails it dispatches exactly the oldest open rows, up to the batch size, and changes no other row |
| OutboxRelay.MessageOutboxRelay.Relay | internal/workers/outbox_relay.go:48-70 | one item, with its four ways out, is such a run; when nothing fails it dispatches that row and no other |
| OutboxRelay.MessageOutboxRelay.MarkStreamAppended | internal/adapters/outbound/postgres/outbox_repo.go:117-133 | read, set and write are the protocol's two marking steps |
| OutboxRelay.MessageOutboxRelay.PublishAndMark | internal/workers/outbox_relay.go:62-69 | publish, release on failure, and the final mark are the protocol's steps |
| OutboxRelay.MessageOutboxRelay.ReleaseClaim | internal/workers/outbox_relay.go:79-83 | giving up is the protocol's release step and removes no row |
| OutboxRelay.ClaimIsAllowed | internal/adapters/outbound/postgres/outbox_repo.go:77-93 | what the query picks is what the protocol lets a relay claim |
| OutboxRelay.RoundShrinks | internal/workers/outbox_relay.go:43-71 | a round that finishes its claim leaves exactly the other undispatched rows, all still open: fewer by the batch size, or none |
| OutboxRelay.RoundsNeeded | internal/workers/outbox_relay.go:32-43 | k rounds leave nothing if and only if k is at least n over the batch size, rounded up |
| RoomCache.CacheIsSubset | internal/adapters/outbound/roomcache/repository.go:28-89 | in every interleaving with any faults, crashes and evictions, cached members are members, and so is every answer |
| RoomCacheConvergence.CacheAgrees | internal/adapters/outbound/roomcache/repository.go:28-89 | in every interleaving without a harmful fault, whenever no call about a room is under way the room is absent from the cache or has exactly the primary's members |
| RoomCacheFaults.CacheAgreesIff | internal/adapters/outbound/roomcache/repository.go:28-89 | for every set of kinds of faults: all runs from an empty system that show only those kinds end agreed, for every room with no call under way, if and only if none of the kinds is harmful |
| RoomCacheFaults.HarmfulDiverges | internal/adapters/outbound/valkey/room_repository.go:31-63 | each harmful kind alone lets some run from an empty system end quiet with a room cached without one of its members |
| RoomCacheConvergence.StepKeepsConverging | internal/adapters/outbound/valkey/room_repository.go:31-63 | every step without a harmful fault, crashes and evictions among them, keeps each member cached, about to be cached by an AddMember, or its room uncached with no view without it about to be cached |
| RoomCache.StepKeepsSound | internal/adapters/outbound/valkey/room_repository.go:31-63 | every step keeps the cache, and every view a call carries, within the primary |
| RoomCache.PrimaryGrows | internal/adapters/outbound/postgres/room_repo.go:61-102 | no step removes a member from the primary |
| RoomCacheFaults.FailedRereadLosesMember | internal/adapters/outbound/roomcache/repository.go:50-63 | in any state in which a call is about to cache a view, an AddMember whose second read fails leaves the room cached without the new member; HarmfulDiverges has such a state reached from an empty system |
| RoomCacheRepository.Repository.Get | internal/adapters/outbound/roomcache/repository.go:28-40 | is a run of a Get of the protocol with this answer; answers only members, for a room that agrees with the primary all of them, and with the cache up it then still agrees; a room reported missing has no members unless the primary failed |
| RoomCacheRepository.Repository.Create | internal/adapters/outbound/roomcache/repository.go:42-48 | is a run of a Create of the protocol; succeeds exactly if the room did not exist and the primary reports no failure, and then has made exactly that room; with the cache up caches exactly its members |
| RoomCacheRepository.Repository.AddMember | internal/adapters/outbound/roomcache/repository.go:50-63 | is a run of an AddMember of the protocol; succeeds exactly if the room exists and the primary reports no failure, and then has added exactly the member; with both stores up the room is then cached and agrees, if it agreed before |
| RoomCacheRepository.Repository.WarmCache | internal/adapters/outbound/roomcache/repository.go:82-89 | takes the protocol's warming steps; caches at most the union of what was cached and the view, and exactly that with the cache up |
| RoomCacheRepository.Repository.CacheMember | internal/adapters/outbound/valkey/room_repository.go:54-63 | takes the protocol's steps after an insert; with both stores up the cached room gains exactly the member, or is cached as the primary has it |
| Conversations.SavedByMembers | internal/application/send_message.go:72-78 | every saved message's sender is a member of its room in the primary, although the check read the cache |
| Conversations.PageIsFromRoom | internal/application/sync_messages.go:54-67 | every message of a SYNC answer comes from the room's stream or the room's rows |
| Conversations.SyncHydratesEverything | internal/application/sync_messages.go:54-89 | with the stream, the history and the replies read at three successive points of any run, every message a SYNC answer replies to is among its replies, under its own id |
| Conversations.RecoveryIsRun | internal/application/sync_messages.go:92-121 | what a recovery appends, a beginning of the history it read, is a run of the protocol's backfill and changes no other stream |
| Sync.StreamIdRoundTrip | internal/adapters/outbound/valkey/stream_repo.go:64-102 | reading a stream id undoes writing it |
| Sync.PagingIsGapFree | internal/application/sync_messages.go:54-60 | the pages a client sees when it passes the last id back are non-empty, no longer than the limit, and put together exactly the stream behind its first cursor, in order of strictly rising ids |
| Sync.ListByRoomIsFirstPage | internal/adapters/outbound/postgres/message_repo.go:50-79 | the history query answers matching rows in order of time and id; a matching row is left out only when the page is full and only if it is later than all of it |
| Sync.RecoveredPageRepeats | internal/application/sync_messages.go:92-121 | reading again after a recovery, with the same cursor below the new ids, answers the recovered entries |
| Sync.RecoveryIsRepeatable | internal/application/sync_messages.go:57-67 | the same SYNC again answers the identical page if and only if the cursor lies below the fresh ids or nothing was recovered |
| Sync.SyncMessages.ReadFrom | internal/adapters/outbound/valkey/stream_repo.go:64-102 | answers the first entries behind the cursor, up to the limit |
| Sync.SyncMessages.AppendMessage | internal/adapters/outbound/valkey/stream_repo.go:40-62 | appends under an id greater than all before |
| Sync.SyncMessages.Backfill | internal/application/sync_messages.go:107-119 | appends a beginning of the history in order, all of it on success |
| Sync.RecoveredRows | internal/application/sync_messages.go:92-99 | with a cursor `ms-n` recovery asks for the rows of the room later than `ms` milliseconds, in order of time, and leaves one out only when the page is full of rows no later; a time beyond 64 bits counts as none |
| Sync.BareCursor | internal/application/sync_messages.go:123-132 | with a bare number such as 0 as cursor every row of the room qualifies, though the stream is read from that millisecond on |
| Sync.RecoveryStartsAfterCursor | internal/application/sync_messages.go:57-67 | a SYNC with nothing behind its cursor answers only messages later than the cursor's time, in order of time, and misses none unless the page is full of earlier ones |
| Sync.SyncMessages.RecoverAndBackfill | internal/application/sync_messages.go:92-121 | appends, in order and under fresh ids, a beginning of the first page of history after the cursor's time, and nothing from before that time; on success all of it, and answers it |
| Sync.SyncMessages.GetByIds | internal/adapters/outbound/postgres/message_repo.go:81-108 | answers exactly the rows of the room with one of the ids |
| Sync.SyncMessages.ReplyIds | internal/application/sync_messages.go:69-79 | collects each answered id exactly once |
| Sync.SyncMessages.Execute | internal/application/sync_messages.go:37-90 | reports a missing room and a non-member exactly as such, otherwise answers a page of at most the limit, 100 by default, from the query's own cursor, else the saved one, else the beginning, with exactly the messages of the room it replies to; or fails having appended only a beginning of the recovered page, nothing from before the cursor |
| RoomId.FeistelBijection | internal/application/room_id_generator.go:63-75 | for every round function and any number of rounds, scrambling stays below 62^8 and has an explicit inverse both ways |
| RoomId.FeistelObfuscate | internal/application/room_id_generator.go:63-75 | the loop computes that scrambling without overflow of its 32-bit and 64-bit words |
| RoomId.Round | internal/application/room_id_generator.go:77-87 | in words of 64 bits that wrap, the loop body computes the round function, below 62^4 |
| RoomId.XorBound | internal/application/room_id_generator.go:77-87 | exclusive or needs no more bits than its operands |
| RoomId.Base62RoundTrip | internal/application/room_id_generator.go:89-99 | decoding a fixed-width encoding gives the value modulo 62 to the width |
| RoomId.EncodeBase62Fixed | internal/application/room_id_generator.go:89-99 | filling the buffer from the back computes that encoding, and the empty text for no width |
| RoomId.RoomIdsCollide | internal/application/room_id_generator.go:53-61 | two sequence numbers give the same room id if and only if they differ by a multiple of 62^8, 0 standing for 2^64 |
| RoomId.SuccessiveIdsDiffer | internal/application/room_id_generator.go:38-61 | up to 62^8 successive calls before the counter wraps give pairwise different ids |
| RoomId.SequentialRoomIdGenerator.New | internal/application/room_id_generator.go:38-61 | the counter rises by one, wrapping at 64 bits, and the id is that of its new value |
| MessageId.SuccessorValue | internal/adapters/outbound/system/id_clock.go:44-51 | the carry adds one, and takes the greatest value to zero |
| MessageId.IncrementEntropy | internal/adapters/outbound/system/id_clock.go:44-51 | the loop over the byte array computes that successor in place |
| MessageId.IdsOfOneMillisecondDiffer | internal/adapters/outbound/system/id_clock.go:20-42 | ids made in one millisecond differ for up to 2^80 calls |
| MessageId.EncodeOrder | internal/adapters/outbound/system/id_clock.go:10-42 | the base 32 encoding (section 6 of RFC 4648 with another alphabet, unpadded) orders byte strings of one length as their values |
| MessageId.EncodeIsBase32 | internal/adapters/outbound/system/id_clock.go:10-42 | read as a number in its alphabet, the encoding is the bits of the bytes followed by fewer than five zero bits |
| MessageId.DigitRoundTrip | internal/adapters/outbound/system/id_clock.go:10 | the digits are the 32 characters of the alphabet in order |
| MessageId.IdOrder | internal/adapters/outbound/system/id_clock.go:20-42 | id texts are ordered by time and then entropy |
| MessageId.SuccessiveIdsRise | internal/adapters/outbound/system/id_clock.go:20-42 | below 2^48 milliseconds the next id is greater than the last if and only if the clock has risen, or stands still and the entropy does not wrap |
| MessageId.IdGenerator.New | internal/adapters/outbound/system/id_clock.go:20-42 | new entropy with a new millisecond, else its successor; the id is the text of both |
| FixedWindow.FixedWindowLimiter.Allow | internal/platform/ratelimit/fixed_window.go:36-61 | answers and changes the limiter as the specification of one call |
| FixedWindow.FixedWindowLimiter.MaybeCleanup | internal/platform/ratelimit/fixed_window.go:71-82 | every 512th call drops exactly the entries idle for longer than the time to live |
| FixedWindow.CleanupIsInvisible | internal/platform/ratelimit/fixed_window.go:71-82 | with a long enough time to live and a clock that does not go back, every answer is that of a limiter that never cleans up |
| FixedWindow.ShortTtlForgets | internal/platform/ratelimit/fixed_window.go:71-82 | for every configuration with a shorter one there are requests on which the answers differ |
| FixedWindow.CleanupInvisibleIff | internal/platform/ratelimit/fixed_window.go:23-34 | so clean-up is invisible if and only if ttl + 1 >= window |
| FixedWindow.RateBound | internal/platform/ratelimit/fixed_window.go:36-61 | any interval as long as the window admits at most twice the maximum, less one, per key |
| FixedWindow.RefusedIff | internal/platform/ratelimit/fixed_window.go:36-61 | in every run a call is refused if and only if the window of its key, which opens with the first request and with the first after the window before, is not over and has its maximum of admitted calls |
| FixedWindow.RefusedOnlyWhenFull | internal/platform/ratelimit/fixed_window.go:52-60 | whoever is refused lies in an interval as long as the window that already holds the maximum of admitted calls on its key |
| FixedWindowConcurrent.OneWindow | internal/platform/ratelimit/fixed_window.go:36-61 | for any number of threads inside one window, the count is the admitted calls, those about to be, and the increments not yet undone; never more than the maximum are admitted; a call is refused only when exactly the maximum has been given out |
| FixedWindowConcurrent.StepKeepsCount | internal/platform/ratelimit/fixed_window.go:44-60 | every atomic step keeps that account |
| FixedWindowConcurrent.WindowsOpenOnce | internal/platform/ratelimit/fixed_window.go:43-50 | in every interleaving windows open at least one window apart, each by exactly one call, which is let through; every call that has begun is inside or answered once |
| FixedWindowMaximum.MaximumIff | internal/platform/ratelimit/fixed_window.go:42-60 | for every configuration and every set of kinds of overlaps: in all interleavings, over any number of windows, that show overlaps of these kinds only no window gives out more than the maximum of slots, if and only if there are none |
| PresenceFaults.PresenceExactIff | internal/adapters/outbound/valkey/presence_repo.go:23-73 | for every set of kinds of faults, races and delays: after all interleaved runs from an empty store that show these kinds only, an uninterrupted IsOnline about a user with no SetOnline under way says whether some device went online less than the time to live ago and not offline since, if and only if none of the kinds is harmful or the time to live is under a second, so that no key is ever set |
| PresenceFaults.HarmfulErrs | internal/adapters/outbound/valkey/presence_repo.go:23-73 | each harmful kind has a run that shows no other and ends with a live device overlooked |
| PresenceFaults.StepKeepsTracked | internal/adapters/outbound/valkey/presence_repo.go:23-39 | without a harmful fault every command keeps each device with a key in a set that outlives it, or a SetOnline on its way to see to that |
| PresenceFaults.NeverFalselyOnline | internal/adapters/outbound/valkey/presence_repo.go:41-73 | under any faults and interleaving a yes is right |
| PresenceFaults.AnswerSpansCall | internal/adapters/outbound/valkey/presence_repo.go:41-73 | whatever comes between the commands of an IsOnline, a yes means the user was live at some point of it; and it says yes if, its set read after a run without harmful faults and with no SetOnline of the user under way, one device stays live until it answers |
| Presence.PresenceRepository.IsOnline | internal/adapters/outbound/valkey/presence_repo.go:41-73 | is a run of one call of that machine and answers whether some device in the set has a key; an error exactly if the set or some device's key could not be read; so right for users without a device whose SetOnline failed half-way |
| Presence.PresenceRepository.SetOnline | internal/adapters/outbound/valkey/presence_repo.go:23-31 | is a run of one call of that machine; succeeds exactly if all three commands work and the time to live is a second or more; then the device is online as of now and in its set; a failure affects nobody else |
| Presence.PresenceRepository.SetOffline | internal/adapters/outbound/valkey/presence_repo.go:33-39 | is a run of one call of that machine; succeeds exactly if deleting the key works, and then the device is forgotten, whether or not the set could be updated |
| Presence.WholeSecondsBound | internal/adapters/outbound/valkey/presence_repo.go:23-31 | rounding to whole seconds makes a device expire less than a second early, and exactly on time for whole seconds |
| Presence.RenewKeeps | internal/adapters/outbound/valkey/presence_repo.go:23-31 | the renewed set outlives every live key of the user and covers the device |
| Presence.ConfiguredTtlIff | internal/adapters/outbound/valkey/presence_repo.go:23-31 | presence means the configured time to live, for every history and time, if and only if that is whole seconds; otherwise a device can be gone early, never late |
| Hub.NeverPanics | internal/adapters/inbound/http/websocket.go:73-128 | in no interleaving is a frame sent on a closed channel or a channel closed twice; no channel overflows; a write holder of a client's lock is alone |
| Hub.HubHoldsTheOpen | internal/adapters/inbound/http/hub.go:60-81 | no user is kept without clients, each client stands under its own user, and while nobody holds the hub's lock every open client is in the hub |
| Hub.OpenClientsMissNothing | internal/adapters/inbound/http/hub.go:83-125 | between broadcasts an open client has queued or written, in order, exactly the frames of the broadcasts whose snapshot held it; during one all but possibly the current; any client only ever a beginning of them |
| HubHealth.HealthyClientsStay | internal/adapters/inbound/http/hub.go:95-101 | in every interleaving a client that nobody is closing stays open and in the hub unless a broadcast finds its channel full, a write or ping of it fails, or its handler leaves |
| HubHealth.NewClientIsHealthy | internal/adapters/inbound/http/hub.go:60-67 | so is every client that has just been registered |
| HubHealth.BroadcastReaches | internal/adapters/inbound/http/hub.go:83-111 | in every interleaving a broadcast that has ended has queued its frame for each client of each member but the sender that was healthy when it began and met no such cause since |
| HubHealth.BroadcastReachesOnly | internal/adapters/inbound/http/hub.go:83-111 | and whoever has got the frame is a client of a member other than the sender |
| HubHealth.HubClientsMissNothing | internal/adapters/inbound/http/hub.go:69-101 | between broadcasts every client still in the hub, open or not, has been queued exactly the broadcasts whose snapshot held it, so one the hub cannot queue to does not stay |
| HubProgress.NobodyIsStuck | internal/adapters/inbound/http/hub.go:69-81 | in every reachable state in which some goroutine is inside an operation one of them can go on, although Unregister closes a client under the hub's lock, and even if readers wait behind a waiting writer |
| HubProgress.OperationsEnd | internal/adapters/inbound/http/websocket.go:73-128 | from every reachable state the operations under way end: in any order their steps are bounded by the work left, and until the last is over one of them can go on |
| HubProgress.StepKeepsHolders | internal/adapters/inbound/http/websocket.go:118-128 | whoever holds a client's lock or is running its `Once` is inside the operation that took it |
| Hub.StepKeepsInv | internal/adapters/inbound/http/websocket.go:89-128 | every step of every goroutine keeps the invariant |
| Hub.OthersRely | internal/adapters/inbound/http/websocket.go:73-87 | what a goroutine knows about a client while it queues or closes stays true whatever any other goroutine does |
| WebSocketHub.WsClient.Enqueue | internal/adapters/inbound/http/websocket.go:73-87 | succeeds exactly when the client is open and its channel has room, and then adds the frame at the end |
| WebSocketHub.WsClient.Close | internal/adapters/inbound/http/websocket.go:118-128 | the client is closed, and its channel is closed by the first call only |
| WebSocketHub.Hub.Register | internal/adapters/inbound/http/hub.go:60-67 | adds exactly this client under its user |
| WebSocketHub.Hub.Unregister | internal/adapters/inbound/http/hub.go:69-81 | takes exactly this client out, keeps no empty set, and closes it unless its user is gone |
| WebSocketHub.WithoutOnly | internal/adapters/inbound/http/hub.go:72-79 | taking a client out moves no other client and leaves no empty set |
| WebSocketHub.Hub.ClientsForUser | internal/adapters/inbound/http/hub.go:113-125 | lists each client of the user once |
| WebSocketHub.Hub.SendToUser | internal/adapters/inbound/http/hub.go:95-101 | every client of the user that is open and has room has the frame at the end of its channel, stays open and in the hub; any other is closed, out of the hub, its channel as it was |
| WebSocketHub.Hub.BroadcastMessageCreated | internal/adapters/inbound/http/hub.go:83-111 | the same for all members but the sender; nobody else notices; push goes exactly to members without clients |
| LoadTest.BooksBalance | frontend/app.js:831-858 | between any two turns the indices handed out are successes, failures and in flight, never more in flight than the concurrency, every index open or settled and not both |
| LoadTest.SettledOnce | frontend/app.js:905-946 | over the whole rest of a run no attempt that is settled is settled again or otherwise, and the counters grow by exactly the attempts newly settled |
| LoadTestResults.UnstoppedRunIsComplete | frontend/app.js:973-1062 | a run that has ended and was neither stopped nor cut off has attempted and settled exactly its total; its successes are exactly the confirmations, the rest failures |
| LoadTestResults.SuccessesAreConfirmed | frontend/app.js:831-936 | over a run the successes grow by exactly the awaited acknowledgements and good answers |
| LoadTestResults.SettledAsHappened | frontend/app.js:831-1007 | every message is settled by what happened to it: its own acknowledgement, its own timer, its frame not sent, the socket closing, or its own answer, good or bad |
| LoadTestResults.SentAwaits | frontend/app.js:973-1007 | a frame that was sent leaves its message in flight, pending, with its timer armed |
| LoadTest.NothingCrossesRuns | frontend/app.js:1033-1116 | between runs nothing is in flight, nothing awaited and no timer armed, so no late timer can touch the next run |
| LoadTest.TurnShrinks | frontend/app.js:1011-1031 | no turn of a run adds work, and every dispatch or settlement takes some away |
| LoadTest.EveryRunEnds | frontend/app.js:973-1031 | every WebSocket run ends on every fair schedule: 2 * total + 1 stretches, in each of which the timers armed at its start have gone by its end and the loop makes four passes, outlast it, whatever acknowledgements, stops, closes and opens come in between |
| LoadTest.RoundProgresses | frontend/app.js:1011-1031 | one such stretch ends the run or does some of its work |
| LoadTest.EndsByItself | frontend/app.js:973-1031 | from any point of a WebSocket run its own timers and loop alone can bring it to an end |
| LoadTest.OpenIsTimed | frontend/app.js:973-984 | every message in flight in a WebSocket run has an armed timer |
| LoadTest.TurnKeepsInv | frontend/app.js:831-1129 | every turn keeps the books: acknowledgement, timer, close, stop, worker, sending loop and start |
| LoadTest.ClientIdsDiffer | frontend/app.js:986-993 | client ids of different indices differ, whatever the clock, the random number and the prefix |
| LoadTest.FireSettles | frontend/app.js:973-982 | a timer that fires always finds its own message still pending |
| LoadTest.LoadTester.HandleAck | frontend/app.js:921-936 | is the acknowledgement turn |
| LoadTest.LoadTester.OnTimeout | frontend/app.js:973-982 | is the timer's turn |
| LoadTest.LoadTester.FailOutstanding | frontend/app.js:938-946 | settles every pending message as disconnected, one after the other |
| LoadTest.LoadTester.OnClose | frontend/app.js:1323-1336 | is the closing turn, which also stops the run |
| LoadTest.LoadTester.DispatchMessage | frontend/app.js:986-1007 | takes an index, arms its timer and sends; a frame that is not sent is settled at once |
| LoadTest.LoadTester.RunSendLoop | frontend/app.js:1011-1031 | from one await to the next the loop takes passes of the machine, stops only where it sleeps or ends, and ends only with nothing in flight |
| LoadTest.LoadTester.SendMessages | frontend/app.js:1016-1023 | the inner loop sends until it has to sleep, or until stopped, done or at the limit |
| LoadTest.LoadTester.RunWorker | frontend/app.js:905-919 | is the worker's turn between two requests |
| LoadTest.LoadTester.OnAnswer | frontend/app.js:860-903 | is the turn that settles an HTTP request |
| LoadTest.LoadTester.RunLoadTest | frontend/app.js:1033-1062 | is the starting turn, which does nothing during a run or without the socket it needs |

## Left out

- SQL, Valkey and network behaviour beyond maps, sets and ordered logs with calls that may fail. Locked rows are skipped by letting a claim take any claimable rows in the protocol, and the oldest in the sequential adapter.
- Rows of the outbox that do not decode, and rows of the older form: every row of the model comes from `Enqueue`. The codec itself covers both.
- SHA-256 in the dedup key is taken as injective: the model uses the hashed text itself. DeliveryInvariants.DedupKeyInjective is about that text.
- Ids from the generator are taken as new across processes; MessageId shows it for one process and one millisecond.
- Trimming of streams by length: streams are append histories, and the unread part is taken as present.
- Numbers outside 64 bits in stream ids, and the special cursor `$`.
- The order of members in `ListMembers`, roles, and deletion of rooms; `ListMembers` takes the path of `Get`.
- Clean-up of the limiter under concurrency: `FixedWindowConcurrent` and `FixedWindowMaximum` are about one entry, `FixedWindow` about whole calls one at a time.
- Entries of the limiter are values of a map there, not shared pointers.
- WebSocketHub.Hub.BroadcastMessageCreated: is about whole calls one at a time; it is not tied step by step to the interleaved `Hub`.
- A configuration of SYNC without a message repository, acknowledgement cursors (the last write wins) and the event subscriber before its first read.
- Ticks of a relay missed because a round took longer than the interval.
- Pings that succeed, deadlines and the closing frame of a WebSocket; what `conn.Close` does to a blocked reader.
- Latencies, percentiles, rendering and payload text of the load tester; a `fetch` that never ends keeps an HTTP run open.
- HTTP routing, JSON of requests, authentication, push delivery, telemetry, configuration, health checks, the circuit breaker and the rest of the frontend.
- RoomCacheRepository.Repository.AddMember: says nothing about agreement when the cache is down, because then it may be lost (RoomCacheFaults.CacheAgreesIff).
