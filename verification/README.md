# Session, schema and resource cores of an MCP server library

This project models the parts of a Go library for Model Context Protocol servers in which
correctness depends on interleavings, on encodings or on index bookkeeping, and proves what
those parts promise.

Mutable objects of the original (the session stream, the Redis key, the engine's tables, the
schema builder, the bound decoder, the resource container, the change notifier, the
debouncer, the SSE writer) are classes whose methods are proved against functions on values.
Protocols are step systems built from those functions: a step is one critical section, one
channel operation or one Redis command, a run is any legal sequence of steps, and the main
lemmas quantify over all runs. Where several sections are taken as one step, "Left out" says so.

| module | what it covers |
|---|---|
| `Decimal` | decimal printing and reading of integers (message ids, cursors, lengths) |
| `SessionStream`, `StreamRuns` | the in-memory message stream with competing subscribers |
| `RedisStore`, `RedisRuns` | optimistic edits of the Redis session record and its expiry |
| `Rendezvous` | matching client responses and cancellations to waiting calls and running tools |
| `Subscriptions`, `SubscribeWindow` | resource subscriptions over many nodes with an ordered fan-out topic, and the two halves of a subscribe request on one node |
| `Lifecycle` | the initialize handshake, opening, loading and deleting sessions |
| `JsonText`, `RequiredLists`, `SchemaText`, `SchemaEncoders`, `SchemaBuilder` | canonical schema text, its reader, and the two encoders |
| `SchemaDecode` | building properties from a struct and decoding a client's answer into it |
| `UriCodec` | paths to URIs and back |
| `ResourceIndex` | the slice with its URI index |
| `ChangeSignals` | debouncing and change notification |
| `Pagination` | the three cursor pagers |
| `SseFrames`, `BearerChallenge` | server-sent event frames and the `WWW-Authenticate` challenge |

## What does not hold

Where the code falls short of a property one would expect of it, the property is stated with
the exact condition under which it holds, and a lemma exhibits the failing case.

- The Redis expiry can pass creation plus maximum lifetime, because the delay between the
  clock reading and EXEC is not covered by the clamp: `RedisStore.CommitWithinLifetime` (exact
  for one commit), `RedisRuns.ExpiryBoundedByLifetime` (over runs),
  `RedisRuns.DelayedTouchOverruns` (a run). After that a refresh can bring the expiry forward:
  `RedisRuns.RefreshShortensIff`, `RedisRuns.PromptTouchCanShorten`.
- With the default base `fs://` no path survives the trip to a URI and back; it does exactly
  when the base has no trailing slash (`UriCodec.PathRoundTrip`,
  `UriCodec.AcceptedUriIsNormalised`, `UriCodec.DefaultBaseDoesNotRoundTrip`). `WithBaseURI`
  strips the slash, the default does not.
- A failed handshake leaves its pending record behind exactly when the context ended before
  the clean-up and no client deleted the record (`Lifecycle.HandshakeIsAllOrNothing`,
  `Lifecycle.AbandonedHandshakeLeavesRecord`).
- The last access of a session moves back when it is opened, exactly when a touch came
  between the opening notification's clock reading and its mutation, later than the reading
  (`Lifecycle.OpeningSetsBackIffTouched`, `Lifecycle.OpeningCanRaceATouch`,
  `Lifecycle.OpeningSetsLastAccessBack`).
- A message released by a failing handler may never be offered again, because a release
  wakes nobody: it is delivered exactly when another subscriber stands before it and is awake
  (`StreamRuns.ReleasedMessageIsDeliveredIff`, `StreamRuns.ReleasedMessageCanBeStranded`).
- After a replacement with repeated URIs a removed URI can come back. The container is a map
  throughout a history exactly when no replacement has a repeated URI behind a single one
  (`ResourceIndex.ContainerIsAMap`, `ResourceIndex.ReplaceHarmlessIff`,
  `ResourceIndex.RepeatedUriResurfaces`).
- The tool cancel table is shared by all sessions but keyed by request id alone, so sessions
  interfere exactly when they run tools under the same id (`Rendezvous.SessionsInterfereIff`,
  `Rendezvous.ForeignCancellationHappens`).
- A response is sent outside the lock under which its channel was found; the process goes
  down exactly when the call ended or was cancelled in between
  (`Rendezvous.SendCrashesIff`, `Rendezvous.LateResponseCrashes`).
- A subscribe request checks and stores in two critical sections. It panics with the lock
  held exactly when the session's table was deleted in between and not made again, and it
  loses a forwarder exactly when that happened or an overlapping request for the same URI was
  stored (`SubscribeWindow.WindowCostsIff`, `SubscribeWindow.UnsubscribeInWindowWedges`,
  `SubscribeWindow.OverlappingSubscribesLose`).
- Structs may repeat a JSON name. The text then identifies the struct's schema exactly when
  no two fields of the name, one required and one not, with no required one between them, could
  exchange that flag (`SchemaDecode.StructTextIdentifiesIff`,
  `SchemaDecode.SwappedStructsPrintAlike`), and decoding fills the last field of the name only
  (`SchemaDecode.DecodeMeaning`).
- The published type of an integer field rejects fractions, the decoder accepts and cuts them,
  and an unsigned field turns negative numbers into zero; values are stored unchanged exactly
  when they are whole and, for unsigned fields, not negative (`SchemaDecode.StoredUnchangedIff`,
  `SchemaDecode.LossyIntegersAreAccepted`).
- A default on a number or boolean field with an enum is accepted when the schema is built,
  although no supplied value can satisfy that enum (`SchemaDecode.DefaultsMeetConstraints`,
  `SchemaDecode.UnmeetableDefaultIsBuilt`).
- Rooted paths and ".." pass the URI decoder; an accepted path has only ordinary elements
  exactly when it is neither (`UriCodec.AcceptedPathIsValid`, `UriCodec.ParentIsAccepted`).
- Frames are read back exactly when ids and payloads are single lines and ids contain no NUL
  (`SseFrames.StreamReadsBack`, `SseFrames.BrokenPayload`), challenges exactly when parameter
  names are tokens (`BearerChallenge.ChallengeReadsBack`).
- The documentation of `sessions/host.go` says an empty last event id subscribes from the
  beginning; the in-memory host starts at the end. The model follows the code
  (`StreamRuns.ResumesAfterNamedMessage`).
- The resource pager treats an out-of-range cursor differently from the other two
  (`Pagination.PagersAgreeInRange`).

## Model

| member | source | states |
|---|---|---|
| `Decimal.AtoiItoa` | mcpservice/resources.go:95-104 | every 64-bit integer reads back from its decimal form |
| `Decimal.ItoaInjective` | sessions/memoryhost/memory.go:82-86 | decimal forms of distinct integers differ, so message ids are unique |
| `SessionStream.Stream.PublishMessage` | sessions/memoryhost/memory.go:76-97 | appends the payload under the next decimal id, signals every registered waiter and clears the list |
| `SessionStream.Stream.LocateStart` | sessions/memoryhost/memory.go:104-120 | start position: the named message, otherwise the end of the stream |
| `SessionStream.Stream.ClaimNext` | sessions/memoryhost/memory.go:122-158 | closed, or the first unclaimed and undelivered message after the cursor, or parks on a fresh registered waiter |
| `SessionStream.Stream.ReleaseClaim` | sessions/memoryhost/memory.go:161-170 | takes the id out of flight and changes nothing else |
| `SessionStream.Stream.AckClaim` | sessions/memoryhost/memory.go:171-182 | moves the id from in flight to delivered and the cursor to its position |
| `SessionStream.Stream.CloseStream` | sessions/memoryhost/memory.go:349-363 | marks the stream closed and hands back the waiters to signal |
| `StreamRuns.RunsKeepInv` | sessions/memoryhost/memory.go:76-182 | every step of every interleaving keeps the whole invariant: unique ids, exclusive claims, nothing skipped, no lost wake-up, balanced counts, ordered claims |
| `StreamRuns.ExclusiveDelivery` | sessions/memoryhost/memory.go:127-182 | in flight is exactly what some subscriber holds, one holder per id, disjoint from delivered; each message acknowledged at most once; claims equal acks plus releases plus in flight |
| `StreamRuns.SubscribersSeePublishOrder` | sessions/memoryhost/memory.go:122-182 | every claim lies strictly after its subscriber's start, and each subscriber claims in strictly increasing publish order |
| `StreamRuns.ResumesAfterNamedMessage` | sessions/memoryhost/memory.go:104-120 | a known resume id starts the subscriber exactly at that message, any other at the end |
| `StreamRuns.ClaimsHandOverWhatWasPublished` | sessions/memoryhost/memory.go:82-163 | in every run the stream holds exactly the published payloads in order under the ids "1", "2", ..., and a claim of position i hands over the i-th published payload |
| `StreamRuns.ParkedSubscribersMissNothing` | sessions/memoryhost/memory.go:122-158 | a parked, unsignalled subscriber is a registered waiter with every message after its start settled, or awaits the signal of a deletion |
| `StreamRuns.QuiescentStreamHasDelivered` | sessions/memoryhost/memory.go:82-182 | when an open stream comes to rest, a message after a parked subscriber's start is acknowledged or was once released; if never released it was claimed and acknowledged exactly once |
| `StreamRuns.ClosedStreamGrantsNoClaim` | sessions/memoryhost/memory.go:125-130 | on a closed stream no claim happens in any continuation |
| `StreamRuns.DeletionEndsTheStream` | sessions/memoryhost/memory.go:333-365 | after a deletion no claim happens in any continuation, every parked subscriber ends up signalled, and a subscriber's next attempt ends it |
| `StreamRuns.RedeliveryNeedsRelease` | sessions/memoryhost/memory.go:127-182 | a message is claimed at most once more than it was released |
| `StreamRuns.ReleasedMessageIsDeliveredIff` | sessions/memoryhost/memory.go:122-182 | when a handler fails on a message, the stream left to settle delivers it if and only if at that moment another subscriber before it is ready, signalled, or busy with an earlier message |
| `StreamRuns.SettlingDecidedBy` | sessions/memoryhost/memory.go:122-182 | for every message and every open reachable state, a settling run that comes to rest delivers it if and only if it is delivered, in flight, or some awake subscriber stands before it |
| `StreamRuns.StreamComesToRest` | sessions/memoryhost/memory.go:122-182 | from every open reachable state a settling run to rest exists, no settling run is longer than the work left, and one can stop only at rest |
| `StreamRuns.ReleasedMessageCanBeStranded` | sessions/memoryhost/memory.go:164-169 | a run in which a released message stays undelivered while a subscriber is parked behind it |
| `RedisStore.CommitWithinLifetime` | sessions/redishost/redis.go:298-316 | a commit stays within the absolute lifetime if and only if the delay to EXEC fits what the clamp left over |
| `RedisStore.CommitIsLongestAllowed` | sessions/redishost/redis.go:291-357 | an attempt writes the edited and stamped record with the longest duration within TTL and lifetime, and fails exactly when the lifetime is spent |
| `RedisStore.Key.MutateSession` | sessions/redishost/redis.go:274-327 | commits on the first undisturbed attempt on top of all earlier foreign writes; fails with the reason that attempt found; gives up only after five disturbed attempts with no write of its own; every earlier attempt was ready to write and disturbed |
| `RedisStore.Key.TouchSession` | sessions/redishost/redis.go:330-366 | one attempt: refreshes stamps and clamped TTL, or reports the conflict or failure without writing |
| `RedisRuns.RunsAreSerial` | sessions/redishost/redis.go:274-366 | for any interleaving of any number of calls the stored record is the commit log replayed serially, and a call is in the log exactly once if it reported success, otherwise never |
| `RedisRuns.GivingUpMeansFiveForeignWrites` | sessions/redishost/redis.go:277-327 | a call that exhausted its retries saw at least five commits while it ran, none its own |
| `RedisRuns.CreateOnlyIfAbsent` | sessions/redishost/redis.go:242-257 | creating over a record that has not lapsed changes nothing; otherwise the record is stored for its TTL |
| `RedisRuns.DeleteRemoves` | sessions/redishost/redis.go:230-239 | after a deletion no record is found |
| `RedisRuns.ExecOutcome` | sessions/redishost/redis.go:317-366 | a write since WATCH fails EXEC without a trace: a touch reports it, a mutation starts over and gives up the fifth time; otherwise the prepared record is stored |
| `RedisRuns.UndisturbedCallSucceeds` | sessions/redishost/redis.go:274-366 | undisturbed, a call finds the record exactly while it has not lapsed and commits what it computed, or reports why it could not |
| `RedisRuns.LapsedSessionIsGone` | sessions/redishost/redis.go:274-366 | once lifetime and slack are over no call finds the session and a new one may take its place |
| `RedisRuns.ExpiryBoundedByLifetime` | sessions/redishost/redis.go:298-361 | over whole runs the expiry exceeds creation plus maximum lifetime by at most the longest delay between clock reading and write |
| `RedisRuns.RefreshShortensIff` | sessions/redishost/redis.go:298-361 | a commit that keeps the TTL moves the expiry earlier if and only if the stored expiry overran the lifetime by more than this write's own delay, and by no more than the longest delay in the run; without delays never |
| `RedisRuns.DelayedTouchOverruns` | sessions/redishost/redis.go:330-366 | a run whose one late touch stores an expiry past the lifetime |
| `RedisRuns.PromptTouchCanShorten` | sessions/redishost/redis.go:330-366 | a run in which a touch without delay, after a delayed one, brings the expiry forward |
| `Rendezvous.Coordinator.CreateRendezVous` | internal/engine/engine.go:1280-1290 | registers a fresh one-slot channel and its closer under the id |
| `Rendezvous.Coordinator.CloseRendezVous` | internal/engine/engine.go:1291-1307 | closes the registered channel, if any, and removes both entries |
| `Rendezvous.Coordinator.CancelInFlightRequest` | internal/engine/engine.go:1119-1145 | cancels exactly the running tool of that id, closes exactly the channel registered under it and removes both entries; reports whether a tool was running |
| `Rendezvous.Coordinator.DeliverResponse` | internal/engine/engine.go:1246-1266 | fills the channel registered under the response's id if it is empty, and no other |
| `Rendezvous.Coordinator.RegisterTool` | internal/engine/engine.go:587-606 | refuses a blank id and one that is already running, leaving the original's entry alone |
| `Rendezvous.CancelIsTwoSteps` | internal/engine/engine.go:1119-1145 | the method is the run's two cancellation steps with nothing in between |
| `Rendezvous.DeliveryIsTwoSteps` | internal/engine/engine.go:1253-1264 | the method is the run's lookup and send with nothing in between, which never crash |
| `Rendezvous.RendezvousSafety` | internal/engine/engine.go:1119-1307 | over all runs, cancellations and deliveries each in two separate steps: equal tables listing only open channels, no channel closed twice, a finished call's channel closed once, at most one message per waiter, carrying its id |
| `Rendezvous.FirstResponseWins` | internal/engine/engine.go:1246-1307 | over all runs, once a response is sent on a waiting call's open and empty channel no later response or cancellation replaces it, in any continuation |
| `Rendezvous.SendCrashesIff` | internal/engine/engine.go:1253-1264 | a response that found its channel is sent on a closed one if and only if, between lookup and send, the call ended or a cancellation of its id shut it |
| `Rendezvous.LateResponseCrashes` | internal/engine/engine.go:1253-1264 | a run in which a call gives up inside that window |
| `Rendezvous.ToolCancellationIsExact` | internal/engine/engine.go:556-631 | the cancel table is exactly the running tool calls; a cancellation reaches exactly the running call of that id |
| `Rendezvous.SessionsInterfereIff` | internal/engine/engine.go:587-614 | a cancellation stops another session's tool, and a call is refused on another session's account, if and only if another session runs a tool under the same request id |
| `Rendezvous.ForeignCancellationHappens` | internal/engine/engine.go:1119-1135 | for any two sessions and any id, a run in which both happen |
| `Subscriptions.Table.HandleSubscribe` | internal/engine/engine.go:369-476 | an accepted new request starts one forwarder for the session and URI and stores its cancel; a known or refused one starts nothing |
| `Subscriptions.Table.ConsumeUnsubscribe` | internal/engine/engine.go:1212-1230 | cancels and forgets the one forwarder, dropping an emptied session table |
| `Subscriptions.Table.CancelAllForSession` | internal/engine/engine.go:1397-1409 | cancels every forwarder of the session and removes its table |
| `Subscriptions.ForwardersMatchTable` | internal/engine/engine.go:410-476 | on every node of every run uncancelled forwarders and table entries correspond one to one |
| `Subscriptions.SubscriptionLivesUntilEnded` | internal/engine/engine.go:410-476 | after an accepted subscribe exactly one forwarder serves the target on that node, and keeps doing so if and only if the node neither consumes a loading unsubscribe of it nor tears the session down; no other target is affected |
| `Subscriptions.RefusalChangesNothing` | internal/engine/engine.go:461-467 | a refused subscribe starts and ends nothing |
| `Subscriptions.UnsubscribeReachesEveryNode` | internal/engine/engine.go:479-504 | the published unsubscribe is what every node consumes at its position: its forwarder is gone where the session loads, and nothing changes where it does not |
| `Subscriptions.NodesMissThePast` | sessions/memoryhost/memory.go:229-258 | a node consumes only what was published after it joined |
| `Subscriptions.UnsubscribedUntilResubscribed` | internal/engine/engine.go:479-504 | after consuming an unsubscribe of an existing session a node has no live forwarder for it until it handles a new subscribe |
| `Subscriptions.DeletionTearsDown` | internal/engine/engine.go:1342-1368 | the deleting node tears down at once; another node exactly if the record still exists when it consumes the event |
| `Subscriptions.UnsubscribeIsSelective` | internal/engine/engine.go:1212-1230 | an unsubscribe changes the liveness of no other session or URI |
| `SubscribeWindow.LiveForwardersAreAccountedFor` | internal/engine/engine.go:410-476 | over all runs of the two halves, teardowns and unsubscribes on one node, a forwarder is live exactly while stored, about to be stored, or lost, and only one of these |
| `SubscribeWindow.LostForGood` | internal/engine/engine.go:470-472 | a lost forwarder stays live in every continuation |
| `SubscribeWindow.WindowCostsIff` | internal/engine/engine.go:410-476 | the store panics if and only if the session's table was deleted in the window and not made again; a forwarder is lost if and only if that happened or another request for the same session and URI was stored and not cleared |
| `SubscribeWindow.TableExactIff` | internal/engine/engine.go:410-476 | the table is exact if and only if nothing is lost and no forwarder waits to be stored |
| `SubscribeWindow.OverlappingSubscribesLose` | internal/engine/engine.go:410-472 | two overlapping requests for one URI lose the first forwarder |
| `SubscribeWindow.UnsubscribeInWindowWedges` | internal/engine/engine.go:1219-1227 | an unsubscribe of the session's only other URI inside the window makes the store panic |
| `Lifecycle.Negotiate` | internal/engine/engine.go:167-192 | the answer is the supported version, the client's own whenever that is supported; it fails exactly when the server's preference raises or names an unsupported version |
| `Lifecycle.Engine.InitializeSession` | internal/engine/engine.go:158-302 | on success one record is added that holds what the client sent, field by field, and the result announces what the server's callbacks answered, entry by entry |
| `Lifecycle.Engine.HandleInitialized` | internal/engine/engine.go:860-899 | under a live context, the opening mutation with its earlier clock reading, and the host's own update stamp |
| `Lifecycle.Engine.LoadSession` | internal/engine/engine.go:1064-1117 | a handle exactly for the owner of an unrevoked existing record, which is touched |
| `Lifecycle.Engine.CreateSession` | sessions/memoryhost/memory.go:264-284 | stores a record unless the context ended or the id is taken; a blank id is replaced by a generated one |
| `Lifecycle.RecordsOnlyEvolve` | internal/engine/engine.go:860-953 | between any two points of a run identity, versions, capabilities and creation instant are fixed, pending only moves to open, the opening instant is set once, the update stamp never moves back, the last access only by opening |
| `Lifecycle.DeletionIsFinal` | internal/engine/engine.go:1342-1368 | deleting under a live context removes the record, and no other, in every continuation |
| `Lifecycle.LoadTouches` | sessions/memoryhost/memory.go:317-331 | a load stamps last access and update of its record with the present and changes nothing else |
| `Lifecycle.HandlesGoToTheCreator` | internal/engine/engine.go:1064-1074 | over all runs every handle belongs to the user who created the session |
| `Lifecycle.OpeningTakesEffect` | internal/engine/engine.go:860-899 | the first mutation opens the session with the instant its notification read as opening instant and last access, and installs the session TTL |
| `Lifecycle.OpeningSetsBackIffTouched` | internal/engine/engine.go:860-899 | over all runs, the mutation moves the last access of a still pending session back if and only if a load touched the session after the notification's clock reading and before the mutation |
| `Lifecycle.OpeningCanRaceATouch` | internal/engine/engine.go:864-880 | a reachable state with a pending session, an opening whose clock was read earlier, and a load about to touch |
| `Lifecycle.OpeningSetsLastAccessBack` | sessions/memoryhost/memory.go:300-331 | from every such state the touch and then the opening move the last access back |
| `Lifecycle.HandshakeIsAllOrNothing` | internal/engine/engine.go:158-302 | per session id over all runs: a successful handshake stored a pending record with the client's identity, versions, capabilities and the handshake TTL, announced the server's answers, and the record exists until a client deletes it; a failed one leaves a record if and only if one was stored, the context had ended at clean-up and no client deleted it |
| `Lifecycle.HandshakeSucceedsIff` | internal/engine/engine.go:158-302 | the exact conditions on request, user, context, id and every callback under which a handshake succeeds |
| `Lifecycle.HandleOnSuccessOnly` | internal/engine/engine.go:296-301 | the handshake gives a handle exactly when every callback answered |
| `Lifecycle.FailureLeavesNoTraceIff` | internal/engine/engine.go:158-302 | undisturbed, a failed handshake leaves the map unchanged if and only if nothing was stored or clean-up was allowed |
| `Lifecycle.AbandonedHandshakeLeavesRecord` | internal/engine/engine.go:214-224 | a run whose handshake fails after the context ended and whose record stays |
| `JsonText.ReadEscaped` | elicitation/reflection.go:358-361 | every string is recovered from its escaped form (section 7 of RFC 8259) |
| `JsonText.EscapedIsSafe` | elicitation/reflection.go:358-361 | no control or HTML character stands raw in escaped text |
| `JsonText.ParsePrint` | elicitation/reflection.go:265-372 | every printable JSON value is recovered from its compact text |
| `SchemaText.TextReadsBack` | elicitation/reflection.go:265-356 | the reader recovers properties, order, required flags, enums, defaults and constraints from the canonical text if and only if properties of one name agree on being required |
| `SchemaText.PropertyIsPublishedAs` | elicitation/reflection.go:270-338 | which attribute is published under which literal key, in which order, with which value, and when |
| `SchemaText.SchemaIsPublishedAs` | elicitation/reflection.go:265-356 | an object type, the properties in order, and the required names unless there are none |
| `SchemaText.TextDeterminesSchema` | elicitation/reflection.go:265-382 | the text of a schema that is not ambiguous comes from no other schema |
| `RequiredLists.DifferenceIsMovable` | elicitation/reflection.go:344-356 | if two flaggings of a name list keep the same names, the first has a flag that can move to an equal name which the second flags |
| `SchemaEncoders.WriteStringArray` | elicitation/reflection.go:363-372 | appends the JSON array of the strings |
| `SchemaEncoders.WriteProperty` | elicitation/reflection.go:270-344 | appends the JSON member of the property |
| `SchemaEncoders.MarshalSchema` | elicitation/reflection.go:265-356 | writes the canonical text of the property list |
| `SchemaEncoders.CanonicalTextShape` | elicitation/reflection.go:265-356 | the canonical text is a fixed header, the property members and a required list unless empty |
| `SchemaBuilder.OptionsKeepOneDefault` | elicitation/builder.go:116-236 | no sequence of options gives a property two defaults or changes its name or type |
| `SchemaBuilder.OptionEffect` | elicitation/builder.go:116-236 | field by field, which option a new value comes from; everything else is kept |
| `SchemaBuilder.OptionPanicsIff` | elicitation/builder.go:151-225 | exactly which default panics: on a required property, on a second default, or on a constraint set before it |
| `SchemaBuilder.EntryAsProperty` | elicitation/builder.go:247-303 | the property an entry stands for has the entry's own attributes and its one default |
| `SchemaBuilder.Describe` | elicitation/builder.go:247-290 | the intermediate attribute map shows exactly the property, slot by slot |
| `SchemaBuilder.DescribeAll` | elicitation/builder.go:239-303 | one such map per name, and the required names in insertion order |
| `SchemaBuilder.MarshalMaps` | elicitation/builder.go:733-815 | from those maps the builder's encoder writes the canonical text |
| `SchemaBuilder.Builder.AddProperty` | elicitation/builder.go:61-113 | a new name goes to the end, a known one is edited in place; the type is the one of the entry point; a blank name changes nothing; a panic keeps the options before it |
| `SchemaBuilder.Builder.Build` | elicitation/builder.go:239-314 | fails exactly when reused, otherwise yields the canonical text of the properties in insertion order |
| `SchemaBuilder.RenderBothWays` | elicitation/builder.go:733-815 | builder and reflection encoder write the same text for every way of filling a builder |
| `SchemaBuilder.BuilderTextDeterminesSchema` | elicitation/builder.go:729-815 | equal builder texts come from the same names, order and properties |
| `SchemaDecode.BuildProperties` | elicitation/reflection.go:117-258 | one property per usable field in declaration order; panics exactly when some tag's default is invalid |
| `SchemaDecode.FieldBecomesProperty` | elicitation/reflection.go:119-258 | which fields are skipped, and which property a field's declaration and tag turn into, attribute by attribute |
| `SchemaDecode.FieldPanicsIff` | elicitation/reflection.go:177-228 | exactly which default panics |
| `SchemaDecode.StructTextIdentifiesIff` | elicitation/reflection.go:117-382 | some other struct schema has the same text if and only if the struct has two fields of one name that could exchange the required flag: no required one between them, and the optional one allowed to be required |
| `SchemaDecode.SwappedStructsPrintAlike` | elicitation/reflection.go:117-372 | for every name, two structs with two fields of that name, differing in which is a pointer, print the same text |
| `SchemaDecode.AssignPrimitive` | elicitation/reflection.go:498-552 | accepts a value if and only if it meets enum, lengths, range and type, integers being whole excepted, and then stores it |
| `SchemaDecode.StoredUnchangedIff` | elicitation/reflection.go:498-569 | an accepted value is stored as sent if and only if the field is no integer or the number is whole and, for unsigned fields, not negative; otherwise it is cut toward zero, or is zero; it meets the published schema if and only if it is whole where the type is integer |
| `SchemaDecode.LossyIntegersAreAccepted` | elicitation/reflection.go:556-569 | 1.5 is accepted against the schema and cut to 1; -3 for an unsigned field becomes 0 |
| `SchemaDecode.DefaultsMeetConstraints` | elicitation/reflection.go:177-228 | a default that passed the build meets the schema if and only if the field is a string or has no enum |
| `SchemaDecode.UnmeetableDefaultIsBuilt` | elicitation/reflection.go:177-228 | an integer field with an enum whose default is built and would be rejected |
| `SchemaDecode.Decoder.AssignSupplied` | elicitation/reflection.go:420-441 | for any iteration order: fails exactly if some known value is invalid, otherwise fills exactly the supplied fields |
| `SchemaDecode.Decoder.ApplyDefaults` | elicitation/reflection.go:452-491 | completes a struct with the defaults of absent optional fields |
| `SchemaDecode.Decoder.Decode` | elicitation/reflection.go:397-496 | accepts if and only if required names are present and known values are accepted, whatever the iteration order; leaves the destination unchanged on error |
| `SchemaDecode.DecodedIsUnique` | elicitation/reflection.go:397-496 | the resulting struct is determined by schema and values alone |
| `SchemaDecode.DecodeMeaning` | elicitation/reflection.go:397-496 | after success a supplied value was accepted for the last property of its name and sits in its field, shadowed fields are unset, absent fields are optional and hold the default or nothing |
| `SchemaDecode.BuiltSchemaDecodes` | elicitation/reflection.go:117-258 | for a list built from a struct, an absent field is a pointer field holding its default, which meets the schema exactly unless a number or boolean has an enum |
| `UriCodec.RelToUriLoop` | mcpservice/fs_resources.go:502-510 | the segment loop computes the base, a slash and the escaped segments |
| `UriCodec.UriToRelLoop` | mcpservice/fs_resources.go:512-532 | the segment loop computes prefix check, unescaping, cleaning and rejection |
| `UriCodec.UnescapeEscape` | mcpservice/fs_resources.go:502-532 | percent-decoding inverts percent-encoding for all byte strings (section 2.1 of RFC 3986) |
| `UriCodec.EscapeByteForm` | mcpservice/fs_resources.go:502-510 | plain bytes stay, every other becomes a percent sign and two capital hexadecimal digits |
| `UriCodec.CleanIdempotent` | mcpservice/fs_resources.go:526-531 | path cleaning is idempotent |
| `UriCodec.PathRoundTrip` | mcpservice/fs_resources.go:490-532 | a valid path other than "." comes back from its URI if and only if the base has no trailing slash |
| `UriCodec.DefaultBaseDoesNotRoundTrip` | mcpservice/fs_resources.go:127-137 | with the default base it never does |
| `UriCodec.AcceptedUriIsNormalised` | mcpservice/fs_resources.go:512-532 | for every base, the path of an accepted URI is a fixed point of the round trip if and only if the base has no trailing slash or the path is rooted |
| `UriCodec.AcceptedPathIsValid` | mcpservice/fs_resources.go:512-532 | an accepted path has only ordinary elements if and only if it is relative and not ".." |
| `UriCodec.ParentIsAccepted` | mcpservice/fs_resources.go:526-531 | under every base a URI for ".." is accepted |
| `ResourceIndex.EqualVariants` | mcpservice/static_resources.go:438-457 | true exactly for equal variant lists |
| `ResourceIndex.Container.Read` | mcpservice/static_resources.go:222-233 | the variants of the resource the index points at |
| `ResourceIndex.Container.AddResource` | mcpservice/static_resources.go:236-251 | appends a new named resource and indexes it, otherwise changes nothing |
| `ResourceIndex.Container.UpsertResource` | mcpservice/static_resources.go:254-282 | overwrites in place or appends, and says exactly which signals follow |
| `ResourceIndex.Container.RemoveResource` | mcpservice/static_resources.go:285-300 | swap-delete with its index update |
| `ResourceIndex.Container.ReplaceResources` | mcpservice/static_resources.go:303-340 | new slice and index; returns each dropped URI once and drops its notifier |
| `ResourceIndex.ReplaceExactIffDistinct` | mcpservice/static_resources.go:303-340 | the index is the inverse of the slice if and only if the URIs are distinct |
| `ResourceIndex.ContainerIsAMap` | mcpservice/static_resources.go:222-340 | at every point of a history and after any further edits all lookups are those of a plain map, if and only if no replacement has a repeated URI behind a single one |
| `ResourceIndex.ReplaceHarmlessIff` | mcpservice/static_resources.go:285-340 | every later sequence of additions, overwrites and removals answers as a map would, if and only if in the replacement no resource whose URI recurs follows one whose URI does not |
| `ResourceIndex.ListingIsExact` | mcpservice/static_resources.go:222-340 | while no replacement repeats a URI, the index is the inverse of the slice and the slice lists exactly the map's resources, each once |
| `ResourceIndex.IndexNeverDangles` | mcpservice/static_resources.go:222-340 | over every history, repeated URIs included, each index entry points in range at its own URI |
| `ResourceIndex.RepeatedUriResurfaces` | mcpservice/static_resources.go:285-340 | a family of histories in which a removed URI is found again |
| `ChangeSignals.ChangeNotifier.NotifyAll` | mcpservice/change_notifier.go:21-40 | every subscriber's slot is full afterwards, unless closed |
| `ChangeSignals.ChangeNotifier.Subscriber` | mcpservice/change_notifier.go:66-87 | a fresh registered channel, or a closed one after closing |
| `ChangeSignals.ChangeNotifier.MarkClosed` | mcpservice/change_notifier.go:42-64 | empties the list once and hands back the channels to close |
| `ChangeSignals.UriDebouncer.OnTrigger` | mcpservice/fs_resources.go:714-731 | fires at once without an interval, otherwise arms the timer once |
| `ChangeSignals.TriggersAreConserved` | mcpservice/fs_resources.go:706-738 | accepted triggers equal fires plus the pending one plus flushes in progress, over all runs |
| `ChangeSignals.ChannelSafety` | mcpservice/change_notifier.go:21-87 | no registered channel is closed and none is closed twice, over all runs |
| `ChangeSignals.ClosingReachesEverySubscriber` | mcpservice/change_notifier.go:42-87 | after closing, notifications reach nobody, new subscribers get a closed channel, and when the call is through every earlier channel is closed exactly once |
| `ChangeSignals.NotificationsAreKept` | mcpservice/change_notifier.go:21-87 | a subscriber registered before the latest notify holds a token or has received since |
| `ChangeSignals.NoChangeIsLost` | mcpservice/fs_resources.go:676-738 | once nothing is pending, a subscriber registered before the latest trigger holds a token or has received since |
| `Pagination.PageSlice` | mcpservice/fs_resources.go:535-553 | the file pager serves the page the cursor names |
| `Pagination.ListTools` | mcpservice/static_tools.go:455-477 | the tool pager serves the page the cursor names |
| `Pagination.ListResources` | mcpservice/static_resources.go:473-494 | the resource pager serves the page the cursor names, item by item converted |
| `Pagination.WalkCoversTheList` | mcpservice/fs_resources.go:535-553 | for each pager, following cursors yields the whole list once and in order in max(1, ceil(n/size)) pages and no fewer |
| `Pagination.PagersAgreeInRange` | mcpservice/resources.go:95-104 | the pagers agree if and only if the cursor is in range or the list is empty; out of range one answers an empty page, the others start over |
| `SseFrames.Writer.WriteMessageID` | streaminghttp/handler.go:190-221 | appends one whole frame, or nothing once the context ended |
| `SseFrames.StreamReadsBack` | streaminghttp/handler.go:190-221 | a sequence of messages is dispatched in order with payload and last event id (section 9.2.6 of the WHATWG HTML Standard) if and only if every id and payload is a single line and no id contains a NUL |
| `SseFrames.IdentifiedStreamReadsBack` | streaminghttp/handler.go:190-221 | when every message has an id the client sees exactly the messages written, under the same condition |
| `BearerChallenge.BuildBearerChallenge` | streaminghttp/handler.go:121-153 | prints the parameter list in its fixed order for any map iteration order |
| `BearerChallenge.ChallengeReadsBack` | streaminghttp/handler.go:121-153 | a parameter list is read back exactly, for all values, if and only if its names are tokens (section 5.6.4 of RFC 9110) |
| `BearerChallenge.ChallengeCarriesParameters` | streaminghttp/handler.go:121-153 | the list holds realm, metadata and every parameter under its name, and is recovered if and only if the parameter names are tokens (section 3 of RFC 6750) |

## Left out

- HTTP routing, content negotiation, well-known metadata, CORS, JWT verification and OIDC discovery: plumbing over libraries.
- Redis streams and key-value data: delivery behaviour lives in Redis; the in-memory host carries the delivery protocol.
- Filesystem walking, polling, fsnotify, symlink resolution and MIME lookup: operating system calls.
- The list, read and get request handlers, logging, prompts, completions and list-changed emitters of the engine: one-branch dispatch.
- `internal/elicitation/projection.go`: depends on a reflector that is not part of this model.
- The decoders bound to a builder schema (`elicitation/builder.go` after line 328): the reflection decoder carries the decoding properties.
- Parsing of struct tags and of numeric default literals: parsed tags are inputs of `SchemaDecode.BuildProperties`.
- Floats: reals in `SchemaDecode`; elsewhere values of an arbitrary type with a given printer, of which those in the schemas at hand are assumed to print as numbers and read back where injectivity is used. Overflow of float-to-integer conversion is not modelled.
- Strings in schema text are sequences of Unicode scalar values, which is what valid UTF-8 decodes to; lengths are UTF-8 byte counts as in the code.
- The fingerprint hash: what is proved is which texts identify their schema.
- Integer wrap-around of the message counter, and of cursor plus page size near the largest 64-bit integer.
- Contexts: a call's context is an input saying whether it has ended at the points where the code looks. Fresh ids come in as inputs that were never used before.
- The two clock readings of one Redis attempt are taken as one instant; GET errors other than a missing key, and the stream key's expiry, are not modelled.
- In the multi-node runs of `Subscriptions` a subscribe request is one step (`SubscribeWindow` has the two); the lookup and call of a tool's cancel function (engine.go:1124-1134) are one step.
- Loading the session of a consumed event and handling it are one step, and so are a deletion's local teardown and its publication.
- Teardown on other nodes after the session record is gone: such an event is ignored, as in the code, and only that is stated.
- A notification holds the notifier's lock throughout and is one step.
- Errors of the underlying HTTP writer, which could leave a partial frame.
- The intermediate attribute map of the builder is keyed by an enumeration of the eleven attribute names instead of strings.
- Defensive copies of resources (`normalizeResource`) are the identity on values.
