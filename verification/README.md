# Verified model of the cafe message bus and its services

The repository is a set of services that talk over one bus. The bus keeps a registry of
sessions; a session is an append-only list of chunks with delete signals, a buffer of
transient chunks that expire, subscribers with roles, and a bounded broadcast channel.
Connections publish, subscribe (a snapshot, then live chunks), listen to everything, fork,
delete and disconnect concurrently. The services on the bus react to events: an agent
runtime runs pipelines off a work queue, the LLM service builds prompts and answers each
request at most once, others index documents, store binaries, filter tools, read EPUBs and
relay to Telegram.

This project models those parts and proves what they promise. `dafny verify dfyconfig.toml`
checks all of it.

## How the model is laid out

| files | what they model |
|---|---|
| `Basics`, `Bytes`, `Text`, `Chunks` | options, filtering, trimming, chunks and their annotations |
| `Sessions`, `Registry` | `SessionState` and `SessionRegistry` as classes, each method tied to a function on session values; the closed forms of history and retained buffer; forks |
| `Bus` | the bus as a transition system: every registry critical section, every message a task writes, every forwarder receive and every timer expiry is one atomic action; a run is any sequence of enabled actions |
| `BusDelivery`, `BusAnnounce`, `BusFiltered`, `BusWire`, `BusLifecycle` | what holds after every run: delivery and replica agreement; announcements of SubscribeAll and SubscribeFiltered; which sessions a filter lets in; what reaches a connection, on which subscriptions and direct-to publishes share one writer; the life of ephemeral sessions |
| `BusWitnesses` | concrete runs showing that the hypotheses below are needed |
| `Gate` | the LLM service's receive loop composed with the bus: at-most-once execution |
| `Framing` | message framing on a byte stream and codec negotiation |
| `WorkQueue`, `Executor` | the theory of a self-feeding queue, and the pipeline executor on top of it |
| `Prompts`, `Streaming` | prompt building, compaction, summaries, runtime configuration; the token stream and what one invoke publishes |
| `ChunkText`, `Storage`, `Glob`, `NormalizeText`, `SplitMessage` | document chunking, the binary store, tool-name patterns, EPUB text, Telegram messages |

The transition system and the classes share their meaning: `Bus.Effect` is built from the
functions (`Published`, `Readable`, `Pruned`, `Forked`, `Left`, `Counted`) that the methods
of `SessionState` and `SessionRegistry` are proved to compute.

## Hypotheses the code needs

They are explicit in the lemmas that use them, and nothing else is assumed of a run.

- `FreshRun`: session ids are not used twice. Without it a listener attaches one session
  twice (`BusWitnesses.ReusedIdAttachesTwice`), and an old timer can meet a new session.
- `RolesFixed`: a connection does not change its role once it has subscribed to a session;
  the SDK sets the role in its first message and never again
  (cafe-sdk/src/bus/mod.rs:299). Without it a connection that is the last counted
  subscriber and subscribes again after dropping its role leaves a session that nothing
  will remove, unless an earlier timer is still pending in time
  (`BusWitnesses.RoleChangeLosesTimer` is such a run; `StepCovers` says exactly which steps
  do this).
- `KeepsCleanups`: no end-of-history write fails for a registered subscriber of a live
  session that its connection does not already remember. `StepRegisters` shows that this is
  exactly what keeps every subscriber within its connection's cleanup, and
  `DisconnectMisses` that a disconnect leaves the connection registered exactly where it is
  not remembered. A counted subscriber left that way keeps its session until an explicit
  delete (`LeakedForever`; `BusWitnesses.FailedReplayIsNotCleanedUp` is such a run).
- `Punctual`: a due timer fires before time goes on. Only the bound on how long an
  abandoned session survives needs it. That a session survives its FULL keepalive is not
  claimed: an earlier timer can fire sooner, since cancelling a timer does nothing.
- `OneHandlerRun`: a second handler of a session starts only when the first one is done.
  `AtMostOncePerService` derives what it needs instead from the service spawning one
  handler per announcement on one SubscribeAll stream; a service that reconnects while
  its old handlers still run is outside both.
- `OwnConnections`: each handler subscribes on a connection of its own, as the SDK does
  (cafe-sdk/src/bus/mod.rs:733). Direct-to publishes to that connection are not excluded:
  they reach the handler and count as publications.
- `Tight`: a frame is there as soon as its bytes are. Only the exact condition for a codec
  switch that drops nothing needs it; the newline codec has it (`JsonLineIsTight`).

## Where the code and its promises part

- A codec-negotiating connection never serves its first message, whatever it is
  (`Framing.HandleConnection`), and switching to the binary codec drops what was read
  beyond it: nothing exactly when the first message ends where a read ends
  (`Framing.NothingDropped`), and otherwise the messages a client pipelined
  (`PipelinedMessagesAreLost`, at an input in `PipelinedMessageIsLost`).
- A tag filter is to let through the sessions that carry the tag (docs/adr-117-session-tags.md),
  and tags may change; but a listener looks at a session once. It attaches exactly what its
  filter let in then (`BusFiltered.AttachedIffLetIn`), which is what matches now when the
  tags were not set again or the filter asks for none (`CaughtUpHoldsWhatMatches`);
  `AttachedIffMatches` has the exact condition, `BusWitnesses.LateTagIsNotSeen` a run in
  which it fails.
- `chunk_text` does not end when a paragraph is longer than the chunk size and the overlap
  is not smaller (`ChunkText.WindowLoopEnds` is the exact condition).
- An invoke whose stream breaks off in an error or an abort is answered as a success; the
  answer tells whether the reply is complete exactly when the stream does not break off
  (`Streaming.AnswerIsRight`, at an event list in `BrokenStreamSucceeds`).
- A disconnect is to deregister its connection everywhere; after a failed end-of-history
  write it does not (`BusLifecycle.StepRegisters`, `BusWitnesses.FailedReplayIsNotCleanedUp`).
- A compaction budget of zero means no budget, so raising one from zero can keep less
  (`Prompts.RawBudgetsKeepMore` has the exact condition on both budgets).
- Later configuration chunks win per key, the comments say; for a legacy key the first
  text stays (`Prompts.FirstLegacyStays`), so the last one counts exactly when it is the
  same (`LastLegacyWins`, at a history in `LaterLegacyIsIgnored`).
- A refused upload leaves the files alone, unless it is a first part over the limit, which
  has already emptied the file and left a marker (`Storage.RefusalLeavesFiles`, both
  directions, and `TooLargeFirstPart`); the recorded size is wrong after a finalizing part
  that ends inside the file (`Storage.RecordedSize`); a chunk id ending in `.writing` is
  taken for a marker (`Storage.SurvivesCleanup` says exactly which chunks cleanup leaves,
  `MarkerNamesMislead` is a store where it goes wrong).
- A write marker implies its file only while no id that looks like a marker is used; the
  server accepts such ids, and one upload of any of them leaves a marker without its file
  (`Storage.OnlyLookalikesOrphanMarkers`, both directions).
- `splitMessage` uses a byte index as a character count: on multi-byte text the slice can
  run past the end, where Go panics (`SplitMessage.MultiByteBreaks`, exact condition
  `PartsFit`).

## Model

| member | source | states |
|---|---|---|
| BusDelivery.EveryFeedDelivers | cafe-bus/src/client.rs:552-669 | After every run, for every attached session of every subscription: the snapshot is the history at attachment, and what was written, is still to replay and is still queued is exactly what is owed (the matching chunks of the snapshot, then of everything published since), or a prefix of it once the receiver lost a chunk |
| BusDelivery.ReplicaAgreement | cafe-bus/src/client.rs:552-669 | Applying what a client was sent, then what is pending, with delete signals removing their target, gives exactly the session's current history, under every interleaving |
| BusDelivery.CaughtUpDelivery | cafe-bus/src/client.rs:860-919 | A receiver that has caught up was sent exactly the subsequence matching its filter, each chunk once and in order |
| BusDelivery.LaggedPrefix | cafe-bus/src/client.rs:652-662 | Whatever is lost, what was delivered is a gap-free prefix of what was owed |
| BusDelivery.StepKeepsDelivery | cafe-bus/src/session.rs:64-88 | Each atomic step keeps the delivery invariant of every feed |
| BusAnnounce.AnnouncedOnce | cafe-bus/src/client.rs:672-806 | A subscription to everything writes the announcement of a session at most once |
| BusAnnounce.EveryLiveSessionIsAnnounced | cafe-bus/src/client.rs:672-732 | Snapshot or event, never both, never neither: a listener whose event queue has not overflowed has announced each live session or owes it exactly one announcement |
| BusAnnounce.CaughtUpHoldsEverything | cafe-bus/src/client.rs:672-732 | A SubscribeAll client that has caught up holds the history of every live session |
| BusWire.EveryWriteHasASource | cafe-bus/src/client.rs:507-535 | Over every run, a message that reaches a connection is the next one of a subscription of that connection, or a chunk sent directly that names the connection; the subscriptions of one connection share its wire |
| BusWire.ChunksFollowAnnouncement | cafe-bus/src/client.rs:690-728 | On the wire of any connection, a chunk that a listener writes comes after that listener's announcement of its session; chunks sent directly to the connection need none |
| BusWire.WrittenChunksAreOwed | cafe-bus/src/client.rs:734-806 | What a listener puts on the wire for the id of a session it attached is the matching part of what it is owed, in order, up to what is pending; chunks sent directly and other subscriptions' messages are not counted |
| BusWire.OwnArrivals | cafe-sdk/src/bus/mod.rs:733-775 | On a connection with one subscription, what arrives is that subscription's output in order, with the chunks sent directly to the connection in between |
| BusFiltered.AttachedIffLetIn | cafe-bus/src/client.rs:734-806 | Over every run, a listener has attached a session exactly when its filter let it through with the tags it had when the listener looked at it, in the snapshot or after its event |
| BusFiltered.EveryLiveSessionIsLookedAt | cafe-bus/src/client.rs:735-806 | Until its event queue overflows, a listener has looked at each live session or has its creation event pending, and never both |
| BusFiltered.CaughtUpHoldsMatching | cafe-bus/src/client.rs:734-806 | A filtered client that has caught up was sent, of each live session it let in, exactly the matching chunks of the snapshot and of all published since, and of each other live session nothing |
| BusFiltered.CaughtUpHoldsWhatMatches | cafe-bus/src/client.rs:835-857 | So for exactly the sessions that match the filter now, when their tags were not set again or the filter asks for none |
| BusFiltered.AttachedIffMatches | cafe-bus/src/client.rs:835-857 | A session a listener looked at is attached exactly when it matches now, exactly when the filter gives the same verdict on the tags then and now |
| BusLifecycle.RemovalIsSafe | cafe-bus/src/client.rs:300-320 | Cleanup and timers remove only ephemeral sessions, and only when no counted subscriber other than the departing connection is registered |
| BusLifecycle.StepCovers | cafe-bus/src/registry.rs:125-157 | A step keeps every abandoned ephemeral session covered by a timer due within its keepalive exactly when it is not a re-subscription that drops the last counted role |
| BusLifecycle.FixedRolesAreKept | cafe-bus/src/client.rs:336-345 | Fixed roles are enough: no step of such a run is a re-subscription that drops the last counted role |
| BusLifecycle.AbandonedSessionsHaveTimers | cafe-bus/src/registry.rs:125-151 | After every run in which roles are fixed before subscribing, a session whose counted number has fallen to zero has such a timer pending, or is gone |
| BusLifecycle.AbandonedSessionsAreGoneInTime | cafe-bus/src/registry.rs:140-150 | With fixed roles and punctual timers no abandoned session outlives its keepalive |
| BusLifecycle.TimersRemoveOnlyEmptied | cafe-bus/src/registry.rs:142-150 | When ids are not reused a timer removes only a session that lost its last counted subscriber, never one nobody joined yet |
| BusLifecycle.StepRegisters | cafe-bus/src/client.rs:586-634 | A step keeps every registered subscriber within its connection's cleanup exactly when it is not a failed replay of a registered subscriber that the connection does not already remember |
| BusLifecycle.FailedReplayLeaks | cafe-bus/src/client.rs:618-669 | A failed end-of-history write leaves a counted subscriber that the connection's cleanup does not reach |
| BusLifecycle.LeakedForever | cafe-bus/src/client.rs:300-320 | Such a counted subscriber keeps its session alive over every later run, unless it is explicitly deleted |
| BusLifecycle.DisconnectMisses | cafe-bus/src/client.rs:300-320 | In any state, a disconnect leaves the connection registered in exactly those live sessions where it is registered and that it does not remember |
| BusLifecycle.DisconnectDeregisters | cafe-bus/src/client.rs:302-320 | When no step is such a failed replay, a disconnect deregisters the connection from every session |
| BusWitnesses.RoleChangeLosesTimer | cafe-bus/src/client.rs:342-345 | A concrete run after which an abandoned session has no timer |
| BusWitnesses.FailedReplayIsNotCleanedUp | cafe-bus/src/client.rs:618-634 | A concrete run after which a connection is gone and still a counted subscriber of a live session |
| BusWitnesses.LateTagIsNotSeen | cafe-bus/src/client.rs:775-804 | A concrete run after which a session matches a listener's filter, is not attached, and nothing pending will attach it |
| BusWitnesses.ReusedIdAttachesTwice | cafe-bus/src/client.rs:707-728 | A concrete run in which one session is attached twice by one listener |
| Gate.RunSession | cafe-llm/src/evaluator.rs:99-258 | The receive loop acts on exactly the messages that carry a call for its session after an end-of-history message (an invoke only if the history can be read), in order |
| Gate.OnlyLiveRequestsRun | cafe-llm/src/evaluator.rs:78-131 | Over every run, what a gated handler acts on was published to its session after it attached, or sent directly to its connection; replayed, retained and fork-copied requests never run |
| Gate.AtMostOnce | cafe-llm/src/evaluator.rs:78-131 | With one live handler per session, each on its own connection, a request published once, to a session or directly, is acted on at most once, by one handler at one message, over every run |
| Gate.AtMostOncePerService | cafe-llm/src/bus_client.rs:80-100 | The same for a service that spawns one handler per announcement on one SubscribeAll stream, each on its own connection |
| Sessions.HistoryClosedForm | cafe-bus/src/session.rs:64-88 | After any publishes the history is, in order, the stored chunks with no later delete signal naming their id |
| Sessions.InHistory | cafe-bus/src/session.rs:9-22 | A chunk is in the history exactly when some publication of it is stored and not deleted later |
| Sessions.RepublishedIsPresent | cafe-bus/src/session.rs:64-88 | A chunk republished after its deletion is present again |
| Sessions.PruningIsUnobservable | cafe-bus/src/session.rs:92-123 | Whatever earlier drains and forks pruned, a read returns what it would have returned had nothing been pruned |
| Sessions.RetainedClosedForm | cafe-bus/src/session.rs:72-107 | A read of the retained buffer returns, in publication order, the undeleted retained chunks whose deadline is later |
| Sessions.SessionState.Publish | cafe-bus/src/session.rs:64-80 | A publish appends, retains or retires, and always broadcasts |
| Sessions.SessionState.RemoveChunk | cafe-bus/src/session.rs:83-88 | Exactly the chunks of that id leave both buffers; the answer is about the history alone |
| Sessions.SessionState.DrainRetained | cafe-bus/src/session.rs:92-107 | The unexpired chunks are returned and only the expired ones forgotten |
| Sessions.SessionState.RetainedWithDeadlines | cafe-bus/src/session.rs:113-123 | The same with the deadlines |
| Sessions.SessionState.Seed | cafe-bus/src/session.rs:129-132 | History and retained buffer are replaced and nothing is broadcast |
| Sessions.SessionState.AddSubscriber | cafe-bus/src/session.rs:153-155 | The role is registered and the previous registration returned |
| Sessions.SessionState.RemoveSubscriber | cafe-bus/src/session.rs:158-160 | The registration is removed and returned |
| Sessions.SessionState.CountedSubscriberCount | cafe-bus/src/session.rs:164-176 | The number of subscribers whose role counts |
| Registry.ForkReadsAsParent | cafe-bus/src/registry.rs:72-109 | After the same publishes a fork answers every later retained read as its parent does, whatever either was pruned by |
| Registry.ForkHistoryFollowsParent | cafe-bus/src/registry.rs:87-104 | After the same publishes the fork's history is the parent's plus the provenance chunk, which stays until a delete signal names it |
| Registry.SessionRegistry.Insert | cafe-bus/src/registry.rs:47-55 | The session is there and announced once |
| Registry.SessionRegistry.Fork | cafe-bus/src/registry.rs:72-109 | The fork is a fresh object, fully seeded before its one announcement, having broadcast nothing; the errors change nothing |
| Registry.SessionRegistry.PublishTo | cafe-bus/src/client.rs:537-549 | Publishing to one session changes no other, forks included |
| Registry.SessionRegistry.Remove | cafe-bus/src/registry.rs:111-119 | The session is gone and its deletion announced exactly when it was there |
| Registry.SessionRegistry.ScheduleDeletion | cafe-bus/src/registry.rs:125-151 | Only an ephemeral session is removed or given a timer; at once without a delay |
| Registry.SessionRegistry.Expire | cafe-bus/src/registry.rs:142-150 | A timer removes its session exactly when that is ephemeral and has no counted subscriber then |
| Registry.SessionRegistry.SetTags | cafe-bus/src/registry.rs:178-189 | The tags are replaced and announced exactly when the session exists |
| Registry.SessionRegistry.Depart | cafe-bus/src/client.rs:306-319 | A departure removes the subscriber, and removes the session or starts a timer exactly when it was the last counted one of an ephemeral session |
| Registry.SessionRegistry.Unsubscribe | cafe-bus/src/client.rs:40-52 | Whether the departing connection was counted agrees with the count the session keeps |
| Framing.Frames.NextMsg | cafe-bus/src/client.rs:83-100 | The next message is that of the whole remaining stream, however the reads split it, for every prefix-stable codec |
| Framing.Frames.ReceiveAll | cafe-bus/src/client.rs:334-334 | The receive loop yields exactly the messages of the stream and fails exactly when the stream does |
| Framing.HandleConnection | cafe-bus/src/client.rs:206-292 | A JSON loop serves the messages of the whole stream but the first; a binary loop those of what is read after the read that completed the first, and what was read beyond the first is dropped |
| Framing.NothingDropped | cafe-bus/src/client.rs:210-233 | The switch drops nothing exactly when the first message ends where a read ends |
| Framing.PipelinedMessagesAreLost | cafe-bus/src/client.rs:275-283 | When what was read beyond the first message is whole binary messages, exactly those are lost and the later ones served |
| Framing.PipelinedMessageIsLost | cafe-bus/src/client.rs:275-283 | One read that holds the first line and a binary message: the message is never served |
| Framing.JsonLineIsStable | cafe-types/src/codec.rs:107-123 | The newline codec is prefix-stable |
| Framing.JsonLineIsTight | cafe-types/src/codec.rs:107-123 | The newline codec yields a line as soon as its bytes are there |
| Framing.JsonLineReadsBack | cafe-types/src/codec.rs:101-123 | A line is read back exactly when it is not empty and holds no newline |
| Framing.LengthPrefixIsStable | cafe-types/src/codec.rs:149-164 | The length-prefix codec is prefix-stable |
| Framing.FramedReadsBack | cafe-types/src/codec.rs:137-164 | A framed payload is read back whole exactly when its length fits in 32 bits |
| Framing.FramedStreamReadsBack | cafe-types/src/codec.rs:137-164 | A stream of framed payloads carries exactly their messages, in order |
| Framing.LeftoverIsLost | cafe-types/src/codec.rs:137-164 | Framed payloads in front of a stream add exactly their messages, so dropping them loses exactly those |
| Executor.OnTrigger | cafe-agent-runtime/src/executor.rs:159-263 | The loop ends on every step list, cyclic ones included; it runs exactly what the trigger and the follow-ups ask for, one follow-up per completed visit in the order of the visits, with depths that never fall, and is cut off right after a failing call |
| Executor.RunBuiltIns | cafe-agent-runtime/src/executor.rs:189-236 | The built-in steps run in order; only a tool executor that finds calls queues a follow-up |
| Executor.DispatchRpcs | cafe-agent-runtime/src/executor.rs:239-256 | The remote steps run in order, each success queues its follow-up, the first failure ends the run |
| Executor.ServingIsLighter | cafe-agent-runtime/src/executor.rs:165-256 | Serving an event makes the queue lighter under w(d) = 1 + n * w(d + 1), whatever it queues |
| Executor.QueueGrown | cafe-agent-runtime/src/executor.rs:167-256 | Queue depths stay sorted with at most two adjacent values |
| Executor.WorkQueueIsLayered | cafe-agent-runtime/src/executor.rs:159-263 | A run all of whose visits complete is layer 0, then layer 1, and so on to the depth limit |
| Executor.LayeredWhenCallsSucceed | cafe-agent-runtime/src/executor.rs:453-459 | So is every run of a pipeline of remote steps whose calls succeed |
| Executor.OncePerTriggerPath | cafe-agent-runtime/src/executor.rs:268-291 | The visits of layer k are, one for one and in order, the trigger paths of k + 1 steps, each exactly once |
| Executor.ChosenStep | cafe-agent-runtime/src/executor.rs:168-183 | A step runs for an event exactly when the event is within the depth limit and the step's trigger and condition hold |
| Executor.RunIsBounded | cafe-agent-runtime/src/executor.rs:165-256 | Of every run, whatever its steps and outcomes and whether finished or cut off by a failing call, at most n^(k+1) visits are k levels below its root, and none above |
| Executor.LayerIsBounded | cafe-agent-runtime/src/executor.rs:165-256 | The same of the layers |
| WorkQueue.SelfFeedingIsLayered | cafe-agent-runtime/src/executor.rs:165-260 | Any queue that feeds itself within a rank limit runs its layers in order |
| WorkQueue.SelfFeedingIsBounded | cafe-agent-runtime/src/executor.rs:165-260 | Any prefix of what a self-feeding queue runs has at most n^(k+1) visits at rank k |
| WorkQueue.PathMembers | cafe-agent-runtime/src/executor.rs:177-183 | The enumerated paths are exactly those whose every step is led to by the ones before |
| Prompts.BuildMessages | cafe-llm/src/context.rs:5-49 | The system prompt, if any, then the coalesced trusted user and assistant texts |
| Prompts.CoalescedByRuns | cafe-llm/src/context.rs:30-40 | Each coalesced message is the newline-join of one maximal run of one role |
| Prompts.RunsAreUnique | cafe-llm/src/context.rs:30-40 | The cut into maximal runs is unique |
| Prompts.CoalescedAlternates | cafe-llm/src/context.rs:30-33 | Coalesced messages alternate strictly between user and assistant |
| Prompts.ApplyCompaction | cafe-llm/src/context.rs:85-132 | The longest suffix of the non-system messages that meets both budgets is kept, or only the newest; the rest is reported as dropped |
| Prompts.CompactionIsUnique | cafe-llm/src/context.rs:110-124 | There is one such result |
| Prompts.CompactionConserves | cafe-llm/src/context.rs:126-131 | Dropped and kept make up the input; message and character counts are conserved |
| Prompts.NewestSurvives | cafe-llm/src/context.rs:83-84 | The newest message is always kept |
| Prompts.CompactionIsIdempotent | cafe-llm/src/context.rs:85-132 | Compacting again changes nothing |
| Prompts.LargerBudgetsKeepMore | cafe-llm/src/context.rs:91-95 | Larger budgets never keep less |
| Prompts.RawBudgetsKeepMore | cafe-llm/src/context.rs:91-92 | As plain numbers larger budgets keep no less, for every input, exactly when no budget is raised from zero, or only the character budget is and one message is kept anyway |
| Prompts.InsertSummary | cafe-llm/src/context.rs:160-171 | The summary goes right after a leading system message, otherwise first; what that makes of the prompt is `PromptFor` |
| Prompts.SummarizePrefix | cafe-llm/src/evaluator.rs:273-311 | A failed or empty summary leaves the truncated list as it is; the result is `PromptFor` |
| Prompts.PromptFor | cafe-llm/src/evaluator.rs:147-160 | The final prompt is at most two system messages, then strictly alternating turns, ending with the coalesced texts from some point on, the newest always among them |
| Prompts.ExtractField | cafe-llm/src/context.rs:181-265 | The loop computes the fold whose meaning is `CanonicalWins`, `FirstLegacyStays` and `NoText` |
| Prompts.CanonicalWins | cafe-llm/src/context.rs:205-213 | The last canonical value wins when it is a text |
| Prompts.FirstLegacyStays | cafe-llm/src/context.rs:244-265 | Otherwise the first legacy text from there on stays |
| Prompts.LastLegacyWins | cafe-llm/src/context.rs:244-265 | With no canonical text the last legacy text wins exactly when it equals the first |
| Prompts.LaterLegacyIsIgnored | cafe-llm/src/context.rs:244-265 | A model set twice under the legacy key keeps its first value |
| Prompts.NoText | cafe-llm/src/context.rs:181-265 | With neither there is no value |
| Streaming.RunStreamLoop | cafe-llm/src/evaluator.rs:392-435 | Every token up to the first end, error or abort is emitted once and in order and nothing after it; the reply is their concatenation, the ids are theirs |
| Streaming.HandleResponse | cafe-llm/src/evaluator.rs:313-389 | The loop publishes exactly what `Answer` lists, in that order; what that promises is `AnsweredOnce` and `ReplyIsWhatStreamed` |
| Streaming.AnsweredOnce | cafe-llm/src/evaluator.rs:339-388 | An invoke is answered by exactly one RPC response, its last chunk, once the stream has ended; it says failure exactly when the backend did not start |
| Streaming.AnswerIsRight | cafe-llm/src/evaluator.rs:339-388 | The answer of an ended invoke tells whether the reply is complete exactly when the stream does not break off in an error or an abort |
| Streaming.BrokenStreamSucceeds | cafe-llm/src/evaluator.rs:361-388 | What is published for one token and then an error: the reply, its end with reason error, and a successful RPC response |
| Streaming.ReplyIsWhatStreamed | cafe-llm/src/evaluator.rs:361-374 | The tokens come first, the stored reply is their concatenation and is never empty, the tombstone names exactly them |
| ChunkText.Chunk | cafe-knowledgebase/src/index.rs:351-418 | The loop computes the chunks: merged short paragraphs, windows of long ones, the whole text when all is blank |
| ChunkText.SplitRejoins | cafe-knowledgebase/src/index.rs:356-356 | The paragraphs and their breaks make up the text |
| ChunkText.WindowLoopEnds | cafe-knowledgebase/src/index.rs:375-392 | The window loop of a long paragraph ends exactly when the overlap is smaller than the chunk size |
| ChunkText.WindowsCover | cafe-knowledgebase/src/index.rs:375-392 | The windows cover the paragraph without a gap and each overlaps the next by exactly the overlap |
| ChunkText.DroppingOverlapsRebuilds | cafe-knowledgebase/src/index.rs:375-392 | Dropping the overlaps rebuilds the paragraph |
| ChunkText.PiecesAreWindows | cafe-knowledgebase/src/index.rs:376-391 | Each chunk of a long paragraph carries one whole window |
| ChunkText.ChunksAreBounded | cafe-knowledgebase/src/index.rs:351-418 | Unless the text is blank, no chunk is longer than chunk size + overlap + 3 |
| ChunkText.ShortParagraphsAreWhole | cafe-knowledgebase/src/index.rs:396-411 | Every paragraph that is not cut occurs whole in some chunk |
| ChunkText.MergingIsGreedy | cafe-knowledgebase/src/index.rs:396-411 | Without overlap, the chunks of short paragraphs are the paragraphs in order, grouped greedily: each group fits and none could take the next paragraph |
| Storage.BinaryStore.WriteHandler | cafe-binary-store/src/main.rs:166-246 | An upload request has exactly the effect and answer of `Handled` |
| Storage.BinaryStore.StartWrite | cafe-binary-store/src/storage.rs:29-49 | An empty file and a marker, or a conflict that changes nothing |
| Storage.BinaryStore.ResumeWrite | cafe-binary-store/src/storage.rs:52-67 | A resume needs a marker and a file that reaches the offset |
| Storage.BinaryStore.Append | cafe-binary-store/src/storage.rs:70-102 | The body overlays the file at its offset, within the limit |
| Storage.BinaryStore.Finalize | cafe-binary-store/src/storage.rs:105-109 | The marker is removed |
| Storage.BinaryStore.Read | cafe-binary-store/src/storage.rs:112-141 | The window's bytes, the file size, and `done` exactly at the end of a closed file |
| Storage.BinaryStore.Delete | cafe-binary-store/src/storage.rs:143-147 | File and marker are removed |
| Storage.BinaryStore.CleanupStaleWrites | cafe-binary-store/src/storage.rs:150-178 | Every marker and the file it belongs to are removed, in whatever order they are listed |
| Storage.AcceptedPart | cafe-binary-store/src/main.rs:166-246 | An accepted part leaves no hole, keeps the limit and touches no other file |
| Storage.AlwaysTidy | cafe-binary-store/src/storage.rs:29-178 | Over every run of uploads, deletions and cleanups of ids that do not look like markers, no chunk exceeds the limit and every marker has its file |
| Storage.MarkerHasFile | cafe-binary-store/src/storage.rs:42-47 | In a tidy store every write marker has its file |
| Storage.OnlyLookalikesOrphanMarkers | cafe-binary-store/src/storage.rs:42-47 | Every marker has its file over all runs on some ids exactly when none of them looks like a marker, that is ends in `.writing` after two characters or more |
| Storage.LookalikeLeavesMarker | cafe-binary-store/src/main.rs:166-246 | One accepted upload of such an id leaves a marker without its file |
| Storage.AlwaysBounded | cafe-binary-store/src/storage.rs:70-102 | Over every run, of any ids, no file is larger than the limit, but for the one byte of a marker |
| Storage.MultiPartUpload | cafe-binary-store/src/main.rs:166-246 | Parts sent at offset zero and then at the current length are all accepted and leave exactly their concatenation, closed, with its size recorded |
| Storage.SingleShotUpload | cafe-binary-store/src/main.rs:56-65 | One part at offset zero without a flag is stored, closed and read back whole, `done` |
| Storage.EmptyBodyCloses | cafe-binary-store/src/main.rs:56-65 | An empty body closes an open upload, whatever its flag, and keeps its bytes |
| Storage.ResendChangesNothing | cafe-binary-store/src/storage.rs:52-102 | Sending a part again at its offset above zero changes nothing |
| Storage.ResendIffSame | cafe-binary-store/src/storage.rs:89-101 | A part inside an open file changes nothing exactly when its bytes are there already |
| Storage.RecordedSize | cafe-binary-store/src/main.rs:238-240 | The recorded size is right exactly when the finalizing part reaches the end of the file |
| Storage.RefusalLeavesFiles | cafe-binary-store/src/main.rs:166-246 | A refused request leaves the files as they were exactly when it is not a first part over the limit |
| Storage.TooLargeFirstPart | cafe-binary-store/src/main.rs:169-206 | A refused first part leaves the file empty and marked, and a retry conflicts |
| Storage.WindowsRebuild | cafe-binary-store/src/storage.rs:112-141 | Consecutive read windows rebuild the file |
| Storage.CleanupKeepsFinished | cafe-binary-store/src/storage.rs:150-178 | In a tidy store cleanup leaves exactly the finished chunks |
| Storage.SurvivesCleanup | cafe-binary-store/src/storage.rs:150-178 | In any store a chunk survives cleanup exactly when its id is not named like a marker and no file is named like its marker, one suffix or more |
| Storage.MarkerNamesMislead | cafe-binary-store/src/storage.rs:162-171 | A finished chunk whose id ends like a marker is deleted by cleanup, and takes another one with it |
| Glob.MatchesMeans | cafe-mcp-bridge/src/tools.rs:456-482 | The matcher answers yes exactly when the name can be read as the pattern, `*` standing for any text and `?` for one character |
| Glob.ConcatenationLaw | cafe-mcp-bridge/src/tools.rs:464-482 | A concatenated pattern matches exactly what its halves match at some split of the name |
| NormalizeText.Normalize | cafe-epub/src/epub.rs:125-150 | The loop writes the kept lines joined by newlines, and the final trim takes nothing away |
| NormalizeText.OutputIsNormal | cafe-epub/src/epub.rs:123-150 | The output is in normal form: trimmed lines, no blank one first, last or next to another |
| NormalizeText.NormalizeIsIdempotent | cafe-epub/src/epub.rs:125-150 | Normalising twice is normalising once |
| NormalizeText.LinesSurvive | cafe-epub/src/epub.rs:128-148 | The non-blank lines of the output are the input's, trimmed and in order |
| NormalizeText.SeparatorsSurvive | cafe-epub/src/epub.rs:136-146 | Between two kept lines any run of blank lines becomes one, and none stays none |
| NormalizeText.BlankIsOwed | cafe-epub/src/epub.rs:130-135 | A blank line is owed exactly after a blank input line that follows a kept one |
| SplitMessage.SplitText | cafe-telegram/bot.go:86-107 | The loop ends and yields the parts, or runs past the end where a cut does |
| SplitMessage.SplitConcat | cafe-telegram/bot.go:86-107 | Whenever the parts are defined they are non-empty and make up the text |
| SplitMessage.PartsFit | cafe-telegram/bot.go:94-104 | The text splits into parts of at most 4096 characters exactly when every window's last newline has its bytes in reach |
| SplitMessage.SingleByteSplits | cafe-telegram/bot.go:84-107 | Single-byte text always does |
| SplitMessage.SingleByteLinesSplit | cafe-telegram/bot.go:94-104 | Text that is single-byte up to its last newline splits into parts that fit, so also any text without one |
| SplitMessage.SingleByteCut | cafe-telegram/bot.go:94-104 | On single-byte text a part ends at the last newline of its window, or is the whole window when there is none |
| SplitMessage.MultiByteBreaks | cafe-telegram/bot.go:99-104 | 2100 two-byte letters and a newline: the cut is at 4201 of 2101 characters |
| SplitMessage.Deliver | cafe-telegram/bot.go:326-345 | The placeholder shows the first part and the rest is sent after it |
| SplitMessage.ResplitIsRest | cafe-telegram/bot.go:345-345 | Joining the later parts and splitting again gives those parts, or one message if they are short |
| SplitMessage.DeliversEverything | cafe-telegram/bot.go:326-345 | Whenever the first split is defined, the whole text is delivered in order |

## Left out

- Sockets, iroh, SQLite, HTTP, QuickJS, LanceDB, embeddings, JWT signing and token auth: foreign calls; their outcomes are inputs of the model.
- JSON and bincode payload formats and the generation of ids: codecs are any prefix-stable decoder, ids are parameters.
- Replies and errors a command sends back to its own connection, tag validation, ListSessions and Ping: they do not change the registry; the wire of a connection holds what its subscriptions and direct-to publishes put there, not the replies, of which the one to CreateSession has the form of an announcement.
- Write errors: a dead writer is a `Break` step that ends one subscription; a writer that dies under several subscriptions is several such steps, a write that fails and a later one that succeeds are not modelled, and a chunk sent directly to an open connection is taken as written.
- BusAnnounce.EveryLiveSessionIsAnnounced: says nothing once the event queue of 256 has overflowed, because the listener then stops.
- BusFiltered.EveryLiveSessionIsLookedAt: for the same reason says nothing after an overflow.
- BusWire.ChunksFollowAnnouncement: a chunk sent directly may name any session, announced or not.
- Gate.AtMostOnce: at most once, not exactly once; a handler that lags or dies misses requests.
- Prompts.ExtractField: text fields only; parsing of numeric fields, and the 32-bit truncation of JSON numbers, is not modelled.
- Prompts.SummarizePrefix: the backend's reply is taken as already trimmed.
- Executor.OnTrigger: which tool calls a text contains, the parameters of a remote call and the timeout are inputs; tool calls published by the detector are not recorded.
- Streaming.RunStreamLoop: the order in which tokens and abort changes are seen is an input; a dropped abort sender is not modelled.
- ChunkText.Chunk: on single-byte text; slicing inside a multi-byte character, where the code stops with a panic, is not modelled.
- NormalizeText.Normalize: the HTML conversion before it is a library call.
- Storage.BinaryStore.CleanupStaleWrites: the directory listing is taken at once and files come and go only through the store; path separators in ids are not modelled.
- Framing.Frames.NextMsg: a failed read ends the loop like a decoding error and is not modelled apart from it; the size of a read is any.
- SplitMessage.SplitText: text is valid UTF-8; Go replaces invalid bytes first.
- The Content-Range header of a partial read and the tool tables: only easy members.
- Regex tool detection, feeds, cron, the JS agents, the CLI, Hue, Comfy and the other small services: thin layers over libraries.
