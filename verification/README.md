# Verification of the Cursor executor and login poller

This Dafny project models the part of the plugin that talks to Cursor: one chat-completions request is
translated into a Run request, exchanged over a framed duplex stream, and folded back into one response.
The login poller is modelled beside it. `dafny verify dfyconfig.toml` checks everything.

How the model follows the program:

| file | models |
|---|---|
| `frames.dfy` | the Connect envelope: encoder, incremental extractor with its 32-bit arithmetic |
| `protocol.dfy`, `chunking.dfy`, `readloop.dfy` | server messages, what is answered to each, and the read loop over a growing buffer |
| `pipe.dfy`, `shutdown.dfy` | the request-body pipe, and the three goroutines with their locks and deferred calls as a transition system |
| `blobstore.dfy`, `history.dfy`, `blobgraph.dfy`, `requests.dfy`, `requestbuilder.dfy` | chat history as a graph of content-addressed blobs |
| `stability.dfy` | which turn ids a later request repeats, when tool calls are routed through a map |
| `conversation.dfy`, `cache.dfy`, `isolation.dfy` | conversation ids, the TTL and LRU cache, and interleaved requests over it |
| `mcpargs.dfy`, `toolrouting.dfy`, `toolcalls.dfy` | tool names in both directions, tool declarations, rebuilding tool calls |
| `shippedtools.dfy`, `shippedstability.dfy` | what the shipped alias table leaves to the map order |
| `accumulator.dfy`, `responses.dfy`, `executor.dfy`, `requestrun.dfy` | folding updates into a response, retry, and one request from end to end |
| `resultwriter.dfy`, `shippedresults.dfy` | writing a result text into a message known only by its descriptor, and into the shipped result types |
| `toolroundtrips.dfy` | a tool call surfaced to the client, answered, and rebuilt |
| `login.dfy`, `overlap.dfy` | login attempts and their polls, lock by lock; polls of one attempt that overlap |

Code that changes state step by step is modelled by classes and methods with loops; each is proved equal to a
function of its inputs or its old state, and the properties below are proved about those functions. Concurrent
code is a transition system whose steps are what happens under one lock; its properties hold in every run.

Taken on trust, and passed in as parameters with their laws stated as preconditions: the protobuf and JSON codecs
(bytes read as the message type they were written from give the message back, which says nothing about bytes read
as another type; `proto.Marshal` may give different bytes for one value on two calls, of blobs, of arguments and of
schemas alike; JSON texts keep their values, numbers being the same when they are the same double, but not their
spelling; an argument nested so deeply that protobuf's decoder refuses it is encoded but not read back), SHA-256 (no
collision among the blobs in question), random ids (drawn from a supply without repetitions, each draw may fail),
clocks (any positive reading), and the contract of `io.Pipe` (one `Write` at a time owns the pipe; closing either
end makes it fail).

Where the code and its own documentation part, the model follows the code:

- the extractor adds the header size to the declared length in `uint32`. For a declared length above 2^32-6 the sum
  wraps and the slice panics; `AgreesWithUnboundedExactly` gives the exact bound.
- the reverse tool lookup ranges over a Go map. "search" and "list_files" belong to two native tools each, so their
  result depends on the iteration order (`SearchIsAmbiguous`, `ListFilesIsAmbiguous`).
- the lookup is made anew for each call in each request. So a history with a call of "search" before its last turn
  can lose the turn ids known from the request before (`SearchedHistoryLosesIds`); with deterministic marshalling
  ids are sure to be kept exactly when no call in the turns can be routed two ways (`TurnIdsStayExactly`,
  `SettledIdsAreKept`, `UnsteadyHistoryLosesIds`).
- the result writer is described as reaching the text payload generically. In the shipped schema the texts of read
  results and of client tool results are not written at all (`ReadTextIsNotWritten`, `McpTextIsNotWritten`), so
  a client tool's call is sent back without its answer (`ShippedMcpAnswerIsDropped`).
- `executor.go:118` speaks of a fresh blob store for each request; the store belongs to the conversation.
- a tool call that fails to translate drops the text as well as the tool calls, after a clean exchange
  (`FailLoudExactly`) as after a failed one (`FailureIsSalvagedExactly`).
- a conversation id changes when its first system text arrives only after its first user text
  (`IdStableExactly`), and a system text with a NUL in it can read like two messages (`UniqueUnlessAmbiguous`).
- a poll request that cannot be built is reported as rejected although the attempt stays pending.
- nothing keeps two polls of one attempt apart, and two that both ask before either is answered can both succeed
  (`BothMaySucceed`); `SecondSuccessNeedsOverlap` says what else it takes. One that fails after another has ended
  the attempt leaves a failure count behind for good (`CountCanBeLeft`, `LeftoverCountsStay`);
  `LeftoverCountsExactly` says when.

## Model

| member | source | states |
|---|---|---|
| Frames.FrameRoundTrip | internal/executor/stream.go:45-51 | extracting from an encoded frame followed by anything gives back its flags and payload and leaves what followed, while fewer than 2^32 bytes are buffered |
| Frames.FrameRoundTripUnbounded | internal/executor/stream.go:45-51 | the same for a reader without 32-bit arithmetic, for every payload the length field can express |
| Frames.EnvelopeBytes | internal/executor/stream.go:45-51 | on the wire stand the flags, the length in four bytes with the most significant first, and the payload |
| Frames.HeaderBytes | internal/executor/stream.go:456-470 | the reader takes the second to fifth bytes for the length, the most significant first |
| Frames.ProperPrefixNeedsMore | internal/executor/stream.go:456-470 | a frame cut short anywhere yields nothing and consumes nothing |
| Frames.AgreesWithUnboundedExactly | internal/executor/stream.go:456-470 | below 2^32 buffered bytes the 32-bit test agrees with unbounded arithmetic exactly when the declared length is at most 2^32-6; beyond, the slice panics where more bytes were needed |
| Frames.WrappedBufferLength | internal/executor/stream.go:456-470 | at 2^32 buffered bytes a complete frame goes unseen, so the buffer bound is needed |
| Frames.Buffer.Extract | internal/executor/stream.go:456-470 | takes exactly the extracted frame off the front of the live buffer, or leaves it alone |
| Protocol.ResultFieldNameInjective | internal/executor/execmessage.go:115-133 | two request fields never share a result field, the shell_stream override included |
| Protocol.ResultFieldName | internal/executor/execmessage.go:115-133 | a field x_args is answered under x_result, shell_stream_args under shell_stream, and any other under none |
| Protocol.ExactlyOneReply | internal/executor/stream.go:382-416 | handling one message writes exactly one reply, with its own id and of its own kind, if the peer waits for one; none if it does not; otherwise the exchange has failed |
| Protocol.CapturedBeforeDeclined | internal/executor/execmessage.go:54-104 | a tool request is on record whatever becomes of its decline |
| Protocol.CapturesAsAsked | internal/executor/execmessage.go:54-83 | on record is an MCP request by its own name and arguments unless it is nameless, and any other but the context request by its field and JSON |
| Protocol.FirstAvailableIsFirst | internal/executor/execmessage.go:170-195 | the decline outcome is the first of rejected, error, failure that the result type declares, and there is none only if it declares none of them |
| Protocol.DeclinesByName | internal/executor/execmessage.go:93-195 | a request to run x is declined under x_result with rejected if its type declares that, else error, else failure; the exchange fails where there is no such field or case or the write fails, and crashes where the field is no message |
| Protocol.ContextIsAnswered | internal/executor/execmessage.go:85-91 | a request for context is answered with success and nothing of it recorded; the exchange fails where there is no such field or the write fails, and crashes where the field is no message |
| Protocol.CheckpointIsLatest | internal/executor/stream.go:403-409 | the checkpoint of an exchange is the last state the server acknowledged, if any |
| Protocol.StoreAfterAll | internal/executor/stream.go:538-563 | after any messages the store is what it was plus the server's sets, in order |
| Protocol.GetReplyIsLatestWrite | internal/executor/stream.go:538-556 | after any messages a get is answered with the latest put or set under that id, or with nothing |
| Protocol.RepliesMatchRequests | internal/executor/stream.go:355-417 | while an exchange runs, its replies are, one for one and in order, the answers to the messages that wait for one |
| Chunking.ChunkingIndependence | internal/executor/stream.go:356-433 | however a stream below 2^32 bytes is cut into reads, bytes arriving with a read error included, the exchange ends as if the whole were parsed at once |
| Chunking.AnyTwoChunkingsAgree | internal/executor/stream.go:356-433 | two ways of cutting one stream into reads give one outcome |
| Chunking.UnboundedChunkingIndependence | internal/executor/stream.go:354-433 | the same with no bound on the stream, for reads of at most 32 KiB and frames of safe length |
| Chunking.WideDrainSplit | internal/executor/stream.go:364-417 | handling a prefix and then what it left followed by the rest is handling the whole |
| ReadLoops.FramedMessagesInOrder | internal/executor/stream.go:364-417 | a stream of framed messages is handled message by message |
| ReadLoops.MessagesThroughAnyChunking | internal/executor/stream.go:356-433 | framed messages cut anywhere, an unfinished frame behind them, are handled in order, and a lost connection shows as a drop unless the exchange had ended |
| ReadLoops.FrameByFlags | internal/executor/stream.go:370-380 | bit 0x02 of the flags and no other makes a frame the end of the stream; any other frame is decoded as a message |
| ReadLoops.EndOfStreamThroughAnyChunking | internal/executor/stream.go:356-433 | framed messages and then an end-of-stream frame, cut anywhere and followed by anything, are handled in order and end the exchange, cleanly or with the error that frame carries |
| ReadLoops.KvWriter.Write | internal/executor/stream.go:489-504 | a reply goes out exactly when the writer is open and the write succeeds; a failed write is remembered |
| ReadLoops.Session.AnswerKv | internal/executor/stream.go:538-563 | the live KV handshake does what its specification says to store, replies and verdict |
| ReadLoops.Session.AnswerExec | internal/executor/execmessage.go:40-104 | the live exec handshake does what its specification says to captures, replies and verdict |
| ReadLoops.Session.OnFrame | internal/executor/stream.go:370-416 | one frame, dispatched over live state, does what its specification says |
| ReadLoops.Session.HandlePending | internal/executor/stream.go:364-417 | the inner loop drains the live buffer as the specification does |
| ReadLoops.Session.Run | internal/executor/stream.go:356-433 | the read loop over live state computes updates, captures, checkpoint, store, replies and verdict of the specification, read by read |
| Pipes.TakeKeeps | internal/executor/stream.go:313-323 | bytes taken off the pipe extend the frame being written and no other |
| Pipes.ParseFramed | internal/executor/stream.go:456-470 | parsing frames one after another gives back their payloads in order, then what follows |
| Pipes.WholeFramesOnTheWire | internal/executor/stream.go:489-504 | the body is complete frames in the order written and at most a prefix of one more, and parses to exactly the messages whose last byte was taken |
| Shutdown.NextKeepsLocks | internal/executor/stream.go:313-323 | no step of any goroutine breaks who owns kv.mu and the pipe, and what each can be doing |
| Shutdown.NextKeepsFrames | internal/executor/stream.go:313-323 | no interleaving of initial write, heartbeats and replies breaks a frame on the wire |
| Shutdown.NothingAfterClose | internal/executor/stream.go:489-512 | once kvWriter is closed, no byte of a heartbeat or reply reaches the wire any more |
| Shutdown.ClosedPipeTakesNoNewWriter | internal/executor/stream.go:313-339 | once an end of the pipe is closed a write begun then fails at once and never queues for it |
| Shutdown.NextKeepsOrder | internal/executor/stream.go:282-339 | the deferred calls take effect in their order: release, pipe closed, writer gone, kvWriter closed, heartbeat told |
| Shutdown.WriterExitsBeforeReturn | internal/executor/stream.go:324-339 | when the call has returned the initial writer has exited and kv.mu is free; only the heartbeat may be left, and it has been told to stop |
| Shutdown.ShutdownNeverDeadlocks | internal/executor/stream.go:282-339 | in every reachable state of a shutdown one of the goroutines can take a step of its own until all have exited |
| Shutdown.EveryStepCounts | internal/executor/stream.go:324-339 | once an end of the pipe is closed, every step of anyone lowers a bound on the steps left |
| Shutdown.EveryShutdownCompletes | internal/executor/stream.go:282-339 | in every run, a shutdown that can go no further has all goroutines exited, and needs at most 38 steps once the pipe is closed |
| Shutdown.EveryRunKeepsFramesWhole | internal/executor/stream.go:277-323 | in every run the wire parses to the messages written, in order, but for an unfinished last one |
| Shutdown.FirstWriteIsAccountedFor | internal/executor/stream.go:295-323 | in every run the initial writer exits only with its frame written or its failure on record |
| Shutdown.StuckWithoutCloseReadEnd | internal/executor/stream.go:329-338 | without closing the read end, a run reaches a state in which no goroutine can move |
| Shutdown.WaitFirstNeverReturns | internal/executor/stream.go:306-309 | with the two deferred calls registered the other way round, a read loop that ends while the writer is parked never gets past its first deferred call, in any run |
| Shutdown.WaitFirstIsReached | internal/executor/stream.go:282-309 | and a run gets there from the start: the first frame goes out and the read loop ends |
| BlobStores.HexInjective | internal/executor/blobstore.go:39-53 | two blob ids never share a key |
| BlobStores.HexReads | internal/executor/blobstore.go:29-53 | a key is the id in small hexadecimal digits, two to a byte, the high half first |
| BlobStores.StoreIsPlainMap | internal/executor/blobstore.go:39-53 | seen through ids, a put changes what is found under its own id and under no other |
| BlobStores.GetIsLatestWrite | internal/executor/blobstore.go:29-53 | a read gives the latest write under its id, or what was there before all of them |
| BlobStores.BlobStore.Put | internal/executor/blobstore.go:29-34 | files the blob under its hash and returns that id |
| BlobStores.BlobStore.PutKnownID | internal/executor/blobstore.go:39-43 | files the blob under the id given, overwriting |
| BlobStores.BlobStore.Read | internal/executor/blobstore.go:48-53 | gives what is filed under the id, or nothing |
| History.GroupingConservesMessages | internal/executor/translate_request.go:263-373 | however each call of a history is rebuilt, the turns read in order are exactly what each message contributes by itself: an opener a turn, text, calls and results one step each, a result joined to the latest unanswered call of its id, nothing for messages outside a turn |
| History.TurnItemsInjective | internal/executor/translate_request.go:263-373 | two different groupings never read the same, so each step stands in exactly one turn |
| History.OneTurnPerOpener | internal/executor/translate_request.go:263-294 | there are as many turns as messages that begin one |
| History.ContributionByRole | internal/executor/translate_request.go:272-360 | a user message with text opens a turn with that text, one without opens none; a system message, empty or not, opens one with its text behind "[system] "; inside a turn a text of the assistant and a result nobody asked for become steps |
| History.InTurnExactly | internal/executor/translate_request.go:266-294 | a message falls inside a turn exactly when a system message or a user message with text stands before it with no user or system message between |
| History.TurnsOpenInOrder | internal/executor/translate_request.go:272-294 | the turns open in order with the texts of the system messages, so marked, and of the user messages that have one, and are as many as those |
| History.GroupExtends | internal/executor/translate_request.go:263-373 | appending messages repeats the old turns but for steps added to the last |
| History.GroupSplits | internal/executor/translate_request.go:263-373 | where an opener follows, the turns of what comes before it are the first turns of the whole |
| History.AllButTheLastTurn | internal/executor/translate_request.go:263-373 | all turns but the last are the turns of the messages before the last opener of a turn |
| History.NoMessageIsLost | internal/executor/translate_request.go:64-120 | every message is in the history, or it is the last one, a non-empty user text, and is the action; a tool result that comes last is in the history |
| History.HistoryExtends | internal/executor/translate_request.go:89-120 | the history of a longer conversation starts with the history of the shorter one |
| BlobGraphs.HarmlessWritesKeep | internal/executor/blobstore.go:39-53 | later writes that put nothing else under a request's ids keep all its blobs readable |
| BlobGraphs.PutsHold | internal/executor/blobstore.go:29-34 | putting collision-free blobs makes each readable under its hash, whatever the store held |
| BlobGraphs.TurnsResolve | internal/executor/translate_request.go:288-397 | resolving turn ids, then their user and step ids, each as the message type expected there, gives back the turns |
| BlobGraphs.SameIdsSameTurns | internal/executor/translate_request.go:288-397 | where the hash tells their blobs apart, equal turn ids mean equal turns |
| Requests.RootEntryCarriesContent | internal/executor/translate_request.go:430-458 | every non-empty message of a known role gives one entry that carries its whole text, under the assistant role only for the assistant |
| Requests.RootEntryByRole | internal/executor/translate_request.go:430-458 | the entry of a message, by role: its text under user or assistant, or behind "[System]" or "[Tool Result]" and a line break under user |
| Requests.InstructionComesLastExactly | internal/executor/translate_request.go:436-475 | the instruction comes last, as a system entry, exactly when tools are declared and no system message has it anywhere in its text |
| Requests.RootsResolve | internal/executor/translate_request.go:426-477 | resolving root-prompt ids gives back the prompt entries, on the JSON law alone |
| Requests.BlobGraphRoundTrip | internal/executor/translate_request.go:263-477 | for every history that encodes and every warm store, resolving the ids recovers the grouped turns and the prompt entries, also after any later harmless writes |
| Requests.PromptIdsAreKept | internal/executor/translate_request.go:426-477 | when messages are appended, the old root-prompt ids but for the instruction are a prefix of the new ones, whatever becomes of the tool calls |
| Stability.TurnsStayExactly | internal/executor/translate_request.go:504-551 | with arguments encoded one way, a history groups into the same turns under every map order exactly when each call in its turns names a variant or is claimed by at most one native tool |
| Stability.TurnIdsStayExactly | internal/executor/toolmap.go:105-134 | with deterministic marshalling and no hash collision, its turn ids are the same under every map order exactly on that condition |
| Stability.SettledIdsAreKept | internal/executor/translate_request.go:263-373 | with deterministic marshalling, and that condition on the calls before the last turn, all turn ids but the last start every longer history, whatever the map orders of the two requests |
| Stability.WarmCacheStability | internal/executor/translate_request.go:263-477 | the same for the requests built: all old turn ids but the last are a prefix of the new ones |
| Stability.UnsteadyHistoryLosesIds | internal/executor/toolmap.go:105-134 | where some call before the last turn can be routed two ways, some map order rebuilds the history so that no longer one starts with the turn ids known |
| RequestBuilders.RequestBuilder.EncodeStepsFrom | internal/executor/translate_request.go:297-360 | the inner loop encodes exactly the steps up to the next opener and stops there, with the calls still pending, each call rebuilt by what it meets |
| RequestBuilders.RequestBuilder.EncodeHistoryTurns | internal/executor/translate_request.go:263-373 | the nested loops put and name exactly the blobs of the grouped turns |
| RequestBuilders.RequestBuilder.EncodeRootPrompt | internal/executor/translate_request.go:426-477 | the loop puts and names one blob per message with something to say, then the instruction if it is missing |
| RequestBuilders.RequestBuilder.Build | internal/executor/translate_request.go:59-130 | builds the ids and the action of the specification, the store being the old one plus the request's blobs; a final user text needs a message id, and the build fails without one |
| Conversations.HashInput | internal/executor/conversation.go:133-147 | the two loops feed the hash the first non-empty system and user texts, each behind its marker, or report that there were none |
| Conversations.IdStableExactly | internal/executor/conversation.go:126-147 | a growing conversation keeps its hash input exactly when neither opening text arrives only later |
| Conversations.UniqueUnlessAmbiguous | internal/executor/conversation.go:133-147 | a hash input has another reading exactly when there is a system text together with a user text, or one that contains a user marker between two texts |
| Conversations.NulFreeOpeningsAreDistinguished | internal/executor/conversation.go:133-147 | for NUL-free system texts, equal hash inputs mean equal opening texts |
| Conversations.ConversationIdFor | internal/executor/conversation.go:133-156 | the id is the prefix with the hash in hex, or with a generated id, or the fallback |
| Conversations.IdByOpening | internal/executor/conversation.go:133-156 | the id spelled out: the hash, in hex, of "system", NUL and the system text followed by "user", NUL and the user text, or the generated id, or "fallback" |
| Conversations.FirstContentExactly | internal/executor/conversation.go:133-147 | an opening text is that of the first message of its role that has one |
| Conversations.SameIdMeansSameOpening | internal/executor/conversation.go:126-156 | without a hash collision two conversations share an id exactly when they open with the same texts |
| Conversations.IdKeptAsConversationGrows | internal/executor/conversation.go:126-156 | a conversation with a user text keeps its id as it grows unless its first system text arrives later |
| Caches.SurvivorsAreFresh | internal/executor/conversation.go:65-102 | after an acquire at most 64 entries remain, the acquired one is stamped, and every other survivor is unchanged and within the TTL |
| Caches.EvictedIsStaleOrOldest | internal/executor/conversation.go:63-99 | an evicted entry is past the TTL, or the cache is full and no other surviving entry was used earlier |
| Caches.OrderMattersOnlyForTies | internal/executor/conversation.go:84-99 | two map iteration orders give different survivors only if two entries had equal access times |
| Caches.ConversationCache.DropStale | internal/executor/conversation.go:69-74 | the sweep drops exactly the other conversations' entries past the TTL |
| Caches.ConversationCache.Oldest | internal/executor/conversation.go:85-97 | finds a least recently used entry other than the acquired one, or none if there is no other |
| Caches.ConversationCache.Shrink | internal/executor/conversation.go:83-99 | terminates with at most 64 entries, having dropped the least recently used and spared the acquired one |
| Caches.ConversationCache.Acquire | internal/executor/conversation.go:65-102 | from any starting size: the bound, the acquired entry in, survivors within the TTL, true LRU, the same entry as before or a fresh empty one, no entry or store shared between conversations |
| Caches.ConversationCache.StoreCheckpoint | internal/executor/conversation.go:106-124 | sets the conversation's own checkpoint and access time if it is still cached and there is one, and nothing else |
| Isolation.ConversationsAreIsolated | internal/executor/executor.go:140-163 | in every run of interleaved requests, those of different conversations never hold the same entry, even after eviction and re-creation; blobs and checkpoint of an entry come from its own conversation; the bound holds |
| Isolation.OthersNeverTouchMyEntry | internal/executor/conversation.go:65-124 | no step of another conversation changes an entry a request holds |
| Isolation.CheckpointIsFoundNext | internal/executor/conversation.go:65-124 | a request that acquires a conversation right after its checkpoint was stored finds it there |
| Isolation.EvictedCheckpointIsLost | internal/executor/conversation.go:106-114 | a checkpoint for a conversation no longer cached goes nowhere |
| Isolation.WriteGoesToHeldEntry | internal/executor/blobstore.go:39-53 | a blob goes into the entry its request holds, cached or not, under its own id alone |
| Isolation.NewEntryIsEmpty | internal/executor/conversation.go:76-82 | a conversation not cached gets an empty entry that no request holds |
| McpArguments.McpArgsToJson | internal/executor/translate_response.go:301-335 | the loop renders each argument as its decoded value, as JSON, or as a quoted string, in that order of preference |
| McpArguments.SplitArguments | internal/executor/translate_request.go:563-585 | the loop encodes each parameter of the object, or fails; blank arguments are no arguments |
| McpArguments.ArgumentsSplitByName | internal/executor/translate_request.go:563-585 | blank arguments are none; others split exactly when they are an object whose values can be encoded, into those values under the same names |
| McpArguments.BlankExactly | internal/executor/translate_request.go:563 | which characters make arguments blank |
| McpArguments.ClientArgumentsRoundTrip | internal/executor/translate_request.go:560-597 | arguments sent to Cursor and rendered again have the same names, and the same value wherever the encoded value is read back |
| McpArguments.CursorArgumentsRoundTrip | internal/executor/translate_response.go:301-335 | arguments surfaced to the client and sent back have the same names, and decode, where they are read back, to the values the client saw |
| ToolRouting.NormalizeToolName | internal/executor/toolmap.go:161-169 | the loop keeps lower-cased letters and digits only, in order |
| ToolRouting.NormIsNormal | internal/executor/toolmap.go:159-169 | normalizing twice is normalizing once |
| ToolRouting.OnlyLettersAndDigitsCount | internal/executor/toolmap.go:159-169 | two characters are interchangeable in a name exactly when they are the same letter or digit but for case, or both neither |
| ToolRouting.CaseDoesNotCount | internal/executor/toolmap.go:159-169 | an ASCII capital counts in a name as its small letter |
| ToolRouting.SeparatorsDoNotCount | internal/executor/toolmap.go:159-169 | an ASCII character that is neither a letter nor a digit does not count |
| ToolRouting.OtherCharactersDoNotCount | internal/executor/toolmap.go:159-169 | beyond ASCII only the dotted capital I and the Kelvin sign count, as i and k |
| ToolRouting.NormIsWordSpelled | internal/executor/toolmap.go:159-169 | the normal form of an ASCII name is the one word it spells, capitals read as small letters and separators passed over |
| ToolRouting.PlainNamesAreNormal | internal/executor/toolmap.go:159-169 | a name of small letters and digits is its own normal form |
| ToolRouting.BaseNameOfField | internal/executor/toolmap.go:146-157 | a ToolCall field and the exec request of one native tool have the same base name |
| ToolRouting.BaseNameBySuffix | internal/executor/toolmap.go:146-157 | _tool_call, _exec_args, _args and _call are stripped, the first that fits and once |
| ToolRouting.NewClientToolIndex | internal/executor/toolmap.go:64-74 | the loop indexes every named tool under its normal form, the last of equal ones |
| ToolRouting.DeclaredExactly | internal/executor/toolmap.go:64-74 | the index holds exactly the normal forms of declared names, each with a declared name of that form |
| ToolRouting.FindClientTool | internal/executor/toolmap.go:84-103 | the lookup tries the base and then its aliases in order |
| ToolRouting.ResolvesToDeclaredEquivalent | internal/executor/toolmap.go:76-103 | only a declared name is returned, of the normal form of the first base or alias that any declared name matches; none is returned exactly when none matches |
| ToolRouting.AnySpellingResolves | internal/executor/toolmap.go:76-103 | a declared name that spells the base or an alias in any case and with any separators is what the native tool resolves to, if no earlier candidate is spelled by a declared name |
| ToolRouting.ResolveCursorToolField | internal/executor/toolmap.go:109-134 | whatever the map order, the field returned exists and belongs to a base that claims the name; none is returned only if there is no such base |
| ToolRouting.ResultsAreTheEligibleFields | internal/executor/toolmap.go:109-134 | the results some iteration order can give are exactly the existing fields of the bases that claim the name |
| ToolRouting.LookupIsAFunctionExactly | internal/executor/toolmap.go:105-134 | the lookup is independent of map order exactly when at most one base with an existing field claims the name |
| ToolRouting.ReverseInvertsForward | internal/executor/toolmap.go:76-134 | it then takes a surfaced tool back to the field it came from |
| ToolRouting.NativeToolStaysReachable | internal/executor/toolmap.go:76-103 | a declared tool left to a native one is still reached from that native tool, under its own name unless another declared tool competes |
| ToolCalls.BuildMcpTools | internal/executor/translate_request.go:178-222 | the loop gives the definitions of its specification, whatever map order each lookup meets |
| ToolCalls.DefinitionsExactly | internal/executor/translate_request.go:178-222 | there is one definition, with its own name, description, encoded schema and the provider's name, for each named tool no native tool stands for, in order, exactly when each of them can be encoded |
| ToolCalls.McpOrNative | internal/executor/translate_request.go:178-198 | every named tool is sent as an MCP tool or has a native tool standing for it, never both |
| ToolCalls.RebuildToolCall | internal/executor/translate_request.go:496-597 | a client's call becomes the variant of that name, else a native variant it may stand for, else the MCP wrapper, arguments and result written as applyToolCallArgs and setGenericResultField write them |
| ToolCalls.FieldIsDeclaredExactly | internal/executor/translate_response.go:403-416 | a variant declares a field exactly when one of its type's fields has that name |
| ToolCalls.MappedArgumentsGoBelowArgs | internal/executor/translate_request.go:766-782 | under a client's name the arguments stand below args and nowhere else, or nowhere if they do not read as args |
| ToolCalls.MappedArgumentsWithoutArgs | internal/executor/translate_request.go:766-789 | a variant without an args message is read whole from them, as far as it can be |
| ToolCalls.DirectArgumentsAreTheMessage | internal/executor/translate_request.go:784-790 | under a variant's own name the arguments are the whole message, or the call is refused |
| ToolCalls.DirectWrapperIsTakenApart | internal/executor/translate_request.go:504-551 | the wrapper under its own name is read whole too |
| ToolCalls.DeclaredToolRebuildsAsItself | internal/executor/translate_request.go:504-597 | a tool sent as MCP whose name is not a ToolCall field rebuilds as the wrapper with its own name and the same arguments, under every map order |
| ToolCalls.NativeCallReturnsToItsVariant | internal/executor/translate_request.go:504-551 | a native call surfaced under a client tool and answered under it lands on its own variant if no other native tool claims the name |
| ToolRoundTrips.AnsweredCallKeepsItsArguments | internal/executor/translate_request.go:522-551 | a native call surfaced to the client and answered with a text is rebuilt as the same variant with all it held but the result, and below the result stands the answer alone; it is refused only where reflection meets a list |
| ToolRoundTrips.ShellAnswerIsStdout | internal/executor/translate_request.go:602-738 | an answered shell call holds the answer in result.success.stdout |
| ToolRoundTrips.McpCallRoundTrip | internal/executor/translate_response.go:187-224 | a client tool's call that is surfaced, answered or not, is rebuilt as a call of that tool whose arguments have the same names and the values the client saw; it is refused exactly where an argument cannot be encoded or the answer's walk meets a list |
| ToolRoundTrips.ShippedMcpAnswerIsDropped | internal/executor/translate_request.go:554-597 | with the shipped types such a call is rebuilt whatever the answer and holds no text: any two answers give the same call |
| ShippedTools.SearchIsAmbiguous | internal/executor/toolmap.go:37-54 | in the shipped table "search" goes to grep or to semantic search by iteration order |
| ShippedTools.ListFilesIsAmbiguous | internal/executor/toolmap.go:37-54 | in the shipped table "list_files" goes to glob or to ls by iteration order |
| ShippedTools.BashIsShell | internal/executor/toolmap.go:37-103 | a client's "Bash" is what a shell request resolves to, and it is left to the native tool |
| ShippedStability.SearchedHistoryLosesIds | internal/executor/toolmap.go:37-54 | with the shipped table, a user text, an assistant's call of "search" and a second user text lose the id of their first turn under some map order |
| Accumulators.ResponseAccumulator.ToChatToolCall | internal/executor/translate_response.go:172-276 | exactly a nameless or args-less echo is skipped, exactly a call without variant or content, or that JSON cannot hold, is an error, and any other surfaces: an MCP call under the client's own tool name, a native one under its variant's |
| Accumulators.NativeCallIsShown | internal/executor/translate_response.go:225-276 | a native call with its args set is shown with its JSON, result or no result; one whose type has both and whose result alone is set is skipped; one with neither set is shown |
| Accumulators.McpCallIsShown | internal/executor/translate_response.go:189-222 | an MCP call is shown under its name with its arguments rendered, and a nameless one is skipped |
| Accumulators.RequestedAsAsked | internal/executor/translate_response.go:360-398 | a captured MCP request surfaces under its own name with its own arguments, a native one under the declared equivalent with its JSON, or an empty object |
| Accumulators.ResponseAccumulator.Add | internal/executor/translate_response.go:38-83 | one update is folded in; after a failed call the fold goes on |
| Accumulators.ResponseAccumulator.AddCapturedToolRequests | internal/executor/translate_response.go:360-398 | captured requests are appended in order, native ones only under a declared equivalent; it fails exactly when an id cannot be had |
| Accumulators.FoldedUpdates | internal/executor/translate_response.go:38-83 | the text is every delta in order, the calls are the visible ones in order under distinct ids, and the fold fails exactly when a call does not translate or an id is missing |
| Accumulators.FoldedTokens | internal/executor/translate_response.go:58-67 | the token count is the sum of Cursor's positive deltas |
| Accumulators.FoldedRequests | internal/executor/translate_response.go:360-398 | captured requests add exactly the calls the client can run, in order, under ids distinct from all before |
| Accumulators.RequestAndEchoSurfaceOnce | internal/executor/execmessage.go:54-104 | a declined request and the echo of its decline add one call in all if the client can run the tool, and none otherwise |
| Responses.UsageIsZeroExactly | internal/executor/translate_response.go:126-161 | usage totals zero only if nothing was asked, produced or counted |
| Responses.ComputeUsage | internal/executor/translate_response.go:133-148 | completion tokens are Cursor's own count, or estimated over text, names and arguments when it sent none |
| Responses.EstimateIsAQuarter | internal/executor/translate_response.go:150-161 | an estimate is a quarter of the bytes rounded down, but at least one for any text |
| Responses.StreamReassembles | internal/executor/chatformat.go:206-233 | both stream chunks carry the id and the model, the first the delta and any error, only the last the finish reason and usage; folded they give back content, tool calls, finish reason, usage and error |
| Executors.RunOnce | internal/executor/stream.go:245-434 | one attempt leaves in the shared store, and returns, what the read loop's specification says |
| Executors.RunStream | internal/executor/stream.go:173-198 | at most two retries; each attempt before the last failed retryably without producing anything; the result is the last attempt's alone, which ended well, produced something, is not worth retrying, or was the third or cancelled |
| Executors.RepeatedExactly | internal/executor/stream.go:177-198 | an attempt may be repeated exactly when its failure is of a retryable kind and either there was no response or the exchange broke off with no update and no tool request |
| Executors.RetryNeverReplays | internal/executor/stream.go:169-198 | over all the attempts one call makes, exactly what the attempt it returns produced was produced |
| Executors.Answer | internal/executor/executor.go:159-193 | the response, hard error or panic of the specification is what the fold over live state comes to |
| Executors.FailLoudExactly | internal/executor/executor.go:159-193 | a response without Error exists exactly when the exchange ended cleanly, every call translated and every id was had; it then carries all text and exactly the calls owed, under its own id and model, with Cursor's token count where it sent one; after a clean exchange with all ids had, a call that did not translate leaves a response with that error and no choice |
| Executors.FailureIsSalvagedExactly | internal/executor/executor.go:178-191 | a failed exchange is a hard error exactly when no text and no call was salvaged; otherwise Error is set and content is every delta received, unless a call failed to translate |
| Executors.OnlyEndedTurnsAreClean | internal/executor/executor.go:159-193 | only an ended turn or a stream closed without an error is answered without one; a crash is passed on; anything else is a hard error or a response with the error |
| Executors.AnswerIgnoresChunking | internal/executor/executor.go:148-193 | how the bytes were cut into reads does not show in the answer |
| Executors.TurnReachesClient | internal/executor/executor.go:123-193 | a turn framed onto the wire, ended, and cut anyhow is answered without error with all its text and exactly its tool calls |
| Executors.EndedStreamReachesClient | internal/executor/executor.go:123-193 | framed messages and an end-of-stream frame, cut anyhow, are answered with all their text and exactly their calls, without error or with the one that frame carries; it is a hard error exactly when that frame fails and there was nothing |
| Executors.LostStreamIsNoTurn | internal/executor/stream.go:415-431 | a connection lost before that frame is never answered as a finished turn |
| RequestRuns.BuildRequest | internal/executor/translate_request.go:59-162 | what is sent: the acknowledged state with this request's history in place of its own, the action with its message id, the tool definitions, model and conversation id; its blobs are in the store |
| RequestRuns.SentStateResolves | internal/executor/translate_request.go:135-151 | in what is sent, whatever state was acknowledged, the turn ids resolve to this history's grouped turns and the prompt ids to its entries, from the store the build leaves and after any later harmless writes; the rest of the state is the acknowledged one |
| RequestRuns.SentRequestAsks | internal/executor/translate_request.go:94-162 | what is sent asks for the client's model in its conversation, with its declared tools, for its last user text under the id made for it, or to go on |
| RequestRuns.KeepCheckpoint | internal/executor/executor.go:162-163 | the latest checkpoint is kept once a response id was made, whatever the exchange came to |
| RequestRuns.Run | internal/executor/executor.go:123-193 | one request on the live cache: acquired entry, built request, bounded attempts, kept checkpoint and answer, touching its own conversation's entry only |
| RequestRuns.AnswerIsForTheQuery | internal/executor/executor.go:159-193 | an answer has the response id and model of the query, its prompt tokens estimated over the query's messages, and its calls told by the query's own tools |
| RequestRuns.RequestBlobsAreServed | internal/executor/stream.go:538-548 | throughout every attempt, whatever earlier attempts let the server set, a get for any blob of the request is answered with that blob, unless the server set something else there |
| ResultWriters.SetFirstStringField | internal/executor/translate_request.go:717-738 | the loops write the first field among the preferred names, else the first string field, and panic on a list |
| ResultWriters.PickedExactly | internal/executor/translate_request.go:705-738 | a string field is picked if the message has any, and no string field has a name that ranks before the picked one's |
| ResultWriters.PicksByName | internal/executor/translate_request.go:705-728 | the text goes to the string field with the first of the seven preferred names that any has |
| ResultWriters.PicksFirstOtherwise | internal/executor/translate_request.go:730-738 | without any of them it goes to the first string field, if there is one |
| ResultWriters.FirstRealExactly | internal/executor/translate_request.go:685-702 | the outcome oneof is the first that stands for no optional field |
| ResultWriters.ChosenExactly | internal/executor/translate_request.go:659-669 | the success case is chosen if declared, else the first case |
| ResultWriters.PopulateResultMessage | internal/executor/translate_request.go:647-683 | the bounded descent terminates on every schema, cyclic ones included, and writes what its specification says |
| ResultWriters.SetGenericResultField | internal/executor/translate_request.go:619-640 | fills in the result field if there is one of message type |
| ResultWriters.WalkIsSettled | internal/executor/translate_request.go:647-680 | a walk that ends within some number of cases ends the same way when more are allowed |
| ResultWriters.WrittenExactly | internal/executor/translate_request.go:602-738 | the text is written, as the only string, exactly when the walk reaches a singular string field through at most two cases; otherwise nothing is written or reflection panics |
| ResultWriters.ResultIsReadBack | internal/executor/translate_request.go:619-640 | read back along its walk, the result holds the text and no other string, and the other fields of the call are as before |
| ResultWriters.SiblingsAreCleared | internal/executor/translate_request.go:636-638 | setting a case of a oneof clears the others |
| ShippedResults.ShellTextGoesToStdout | internal/cursorpb/gen/agent.pb.go:28146-28158 | a shell result's text goes to success.stdout, not to the command field declared before it |
| ShippedResults.ReadTextIsNotWritten | internal/cursorpb/gen/agent.pb.go:22712-22729 | a read result's text is not written |
| ShippedResults.McpTextIsNotWritten | internal/cursorpb/gen/agent.pb.go:20532-20536 | a client tool result's text is not written |
| ShippedResults.McpAnswerIsNotWritten | internal/cursorpb/gen/agent.pb.go:1812-1818 | the wrapper gets an empty success result, the same for every text |
| Logins.PendingLoginStore.Put | internal/auth/pending.go:32-36 | registers the attempt under its id |
| Logins.PendingLoginStore.Delete | internal/auth/pending.go:45-49 | forgets the attempt and no other |
| Logins.Poller.HandleNetworkError | internal/auth/poll.go:183-197 | the first two failures running are counted and reported as pending, the third ends the attempt |
| Logins.Poller.Poll | internal/auth/poll.go:98-177 | one undisturbed poll changes pending attempts and counts, and returns, as specified |
| Logins.PollMeansWhatItSays | internal/auth/poll.go:98-177 | an attempt is forgotten exactly when the result is terminal, succeeds exactly when it is pending, in time and given a token, and no poll touches another attempt |
| Logins.StepsMakeAPoll | internal/auth/poll.go:98-210 | the lock-by-lock steps, taken without interruption, make up the poll |
| Logins.AttemptsDoNotInterfere | internal/auth/poll.go:45-60 | in every interleaved run, what an attempt sees and returns is what it would by itself |
| Logins.AttemptsEndOnce | internal/auth/poll.go:98-197 | while its polls do not overlap, an attempt's first success, refusal, expiry or network failure is its last word; it succeeds at most once, and fails for the network at the third failure running and not before |
| Logins.AtRestCountsArePending | internal/auth/poll.go:179-210 | with no poll under way, exactly the attempts not yet over are pending, and counts of one or two are kept for pending attempts only |
| Overlaps.PollsSucceedExactly | internal/auth/poll.go:98-177 | with polls of one attempt overlapping as they like, in every run a poll succeeds exactly when it is answered with a token; it is answered only if it asked in time about an attempt it had found, and finds one exactly between the start and the first delete |
| Overlaps.PollsEndExactly | internal/auth/poll.go:98-197 | in every run a poll times out exactly when it found the attempt and asked late, is refused, told to wait or fails exactly by its answer, and ends the attempt for the network exactly when the count it made is three or more |
| Overlaps.CountedIsStreak | internal/auth/poll.go:179-210 | that count is the number of failures counted for the attempt since one of its polls last cleared it |
| Overlaps.CountsAreStreaks | internal/auth/poll.go:179-210 | in every run the count kept is that number, and none is kept for zero |
| Overlaps.SecondSuccessNeedsOverlap | internal/auth/poll.go:98-177 | two polls of one attempt both succeed only if each had fetched before either deleted |
| Overlaps.BothMaySucceed | internal/auth/poll.go:98-177 | from every state with a pending attempt in time, two polls that both ask before either is answered can both succeed |
| Overlaps.LeftoverCountsExactly | internal/auth/poll.go:98-210 | with no poll of an attempt under way, a count is left after its end exactly when a failure was counted since the last clear, and then some poll that had found it counted its failure after the end |
| Overlaps.CountCanBeLeft | internal/auth/poll.go:183-197 | from every state with a pending attempt in time, one poll can succeed and another then fail, which leaves a count for an attempt that is over |
| Overlaps.LeftoverCountsStay | internal/auth/poll.go:98-210 | a count so left stays unchanged for good, whatever polls still come |

## Left out

- HTTP/2, TLS, headers, status bodies, idle and overall timers, and the other Connect clients: the server is an arbitrary source of reads, and a silent stream ends in a failing read.
- protobuf, protojson, JSON, SHA-256, hex of random ids, base64 and protoreflect itself: parameters with stated laws.
- Error wording: an error is its kind, and whether it is retryable is a parameter of the attempt.
- Executors.RunStream: does not model the length of the backoff, only that the caller's context may end during it.
- Texts are sequences of characters, so their UTF-8 length is a parameter of the token estimate; integer fields are unbounded, except for the frame length.
- ToolCalls.RebuildToolCall: takes protojson's reading of arguments as a parameter, and gives None both for an error and where reflection panics on a list.
- Logins.AttemptsEndOnce: is about polls of one attempt that do not overlap; what overlapping ones do is in Overlaps.
- ResultWriters.SetGenericResultField: messages are values, not objects updated in place, so aliasing between a message and its submessages is not captured.
- Isolation.ConversationsAreIsolated: takes each cache operation and each blob write as one step, as the mutexes make them, and leaves out the order of two requests of one conversation.
- Caches.ConversationCache.Acquire: reads one clock value, positive and without the saturation of `time.Duration`.
- The instruction appended to the root prompt is a parameter; the request context reply is modelled as its success case.
- Decoding of chat messages from JSON (content parts, roles), account lookup, token storage, and the marshalling of the response payload: maps and formatting only.
- The initial write happens under no kvWriter lock; that its bytes stay together rests on the contract of `io.Pipe`, which is part of the transition system and not proved.
- PKCE material, poll URLs and the login HTTP client: an attempt is its verifier, id and deadline, and its poll an arbitrary answer.
- internal/dispatch, cmd/plugin, cmd/e2eprobe, internal/account and the extraction script: routing and I/O.
