// One request from end to end: its conversation's entry is acquired, the request
// built into that entry's store, the exchange run, the checkpoint kept, the
// answer made.
module RequestRuns {
  import opened Basics
  import opened BlobStores
  import opened Protocol
  import opened History
  import opened BlobGraphs
  import opened Requests
  import opened RequestBuilders
  import opened Conversations
  import opened Caches
  import opened ToolRouting
  import opened ToolCalls
  import opened ReadLoops
  import opened Responses
  import opened Accumulators
  import opened Executors

  datatype Setup = Setup(
    codec: Codec,
    rendering: Rendering,
    instruction: string,
    digest: string -> Bytes,
    size: string -> nat
  )

  /** A request, with the random ids made for it, and what is left to chance in building it: the numbers of
      the first marshal calls for blobs and for schemas, what each rebuilt call meets, and the map orders met
      when tools are declared. */
  datatype Query = Query(model: string, messages: seq<ChatMessage>, tools: seq<ToolDefinition>,
                         generated: Option<string>, messageId: Option<string>, responseId: Option<string>,
                         calls: nat, schemaCalls: nat, routing: Routing, orders: nat -> seq<string>)

  ghost predicate OrdersAreOrders(s: Setup, q: Query) {
    IsRouting(s.rendering.schema, q.routing) && forall k :: IsOrder(q.orders(k), s.rendering.schema.table)
  }

  /** AgentRunRequest: what is sent. */
  datatype RunRequest = RunRequest(state: ConversationState, action: RunAction, model: string,
                                   mcpTools: seq<McpToolDefinition>, conversationId: string)

  function IdOf(s: Setup, q: Query): string {
    ConversationId(q.messages, s.digest, q.generated)
  }

  lemma IdIsNotEmpty(s: Setup, q: Query)
    ensures IdOf(s, q) != ""
  {
    assert ID_PREFIX != "";
  }

  ghost function BuiltFor(s: Setup, q: Query): Option<Request> {
    RequestFor(s.codec, Routed(s.rendering.schema, q.routing), q.messages, |q.tools| > 0, s.instruction, q.messageId,
      q.calls)
  }

  /** What Cursor last acknowledged, with the history replaced by this request's. */
  function StateToSend(base: Option<ConversationState>, turnIds: seq<Bytes>, rootIds: seq<Bytes>): ConversationState {
    if base.None? then ConversationState(turnIds, rootIds, "") else base.value.(turns := turnIds, rootPrompt := rootIds)
  }

  /** The request sent on top of an acknowledged state; None if it cannot be built. */
  ghost function ToSend(s: Setup, q: Query, id: string, base: Option<ConversationState>): Option<RunRequest> {
    match (BuiltFor(s, q), Definitions(s.rendering.schema, q.tools, q.schemaCalls))
    case (Some(r), Some(defs)) => Some(RunRequest(StateToSend(base, r.turnIds, r.rootIds), r.action, q.model, defs, id))
    case _ => None
  }

  function AskedOf(s: Setup, q: Query): Asked {
    Asked(q.model, q.messages, Names(q.tools), q.responseId, s.size)
  }

  /** The checkpoint is kept once a response id is made, whatever the exchange came to. */
  function CheckpointAfter(q: Query, a: Attempt, base: Option<ConversationState>): Option<ConversationState> {
    if a.Streamed? && !a.Crashed() && q.responseId.Some? && a.x.checkpoint.Some? then a.x.checkpoint else base
  }

  /** What the exchange comes to from a store: n attempts are given up, and the next one is answered. */
  ghost predicate ExchangesTo(s: Setup, q: Query, ready: Store, serve: nat -> Server, cancelled: nat -> bool,
                              n: nat, a: Attempt, o: Outcome) {
    && n < 3 && GivenUp(serve, ready, cancelled, n) && a == AttemptAt(serve, ready, n)
    && (n == 2 || !MayRetry(a) || cancelled(n + 1))
    && o == Finish(s.rendering, AskedOf(s, q), a)
  }

  /** What a request on an entry with this store and checkpoint comes to, a being the attempt answered. */
  ghost predicate RunsTo(s: Setup, q: Query, id: string, store: Store, base: Option<ConversationState>,
                         servers: RunRequest -> (nat -> Server), cancelled: nat -> bool,
                         n: nat, a: Attempt, o: Outcome, checkpoint: Option<ConversationState>) {
    var sent := ToSend(s, q, id, base);
    if sent.None? then o == HardError && checkpoint == base
    else
      && ExchangesTo(s, q, Apply(store, Puts(s.codec, BuiltFor(s, q).value.blobs)),
           servers(sent.value), cancelled, n, a, o)
      && checkpoint == CheckpointAfter(q, a, base)
  }

  /** The build: None if the request cannot be made. */
  method BuildRequest(s: Setup, q: Query, id: string, entry: Entry) returns (sent: Option<RunRequest>)
    requires entry.blobs.hash == s.codec.hash && OrdersAreOrders(s, q)
    modifies entry.blobs
    ensures sent == ToSend(s, q, id, entry.checkpoint)
    ensures sent.Some? ==>
      BuiltFor(s, q).Some?
        && entry.blobs.data == Apply(old(entry.blobs.data), Puts(s.codec, BuiltFor(s, q).value.blobs))
  {
    var builder := new RequestBuilder(s.codec, s.rendering.schema, q.routing, entry.blobs, q.calls);
    var turnIds, rootIds, action := builder.Build(q.messages, |q.tools| > 0, s.instruction, q.messageId);
    if action.None? {
      return None;
    }
    var defs := BuildMcpTools(s.rendering.schema, q.orders, q.tools, q.schemaCalls);
    if defs.None? {
      return None;
    }
    sent := Some(RunRequest(StateToSend(entry.checkpoint, turnIds, rootIds), action.value, q.model, defs.value, id));
  }

  method Exchange(s: Setup, q: Query, blobs: BlobStore, serve: nat -> Server, cancelled: nat -> bool)
    returns (a: Attempt, o: Outcome, ghost n: nat)
    modifies blobs
    ensures ExchangesTo(s, q, old(blobs.data), serve, cancelled, n, a, o)
  {
    var retries;
    a, retries := RunStream(serve, blobs, cancelled);
    n := retries;
    o := Answer(s.rendering, AskedOf(s, q), a);
  }

  method KeepCheckpoint(q: Query, cache: ConversationCache, id: string, entry: Entry, a: Attempt, later: int)
    requires cache.Valid() && later > 0 && id in cache.entries && cache.entries[id] == entry
    modifies cache`times, entry
    ensures cache.Valid() && entry.checkpoint == CheckpointAfter(q, a, old(entry.checkpoint))
  {
    if a.Streamed? && !a.Crashed() && q.responseId.Some? {
      cache.StoreCheckpoint(id, a.x.checkpoint, later);
    }
  }

  /** Everything after the entry has been acquired. */
  method RunOn(s: Setup, q: Query, cache: ConversationCache, id: string, entry: Entry, later: int,
               servers: RunRequest -> (nat -> Server), cancelled: nat -> bool)
    returns (o: Outcome, ghost n: nat, ghost a: Attempt)
    requires cache.Valid() && later > 0 && id in cache.entries && cache.entries[id] == entry
    requires entry.blobs.hash == s.codec.hash && OrdersAreOrders(s, q)
    modifies cache`times, entry, entry.blobs
    ensures cache.Valid()
    ensures RunsTo(s, q, id, old(entry.blobs.data), old(entry.checkpoint), servers, cancelled, n, a, o,
        entry.checkpoint)
  {
    var sent := BuildRequest(s, q, id, entry);
    if sent.None? {
      return HardError, 0, Refused(false);
    }
    var answered;
    answered, o, n := Exchange(s, q, entry.blobs, servers(sent.value), cancelled);
    a := answered;
    KeepCheckpoint(q, cache, id, entry, answered, later);
  }

  /** A request run alone: it reads and writes its own conversation's entry only. */
  method Run(s: Setup, q: Query, cache: ConversationCache, now: int, later: int,
             servers: RunRequest -> (nat -> Server), cancelled: nat -> bool)
    returns (o: Outcome, ghost n: nat, ghost a: Attempt)
    requires cache.Valid() && Hashing(cache, s.codec.hash) && now > 0 && later > 0 && OrdersAreOrders(s, q)
    modifies cache`entries, cache`times
    modifies if IdOf(s, q) in cache.entries then {cache.entries[IdOf(s, q)], cache.entries[IdOf(s, q)].blobs} else {}
    ensures cache.Valid() && Hashing(cache, s.codec.hash) && IdOf(s, q) in cache.entries
    ensures IdOf(s, q) in old(cache.entries) ==> cache.entries[IdOf(s, q)] == old(cache.entries[IdOf(s, q)])
    ensures RunsTo(s, q, IdOf(s, q), old(StoreOf(cache, IdOf(s, q))), old(CheckpointOf(cache, IdOf(s, q))),
                   servers, cancelled, n, a, o, cache.entries[IdOf(s, q)].checkpoint)
  {
    var id := ConversationIdFor(q.messages, s.digest, q.generated);
    IdIsNotEmpty(s, q);
    var entry := AcquireHashing(cache, s.codec.hash, id, now);
    o, n, a := RunOn(s, q, cache, id, entry, later, servers, cancelled);
  }

  /** What is sent names this request's history, wherever an acknowledged state named another: resolved from
      the store the build leaves, or from any the exchange makes of it, the turn ids give the grouped turns
      and the prompt ids the prompt entries; all else of the acknowledged state is sent back. */
  lemma SentStateResolves(s: Setup, q: Query, id: string, base: Option<ConversationState>, store: Store,
                          later: seq<Write>)
    requires Lawful(s.codec) && RootsLawful(s.codec) && ToSend(s, q, id, base).Some?
    requires CollisionFree(s.codec, BuiltFor(s, q).value.blobs)
    requires Harmless(s.codec, BuiltFor(s, q).value.blobs, later)
    ensures var sent := ToSend(s, q, id, base).value;
      var after := Apply(Apply(store, Puts(s.codec, BuiltFor(s, q).value.blobs)), later);
      var history := HistoryOf(q.messages);
      && ResolveTurns(s.codec, after, sent.state.turns) == TurnsIn(Routed(s.rendering.schema, q.routing), history)
      && ResolveRoots(s.codec, after, sent.state.rootPrompt) ==
           Some(RootEntries(history) + Trailer(history, |q.tools| > 0, s.instruction))
      && sent.state.rest == (if base.Some? then base.value.rest else "")
  {
    BlobGraphRoundTrip(s.codec, Routed(s.rendering.schema, q.routing), q.messages, |q.tools| > 0, s.instruction,
                       q.messageId, q.calls, store, later);
  }

  /** And it asks for what the client asked: its model, its conversation, its declared tools, and its last user
      text under the id made for it, or to go on. */
  lemma SentRequestAsks(s: Setup, q: Query, id: string, base: Option<ConversationState>)
    requires ToSend(s, q, id, base).Some?
    ensures var sent := ToSend(s, q, id, base).value;
      && q.messages != [] && sent.model == q.model && sent.conversationId == id
      && Definitions(s.rendering.schema, q.tools, q.schemaCalls) == Some(sent.mcpTools)
      && var last := q.messages[|q.messages| - 1];
         if last.role == User && last.content != "" then
           q.messageId.Some? && sent.action == UserMessageAction(last.content, q.messageId.value)
         else sent.action == ResumeAction
  {
  }

  /** The answer is the client's too: under its response id and model, with its own tools to run. */
  lemma AnswerIsForTheQuery(s: Setup, q: Query, a: Attempt)
    requires Finish(s.rendering, AskedOf(s, q), a).Responded?
    ensures var r := Finish(s.rendering, AskedOf(s, q), a).response;
      q.responseId == Some(r.id) && r.model == q.model
      && r.usage.prompt == EstimateTokens(s.size, PromptText(q.messages))
    ensures var names := seq(|q.tools|, i requires 0 <= i < |q.tools| => q.tools[i].name);
      Surfaced(s.rendering, AskedOf(s, q), a) ==
        Completed(s.rendering, a.Updates()) + Requested(s.rendering, Declared(names), a.Requests())
  {
    assert Names(q.tools) == seq(|q.tools|, i requires 0 <= i < |q.tools| => q.tools[i].name);
  }

  /** The handshake serves what was built: however many attempts came before and however far this one has
      come, a get for any blob of the request is answered with that blob, unless the server itself has set
      something else there. */
  lemma RequestBlobsAreServed(c: Codec, blobs: seq<Bytes>, store: Store, earlier: seq<Write>, peer: Peer,
                              ms: seq<ServerMessage>, id: nat, j: nat)
    requires CollisionFree(c, blobs) && j < |blobs|
    requires Harmless(c, blobs, earlier) && Harmless(c, blobs, ServerWrites(ms))
    requires var x := Start(Apply(Apply(store, Puts(c, blobs)), earlier));
             HandleAll(peer, x, ms + [KvServerMessage(id, GetBlob(c.hash(blobs[j])))]).verdict == Running
    ensures var x := Start(Apply(Apply(store, Puts(c, blobs)), earlier));
            var y := HandleAll(peer, x, ms + [KvServerMessage(id, GetBlob(c.hash(blobs[j])))]);
      y.replies != [] && y.replies[|y.replies| - 1] == GetBlobResult(id, blobs[j])
  {
    var built := Apply(store, Puts(c, blobs));
    var ready, m := Apply(built, earlier), KvServerMessage(id, GetBlob(c.hash(blobs[j])));
    var z := HandleAll(peer, Start(ready), ms);
    HandleAllAppend(peer, Start(ready), ms, [m]);
    assert HandleAll(peer, z, [m]) ==
      if z.verdict != Running then z else HandleAll(peer, HandleMessage(peer, z, m), []);
    StoreAfterAll(peer, Start(ready), ms);
    PutsHold(c, store, blobs);
    HarmlessWritesKeep(c, built, blobs, earlier);
    HarmlessWritesKeep(c, ready, blobs, ServerWrites(ms));
    assert Get(z.store, c.hash(blobs[j])) == Some(blobs[j]);
  }
}
