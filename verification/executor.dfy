// One chat-completions request: the exchange with bounded retry, and what is
// answered for whatever came of it.
module Executors {
  import opened Basics
  import opened BlobStores
  import opened Protocol
  import opened Frames
  import opened Chunking
  import opened ReadLoops
  import opened History
  import opened ToolRouting
  import opened Accumulators
  import opened Responses

  // ---- one attempt ----

  /** What one attempt meets: no usable response at all, or a peer and the reads its body yields.
      retryable tells whether the error it may end with is of a kind worth a fresh connection. */
  datatype Server = Unreachable(retryable: bool) | Serving(peer: Peer, chunks: seq<Read>, retryable: bool)

  datatype Attempt = Refused(retryable: bool) | Streamed(x: Exchange, retryable: bool)
  {
    predicate Clean() {
      Streamed? && x.verdict.Clean()
    }

    predicate Crashed() {
      Streamed? && x.verdict.Crashed?
    }

    function Updates(): seq<Update> {
      if Streamed? then x.updates else []
    }

    function Requests(): seq<ToolRequest> {
      if Streamed? then x.toolRequests else []
    }
  }

  /** When the body yields no more, the idle watchdog makes the next read fail. */
  function Settled(x: Exchange): Exchange {
    if x.verdict == Running then x.(verdict := Dropped) else x
  }

  ghost function Exchanged(s: Server, store: Store): Attempt {
    match s
    case Unreachable(retryable) => Refused(retryable)
    case Serving(peer, chunks, retryable) =>
      Streamed(Settled(Consume(Handling(peer), Loop(Start(store), []), chunks).x), retryable)
  }

  ghost function StoreAfter(a: Attempt, store: Store): Store {
    if a.Streamed? then a.x.store else store
  }

  method RunOnce(s: Server, blobs: BlobStore) returns (a: Attempt)
    modifies blobs
    ensures a == Exchanged(s, old(blobs.data)) && blobs.data == StoreAfter(a, old(blobs.data))
  {
    if s.Unreachable? {
      return Refused(s.retryable);
    }
    var session := new Session(s.peer, blobs);
    var v := session.Run(s.chunks);
    if v == Running {
      v := Dropped;
    }
    a := Streamed(Exchange(session.updates, session.toolRequests, session.checkpoint, blobs.data,
                           session.kv.replies, session.kv.attempts, v), s.retryable);
  }

  // ---- bounded retry ----

  const MAX_ATTEMPTS: nat := 3

  /** Only an attempt that failed retryably without producing anything may be repeated. */
  predicate MayRetry(a: Attempt) {
    !a.Clean() && !a.Crashed() && a.Updates() == [] && a.Requests() == [] && a.retryable
  }

  /** The store an attempt starts from: the attempts before it share it. */
  ghost function StoreBefore(servers: nat -> Server, store: Store, i: nat): Store {
    if i == 0 then store
    else
      var before := StoreBefore(servers, store, i - 1);
      StoreAfter(Exchanged(servers(i - 1), before), before)
  }

  ghost function AttemptAt(servers: nat -> Server, store: Store, i: nat): Attempt {
    Exchanged(servers(i), StoreBefore(servers, store, i))
  }

  /** The first n attempts were each given up, and waited after, in order to try again. */
  ghost predicate GivenUp(servers: nat -> Server, store: Store, cancelled: nat -> bool, n: nat) {
    forall i: nat :: i < n ==> MayRetry(AttemptAt(servers, store, i)) && !cancelled(i + 1)
  }

  /** An attempt is repeated exactly when its server's failure is of a kind worth repeating, and either there
      was no response at all or the exchange broke off with nothing to show. */
  lemma RepeatedExactly(servers: nat -> Server, store: Store, i: nat)
    ensures var a := AttemptAt(servers, store, i);
      MayRetry(a) <==>
        && servers(i).retryable
        && (servers(i).Serving? ==>
              && a.Streamed? && a.x.updates == [] && a.x.toolRequests == []
              && a.x.verdict in {StreamError, DecodeError, KvFailed, ExecFailed, Dropped})
  {
    var a := AttemptAt(servers, store, i);
    assert servers(i).Unreachable? <==> a.Refused?;
    assert a.Streamed? ==> a.x.verdict != Running;
  }

  lemma GivenUpOneMore(servers: nat -> Server, store: Store, cancelled: nat -> bool, n: nat)
    requires GivenUp(servers, store, cancelled, n) && MayRetry(AttemptAt(servers, store, n)) && !cancelled(n + 1)
    ensures GivenUp(servers, store, cancelled, n + 1)
  {
  }

  method RunAttempt(servers: nat -> Server, i: nat, blobs: BlobStore, ghost store: Store) returns (a: Attempt)
    requires blobs.data == StoreBefore(servers, store, i)
    modifies blobs
    ensures a == AttemptAt(servers, store, i) && blobs.data == StoreBefore(servers, store, i + 1)
  {
    a := RunOnce(servers(i), blobs);
  }

  /** cancelled(k): the caller's context ends while waiting after attempt k. */
  method RunStream(servers: nat -> Server, blobs: BlobStore, cancelled: nat -> bool) returns (a: Attempt, retries: nat)
    modifies blobs
    ensures retries < 3
    ensures a == AttemptAt(servers, old(blobs.data), retries)
    ensures blobs.data == StoreBefore(servers, old(blobs.data), retries + 1)
    ensures GivenUp(servers, old(blobs.data), cancelled, retries)
    ensures retries == 2 || !MayRetry(a) || cancelled(retries + 1)
  {
    ghost var store := blobs.data;
    a := RunAttempt(servers, 0, blobs, store);
    retries := 0;
    while MayRetry(a) && retries + 1 < MAX_ATTEMPTS && !cancelled(retries + 1)
      invariant retries < MAX_ATTEMPTS
      invariant a == AttemptAt(servers, store, retries) && blobs.data == StoreBefore(servers, store, retries + 1)
      invariant GivenUp(servers, store, cancelled, retries)
      decreases MAX_ATTEMPTS - retries
    {
      GivenUpOneMore(servers, store, cancelled, retries);
      retries := retries + 1;
      a := RunAttempt(servers, retries, blobs, store);
    }
  }

  function Produced(all: seq<Attempt>): seq<Update> {
    if all == [] then [] else Produced(all[..|all| - 1]) + all[|all| - 1].Updates()
  }

  function ProducedRequests(all: seq<Attempt>): seq<ToolRequest> {
    if all == [] then [] else ProducedRequests(all[..|all| - 1]) + all[|all| - 1].Requests()
  }

  lemma {:induction false} OnlyTheLastProduces(all: seq<Attempt>)
    requires all != [] && forall i :: 0 <= i < |all| - 1 ==> MayRetry(all[i])
    ensures Produced(all) == all[|all| - 1].Updates() && ProducedRequests(all) == all[|all| - 1].Requests()
  {
    var front := all[..|all| - 1];
    if front != [] {
      OnlyTheLastProduces(front);
      assert MayRetry(front[|front| - 1]);
    }
  }

  /** The attempts a call makes, n of them. */
  ghost function Attempts(servers: nat -> Server, store: Store, n: nat): (all: seq<Attempt>)
    ensures |all| == n && forall i: nat :: i < n ==> all[i] == AttemptAt(servers, store, i)
  {
    if n == 0 then [] else Attempts(servers, store, n - 1) + [AttemptAt(servers, store, n - 1)]
  }

  /** Nothing is replayed and nothing lost: over all the attempts RunStream makes, exactly what the
      attempt it returns produced was produced. */
  lemma RetryNeverReplays(servers: nat -> Server, store: Store, cancelled: nat -> bool, n: nat)
    requires n >= 1 && GivenUp(servers, store, cancelled, n - 1)
    ensures Produced(Attempts(servers, store, n)) == AttemptAt(servers, store, n - 1).Updates()
    ensures ProducedRequests(Attempts(servers, store, n)) == AttemptAt(servers, store, n - 1).Requests()
  {
    OnlyTheLastProduces(Attempts(servers, store, n));
  }

  // ---- the answer ----

  datatype Outcome = HardError | Panicked | Responded(response: Response)

  /** The request, as far as the answer depends on it; responseId is None when no id can be made. */
  datatype Asked = Asked(model: string, messages: seq<ChatMessage>, tools: seq<string>, responseId: Option<string>,
    size: string -> nat)

  function PromptText(ms: seq<ChatMessage>): string {
    if ms == [] then "" else PromptText(ms[..|ms| - 1]) + ms[|ms| - 1].content
  }

  function Accumulated(e: Rendering, asked: Asked, a: Attempt): Option<Acc> {
    AddCaptured(e, Declared(asked.tools), AccumulateAll(e, EMPTY, a.Updates()), a.Requests())
  }

  function Finish(e: Rendering, asked: Asked, a: Attempt): Outcome {
    if a.Crashed() then Panicked
    else if asked.responseId.None? then HardError
    else match Accumulated(e, asked, a)
      case None => HardError
      case Some(acc) =>
        var r := ToResponse(asked.size, acc, asked.model, asked.responseId.value, PromptText(asked.messages));
        if a.Clean() then Responded(r)
        else if |acc.toolCalls| == 0 && acc.text == "" then HardError
        else Responded(r.(error := Some(StreamFailure)))
  }

  method Answer(e: Rendering, asked: Asked, a: Attempt) returns (o: Outcome)
    ensures o == Finish(e, asked, a)
  {
    if a.Crashed() {
      return Panicked;
    }
    if asked.responseId.None? {
      return HardError;
    }
    var acc := new ResponseAccumulator(e);
    acc.AddAll(a.Updates());
    var declared := NewClientToolIndex(asked.tools);
    var ok := acc.AddCapturedToolRequests(a.Requests(), declared);
    if !ok {
      return HardError;
    }
    var promptText := "";
    for i := 0 to |asked.messages|
      invariant promptText == PromptText(asked.messages[..i])
    {
      assert asked.messages[..i + 1][..i] == asked.messages[..i] && asked.messages[..i + 1][i] == asked.messages[i];
      promptText := promptText + asked.messages[i].content;
    }
    assert asked.messages[..|asked.messages|] == asked.messages;
    if !a.Clean() && |acc.toolCalls| == 0 && acc.text == "" {
      return HardError;
    }
    var total := Acc(acc.text, acc.toolCalls, acc.failed, acc.completionTokens, acc.drawn);
    var usage := ComputeUsage(asked.size, total, promptText);
    var finishReason := if |acc.toolCalls| > 0 then "tool_calls" else "stop";
    var r := if acc.failed then Response(asked.responseId.value, asked.model, [], usage, Some(TranslationFailure))
             else Response(asked.responseId.value, asked.model,
                           [Choice(acc.text, acc.toolCalls, finishReason)], usage, None);
    o := Responded(if a.Clean() then r else r.(error := Some(StreamFailure)));
  }

  // ---- failing loud ----

  /** The tool calls a client is owed: the visible completed ones, then the captured ones it can run. */
  function Surfaced(e: Rendering, asked: Asked, a: Attempt): seq<Invocation> {
    Completed(e, a.Updates()) + Requested(e, Declared(asked.tools), a.Requests())
  }

  ghost predicate AllIdsHad(e: Rendering, asked: Asked, a: Attempt) {
    asked.responseId.Some? && IdsHad(e, 0, |Surfaced(e, asked, a)|)
  }

  /** The one choice carries all the text and exactly the calls owed, each under an id of its own; the
      token counts are Cursor's where it sent any. */
  ghost predicate Complete(e: Rendering, asked: Asked, a: Attempt, r: Response) {
    && |r.choices| == 1
    && r.choices[0].content == AllText(a.Updates())
    && Invocations(r.choices[0].toolCalls) == Surfaced(e, asked, a)
    && (forall i, j :: 0 <= i < j < |r.choices[0].toolCalls| ==>
         r.choices[0].toolCalls[i].id != r.choices[0].toolCalls[j].id)
    && r.choices[0].finishReason == (if Surfaced(e, asked, a) != [] then "tool_calls" else "stop")
    && Some(r.id) == asked.responseId && r.model == asked.model
    && r.usage.prompt == EstimateTokens(asked.size, PromptText(asked.messages))
    && (TokensIn(a.Updates()) > 0 ==> r.usage.completion == TokensIn(a.Updates()))
    && r.usage.total == r.usage.prompt + r.usage.completion
  }

  lemma IdsHadSplit(e: Rendering, m: nat, n: nat)
    ensures IdsHad(e, 0, m + n) <==> IdsHad(e, 0, m) && IdsHad(e, m, m + n)
  {
  }

  lemma AccumulatedIsSurfaced(e: Rendering, asked: Asked, a: Attempt)
    requires IdsAreFresh(e)
    ensures var acc := Accumulated(e, asked, a);
      && (IdsHad(e, 0, |Surfaced(e, asked, a)|) ==> acc.Some?)
      && (acc.Some? ==>
            && acc.value.text == AllText(a.Updates()) && acc.value.tokens == TokensIn(a.Updates())
            && (acc.value.failed <==> !AllTranslate(e, a.Updates()) || !IdsHad(e, 0, |Surfaced(e, asked, a)|))
            && (IdsHad(e, 0, |Surfaced(e, asked, a)|) ==> Invocations(acc.value.toolCalls) == Surfaced(e, asked, a))
            && DistinctIds(e, acc.value))
  {
    FoldedUpdates(e, a.Updates());
    FoldedTokens(e, a.Updates());
    var b, declared := AccumulateAll(e, EMPTY, a.Updates()), Declared(asked.tools);
    FoldedRequests(e, declared, b, a.Requests());
    IdsHadSplit(e, b.drawn, |Requested(e, declared, a.Requests())|);
  }

  /** A response without an error exists exactly when the exchange ended cleanly, every completed call
      translated and every id was had; it is then complete.  Where only the translation failed there is a
      response, with an error and without any choice: all text is dropped along with the calls. */
  lemma FailLoudExactly(e: Rendering, asked: Asked, a: Attempt)
    requires IdsAreFresh(e)
    ensures var o := Finish(e, asked, a);
      && (o.Responded? && o.response.error.None? <==>
           a.Clean() && AllTranslate(e, a.Updates()) && AllIdsHad(e, asked, a))
      && (o.Responded? && o.response.error.None? ==> Complete(e, asked, a, o.response))
      && (a.Clean() && AllIdsHad(e, asked, a) ==>
            && o.Responded?
            && (o.response.choices == [] <==> !AllTranslate(e, a.Updates()))
            && (o.response.error == Some(TranslationFailure) <==> !AllTranslate(e, a.Updates())))
  {
    AccumulatedIsSurfaced(e, asked, a);
  }

  /** A failed exchange is a hard error exactly when it salvaged no text and no tool call; otherwise the
      error is attached, and the response is still complete unless a call failed to translate. */
  lemma FailureIsSalvagedExactly(e: Rendering, asked: Asked, a: Attempt)
    requires IdsAreFresh(e) && AllIdsHad(e, asked, a) && !a.Clean() && !a.Crashed()
    ensures var o := Finish(e, asked, a);
      && (o == HardError <==> AllText(a.Updates()) == "" && Surfaced(e, asked, a) == [])
      && (o != HardError ==>
            && o.Responded? && o.response.error == Some(StreamFailure)
            && (if AllTranslate(e, a.Updates()) then Complete(e, asked, a, o.response) else o.response.choices == []))
  {
    AccumulatedIsSurfaced(e, asked, a);
    var acc := Accumulated(e, asked, a).value;
    assert |acc.toolCalls| == |Invocations(acc.toolCalls)|;
  }

  /** Only a turn that ended, or a stream that Cursor closed without an error, is answered without one; a
      crash is passed on, and everything else is an error the client is told of. */
  lemma OnlyEndedTurnsAreClean(e: Rendering, asked: Asked, a: Attempt)
    requires IdsAreFresh(e)
    ensures var o := Finish(e, asked, a);
      && (o == Panicked <==> a.Streamed? && a.x.verdict == Crashed)
      && (o.Responded? && o.response.error.None? ==> a.Streamed? && a.x.verdict in {TurnComplete, CleanEnd})
      && (a.Refused? ==> o == HardError)
      && (a.Streamed? && a.x.verdict in {StreamError, DecodeError, KvFailed, ExecFailed, Dropped} ==>
            o == HardError || (o.Responded? && o.response.error == Some(StreamFailure)))
  {
    FailLoudExactly(e, asked, a);
    FoldedUpdates(e, []);
  }

  // ---- from the wire to the client ----

  /** How the bytes are cut into reads does not show in the answer. */
  lemma AnswerIgnoresChunking(e: Rendering, asked: Asked, peer: Peer, chunks: seq<Read>, other: seq<Read>,
        retryable: bool, store: Store)
    requires Delivered(chunks) == Delivered(other) && Fails(chunks) == Fails(other) && |Delivered(chunks)| < TWO32
    ensures Finish(e, asked, Exchanged(Serving(peer, chunks, retryable), store)) ==
            Finish(e, asked, Exchanged(Serving(peer, other, retryable), store))
  {
    AnyTwoChunkingsAgree(Handling(peer), Start(store), chunks, other);
  }

  function UpdatesIn(ms: seq<ServerMessage>): seq<Update> {
    if ms == [] then []
    else (if ms[0].InteractionUpdate? && ms[0].update.Some? then [ms[0].update.value] else []) + UpdatesIn(ms[1..])
  }

  function RequestsIn(ms: seq<ServerMessage>): seq<ToolRequest> {
    if ms == [] then []
    else
      (if ms[0].ExecServerMessage? && ms[0].variant.Some? then Capture(ms[0].variant.value) else []) +
      RequestsIn(ms[1..])
  }

  lemma RecordedOne(peer: Peer, x: Exchange, m: ServerMessage)
    ensures var y := HandleMessage(peer, x, m);
      y.updates == x.updates + UpdatesIn([m]) && y.toolRequests == x.toolRequests + RequestsIn([m])
  {
    assert [m][1..] == [];
    assert UpdatesIn([m]) == (if m.InteractionUpdate? && m.update.Some? then [m.update.value] else []) + [];
    if m.ExecServerMessage? && m.variant.Some? {
      CapturedBeforeDeclined(peer, x, m.id, m.execId, m.variant.value);
      assert RequestsIn([m]) == Capture(m.variant.value) + [];
    }
  }

  lemma InFirst(ms: seq<ServerMessage>)
    requires ms != []
    ensures UpdatesIn(ms) == UpdatesIn([ms[0]]) + UpdatesIn(ms[1..])
        && RequestsIn(ms) == RequestsIn([ms[0]]) + RequestsIn(ms[1..])
  {
    assert [ms[0]][1..] == [];
  }

  lemma {:induction false} RecordedAll(peer: Peer, x: Exchange, ms: seq<ServerMessage>)
    requires HandleAll(peer, x, ms).verdict == Running
    ensures HandleAll(peer, x, ms).updates == x.updates + UpdatesIn(ms)
    ensures HandleAll(peer, x, ms).toolRequests == x.toolRequests + RequestsIn(ms)
    decreases |ms|
  {
    if ms != [] {
      var z := HandleMessage(peer, x, ms[0]);
      assert HandleAll(peer, x, ms) == HandleAll(peer, z, ms[1..]);
      RecordedAll(peer, z, ms[1..]);
      RecordedOne(peer, x, ms[0]);
      InFirst(ms);
      Associative(x.updates, UpdatesIn([ms[0]]), UpdatesIn(ms[1..]));
      Associative(x.toolRequests, RequestsIn([ms[0]]), RequestsIn(ms[1..]));
    }
  }

  lemma EndsTurn(peer: Peer, y: Exchange)
    requires y.verdict == Running
    ensures HandleAll(peer, y, [InteractionUpdate(Some(TurnEnded))]) ==
        y.(updates := y.updates + [TurnEnded], verdict := TurnComplete)
  {
    var last := InteractionUpdate(Some(TurnEnded));
    assert HandleAll(peer, y, [last]) == HandleAll(peer, HandleMessage(peer, y, last), [last][1..]);
  }

  lemma TurnIsHandled(peer: Peer, x: Exchange, ms: seq<ServerMessage>)
    requires HandleAll(peer, x, ms).verdict == Running
    ensures var z := HandleAll(peer, x, ms + [InteractionUpdate(Some(TurnEnded))]);
      && z.verdict == TurnComplete && z.updates == x.updates + UpdatesIn(ms) + [TurnEnded]
      && z.toolRequests == x.toolRequests + RequestsIn(ms)
  {
    RecordedAll(peer, x, ms);
    HandleAllAppend(peer, x, ms, [InteractionUpdate(Some(TurnEnded))]);
    EndsTurn(peer, HandleAll(peer, x, ms));
  }

  lemma DecodesTurn(peer: Peer, payloads: seq<Bytes>, ms: seq<ServerMessage>, last: ServerMessage)
    requires |payloads| == |ms| + 1
    requires forall i :: 0 <= i < |ms| ==> peer.decode(payloads[i]) == Some(ms[i])
    requires peer.decode(payloads[|ms|]) == Some(last)
    ensures forall i :: 0 <= i < |ms + [last]| ==> peer.decode(payloads[i]) == Some((ms + [last])[i])
  {
  }

  /** A turn, framed and cut anyhow, is recorded whole. */
  lemma TurnIsRecorded(peer: Peer, store: Store, payloads: seq<Bytes>, ms: seq<ServerMessage>, chunks: seq<Read>)
    requires |payloads| == |ms| + 1
    requires forall i :: 0 <= i < |ms| ==> peer.decode(payloads[i]) == Some(ms[i])
    requires peer.decode(payloads[|ms|]) == Some(InteractionUpdate(Some(TurnEnded)))
    requires HandleAll(peer, Start(store), ms).verdict == Running
    requires Delivered(chunks) == Framed(payloads) && |Delivered(chunks)| < TWO32
    ensures var x := Consume(Handling(peer), Loop(Start(store), []), chunks).x;
      x.verdict == TurnComplete && x.updates == UpdatesIn(ms) + [TurnEnded] && x.toolRequests == RequestsIn(ms)
  {
    var all := ms + [InteractionUpdate(Some(TurnEnded))];
    DecodesTurn(peer, payloads, ms, InteractionUpdate(Some(TurnEnded)));
    assert Delivered(chunks) == Framed(payloads) + [];
    MessagesThroughAnyChunking(peer, store, payloads, all, [], chunks);
    TurnIsHandled(peer, Start(store), ms);
    assert [] + UpdatesIn(ms) == UpdatesIn(ms) && [] + RequestsIn(ms) == RequestsIn(ms);
  }

  lemma TurnEndAddsNothing(e: Rendering, us: seq<Update>)
    ensures AllText(us + [TurnEnded]) == AllText(us) && Completed(e, us + [TurnEnded]) == Completed(e, us)
    ensures AllTranslate(e, us) ==> AllTranslate(e, us + [TurnEnded])
  {
    assert (us + [TurnEnded])[..|us|] == us;
  }

  /** A turn that Cursor sends and ends, cut into reads anyhow, is answered with all of its text and
      exactly its tool calls. */
  lemma TurnReachesClient(e: Rendering, asked: Asked, peer: Peer, store: Store, payloads: seq<Bytes>,
        ms: seq<ServerMessage>, chunks: seq<Read>, retryable: bool)
    requires IdsAreFresh(e) && |payloads| == |ms| + 1
    requires forall i :: 0 <= i < |ms| ==> peer.decode(payloads[i]) == Some(ms[i])
    requires peer.decode(payloads[|ms|]) == Some(InteractionUpdate(Some(TurnEnded)))
    requires HandleAll(peer, Start(store), ms).verdict == Running
    requires Delivered(chunks) == Framed(payloads) && |Delivered(chunks)| < TWO32
    requires asked.responseId.Some? && AllTranslate(e, UpdatesIn(ms))
    requires IdsHad(e, 0, |Completed(e, UpdatesIn(ms)) + Requested(e, Declared(asked.tools), RequestsIn(ms))|)
    ensures var o := Finish(e, asked, Exchanged(Serving(peer, chunks, retryable), store));
      && o.Responded? && o.response.error.None? && |o.response.choices| == 1
      && o.response.choices[0].content == AllText(UpdatesIn(ms))
      && Invocations(o.response.choices[0].toolCalls) ==
           Completed(e, UpdatesIn(ms)) + Requested(e, Declared(asked.tools), RequestsIn(ms))
  {
    TurnIsRecorded(peer, store, payloads, ms, chunks);
    var a := Exchanged(Serving(peer, chunks, retryable), store);
    assert a.Updates() == UpdatesIn(ms) + [TurnEnded] && a.Requests() == RequestsIn(ms) && a.Clean();
    TurnEndAddsNothing(e, UpdatesIn(ms));
    FailLoudExactly(e, asked, a);
  }

  /** A stream closed with its end-of-stream frame, framed and cut anyhow, is recorded whole. */
  lemma EndedStreamIsRecorded(peer: Peer, store: Store, payloads: seq<Bytes>, ms: seq<ServerMessage>, last: Bytes,
        tail: Bytes, chunks: seq<Read>)
    requires |payloads| == |ms|
    requires forall i :: 0 <= i < |ms| ==> peer.decode(payloads[i]) == Some(ms[i])
    requires HandleAll(peer, Start(store), ms).verdict == Running
    requires Delivered(chunks) == Framed(payloads) + (FrameConnectMessage(last, 2) + tail)
    requires |Delivered(chunks)| < TWO32
    ensures var x := Consume(Handling(peer), Loop(Start(store), []), chunks).x;
      && x.verdict == (if peer.endStreamFails(last) then StreamError else CleanEnd)
      && x.updates == UpdatesIn(ms) && x.toolRequests == RequestsIn(ms)
  {
    EndOfStreamThroughAnyChunking(peer, store, payloads, ms, 2, last, tail, chunks);
    RecordedAll(peer, Start(store), ms);
    assert [] + UpdatesIn(ms) == UpdatesIn(ms) && [] + RequestsIn(ms) == RequestsIn(ms);
  }

  /** The answer to an attempt recorded whole, by how it ended. */
  lemma RecordedIsAnswered(e: Rendering, asked: Asked, a: Attempt, failed: bool)
    requires IdsAreFresh(e) && a.Streamed? && a.x.verdict == if failed then StreamError else CleanEnd
    requires AllTranslate(e, a.Updates()) && AllIdsHad(e, asked, a)
    ensures var o := Finish(e, asked, a);
      && (o == HardError <==> failed && AllText(a.Updates()) == "" && Surfaced(e, asked, a) == [])
      && (o != HardError ==>
            && o.Responded? && |o.response.choices| == 1
            && o.response.error == (if failed then Some(StreamFailure) else None)
            && o.response.choices[0].content == AllText(a.Updates())
            && Invocations(o.response.choices[0].toolCalls) == Surfaced(e, asked, a))
  {
    FailLoudExactly(e, asked, a);
    if failed {
      FailureIsSalvagedExactly(e, asked, a);
    }
  }

  /** The same when Cursor closes the stream with its end-of-stream frame: without an error there, the
      messages before it are answered with all text and exactly their calls. */
  lemma EndedStreamReachesClient(e: Rendering, asked: Asked, peer: Peer, store: Store, payloads: seq<Bytes>,
        ms: seq<ServerMessage>, last: Bytes, tail: Bytes, chunks: seq<Read>, retryable: bool)
    requires IdsAreFresh(e) && |payloads| == |ms|
    requires forall i :: 0 <= i < |ms| ==> peer.decode(payloads[i]) == Some(ms[i])
    requires HandleAll(peer, Start(store), ms).verdict == Running
    requires Delivered(chunks) == Framed(payloads) + (FrameConnectMessage(last, 2) + tail)
    requires |Delivered(chunks)| < TWO32
    requires asked.responseId.Some? && AllTranslate(e, UpdatesIn(ms))
    requires IdsHad(e, 0, |Completed(e, UpdatesIn(ms)) + Requested(e, Declared(asked.tools), RequestsIn(ms))|)
    ensures var o := Finish(e, asked, Exchanged(Serving(peer, chunks, retryable), store));
      var calls := Completed(e, UpdatesIn(ms)) + Requested(e, Declared(asked.tools), RequestsIn(ms));
      && (o == HardError <==> peer.endStreamFails(last) && AllText(UpdatesIn(ms)) == "" && calls == [])
      && (o != HardError ==>
            && o.Responded? && |o.response.choices| == 1
            && o.response.error == (if peer.endStreamFails(last) then Some(StreamFailure) else None)
            && o.response.choices[0].content == AllText(UpdatesIn(ms))
            && Invocations(o.response.choices[0].toolCalls) == calls)
  {
    EndedStreamIsRecorded(peer, store, payloads, ms, last, tail, chunks);
    var a := Exchanged(Serving(peer, chunks, retryable), store);
    assert a.Updates() == UpdatesIn(ms) && a.Requests() == RequestsIn(ms);
    RecordedIsAnswered(e, asked, a, peer.endStreamFails(last));
  }

  lemma LostStreamIsDropped(peer: Peer, store: Store, payloads: seq<Bytes>, ms: seq<ServerMessage>, tail: Bytes,
        chunks: seq<Read>)
    requires |payloads| == |ms|
    requires forall i :: 0 <= i < |ms| ==> peer.decode(payloads[i]) == Some(ms[i])
    requires HandleAll(peer, Start(store), ms).verdict == Running
    requires Delivered(chunks) == Framed(payloads) + tail && WideExtract(tail) == NeedMore
    requires |Delivered(chunks)| < TWO32
    ensures Settled(Consume(Handling(peer), Loop(Start(store), []), chunks).x).verdict == Dropped
  {
    MessagesThroughAnyChunking(peer, store, payloads, ms, tail, chunks);
  }

  /** A connection lost before that frame is never passed off as a finished turn. */
  lemma LostStreamIsNoTurn(e: Rendering, asked: Asked, peer: Peer, store: Store, payloads: seq<Bytes>,
        ms: seq<ServerMessage>, tail: Bytes, chunks: seq<Read>, retryable: bool)
    requires IdsAreFresh(e) && |payloads| == |ms|
    requires forall i :: 0 <= i < |ms| ==> peer.decode(payloads[i]) == Some(ms[i])
    requires HandleAll(peer, Start(store), ms).verdict == Running
    requires Delivered(chunks) == Framed(payloads) + tail && WideExtract(tail) == NeedMore
    requires |Delivered(chunks)| < TWO32
    ensures var o := Finish(e, asked, Exchanged(Serving(peer, chunks, retryable), store));
      o == HardError || (o.Responded? && o.response.error == Some(StreamFailure))
  {
    LostStreamIsDropped(peer, store, payloads, ms, tail, chunks);
    OnlyEndedTurnsAreClean(e, asked, Exchanged(Serving(peer, chunks, retryable), store));
  }
}
