// The read loop of one Run exchange over live state: the response buffer, the
// results so far, the blob store and the reply writer.
module ReadLoops {
  import opened Basics
  import opened Frames
  import opened Chunking
  import opened BlobStores
  import opened Protocol

  ghost function Handling(peer: Peer): Handler<Exchange> {
    Handler(
      (x: Exchange, flags: byte, payload: Bytes) => HandleFrame(peer, x, flags, payload),
      (x: Exchange) => x.verdict == Running,
      (x: Exchange) => x.(verdict := Crashed),
      (x: Exchange) => x.(verdict := Dropped)
    )
  }

  // ---- a stream of framed messages ----

  /** A stream of framed messages is handled message by message, then what follows it. */
  lemma {:induction false} FramedMessagesInOrder(peer: Peer, x: Exchange, payloads: seq<Bytes>,
        ms: seq<ServerMessage>, tail: Bytes)
    requires |payloads| == |ms| && x.verdict == Running
    requires forall i :: 0 <= i < |ms| ==> |payloads[i]| <= TWO32 - 6 && peer.decode(payloads[i]) == Some(ms[i])
    ensures var y := HandleAll(peer, x, ms);
            WideDrain(Handling(peer), x, Framed(payloads) + tail).x ==
              if y.verdict == Running then WideDrain(Handling(peer), y, tail).x else y
    decreases |ms|
  {
    if ms == [] {
      assert Framed(payloads) + tail == tail;
    } else {
      var rest := Framed(payloads[1..]) + tail;
      var b := FrameConnectMessage(payloads[0], 0) + rest;
      assert Framed(payloads) + tail == b;
      FrameRoundTripUnbounded(payloads[0], 0, rest);
      HeaderOfFrame(payloads[0], 0, rest);
      var z := HandleMessage(peer, x, ms[0]);
      assert HandleFrame(peer, x, 0, payloads[0]) == z;
      if z.verdict == Running {
        FramedMessagesInOrder(peer, z, payloads[1..], ms[1..], tail);
      }
    }
  }

  function Start(store: Store): Exchange {
    Exchange([], [], None, store, [], 0, Running)
  }

  /** Messages framed onto the wire, cut anywhere, with an unfinished frame behind them: the
      exchange handles each message in turn, and a lost connection shows unless it had ended. */
  lemma MessagesThroughAnyChunking(peer: Peer, store: Store, payloads: seq<Bytes>, ms: seq<ServerMessage>,
        tail: Bytes, chunks: seq<Read>)
    requires |payloads| == |ms|
    requires forall i :: 0 <= i < |ms| ==> peer.decode(payloads[i]) == Some(ms[i])
    requires Delivered(chunks) == Framed(payloads) + tail && WideExtract(tail) == NeedMore
    requires |Delivered(chunks)| < TWO32
    ensures var y := HandleAll(peer, Start(store), ms);
            Consume(Handling(peer), Loop(Start(store), []), chunks).x ==
              if y.verdict == Running && Fails(chunks) then y.(verdict := Dropped) else y
  {
    ChunkingIndependence(Handling(peer), Start(store), chunks);
    FramedPayloadsAreShort(payloads);
    FramedMessagesInOrder(peer, Start(store), payloads, ms, tail);
  }

  /** Bit 0x02 of the flags, and no other, makes a frame the last one; any other frame is a message. */
  lemma FrameByFlags(peer: Peer, x: Exchange, flags: byte, payload: Bytes)
    ensures Handling(peer).step(x, flags, payload) ==
            if flags as int % 4 >= 2 then x.(verdict := if peer.endStreamFails(payload) then StreamError else CleanEnd)
            else match peer.decode(payload)
              case None => x.(verdict := DecodeError)
              case Some(m) => HandleMessage(peer, x, m)
  {
  }

  /** A frame that ends the stream, whatever its payload would decode to and whatever lies behind it. */
  lemma EndFrameEnds(peer: Peer, y: Exchange, flags: byte, payload: Bytes, tail: Bytes)
    requires y.verdict == Running && flags as int % 4 >= 2 && |payload| <= TWO32 - 6
    ensures WideDrain(Handling(peer), y, FrameConnectMessage(payload, flags) + tail).x ==
            y.(verdict := if peer.endStreamFails(payload) then StreamError else CleanEnd)
  {
    FrameRoundTripUnbounded(payload, flags, tail);
    HeaderOfFrame(payload, flags, tail);
    FrameByFlags(peer, y, flags, payload);
    var z := Handling(peer).step(y, flags, payload);
    assert WideDrain(Handling(peer), z, tail) == Loop(z, tail);
  }

  /** Messages framed onto the wire and then the end-of-stream frame, cut anywhere: the exchange handles each
      message and ends, cleanly or with the error that frame carries. */
  lemma EndOfStreamThroughAnyChunking(peer: Peer, store: Store, payloads: seq<Bytes>, ms: seq<ServerMessage>,
        flags: byte, last: Bytes, tail: Bytes, chunks: seq<Read>)
    requires |payloads| == |ms| && flags as int % 4 >= 2
    requires forall i :: 0 <= i < |ms| ==> peer.decode(payloads[i]) == Some(ms[i])
    requires HandleAll(peer, Start(store), ms).verdict == Running
    requires Delivered(chunks) == Framed(payloads) + (FrameConnectMessage(last, flags) + tail)
    requires |Delivered(chunks)| < TWO32
    ensures Consume(Handling(peer), Loop(Start(store), []), chunks).x ==
            HandleAll(peer, Start(store), ms).(verdict := if peer.endStreamFails(last) then StreamError else CleanEnd)
  {
    ChunkingIndependence(Handling(peer), Start(store), chunks);
    FramedPayloadsAreShort(payloads);
    FramedMessagesInOrder(peer, Start(store), payloads, ms, FrameConnectMessage(last, flags) + tail);
    EndFrameEnds(peer, HandleAll(peer, Start(store), ms), flags, last, tail);
  }

  lemma {:induction false} FramedPayloadsAreShort(payloads: seq<Bytes>)
    ensures forall i :: 0 <= i < |payloads| ==> 5 + |payloads[i]| <= |Framed(payloads)|
  {
    if payloads != [] {
      FramedPayloadsAreShort(payloads[1..]);
      assert forall i :: 1 <= i < |payloads| ==> payloads[i] == payloads[1..][i - 1];
    }
  }

  // ---- the loop over live state ----

  class KvWriter {
    var closed: bool
    var lastWriteFailed: bool
    var replies: seq<Reply>
    var attempts: nat
    const succeeds: nat -> bool

    constructor (succeeds: nat -> bool)
      ensures !closed && !lastWriteFailed && replies == [] && attempts == 0 && this.succeeds == succeeds
    {
      closed, lastWriteFailed, replies, attempts := false, false, [], 0;
      this.succeeds := succeeds;
    }

    method Write(reply: Reply) returns (ok: bool)
      modifies this
      ensures ok == (!old(closed) && succeeds(old(attempts)))
      ensures replies == if ok then old(replies) + [reply] else old(replies)
      ensures attempts == if old(closed) then old(attempts) else old(attempts) + 1
      ensures closed == old(closed)
      ensures lastWriteFailed == (old(lastWriteFailed) || (!old(closed) && !ok))
    {
      if closed {
        return false;
      }
      ok := succeeds(attempts);
      attempts := attempts + 1;
      if ok {
        replies := replies + [reply];
      } else {
        lastWriteFailed := true;
      }
    }

    method Close()
      modifies this
      ensures closed
      ensures replies == old(replies) && attempts == old(attempts) && lastWriteFailed == old(lastWriteFailed)
    {
      closed := true;
    }
  }

  class Session {
    const peer: Peer
    const blobs: BlobStore
    const kv: KvWriter
    const pending: Buffer
    var updates: seq<Update>
    var toolRequests: seq<ToolRequest>
    var checkpoint: Option<ConversationState>

    constructor (peer: Peer, blobs: BlobStore)
      ensures this.peer == peer && this.blobs == blobs && fresh(kv) && fresh(pending)
      ensures Valid()
      ensures State(Running) == Exchange([], [], None, blobs.data, [], 0, Running) && pending.data == []
    {
      this.peer, this.blobs := peer, blobs;
      kv := new KvWriter(peer.writeSucceeds);
      pending := new Buffer();
      updates, toolRequests, checkpoint := [], [], None;
    }

    ghost predicate Valid()
      reads this, kv
    {
      !kv.closed && kv.succeeds == peer.writeSucceeds
    }

    ghost function State(v: Verdict): Exchange
      reads this, blobs, kv
    {
      Exchange(updates, toolRequests, checkpoint, blobs.data, kv.replies, kv.attempts, v)
    }

    method AnswerKv(id: nat, request: KvRequest) returns (v: Verdict)
      requires Valid()
      modifies blobs, kv
      ensures Valid() && State(v) == HandleKv(peer, old(State(Running)), id, request)
    {
      var ok := true;
      match request {
        case GetBlob(blobId) =>
          var found := blobs.Read(blobId);
          ok := kv.Write(GetBlobResult(id, if found.Some? then found.value else []));
        case SetBlob(blobId, blobData) =>
          blobs.PutKnownID(blobId, blobData);
          ok := kv.Write(SetBlobResult(id));
        case UnknownKv =>
      }
      v := if ok then Running else KvFailed;
    }

    method AnswerExec(id: nat, execId: string, variant: Option<ExecVariant>) returns (v: Verdict)
      requires Valid()
      modifies this, kv
      ensures Valid() && State(v) == HandleExec(peer, old(State(Running)), id, execId, variant)
    {
      if variant.None? {
        return Running;
      }
      toolRequests := toolRequests + Capture(variant.value);
      var prepared := PrepareExecReply(peer.results, id, execId, variant.value);
      match prepared {
        case None => v := Running;
        case Some(PrepareFailed) => v := ExecFailed;
        case Some(PrepareCrashed) => v := Crashed;
        case Some(Prepared(reply)) =>
          var ok := kv.Write(reply);
          v := if ok then Running else ExecFailed;
      }
    }

    method OnFrame(flags: byte, payload: Bytes) returns (v: Verdict)
      requires Valid()
      modifies this, blobs, kv
      ensures Valid() && State(v) == Handling(peer).step(old(State(Running)), flags, payload)
    {
      if EndStream(flags) {
        return if peer.endStreamFails(payload) then StreamError else CleanEnd;
      }
      v := Running;
      match peer.decode(payload) {
        case None => v := DecodeError;
        case Some(InteractionUpdate(None)) =>
        case Some(InteractionUpdate(Some(u))) =>
          updates := updates + [u];
          if u.TurnEnded? {
            v := TurnComplete;
          }
        case Some(KvServerMessage(id, request)) => v := AnswerKv(id, request);
        case Some(ExecServerMessage(id, execId, variant)) => v := AnswerExec(id, execId, variant);
        case Some(CheckpointUpdate(None)) =>
        case Some(CheckpointUpdate(Some(s))) => checkpoint := Some(s);
        case Some(OtherMessage) =>
      }
    }

    /** Pulls at most one frame off the buffer and handles it; what is left to do is unchanged. */
    method HandleOne() returns (v: Verdict, more: bool)
      requires Valid()
      modifies this, blobs, kv, pending
      ensures Valid() && (more ==> v == Running && |pending.data| < old(|pending.data|))
      ensures Drain(Handling(peer), State(v), pending.data) ==
          Drain(Handling(peer), old(State(Running)), old(pending.data))
      ensures !more ==> Drain(Handling(peer), State(v), pending.data) == Loop(State(v), pending.data)
    {
      ghost var x, b := State(Running), pending.data;
      DrainOne(Handling(peer), x, b);
      var frame := pending.Extract();
      match frame {
        case NeedMore => return Running, false;
        case Panic => return Crashed, false;
        case Extracted(flags, payload, _) =>
          assert State(Running) == x;
          v := OnFrame(flags, payload);
          more := v == Running;
      }
    }

    method HandlePending() returns (v: Verdict)
      requires Valid()
      modifies this, blobs, kv, pending
      ensures Valid() && Loop(State(v), pending.data) == Drain(Handling(peer), old(State(Running)), old(pending.data))
    {
      var more := true;
      v := Running;
      while more
        invariant Valid() && (more ==> v == Running)
        invariant Drain(Handling(peer), State(v), pending.data) ==
            Drain(Handling(peer), old(State(Running)), old(pending.data))
        invariant !more ==> Drain(Handling(peer), State(v), pending.data) == Loop(State(v), pending.data)
        decreases more, |pending.data|
      {
        v, more := HandleOne();
      }
    }

    /** The loop over live state computes what the function says, read by read. */
    method Run(chunks: seq<Read>) returns (v: Verdict)
      requires Valid()
      modifies this, blobs, kv, pending
      ensures Valid()
      ensures Loop(State(v), pending.data) == Consume(Handling(peer), old(Loop(State(Running), pending.data)), chunks)
    {
      v := Running;
      var i := 0;
      while i < |chunks|
        invariant 0 <= i <= |chunks| && Valid() && v == Running
        invariant Consume(Handling(peer), Loop(State(v), pending.data), chunks[i..]) ==
                  Consume(Handling(peer), old(Loop(State(Running), pending.data)), chunks)
      {
        ghost var l := Loop(State(v), pending.data);
        ConsumeUnfolds(Handling(peer), l, chunks, i);
        if |chunks[i].data| > 0 {
          pending.Write(chunks[i].data);
        }
        assert pending.data == l.pending + chunks[i].data;
        v := HandlePending();
        if v != Running {
          return;
        }
        if chunks[i].failed {
          return Dropped;
        }
        i := i + 1;
      }
    }
  }
}
