// Reading framed messages in chunks: bytes arrive in arbitrary pieces, frames
// are pulled off a growing buffer, and each is handled before the next is
// examined.  Nothing here depends on what handling a frame does.
module Chunking {
  import opened Basics
  import opened Frames

  /** One Read of the response body: some bytes, possibly together with an error. */
  datatype Read = Read(data: Bytes, failed: bool)

  datatype Loop<X> = Loop(x: X, pending: Bytes)

  /** What is done with a frame, when to stop, and how a crash or a dropped connection shows. */
  datatype Handler<!X> = Handler(
    step: (X, byte, Bytes) -> X,
    running: X -> bool,
    crash: X -> X,
    drop: X -> X
  )

  /** A crash ends the loop. */
  ghost predicate Halts<X(!new)>(h: Handler<X>) {
    forall x :: !h.running(h.crash(x))
  }

  // ---- the loop as a function ----

  /** The inner loop: handle every complete frame in the buffer. */
  function Drain<X>(h: Handler<X>, x: X, b: Bytes): Loop<X>
    decreases |b|
  {
    if !h.running(x) then Loop(x, b)
    else match ExtractFrame(b)
      case NeedMore => Loop(x, b)
      case Panic => Loop(h.crash(x), b)
      case Extracted(flags, payload, rest) => Drain(h, h.step(x, flags, payload), rest)
  }

  /** The outer loop: a read error ends the exchange only after its bytes were handled. */
  function Consume<X>(h: Handler<X>, l: Loop<X>, chunks: seq<Read>): Loop<X>
    decreases |chunks|
  {
    if chunks == [] || !h.running(l.x) then l
    else
      var next := Drain(h, l.x, l.pending + chunks[0].data);
      if h.running(next.x) && chunks[0].failed
      then next.(x := h.drop(next.x))
      else Consume(h, next, chunks[1..])
  }

  lemma DrainOne<X(!new)>(h: Handler<X>, x: X, b: Bytes)
    requires Halts(h) && h.running(x)
    ensures var e := ExtractFrame(b);
            && (e.NeedMore? ==> Drain(h, x, b) == Loop(x, b))
            && (e.Panic? ==> Drain(h, x, b) == Loop(h.crash(x), b) == Drain(h, h.crash(x), b))
            && (e.Extracted? ==> Drain(h, x, b) == Drain(h, h.step(x, e.flags, e.payload), e.rest))
  {
  }

  lemma ConsumeUnfolds<X>(h: Handler<X>, l: Loop<X>, chunks: seq<Read>, i: nat)
    requires i < |chunks| && h.running(l.x)
    ensures var next := Drain(h, l.x, l.pending + chunks[i].data);
            Consume(h, l, chunks[i..]) ==
              if !h.running(next.x) then next
              else if chunks[i].failed then next.(x := h.drop(next.x))
              else Consume(h, next, chunks[i + 1..])
  {
    assert chunks[i..][0] == chunks[i] && chunks[i..][1..] == chunks[i + 1..];
  }

  // ---- the stream seen at once ----

  /** The bytes delivered up to and including the first failing read. */
  function Delivered(chunks: seq<Read>): Bytes {
    if chunks == [] then []
    else if chunks[0].failed then chunks[0].data
    else chunks[0].data + Delivered(chunks[1..])
  }

  predicate Fails(chunks: seq<Read>) {
    chunks != [] && (chunks[0].failed || Fails(chunks[1..]))
  }

  /** Extraction free of the buffer-size wrap: what one unbounded buffer would see. */
  function WideExtract(b: Bytes): (r: Extraction)
    ensures r.Extracted? ==> |r.rest| < |b|
  {
    if |b| >= 5 && DeclaredLength(b) > TWO32 - 6 then Panic else UnboundedExtract(b)
  }

  function WideDrain<X>(h: Handler<X>, x: X, b: Bytes): Loop<X>
    decreases |b|
  {
    if !h.running(x) then Loop(x, b)
    else match WideExtract(b)
      case NeedMore => Loop(x, b)
      case Panic => Loop(h.crash(x), b)
      case Extracted(flags, payload, rest) => WideDrain(h, h.step(x, flags, payload), rest)
  }

  /** Parsing the whole concatenation at once, then meeting the read error if there is one. */
  function AtOnce<X>(h: Handler<X>, x: X, stream: Bytes, failed: bool): X {
    var y := WideDrain(h, x, stream).x;
    if h.running(y) && failed then h.drop(y) else y
  }

  // ---- extraction is stable under more bytes ----

  lemma WideExtractMonotone(a: Bytes, b: Bytes)
    ensures WideExtract(a).Panic? ==> WideExtract(a + b).Panic?
    ensures var r := WideExtract(a);
            r.Extracted? ==> WideExtract(a + b) == Extracted(r.flags, r.payload, r.rest + b)
  {
    if |a| >= 5 {
      assert (a + b)[1..5] == a[1..5];
      var end := 5 + DeclaredLength(a);
      if end <= |a| {
        assert (a + b)[5..end] == a[5..end];
        assert (a + b)[end..] == a[end..] + b;
      }
    }
  }

  lemma BoundedDrainIsWide<X>(h: Handler<X>, x: X, b: Bytes)
    requires |b| < TWO32
    ensures Drain(h, x, b) == WideDrain(h, x, b)
    decreases |b|
  {
    if |b| >= 5 {
      AgreesWithUnboundedExactly(b);
    }
    assert ExtractFrame(b) == WideExtract(b);
    match WideExtract(b)
    case Extracted(flags, payload, rest) =>
      if h.running(x) {
        BoundedDrainIsWide(h, h.step(x, flags, payload), rest);
      }
    case _ =>
  }

  /** Handling a prefix first, then what it left followed by the rest, changes nothing. */
  lemma {:induction false} WideDrainSplit<X(!new)>(h: Handler<X>, x: X, a: Bytes, b: Bytes)
    requires Halts(h)
    ensures var first := WideDrain(h, x, a);
            WideDrain(h, x, a + b).x == WideDrain(h, first.x, first.pending + b).x
    ensures var first := WideDrain(h, x, a);
            h.running(first.x) ==> WideDrain(h, x, a + b) == WideDrain(h, first.x, first.pending + b)
    decreases |a|
  {
    WideExtractMonotone(a, b);
    match WideExtract(a)
    case Extracted(flags, payload, rest) =>
      if h.running(x) {
        WideDrainSplit(h, h.step(x, flags, payload), rest, b);
      }
    case _ =>
  }

  /** An idle buffer never holds a complete frame. */
  lemma {:induction false} WideDrainLeavesPartialFrame<X(!new)>(h: Handler<X>, x: X, b: Bytes)
    requires Halts(h)
    requires h.running(WideDrain(h, x, b).x)
    ensures WideExtract(WideDrain(h, x, b).pending) == NeedMore
    ensures |WideDrain(h, x, b).pending| <= |b|
    decreases |b|
  {
    match WideExtract(b)
    case Extracted(flags, payload, rest) =>
      WideDrainLeavesPartialFrame(h, h.step(x, flags, payload), rest);
    case _ =>
  }

  // ---- chunking independence ----

  /** The buffer stays below 2^32 at every read. */
  ghost predicate BuffersFit<X>(h: Handler<X>, l: Loop<X>, chunks: seq<Read>)
    decreases |chunks|
  {
    chunks != [] && h.running(l.x) ==>
      && |l.pending + chunks[0].data| < TWO32
      && (!chunks[0].failed ==> BuffersFit(h, WideDrain(h, l.x, l.pending + chunks[0].data), chunks[1..]))
  }

  lemma AtOnceSplit<X(!new)>(h: Handler<X>, x: X, a: Bytes, b: Bytes, failed: bool)
    requires Halts(h)
    ensures var first := WideDrain(h, x, a);
            AtOnce(h, x, a + b, failed) ==
              if h.running(first.x) then AtOnce(h, first.x, first.pending + b, failed) else first.x
  {
    WideDrainSplit(h, x, a, b);
  }

  lemma {:induction false} ChunkingFromAnyState<X(!new)>(h: Handler<X>, l: Loop<X>, chunks: seq<Read>)
    requires Halts(h)
    requires BuffersFit(h, l, chunks)
    requires h.running(l.x) ==> WideExtract(l.pending) == NeedMore
    ensures Consume(h, l, chunks).x ==
            if h.running(l.x) then AtOnce(h, l.x, l.pending + Delivered(chunks), Fails(chunks)) else l.x
    decreases |chunks|
  {
    if h.running(l.x) {
      if chunks == [] {
        assert l.pending + Delivered(chunks) == l.pending;
      } else {
        ChunkingStep(h, l, chunks);
      }
    }
  }

  lemma {:induction false} ChunkingStep<X(!new)>(h: Handler<X>, l: Loop<X>, chunks: seq<Read>)
    requires Halts(h)
    requires BuffersFit(h, l, chunks) && chunks != [] && h.running(l.x)
    ensures Consume(h, l, chunks).x == AtOnce(h, l.x, l.pending + Delivered(chunks), Fails(chunks))
    decreases |chunks|, 0
  {
    var b := l.pending + chunks[0].data;
    BoundedDrainIsWide(h, l.x, b);
    var next := WideDrain(h, l.x, b);
    if chunks[0].failed {
      assert Consume(h, l, chunks).x == if h.running(next.x) then h.drop(next.x) else next.x;
    } else {
      assert Consume(h, l, chunks) == Consume(h, next, chunks[1..]);
      Associative(l.pending, chunks[0].data, Delivered(chunks[1..]));
      AtOnceSplit(h, l.x, b, Delivered(chunks[1..]), Fails(chunks));
      if h.running(next.x) {
        WideDrainLeavesPartialFrame(h, l.x, b);
      }
      ChunkingFromAnyState(h, next, chunks[1..]);
    }
  }

  lemma {:induction false} ShortStreamFits<X(!new)>(h: Handler<X>, l: Loop<X>, chunks: seq<Read>)
    requires Halts(h)
    requires |l.pending| + |Delivered(chunks)| < TWO32
    ensures BuffersFit(h, l, chunks)
    decreases |chunks|
  {
    if chunks != [] && h.running(l.x) {
      var b := l.pending + chunks[0].data;
      var next := WideDrain(h, l.x, b);
      if !chunks[0].failed {
        if h.running(next.x) {
          WideDrainLeavesPartialFrame(h, l.x, b);
          ShortStreamFits(h, next, chunks[1..]);
        }
      }
    }
  }

  /** However the stream is cut into chunks, the exchange ends exactly as if parsed at once. */
  lemma ChunkingIndependence<X(!new)>(h: Handler<X>, x: X, chunks: seq<Read>)
    requires Halts(h)
    requires h.running(x) && |Delivered(chunks)| < TWO32
    ensures Consume(h, Loop(x, []), chunks).x ==
            AtOnce(h, x, Delivered(chunks), Fails(chunks))
  {
    ShortStreamFits(h, Loop(x, []), chunks);
    ChunkingFromAnyState(h, Loop(x, []), chunks);
    assert [] + Delivered(chunks) == Delivered(chunks);
  }

  /** Two ways of cutting one stream give one outcome. */
  lemma AnyTwoChunkingsAgree<X(!new)>(h: Handler<X>, x: X, chunks: seq<Read>, other: seq<Read>)
    requires Halts(h)
    requires Delivered(chunks) == Delivered(other) && Fails(chunks) == Fails(other)
    requires h.running(x) && |Delivered(chunks)| < TWO32
    ensures Consume(h, Loop(x, []), chunks).x == Consume(h, Loop(x, []), other).x
  {
    ChunkingIndependence(h, x, chunks);
    ChunkingIndependence(h, x, other);
  }

  // ---- streams of any length, when no frame is nearly 4 GiB ----

  const READ_BUFFER: int := 32 * 1024

  /** The largest declared length for which pending bytes plus one read stay below 2^32. */
  const LARGEST_SAFE_FRAME: int := TWO32 - READ_BUFFER - 5

  /** Every frame header met while parsing declares at most the safe length. */
  predicate ModestFrames(b: Bytes)
    decreases |b|
  {
    |b| >= 5 ==>
      DeclaredLength(b) <= LARGEST_SAFE_FRAME
        && (UnboundedExtract(b).Extracted? ==> ModestFrames(UnboundedExtract(b).rest))
  }

  lemma {:induction false} DrainKeepsModest<X(!new)>(h: Handler<X>, x: X, a: Bytes, b: Bytes)
    requires Halts(h)
    requires ModestFrames(a + b)
    requires h.running(WideDrain(h, x, a).x)
    ensures ModestFrames(WideDrain(h, x, a).pending + b)
    decreases |a|
  {
    WideExtractMonotone(a, b);
    match WideExtract(a)
    case Extracted(flags, payload, rest) =>
      assert UnboundedExtract(a + b) == WideExtract(a + b);
      DrainKeepsModest(h, h.step(x, flags, payload), rest, b);
    case _ =>
  }

  lemma PartialFrameIsModest(b: Bytes, more: Bytes)
    requires ModestFrames(b + more) && WideExtract(b) == NeedMore
    ensures |b| <= LARGEST_SAFE_FRAME + 4
  {
    if |b| >= 5 {
      assert (b + more)[1..5] == b[1..5];
    }
  }

  lemma {:induction false} ModestStreamFits<X(!new)>(h: Handler<X>, l: Loop<X>, chunks: seq<Read>)
    requires Halts(h)
    requires forall i :: 0 <= i < |chunks| ==> |chunks[i].data| <= READ_BUFFER
    requires ModestFrames(l.pending + Delivered(chunks))
    requires h.running(l.x) ==> WideExtract(l.pending) == NeedMore
    ensures BuffersFit(h, l, chunks)
    decreases |chunks|
  {
    if chunks != [] && h.running(l.x) {
      PartialFrameIsModest(l.pending, Delivered(chunks));
      if !chunks[0].failed {
        var b, tail := l.pending + chunks[0].data, Delivered(chunks[1..]);
        assert l.pending + Delivered(chunks) == b + tail;
        var next := WideDrain(h, l.x, b);
        if h.running(next.x) {
          WideDrainLeavesPartialFrame(h, l.x, b);
          DrainKeepsModest(h, l.x, b, tail);
          ModestStreamFits(h, next, chunks[1..]);
        }
      }
    }
  }

  /** Chunking independence with no bound on the stream, for the loop's own 32 KiB chunks. */
  lemma UnboundedChunkingIndependence<X(!new)>(h: Handler<X>, x: X, chunks: seq<Read>)
    requires Halts(h)
    requires forall i :: 0 <= i < |chunks| ==> |chunks[i].data| <= READ_BUFFER
    requires h.running(x) && ModestFrames(Delivered(chunks))
    ensures Consume(h, Loop(x, []), chunks).x ==
            AtOnce(h, x, Delivered(chunks), Fails(chunks))
  {
    assert [] + Delivered(chunks) == Delivered(chunks);
    ModestStreamFits(h, Loop(x, []), chunks);
    ChunkingFromAnyState(h, Loop(x, []), chunks);
  }
}
