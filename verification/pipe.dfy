// The request-body pipe, as far as the exchange relies on it.
//
// Trusted contract of io.Pipe: one Write at a time owns the pipe, its bytes
// reach the reader in order, and closing either end makes a pending Write fail
// with nothing more of it delivered.
module Pipes {
  import opened Basics
  import opened Frames

  datatype Actor = Reader | Initial | Heartbeat

  datatype Current = Current(who: Actor, raw: Message, sent: nat)

  datatype Pipe = Pipe(
    current: Option<Current>,   // the Write that owns the pipe
    done: bool,                 // either end closed
    draining: bool,             // the transport still reads
    written: seq<Message>,        // messages whose Write returned nil, in that order
    wire: Bytes,                // bytes the transport has taken
    torn: Option<Current>       // a Write that failed after part of it was taken
  )

  /** A marshalled message always fits the envelope's length field. */
  type Message = raw: Bytes | |raw| < TWO32

  function Frame(raw: Message): Bytes {
    FrameConnectMessage(raw, 0)
  }

  function Own(p: Pipe, who: Actor, raw: Message): Option<Pipe> {
    if p.current == None then Some(p.(current := Some(Current(who, raw, 0)))) else None
  }

  /** The transport takes the next n bytes of the write in progress. */
  function Take(p: Pipe, n: nat): Option<Pipe> {
    if p.current.Some? && p.draining && !p.done && 0 < n && p.current.value.sent + n <= 5 + |p.current.value.raw| then
      var c := p.current.value;
      Some(p.(wire := p.wire + Frame(c.raw)[c.sent..c.sent + n], current := Some(c.(sent := c.sent + n))))
    else None
  }

  function Complete(p: Pipe): Option<Pipe> {
    if p.current.Some? && p.current.value.sent == 5 + |p.current.value.raw| then
      Some(p.(current := None, written := p.written + [p.current.value.raw]))
    else None
  }

  function Break(p: Pipe): Option<Pipe> {
    if p.current.Some? && p.done && p.current.value.sent < 5 + |p.current.value.raw| then
      Some(p.(current := None, torn := if p.current.value.sent > 0 then p.current else p.torn))
    else None
  }

  // ---- whole frames on the wire ----

  lemma {:induction false} FramedSnoc(raws: seq<Message>, raw: Message)
    ensures Framed(raws + [raw]) == Framed(raws) + Frame(raw)
  {
    if raws == [] {
      assert [raw][1..] == [] && [] + [raw] == [raw];
    } else {
      FramedSnoc(raws[1..], raw);
      assert (raws + [raw])[1..] == raws[1..] + [raw];
    }
  }

  predicate Within(c: Current) {
    c.sent <= 5 + |c.raw|
  }

  function Part(c: Option<Current>): Bytes
    requires c.Some? ==> Within(c.value)
  {
    if c.Some? then Frame(c.value.raw)[..c.value.sent] else []
  }

  predicate PipeInv(p: Pipe) {
    && (p.current.Some? ==> Within(p.current.value))
    && (p.torn.Some? ==> Within(p.torn.value) && 0 < p.torn.value.sent < 5 + |p.torn.value.raw|)
    && (p.torn.Some? ==> p.done && (p.current.Some? ==> p.current.value.sent == 0))
    && p.wire == Framed(p.written) + Part(p.torn) + Part(p.current)
  }

  lemma OwnKeeps(p: Pipe, who: Actor, raw: Message)
    requires PipeInv(p) && Own(p, who, raw).Some?
    ensures PipeInv(Own(p, who, raw).value)
  {
    assert Part(Own(p, who, raw).value.current) == [];
  }

  lemma TakeKeeps(p: Pipe, n: nat)
    requires PipeInv(p) && Take(p, n).Some?
    ensures PipeInv(Take(p, n).value)
  {
    var c := p.current.value;
    PrefixGrows(Frame(c.raw), c.sent, n);
    Extends(Framed(p.written), Part(p.torn), Part(p.current), Frame(c.raw)[c.sent..c.sent + n]);
  }

  lemma PrefixGrows(f: Bytes, sent: nat, n: nat)
    requires sent + n <= |f|
    ensures f[..sent] + f[sent..sent + n] == f[..sent + n]
  {
  }

  lemma Extends(w: Bytes, torn: Bytes, part: Bytes, more: Bytes)
    ensures (w + torn + part) + more == w + torn + (part + more)
  {
  }

  lemma Settle(w: Bytes, torn: Bytes, part: Bytes)
    requires torn == []
    ensures w + torn + part == (w + part) + torn + [] == w + part + []
  {
  }

  lemma CompleteKeeps(p: Pipe)
    requires PipeInv(p) && Complete(p).Some?
    ensures PipeInv(Complete(p).value)
  {
    var q, raw := Complete(p).value, p.current.value.raw;
    FramedSnoc(p.written, raw);
    assert Part(p.current) == Frame(raw);
    Settle(Framed(p.written), Part(p.torn), Part(p.current));
  }

  lemma BreakKeeps(p: Pipe)
    requires PipeInv(p) && Break(p).Some?
    ensures PipeInv(Break(p).value)
  {
    var w, q := Framed(p.written), Break(p).value;
    if p.current.value.sent > 0 {
      assert Part(p.torn) == [] && Part(q.torn) == Part(p.current);
      Settle(w, Part(p.torn), Part(p.current));
    } else {
      assert Part(p.current) == [] && q.torn == p.torn;
    }
  }

  lemma ClosingKeeps(p: Pipe)
    requires PipeInv(p)
    ensures PipeInv(p.(done := true)) && PipeInv(p.(draining := false))
  {
  }

  /** What a receiver reads off the wire. */
  function Parse(b: Bytes): seq<Bytes>
    decreases |b|
  {
    match UnboundedExtract(b)
    case Extracted(_, payload, rest) => [payload] + Parse(rest)
    case _ => []
  }

  lemma ParseOne(raw: Message, rest: Bytes)
    ensures Parse(Frame(raw) + rest) == [raw] + Parse(rest)
  {
    FrameRoundTripUnbounded(raw, 0, rest);
  }

  lemma FramedHead(raws: seq<Message>, tail: Bytes)
    requires raws != []
    ensures Framed(raws) + tail == Frame(raws[0]) + (Framed(raws[1..]) + tail)
  {
  }

  lemma {:induction false} ParseFramed(raws: seq<Message>, tail: Bytes)
    ensures Parse(Framed(raws) + tail) == raws + Parse(tail)
  {
    if raws == [] {
      assert Framed(raws) + tail == tail;
    } else {
      FramedHead(raws, tail);
      ParseOne(raws[0], Framed(raws[1..]) + tail);
      ParseFramed(raws[1..], tail);
      ConsAppend(raws, Parse(tail));
    }
  }

  /** A frame cut short is not seen at all; a whole one is. */
  lemma ParsePart(raw: Message, k: nat)
    requires k <= 5 + |raw|
    ensures Parse(Frame(raw)[..k]) == if k == 5 + |raw| then [raw] else []
  {
    HeaderOfFrame(raw, 0, []);
    assert Frame(raw) + [] == Frame(raw);
    if k == 5 + |raw| {
      ParseOne(raw, []);
      assert Frame(raw)[..k] == Frame(raw);
    } else if k >= 5 {
      assert Frame(raw)[..k][1..5] == Frame(raw)[1..5];
    }
  }

  /** Complete frames in the order written, then at most the beginning of one more; the
      receiver reads back exactly the messages whose last byte was taken, in that order. */
  lemma WholeFramesOnTheWire(p: Pipe) returns (raw: Message, k: nat)
    requires PipeInv(p)
    ensures k <= 5 + |raw|
    ensures p.wire == Framed(p.written) + Frame(raw)[..k]
    ensures Parse(p.wire) == p.written + if k == 5 + |raw| then [raw] else []
    ensures k == 5 + |raw| ==> p.current.Some? && p.current.value.raw == raw && p.current.value.sent == k
  {
    var c := if p.torn.Some? then p.torn else p.current;
    raw, k := if c.Some? then c.value.raw else [], if c.Some? then c.value.sent else 0;
    ParseFramed(p.written, Frame(raw)[..k]);
    ParsePart(raw, k);
    OnePart(Framed(p.written), p.torn, p.current, raw, k);
  }

  lemma OnePart(w: Bytes, t: Option<Current>, c: Option<Current>, raw: Message, k: nat)
    requires (t.Some? ==> Within(t.value)) && (c.Some? ==> Within(c.value)) && k <= 5 + |raw|
    requires t.Some? && c.Some? ==> c.value.sent == 0
    requires var d := if t.Some? then t else c;
             if d.Some? then raw == d.value.raw && k == d.value.sent else raw == [] && k == 0
    ensures w + Part(t) + Part(c) == w + Frame(raw)[..k]
  {
    var f := Frame(raw)[..k];
    if t.Some? {
      assert Part(t) == f && Part(c) == [];
    } else if c.Some? {
      assert Part(t) == [] && Part(c) == f;
    } else {
      assert Part(t) == [] && Part(c) == [] && f == [];
    }
  }
}
