// A conversation's history as content-addressed blobs: every user text, step
// and turn is marshalled, stored under the hash of its bytes, and referred to
// by that id; the server resolves the ids back through the store.
module BlobGraphs {
  import opened Basics
  import opened BlobStores
  import opened History

  datatype Node =
    | UserNode(text: string)
    | StepNode(step: Step)
    | TurnNode(user: Bytes, steps: seq<Bytes>)

  datatype RootEntry = RootEntry(role: string, text: string)

  /** The parts of a turn: the id of its user text, and those of its steps. */
  datatype TurnParts = TurnParts(user: Bytes, steps: seq<Bytes>)

  /** The codecs, as parameters.  proto.Marshal is not deterministic: the second argument
      numbers the call, and two calls on one value may give different bytes.  Bytes do not tell
      their message type, so whoever reads them back decodes them as the type expected: a user
      text and a step may well share their bytes.  marshal gives None for what no program value
      stands for, such as a variant with a message of some other type. */
  datatype Codec = Codec(
    hash: Bytes -> Bytes,
    marshal: (Node, nat) -> Option<Bytes>,
    unmarshalUser: Bytes -> Option<string>,
    unmarshalStep: Bytes -> Option<Step>,
    unmarshalTurn: Bytes -> Option<TurnParts>,
    renderRoot: RootEntry -> Option<Bytes>,
    parseRoot: Bytes -> Option<RootEntry>
  )

  /** Each message type reads back what was written as that type. */
  ghost predicate Lawful(c: Codec) {
    && (forall text: string, k: nat :: var b := c.marshal(UserNode(text), k);
          b.Some? ==> c.unmarshalUser(b.value) == Some(text))
    && (forall step: Step, k: nat :: var b := c.marshal(StepNode(step), k);
          b.Some? ==> c.unmarshalStep(b.value) == Some(step))
    && (forall user: Bytes, steps: seq<Bytes>, k: nat :: var b := c.marshal(TurnNode(user, steps), k);
          b.Some? ==> c.unmarshalTurn(b.value) == Some(TurnParts(user, steps)))
  }

  /** The prompt entries, which are JSON, read back as written. */
  ghost predicate RootsLawful(c: Codec) {
    forall e: RootEntry :: c.renderRoot(e).Some? ==> c.parseRoot(c.renderRoot(e).value) == Some(e)
  }

  /** Marshalling one value always gives the same bytes. */
  ghost predicate Deterministic(c: Codec) {
    forall n: Node, k: nat :: c.marshal(n, k) == c.marshal(n, 0)
  }

  // ---- encoding as a function ----

  /** Ids for the caller, the blobs put on the way, and the number of the next marshal call. */
  datatype Encoded = Encoded(ids: seq<Bytes>, blobs: seq<Bytes>, calls: nat)

  function EncodeNode(c: Codec, n: Node, k: nat): Option<Encoded> {
    match c.marshal(n, k)
    case None => None
    case Some(b) => Some(Encoded([c.hash(b)], [b], k + 1))
  }

  function EncodeSteps(c: Codec, steps: seq<Step>, k: nat): (r: Option<Encoded>)
    ensures r.Some? ==> |r.value.ids| == |steps|
  {
    if steps == [] then Some(Encoded([], [], k))
    else
      match EncodeSteps(c, steps[..|steps| - 1], k)
      case None => None
      case Some(front) =>
        match EncodeNode(c, StepNode(steps[|steps| - 1]), front.calls)
        case None => None
        case Some(last) => Some(Encoded(front.ids + last.ids, front.blobs + last.blobs, last.calls))
  }

  function EncodeTurn(c: Codec, t: Turn, k: nat): (r: Option<Encoded>)
    ensures r.Some? ==> |r.value.ids| == 1
  {
    match EncodeNode(c, UserNode(t.userText), k)
    case None => None
    case Some(user) =>
      match EncodeSteps(c, t.steps, user.calls)
      case None => None
      case Some(steps) =>
        match EncodeNode(c, TurnNode(user.ids[0], steps.ids), steps.calls)
        case None => None
        case Some(turn) => Some(Encoded(turn.ids, user.blobs + steps.blobs + turn.blobs, turn.calls))
  }

  function EncodeTurns(c: Codec, turns: seq<Turn>, k: nat): (r: Option<Encoded>)
    ensures r.Some? ==> |r.value.ids| == |turns|
  {
    if turns == [] then Some(Encoded([], [], k))
    else
      match EncodeTurns(c, turns[..|turns| - 1], k)
      case None => None
      case Some(front) =>
        match EncodeTurn(c, turns[|turns| - 1], front.calls)
        case None => None
        case Some(last) => Some(Encoded(front.ids + last.ids, front.blobs + last.blobs, last.calls))
  }

  function Puts(c: Codec, blobs: seq<Bytes>): seq<Write> {
    seq(|blobs|, i requires 0 <= i < |blobs| => Write(c.hash(blobs[i]), blobs[i]))
  }

  // ---- resolving ids, as the server does ----

  function ResolveUser(c: Codec, store: Store, id: Bytes): Option<string> {
    match Get(store, id)
    case None => None
    case Some(b) => c.unmarshalUser(b)
  }

  function ResolveStep(c: Codec, store: Store, id: Bytes): Option<Step> {
    match Get(store, id)
    case None => None
    case Some(b) => c.unmarshalStep(b)
  }

  function ResolveSteps(c: Codec, store: Store, ids: seq<Bytes>): Option<seq<Step>> {
    if ids == [] then Some([])
    else
      match (ResolveSteps(c, store, ids[..|ids| - 1]), ResolveStep(c, store, ids[|ids| - 1]))
      case (Some(front), Some(s)) => Some(front + [s])
      case _ => None
  }

  function ResolveParts(c: Codec, store: Store, id: Bytes): Option<TurnParts> {
    match Get(store, id)
    case None => None
    case Some(b) => c.unmarshalTurn(b)
  }

  function ResolveTurn(c: Codec, store: Store, id: Bytes): Option<Turn> {
    match ResolveParts(c, store, id)
    case None => None
    case Some(parts) =>
      match (ResolveUser(c, store, parts.user), ResolveSteps(c, store, parts.steps))
      case (Some(text), Some(steps)) => Some(Turn(text, steps))
      case _ => None
  }

  function ResolveTurns(c: Codec, store: Store, ids: seq<Bytes>): Option<seq<Turn>> {
    if ids == [] then Some([])
    else
      match (ResolveTurns(c, store, ids[..|ids| - 1]), ResolveTurn(c, store, ids[|ids| - 1]))
      case (Some(front), Some(t)) => Some(front + [t])
      case _ => None
  }

  // ---- what the store must hold ----

  ghost predicate Holds(c: Codec, store: Store, blobs: seq<Bytes>) {
    forall i :: 0 <= i < |blobs| ==> Get(store, c.hash(blobs[i])) == Some(blobs[i])
  }

  /** The hash tells the blobs in question apart. */
  ghost predicate CollisionFree(c: Codec, blobs: seq<Bytes>) {
    forall i, j :: 0 <= i < |blobs| && 0 <= j < |blobs| && c.hash(blobs[i]) == c.hash(blobs[j]) ==> blobs[i] == blobs[j]
  }

  /** Writes that put no other data under the id of one of these blobs. */
  ghost predicate Harmless(c: Codec, blobs: seq<Bytes>, later: seq<Write>) {
    forall i, j :: 0 <= i < |later| && 0 <= j < |blobs| && later[i].id == c.hash(blobs[j]) ==> later[i].data == blobs[j]
  }

  lemma {:induction false} LatestHarmless(c: Codec, blobs: seq<Bytes>, writes: seq<Write>, j: nat)
    requires Harmless(c, blobs, writes) && j < |blobs|
    ensures var l := Latest(writes, c.hash(blobs[j])); l.Some? ==> l.value == blobs[j]
    ensures (exists i :: 0 <= i < |writes| && writes[i].id == c.hash(blobs[j])) ==>
        Latest(writes, c.hash(blobs[j])).Some?
  {
    if writes != [] {
      var front := writes[..|writes| - 1];
      assert Harmless(c, blobs, front);
      LatestHarmless(c, blobs, front, j);
      if i :| 0 <= i < |writes| && writes[i].id == c.hash(blobs[j]) {
        assert i < |front| ==> front[i].id == c.hash(blobs[j]);
      }
    }
  }

  /** Harmless writes, whoever makes them, keep every blob readable. */
  lemma HarmlessWritesKeep(c: Codec, store: Store, blobs: seq<Bytes>, later: seq<Write>)
    requires Holds(c, store, blobs) && Harmless(c, blobs, later)
    ensures Holds(c, Apply(store, later), blobs)
  {
    forall j | 0 <= j < |blobs| ensures Get(Apply(store, later), c.hash(blobs[j])) == Some(blobs[j]) {
      GetIsLatestWrite(store, later, c.hash(blobs[j]));
      LatestHarmless(c, blobs, later, j);
    }
  }

  /** Putting the blobs makes them readable, whatever the store held before. */
  lemma PutsHold(c: Codec, store: Store, blobs: seq<Bytes>)
    requires CollisionFree(c, blobs)
    ensures Holds(c, Apply(store, Puts(c, blobs)), blobs)
  {
    var writes := Puts(c, blobs);
    forall j | 0 <= j < |blobs| ensures Get(Apply(store, writes), c.hash(blobs[j])) == Some(blobs[j]) {
      GetIsLatestWrite(store, writes, c.hash(blobs[j]));
      assert writes[j].id == c.hash(blobs[j]);
      LatestHarmless(c, blobs, writes, j);
    }
  }

  lemma HoldsPart(c: Codec, store: Store, a: seq<Bytes>, b: seq<Bytes>)
    requires Holds(c, store, a + b)
    ensures Holds(c, store, a) && Holds(c, store, b)
  {
    assert forall i :: 0 <= i < |a| ==> (a + b)[i] == a[i];
    assert forall i :: 0 <= i < |b| ==> (a + b)[|a| + i] == b[i];
  }

  // ---- round trip ----

  /** What marshalling a node gave is found under the node's id. */
  lemma NodeIsStored(c: Codec, store: Store, n: Node, k: nat)
    requires EncodeNode(c, n, k).Some? && Holds(c, store, EncodeNode(c, n, k).value.blobs)
    ensures Get(store, EncodeNode(c, n, k).value.ids[0]) == c.marshal(n, k)
  {
    var e := EncodeNode(c, n, k).value;
    assert Get(store, c.hash(e.blobs[0])) == Some(e.blobs[0]);
  }

  lemma StepResolves(c: Codec, store: Store, step: Step, k: nat)
    requires Lawful(c) && EncodeNode(c, StepNode(step), k).Some?
    requires Holds(c, store, EncodeNode(c, StepNode(step), k).value.blobs)
    ensures ResolveStep(c, store, EncodeNode(c, StepNode(step), k).value.ids[0]) == Some(step)
  {
    NodeIsStored(c, store, StepNode(step), k);
  }

  lemma {:induction false} StepsResolve(c: Codec, store: Store, steps: seq<Step>, k: nat)
    requires Lawful(c) && EncodeSteps(c, steps, k).Some? && Holds(c, store, EncodeSteps(c, steps, k).value.blobs)
    ensures ResolveSteps(c, store, EncodeSteps(c, steps, k).value.ids) == Some(steps)
  {
    if steps != [] {
      var n := |steps| - 1;
      var front := EncodeSteps(c, steps[..n], k).value;
      var last := EncodeNode(c, StepNode(steps[n]), front.calls).value;
      HoldsPart(c, store, front.blobs, last.blobs);
      StepsResolve(c, store, steps[..n], k);
      StepResolves(c, store, steps[n], front.calls);
      assert (front.ids + last.ids)[..n] == front.ids && (front.ids + last.ids)[n] == last.ids[0];
      assert steps[..n] + [steps[n]] == steps;
    }
  }

  lemma TurnResolves(c: Codec, store: Store, t: Turn, k: nat)
    requires Lawful(c) && EncodeTurn(c, t, k).Some? && Holds(c, store, EncodeTurn(c, t, k).value.blobs)
    ensures ResolveTurn(c, store, EncodeTurn(c, t, k).value.ids[0]) == Some(t)
  {
    var user := EncodeNode(c, UserNode(t.userText), k).value;
    var steps := EncodeSteps(c, t.steps, user.calls).value;
    var node := TurnNode(user.ids[0], steps.ids);
    var turn := EncodeNode(c, node, steps.calls).value;
    HoldsPart(c, store, user.blobs + steps.blobs, turn.blobs);
    HoldsPart(c, store, user.blobs, steps.blobs);
    NodeIsStored(c, store, UserNode(t.userText), k);
    StepsResolve(c, store, t.steps, user.calls);
    NodeIsStored(c, store, node, steps.calls);
    assert ResolveParts(c, store, turn.ids[0]) == Some(TurnParts(user.ids[0], steps.ids));
    assert ResolveUser(c, store, user.ids[0]) == Some(t.userText);
  }

  lemma ResolveSnoc(c: Codec, store: Store, ids: seq<Bytes>, id: Bytes, turns: seq<Turn>, t: Turn)
    requires ResolveTurns(c, store, ids) == Some(turns) && ResolveTurn(c, store, id) == Some(t)
    ensures ResolveTurns(c, store, ids + [id]) == Some(turns + [t])
  {
    assert (ids + [id])[..|ids|] == ids;
  }

  lemma Snoc(turns: seq<Turn>, ids: seq<Bytes>)
    requires turns != [] && |ids| == 1
    ensures ids == [ids[0]] && turns[..|turns| - 1] + [turns[|turns| - 1]] == turns
  {
  }

  lemma {:induction false} TurnsResolve(c: Codec, store: Store, turns: seq<Turn>, k: nat)
    requires Lawful(c) && EncodeTurns(c, turns, k).Some? && Holds(c, store, EncodeTurns(c, turns, k).value.blobs)
    ensures ResolveTurns(c, store, EncodeTurns(c, turns, k).value.ids) == Some(turns)
  {
    if turns != [] {
      var n := |turns| - 1;
      var front := EncodeTurns(c, turns[..n], k).value;
      var last := EncodeTurn(c, turns[n], front.calls).value;
      HoldsPart(c, store, front.blobs, last.blobs);
      TurnsResolve(c, store, turns[..n], k);
      TurnResolves(c, store, turns[n], front.calls);
      Snoc(turns, last.ids);
      ResolveSnoc(c, store, front.ids, last.ids[0], turns[..n], turns[n]);
    }
  }

  // ---- ids are stable under a deterministic codec ----

  lemma {:induction false} StepIdsStable(c: Codec, steps: seq<Step>, k: nat, l: nat)
    requires Deterministic(c)
    ensures EncodeSteps(c, steps, k).Some? <==> EncodeSteps(c, steps, l).Some?
    ensures EncodeSteps(c, steps, k).Some? ==> EncodeSteps(c, steps, k).value.ids == EncodeSteps(c, steps, l).value.ids
  {
    if steps != [] {
      var n := |steps| - 1;
      StepIdsStable(c, steps[..n], k, l);
      var node := StepNode(steps[n]);
      if EncodeSteps(c, steps[..n], k).Some? {
        var a, b := EncodeSteps(c, steps[..n], k).value.calls, EncodeSteps(c, steps[..n], l).value.calls;
        assert c.marshal(node, a) == c.marshal(node, 0) == c.marshal(node, b);
      }
    }
  }

  lemma TurnIdStable(c: Codec, t: Turn, k: nat, l: nat)
    requires Deterministic(c)
    ensures EncodeTurn(c, t, k).Some? <==> EncodeTurn(c, t, l).Some?
    ensures EncodeTurn(c, t, k).Some? ==> EncodeTurn(c, t, k).value.ids == EncodeTurn(c, t, l).value.ids
  {
    assert c.marshal(UserNode(t.userText), k) == c.marshal(UserNode(t.userText), 0) ==
      c.marshal(UserNode(t.userText), l);
    StepIdsStable(c, t.steps, k + 1, l + 1);
    if c.marshal(UserNode(t.userText), k).Some? && EncodeSteps(c, t.steps, k + 1).Some? {
      var a, b := EncodeSteps(c, t.steps, k + 1).value, EncodeSteps(c, t.steps, l + 1).value;
      var node := TurnNode(c.hash(c.marshal(UserNode(t.userText), k).value), a.ids);
      assert c.marshal(node, a.calls) == c.marshal(node, 0) == c.marshal(node, b.calls);
    }
  }

  lemma {:induction false} TurnIdsExtend(c: Codec, turns: seq<Turn>, n: nat, k: nat)
    requires n <= |turns| && EncodeTurns(c, turns, k).Some?
    ensures EncodeTurns(c, turns[..n], k).Some?
    ensures EncodeTurns(c, turns, k).value.ids[..n] == EncodeTurns(c, turns[..n], k).value.ids
    ensures EncodeTurns(c, turns[..n], k).value.blobs <= EncodeTurns(c, turns, k).value.blobs
  {
    if n < |turns| {
      TurnIdsExtend(c, turns[..|turns| - 1], n, k);
      assert turns[..|turns| - 1][..n] == turns[..n];
    } else {
      assert turns[..n] == turns;
    }
  }

  lemma {:induction false} TurnIdsStable(c: Codec, turns: seq<Turn>, k: nat, l: nat)
    requires Deterministic(c)
    ensures EncodeTurns(c, turns, k).Some? <==> EncodeTurns(c, turns, l).Some?
    ensures EncodeTurns(c, turns, k).Some? ==> EncodeTurns(c, turns, k).value.ids == EncodeTurns(c, turns, l).value.ids
  {
    if turns != [] {
      var n := |turns| - 1;
      TurnIdsStable(c, turns[..n], k, l);
      if EncodeTurns(c, turns[..n], k).Some? {
        TurnIdStable(c, turns[n], EncodeTurns(c, turns[..n], k).value.calls, EncodeTurns(c, turns[..n], l).value.calls);
      }
    }
  }

  // ---- ids tell turns apart ----

  /** Where the hash tells their blobs apart, two lists of turns have the same ids only if they are the
      same turns. */
  lemma SameIdsSameTurns(c: Codec, a: seq<Turn>, b: seq<Turn>, k: nat, l: nat)
    requires Lawful(c) && EncodeTurns(c, a, k).Some? && EncodeTurns(c, b, l).Some?
    requires CollisionFree(c, EncodeTurns(c, a, k).value.blobs + EncodeTurns(c, b, l).value.blobs)
    requires EncodeTurns(c, a, k).value.ids == EncodeTurns(c, b, l).value.ids
    ensures a == b
  {
    var x, y := EncodeTurns(c, a, k).value, EncodeTurns(c, b, l).value;
    var store := Apply(map[], Puts(c, x.blobs + y.blobs));
    PutsHold(c, map[], x.blobs + y.blobs);
    HoldsPart(c, store, x.blobs, y.blobs);
    TurnsResolve(c, store, a, k);
    TurnsResolve(c, store, b, l);
  }

  lemma CollisionFreePart(c: Codec, part: seq<Bytes>, whole: seq<Bytes>)
    requires CollisionFree(c, whole) && forall b :: b in part ==> b in whole
    ensures CollisionFree(c, part)
  {
    forall i, j | 0 <= i < |part| && 0 <= j < |part| && c.hash(part[i]) == c.hash(part[j]) ensures part[i] == part[j] {
      assert part[i] in whole && part[j] in whole;
    }
  }
}
