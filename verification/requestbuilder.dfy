// The encoding loops over live state: messages are walked by index, blobs go
// into the store as they are made, and pending tool calls come and go.
module RequestBuilders {
  import opened Basics
  import opened BlobStores
  import opened Protocol
  import opened History
  import opened BlobGraphs
  import opened Requests
  import opened ToolCalls

  // ---- gluing what is done to what is left ----

  function JoinCollected(steps: seq<Step>, rest: Option<Collected>): Option<Collected> {
    if rest.None? then None else Some(rest.value.(steps := steps + rest.value.steps))
  }

  function JoinTurns(turns: seq<Turn>, rest: Option<seq<Turn>>): Option<seq<Turn>> {
    if rest.None? then None else Some(turns + rest.value)
  }

  function JoinSteps(steps: seq<Step>, rest: Option<seq<Step>>): Option<seq<Step>> {
    if rest.None? then None else Some(steps + rest.value)
  }

  /** One piece of encoding after another. */
  function Then(a: Encoded, b: Option<Encoded>): Option<Encoded> {
    if b.None? then None else Some(Encoded(a.ids + b.value.ids, a.blobs + b.value.blobs, b.value.calls))
  }

  lemma ThenAssociates(a: Encoded, b: Encoded, d: Option<Encoded>)
    ensures Then(Then(a, Some(b)).value, d) == if Then(b, d).None? then None else Then(a, Then(b, d))
  {
    if d.Some? {
      Associative(a.ids, b.ids, d.value.ids);
      Associative(a.blobs, b.blobs, d.value.blobs);
    }
  }

  lemma {:induction false} EncodeStepsAppend(c: Codec, s: seq<Step>, t: seq<Step>, k: nat)
    ensures EncodeSteps(c, s, k).None? ==> EncodeSteps(c, s + t, k).None?
    ensures EncodeSteps(c, s, k).Some? ==>
              var a := EncodeSteps(c, s, k).value;
              EncodeSteps(c, s + t, k) == Then(a, EncodeSteps(c, t, a.calls))
  {
    if t == [] {
      assert s + t == s;
      if EncodeSteps(c, s, k).Some? {
        var a := EncodeSteps(c, s, k).value;
        assert a.ids + [] == a.ids && a.blobs + [] == a.blobs;
      }
    } else {
      var front, step := t[..|t| - 1], t[|t| - 1];
      EncodeStepsAppend(c, s, front, k);
      assert (s + t)[..|s + t| - 1] == s + front && (s + t)[|s + t| - 1] == step;
      if EncodeSteps(c, s, k).Some? {
        var a := EncodeSteps(c, s, k).value;
        if EncodeSteps(c, front, a.calls).Some? {
          var b := EncodeSteps(c, front, a.calls).value;
          ThenAssociates(a, b, EncodeNode(c, StepNode(step), b.calls));
        }
      }
    }
  }

  lemma {:induction false} EncodeTurnsPrefix(c: Codec, s: seq<Turn>, t: seq<Turn>, k: nat)
    requires EncodeTurns(c, s, k).None?
    ensures EncodeTurns(c, s + t, k).None?
  {
    if t == [] {
      assert s + t == s;
    } else {
      EncodeTurnsPrefix(c, s, t[..|t| - 1], k);
      assert (s + t)[..|s + t| - 1] == s + t[..|t| - 1];
    }
  }

  lemma EncodeTurnsSnoc(c: Codec, s: seq<Turn>, t: Turn, k: nat)
    requires EncodeTurns(c, s, k).Some?
    ensures var front := EncodeTurns(c, s, k).value;
            var last := EncodeTurn(c, t, front.calls);
            EncodeTurns(c, s + [t], k) ==
              if last.None? then None
              else Some(Encoded(front.ids + last.value.ids, front.blobs + last.value.blobs, last.value.calls))
  {
    assert (s + [t])[..|s|] == s;
  }

  lemma PutsAppend(c: Codec, store: Store, a: seq<Bytes>, b: seq<Bytes>)
    ensures Apply(store, Puts(c, a + b)) == Apply(Apply(store, Puts(c, a)), Puts(c, b))
  {
    assert Puts(c, a + b) == Puts(c, a) + Puts(c, b);
    ApplyAppend(store, Puts(c, a), Puts(c, b));
  }

  /** The inner loop from i on. */
  function CollectFrom(rebuild: Rebuild, ms: seq<ChatMessage>, i: nat, pending: Pending): Option<Collected>
    requires i <= |ms|
  {
    Collect(rebuild, ms[i..], i, pending)
  }

  /** The steps the inner loop finds from i on. */
  function StepsFrom(rebuild: Rebuild, ms: seq<ChatMessage>, i: nat, pending: Pending): Option<seq<Step>>
    requires i <= |ms|
  {
    var spec := CollectFrom(rebuild, ms, i, pending);
    if spec.None? then None else Some(spec.value.steps)
  }

  /** The turn the message at i opens. */
  function TurnAt(rebuild: Rebuild, ms: seq<ChatMessage>, i: nat, pending: Pending): Option<Turn>
    requires i < |ms|
  {
    var steps := StepsFrom(rebuild, ms, i + 1, pending);
    if steps.None? then None else Some(Turn(OpeningText(ms[i]), steps.value))
  }

  /** Where the inner loop stops, and with which calls still pending. */
  predicate Continues(rebuild: Rebuild, ms: seq<ChatMessage>, i: nat, pending: Pending, next: nat, after: Pending)
    requires i <= |ms|
  {
    var spec := CollectFrom(rebuild, ms, i, pending);
    i <= next <= |ms| && spec.Some? && spec.value.rest == ms[next..] && spec.value.next == next
      && spec.value.pending == after
  }

  predicate CannotEncode(c: Codec, collected: Option<Collected>, k: nat) {
    collected.None? || EncodeSteps(c, collected.value.steps, k).None?
  }

  class RequestBuilder {
    const c: Codec
    const schema: Schema
    const routing: Routing         // what is met at each rebuilt call
    ghost const rebuild: Rebuild
    const blobs: BlobStore
    var pending: Pending
    var calls: nat
    ghost var put: seq<Bytes>      // everything put so far
    ghost const before: Store      // the store as it was found

    constructor (c: Codec, schema: Schema, routing: Routing, blobs: BlobStore, calls: nat)
      requires blobs.hash == c.hash && IsRouting(schema, routing)
      ensures Valid() && Wired() && this.c == c && this.blobs == blobs && this.schema == schema
          && this.routing == routing
      ensures pending == map[] && this.calls == calls && put == [] && before == blobs.data
    {
      this.c, this.schema, this.routing, this.blobs := c, schema, routing, blobs;
      rebuild := Routed(schema, routing);
      pending, this.calls, put, before := map[], calls, [], blobs.data;
    }

    /** The store is what it was, plus what this request put. */
    ghost predicate Valid()
      reads this, blobs
    {
      blobs.hash == c.hash && blobs.data == Apply(before, Puts(c, put))
    }

    /** Calls are rebuilt as the schema says, under the map orders given. */
    ghost predicate Wired() {
      IsRouting(schema, routing) && rebuild == Routed(schema, routing)
    }

    method RebuildAt(site: Site, name: string, argsJSON: string, resultText: string)
      returns (call: Option<CursorToolCall>)
      requires Wired()
      ensures call == rebuild(site, name, argsJSON, resultText)
    {
      call := RebuildToolCall(schema, routing(site), name, argsJSON, resultText);
    }

    method MarshalAndPut(n: Node) returns (id: Option<Bytes>)
      requires Valid()
      modifies this`calls, this`put, blobs
      ensures Valid()
      ensures var e := EncodeNode(c, n, old(calls));
              if e.None? then id == None
              else id == Some(e.value.ids[0]) && put == old(put) + e.value.blobs && calls == e.value.calls
    {
      var raw := c.marshal(n, calls);
      calls := calls + 1;
      if raw.None? {
        return None;
      }
      var blobID := blobs.Put(raw.value);
      PutsAppend(c, before, put, [raw.value]);
      assert Puts(c, [raw.value]) == [Write(c.hash(raw.value), raw.value)];
      put := put + [raw.value];
      id := Some(blobID);
    }

    /** What encoding a list of steps from here must come to. */
    ghost predicate Encodes(steps: Option<seq<Step>>, k: nat, was: seq<Bytes>, ids: Option<seq<Bytes>>)
      reads this
    {
      if steps.None? || EncodeSteps(c, steps.value, k).None? then ids.None?
      else
        var e := EncodeSteps(c, steps.value, k).value;
        ids == Some(e.ids) && put == was + e.blobs && calls == e.calls
    }

    /** One more step: marshalled, put, and its id appended. */
    method AddStep(step: Step, ghost steps: seq<Step>, ghost k: nat, ghost was: seq<Bytes>, sofar: seq<Bytes>)
      returns (ids: Option<seq<Bytes>>)
      requires Valid() && Encodes(Some(steps), k, was, Some(sofar))
      modifies this`calls, this`put, blobs
      ensures Valid() && Encodes(Some(steps + [step]), k, was, ids)
    {
      EncodeStepsAppend(c, steps, [step], k);
      OneStep(c, step, calls);
      ghost var mid := put;
      var id := MarshalAndPut(StepNode(step));
      if id.None? {
        return None;
      }
      assert put == was + (mid[|was|..] + put[|mid|..]);
      ids := Some(sofar + [id.value]);
    }

    /** The calls of message i, on top of the text step it may have. */
    method EncodeCalls(m: ChatMessage, i: nat, ghost text: seq<Step>, ghost k: nat, ghost was: seq<Bytes>,
          textIds: seq<Bytes>)
      returns (ids: Option<seq<Bytes>>)
      requires Wired() && Valid() && Encodes(Some(text), k, was, Some(textIds))
      modifies this, blobs
      ensures Valid() && Encodes(JoinSteps(text, CallSteps(rebuild, m.toolCalls, i, 0)), k, was, ids)
      ensures ids.Some? ==> pending == Record(old(pending), m.toolCalls)
    {
      ids := Some(textIds);
      ghost var steps := text;
      var j := 0;
      while j < |m.toolCalls|
        invariant 0 <= j <= |m.toolCalls| && Valid() && ids.Some?
        invariant Encodes(Some(steps), k, was, ids)
        invariant JoinSteps(text, CallSteps(rebuild, m.toolCalls, i, 0)) ==
                  JoinSteps(steps, CallSteps(rebuild, m.toolCalls[j..], i, j))
        invariant Record(pending, m.toolCalls[j..]) == Record(old(pending), m.toolCalls)
      {
        var tc := m.toolCalls[j];
        ghost var tail := CallSteps(rebuild, m.toolCalls[j + 1..], i, j + 1);
        assert m.toolCalls[j..][0] == tc && m.toolCalls[j..][1..] == m.toolCalls[j + 1..];
        pending := pending[tc.id := tc];
        var call := RebuildAt(Site(i, j), tc.name, tc.arguments, "");
        if call.None? {
          return None;
        }
        JoinOneStep(steps, CallStep(call.value), tail);
        ids := AddStep(CallStep(call.value), steps, k, was, ids.value);
        steps := steps + [CallStep(call.value)];
        if ids.None? {
          if tail.Some? {
            EncodeStepsAppend(c, steps, tail.value, k);
          }
          return;
        }
        j := j + 1;
      }
      assert m.toolCalls[j..] == [] && steps + [] == steps;
    }

    method EncodeAssistant(m: ChatMessage, i: nat, ghost steps: seq<Step>, ghost k: nat, ghost was: seq<Bytes>,
          sofar: seq<Bytes>)
      returns (ids: Option<seq<Bytes>>)
      requires Wired() && Valid() && Encodes(Some(steps), k, was, Some(sofar))
      modifies this, blobs
      ensures Valid() && Encodes(JoinSteps(steps + TextStep(m), CallSteps(rebuild, m.toolCalls, i, 0)), k, was, ids)
      ensures ids.Some? ==> pending == Record(old(pending), m.toolCalls)
    {
      if m.content != "" {
        ids := AddStep(AssistantText(m.content), steps, k, was, sofar);
        if ids.None? {
          FailureLasts(c, steps + TextStep(m), CallSteps(rebuild, m.toolCalls, i, 0), k);
          return;
        }
      } else {
        ids := Some(sofar);
        assert steps + TextStep(m) == steps;
      }
      ids := EncodeCalls(m, i, steps + TextStep(m), k, was, ids.value);
    }

    /** The steps of message i, on top of those the turn already has. */
    method EncodeMessage(m: ChatMessage, i: nat, ghost steps: seq<Step>, ghost k: nat, ghost was: seq<Bytes>,
          sofar: seq<Bytes>)
      returns (ids: Option<seq<Bytes>>)
      requires Wired() && Valid() && Encodes(Some(steps), k, was, Some(sofar))
      modifies this, blobs
      ensures Valid() && Encodes(JoinSteps(steps, StepsOf(rebuild, old(pending), m, i)), k, was, ids)
      ensures ids.Some? ==> pending == PendingAfter(old(pending), m)
    {
      match m.role {
        case Assistant =>
          ids := EncodeAssistant(m, i, steps, k, was, sofar);
          JoinTwice(steps, TextStep(m), CallSteps(rebuild, m.toolCalls, i, 0));
        case Tool =>
          if m.toolCallId !in pending {
            ids := AddStep(AssistantText(TOOL_RESULT + m.content), steps, k, was, sofar);
            return;
          }
          var original := pending[m.toolCallId];
          var call := RebuildAt(Site(i, 0), original.name, original.arguments, m.content);
          if call.None? {
            return None;
          }
          ids := AddStep(CallStep(call.value), steps, k, was, sofar);
          pending := pending - {m.toolCallId};
        case _ =>
          ids := Some(sofar);
          assert steps + [] == steps;
      }
    }

    /** One message of the inner loop; what the loop is to find in all stays the same. */
    method EncodeNext(ms: seq<ChatMessage>, i: nat, ghost steps: seq<Step>, ghost k: nat, ghost was: seq<Bytes>,
          sofar: seq<Bytes>)
      returns (ids: Option<seq<Bytes>>, ghost more: seq<Step>)
      requires Wired() && Valid() && i < |ms| && !Opens(ms[i]) && Encodes(Some(steps), k, was, Some(sofar))
      modifies this, blobs
      ensures Valid()
      ensures ids.Some? ==> Encodes(Some(more), k, was, ids)
      ensures ids.Some? ==>
        JoinCollected(more, CollectFrom(rebuild, ms, i + 1, pending)) ==
          JoinCollected(steps, CollectFrom(rebuild, ms, i, old(pending)))
      ensures ids.None? ==> CannotEncode(c, JoinCollected(steps, CollectFrom(rebuild, ms, i, old(pending))), k)
    {
      ghost var added := StepsOf(rebuild, pending, ms[i], i);
      ghost var tail := CollectFrom(rebuild, ms, i + 1, PendingAfter(pending, ms[i]));
      CollectOne(rebuild, ms, i, pending, steps);
      ids := EncodeMessage(ms[i], i, steps, k, was, sofar);
      more := if added.Some? then steps + added.value else [];
      if ids.None? && added.Some? {
        FailureLasts(c, more, if tail.None? then None else Some(tail.value.steps), k);
      }
    }

    /** The inner loop: messages from i on, up to the next one that opens a turn. */
    method EncodeStepsFrom(ms: seq<ChatMessage>, i: nat) returns (ids: Option<seq<Bytes>>, next: nat)
      requires Wired() && Valid() && i <= |ms|
      modifies this, blobs
      ensures Valid()
      ensures Encodes(StepsFrom(rebuild, ms, i, old(pending)), old(calls), old(put), ids)
      ensures ids.Some? ==> Continues(rebuild, ms, i, old(pending), next, pending)
    {
      ids, next := Some([]), i;
      ghost var steps: seq<Step>, k, was, spec := [], calls, put, CollectFrom(rebuild, ms, i, pending);
      JoinNothing(spec);
      while next < |ms| && !Opens(ms[next])
        invariant i <= next <= |ms| && Valid() && ids.Some?
        invariant Encodes(Some(steps), k, was, ids)
        invariant spec == JoinCollected(steps, CollectFrom(rebuild, ms, next, pending))
      {
        ids, steps := EncodeNext(ms, next, steps, k, was, ids.value);
        if ids.None? {
          assert CannotEncode(c, spec, k);
          return;
        }
        next := next + 1;
      }
      CollectNone(rebuild, ms, next, pending, steps);
    }

    /** What encoding one turn must come to. */
    ghost predicate EncodesTurn(t: Option<Turn>, k: nat, was: seq<Bytes>, id: Option<Bytes>)
      reads this
    {
      var e := if t.None? then None else EncodeTurn(c, t.value, k);
      if e.None? then id == None
      else id == Some(e.value.ids[0]) && put == was + e.value.blobs && calls == e.value.calls
    }

    /** The structure that names a turn's user text and its steps, once those are in the store. */
    method EncodeStructure(ghost t: Option<Turn>, ghost k: nat, ghost was: seq<Bytes>, ghost first: Encoded,
          user: Bytes, steps: Option<seq<Bytes>>)
      returns (id: Option<Bytes>)
      requires Valid() && Encodes(if t.None? then None else Some(t.value.steps), first.calls, was + first.blobs, steps)
      requires t.Some? ==> EncodeNode(c, UserNode(t.value.userText), k) == Some(first) && user == first.ids[0]
      modifies this`calls, this`put, blobs
      ensures Valid() && EncodesTurn(t, k, was, id)
    {
      id := None;
      if steps.Some? {
        TurnFromParts(c, t.value, k, first, EncodeSteps(c, t.value.steps, first.calls).value, was);
        id := MarshalAndPut(TurnNode(user, steps.value));
      } else if t.Some? && EncodeSteps(c, t.value.steps, first.calls).None? {
        TurnNeedsSteps(c, t.value, k, first);
      }
    }

    /** The turn opened at i: its user text, its steps, then the structure naming both. */
    method EncodeTurnAt(ms: seq<ChatMessage>, i: nat) returns (id: Option<Bytes>, next: nat)
      requires Wired() && Valid() && i < |ms| && BeginsTurn(ms[i])
      modifies this, blobs
      ensures Valid()
      ensures EncodesTurn(TurnAt(rebuild, ms, i, old(pending)), old(calls), old(put), id)
      ensures id.Some? ==> Continues(rebuild, ms, i + 1, old(pending), next, pending)
    {
      id, next := None, i + 1;
      ghost var was, k, spec := put, calls, TurnAt(rebuild, ms, i, pending);
      var user := MarshalAndPut(UserNode(OpeningText(ms[i])));
      if user.Some? {
        ghost var first := EncodeNode(c, UserNode(OpeningText(ms[i])), k).value;
        var steps;
        steps, next := EncodeStepsFrom(ms, i + 1);
        id := EncodeStructure(spec, k, was, first, user.value, steps);
      }
    }

    /** What encoding a list of turns must come to, had it begun at call k. */
    ghost predicate EncodesTurns(turns: Option<seq<Turn>>, k: nat, was: seq<Bytes>, ids: Option<seq<Bytes>>)
      reads this
    {
      if turns.None? || EncodeTurns(c, turns.value, k).None? then ids.None?
      else
        var e := EncodeTurns(c, turns.value, k).value;
        ids == Some(e.ids) && put == was + e.blobs && calls == e.calls
    }

    method AddTurn(ms: seq<ChatMessage>, i: nat, ghost turns: seq<Turn>, ghost k: nat, ghost was: seq<Bytes>,
          sofar: seq<Bytes>)
      returns (ids: Option<seq<Bytes>>, next: nat)
      requires Wired() && Valid() && i < |ms| && BeginsTurn(ms[i])
      requires EncodesTurns(Some(turns), k, was, Some(sofar))
      modifies this, blobs
      ensures Valid()
      ensures var t := TurnAt(rebuild, ms, i, old(pending));
              EncodesTurns(if t.None? then None else Some(turns + [t.value]), k, was, ids)
      ensures ids.Some? ==> Continues(rebuild, ms, i + 1, old(pending), next, pending)
    {
      ghost var t := TurnAt(rebuild, ms, i, pending);
      ghost var front := EncodeTurns(c, turns, k).value;
      ghost var last := if t.None? then None else EncodeTurn(c, t.value, calls);
      if t.Some? {
        EncodeTurnsSnoc(c, turns, t.value, k);
      }
      var id;
      id, next := EncodeTurnAt(ms, i);
      ids := if id.None? then None else Some(sofar + [id.value]);
      if id.Some? {
        Associative(was, front.blobs, last.value.blobs);
        assert last.value.ids == [id.value];
      }
    }

    /** The outer loop of buildHistoryTurnBlobIDs. */
    method EncodeHistoryTurns(ms: seq<ChatMessage>) returns (ids: Option<seq<Bytes>>)
      requires Wired() && Valid() && pending == map[]
      modifies this, blobs
      ensures Valid() && EncodesTurns(TurnsIn(rebuild, ms), old(calls), old(put), ids)
    {
      var i := 0;
      ids := Some([]);
      ghost var turns: seq<Turn>, k, was := [], calls, put;
      assert ms[0..] == ms;
      JoinNoTurns(TurnsIn(rebuild, ms));
      while i < |ms|
        invariant 0 <= i <= |ms| && Valid() && ids.Some?
        invariant EncodesTurns(Some(turns), k, was, ids)
        invariant TurnsIn(rebuild, ms) == JoinTurns(turns, Group(rebuild, ms[i..], i, pending))
      {
        if !BeginsTurn(ms[i]) {
          assert ms[i..][0] == ms[i] && ms[i..][1..] == ms[i + 1..];
          i := i + 1;
          continue;
        }
        ghost var spec, t := Collect(rebuild, ms[i + 1..], i + 1, pending), TurnAt(rebuild, ms, i, pending);
        GroupOne(rebuild, ms, i, pending, turns);
        ids, i := AddTurn(ms, i, turns, k, was, ids.value);
        if ids.None? {
          if t.Some? {
            TurnFailureLasts(c, turns + [t.value],
              Group(rebuild, spec.value.rest, spec.value.next, spec.value.pending), k);
          }
          return;
        }
        turns := turns + [t.value];
      }
      assert ms[i..] == [] && turns + [] == turns;
    }

    ghost predicate EncodesRoots(entries: seq<RootEntry>, was: seq<Bytes>, ids: Option<seq<Bytes>>)
      reads this
    {
      var blobs := EncodeRoots(c, entries);
      if blobs.None? then ids.None? else ids == Some(Ids(c, blobs.value)) && put == was + blobs.value
    }

    method AddRoot(entry: RootEntry, ghost entries: seq<RootEntry>, ghost was: seq<Bytes>, sofar: seq<Bytes>)
      returns (ids: Option<seq<Bytes>>)
      requires Valid() && EncodesRoots(entries, was, Some(sofar))
      modifies this`put, blobs
      ensures Valid() && EncodesRoots(entries + [entry], was, ids)
    {
      RootsSnoc(c, entries, entry);
      ghost var mid := put;
      var id := PutRoot(entry);
      if id.None? {
        return None;
      }
      assert put == was + (mid[|was|..] + put[|mid|..]);
      ids := Some(sofar + [id.value]);
      assert Ids(c, EncodeRoots(c, entries + [entry]).value) == sofar + [id.value];
    }

    /** The entry of message i, if it has something to say. */
    method AddMessage(ms: seq<ChatMessage>, i: nat, ghost was: seq<Bytes>, sofar: seq<Bytes>)
      returns (ids: Option<seq<Bytes>>)
      requires Valid() && i < |ms| && EncodesRoots(RootEntries(ms[..i]), was, Some(sofar))
      modifies this`put, blobs
      ensures Valid() && EncodesRoots(RootEntries(ms[..i + 1]), was, ids)
    {
      RootEntriesSnoc(ms, i);
      var entry := RootEntryOf(ms[i]);
      if entry.None? {
        return Some(sofar);
      }
      ids := AddRoot(entry.value, RootEntries(ms[..i]), was, sofar);
    }

    method AddTrailer(ms: seq<ChatMessage>, add: bool, instruction: string, ghost was: seq<Bytes>, sofar: seq<Bytes>)
      returns (ids: Option<seq<Bytes>>)
      requires Valid() && EncodesRoots(RootEntries(ms), was, Some(sofar))
      modifies this`put, blobs
      ensures Valid()
      ensures EncodesRoots(
          RootEntries(ms) + if add then [RootEntry("user", "[System]\n" + instruction)] else [], was, ids)
    {
      if add {
        ids := AddRoot(RootEntry("user", "[System]\n" + instruction), RootEntries(ms), was, sofar);
      } else {
        assert RootEntries(ms) + [] == RootEntries(ms);
        ids := Some(sofar);
      }
    }

    /** buildRootPromptMessageBlobIDs: one JSON blob per message with something to say. */
    method EncodeRootPrompt(ms: seq<ChatMessage>, declaresTools: bool, instruction: string)
      returns (ids: Option<seq<Bytes>>)
      requires Valid()
      modifies this`put, blobs
      ensures Valid() && EncodesRoots(RootEntries(ms) + Trailer(ms, declaresTools, instruction), old(put), ids)
    {
      var i, instructed := 0, false;
      ids := Some([]);
      ghost var was := put;
      assert ms[..0] == [] && Ids(c, []) == [];
      while i < |ms|
        invariant 0 <= i <= |ms| && Valid() && ids.Some?
        invariant EncodesRoots(RootEntries(ms[..i]), was, ids)
        invariant instructed == Instructed(ms[..i], instruction)
      {
        InstructedUpTo(ms, i, instruction);
        if Carries(ms[i], instruction) {
          instructed := true;
        }
        ids := AddMessage(ms, i, was, ids.value);
        i := i + 1;
        if ids.None? {
          RootFailureLasts(c, ms, i, Trailer(ms, declaresTools, instruction));
          return;
        }
      }
      assert ms[..i] == ms;
      ids := AddTrailer(ms, declaresTools && !instructed, instruction, was, ids.value);
    }

    method PutRoot(entry: RootEntry) returns (id: Option<Bytes>)
      requires Valid()
      modifies this`put, blobs
      ensures Valid()
      ensures var raw := c.renderRoot(entry);
              if raw.None? then id == None && put == old(put)
              else id == Some(c.hash(raw.value)) && put == old(put) + [raw.value]
    {
      var raw := c.renderRoot(entry);
      if raw.None? {
        return None;
      }
      var blobID := blobs.Put(raw.value);
      PutsAppend(c, before, put, [raw.value]);
      assert Puts(c, [raw.value]) == [Write(c.hash(raw.value), raw.value)];
      put := put + [raw.value];
      id := Some(blobID);
    }

    /** The action, then both views of the history, in the order the request is built. */
    method Build(ms: seq<ChatMessage>, declaresTools: bool, instruction: string, messageId: Option<string>)
      returns (turnIds: seq<Bytes>, rootIds: seq<Bytes>, action: Option<RunAction>)
      requires Wired() && Valid() && pending == map[] && put == []
      modifies this, blobs
      ensures Valid()
      ensures var r := RequestFor(c, rebuild, ms, declaresTools, instruction, messageId, old(calls));
              if r.None? then action == None
              else
                && action == Some(r.value.action) && turnIds == r.value.turnIds && rootIds == r.value.rootIds
                && blobs.data == Apply(before, Puts(c, r.value.blobs))
    {
      turnIds, rootIds, action := [], [], None;
      if |ms| == 0 {
        return;
      }
      var last := ms[|ms| - 1];
      var history, todo := ms, ResumeAction;
      if last.role.User? && last.content != "" {
        if messageId.None? {
          return;
        }
        history, todo := ms[..|ms| - 1], UserMessageAction(last.content, messageId.value);
      }
      ghost var t, r := TurnsOf(c, rebuild, history, calls), RootsOf(c, history, declaresTools, instruction);
      var turns := EncodeHistoryTurns(history);
      if turns.None? {
        return;
      }
      assert put == t.value.blobs;
      var roots := EncodeRootPrompt(history, declaresTools, instruction);
      if roots.None? {
        return;
      }
      assert put == t.value.blobs + r.value;
      turnIds, rootIds, action := turns.value, roots.value, Some(todo);
    }
  }

  lemma TurnNeedsSteps(c: Codec, t: Turn, k: nat, first: Encoded)
    requires EncodeNode(c, UserNode(t.userText), k) == Some(first) && EncodeSteps(c, t.steps, first.calls).None?
    ensures EncodeTurn(c, t, k).None?
  {
  }

  lemma TurnFromParts(c: Codec, t: Turn, k: nat, first: Encoded, second: Encoded, was: seq<Bytes>)
    requires EncodeNode(c, UserNode(t.userText), k) == Some(first)
        && EncodeSteps(c, t.steps, first.calls) == Some(second)
    ensures var last := EncodeNode(c, TurnNode(first.ids[0], second.ids), second.calls);
            var e := EncodeTurn(c, t, k);
            if last.None? then e.None?
            else
              && e.Some? && e.value.ids == last.value.ids && e.value.calls == last.value.calls
              && was + first.blobs + second.blobs + last.value.blobs == was + e.value.blobs
  {
  }

  lemma JoinNoTurns(rest: Option<seq<Turn>>)
    ensures JoinTurns([], rest) == rest
  {
    if rest.Some? {
      assert [] + rest.value == rest.value;
    }
  }

  lemma GroupOne(rebuild: Rebuild, ms: seq<ChatMessage>, i: nat, pending: Pending, turns: seq<Turn>)
    requires i < |ms| && BeginsTurn(ms[i])
    ensures var spec, t := Collect(rebuild, ms[i + 1..], i + 1, pending), TurnAt(rebuild, ms, i, pending);
            JoinTurns(turns, Group(rebuild, ms[i..], i, pending)) ==
              if spec.None? then None
              else JoinTurns(turns + [t.value], Group(rebuild, spec.value.rest, spec.value.next, spec.value.pending))
  {
    assert ms[i..][0] == ms[i] && ms[i..][1..] == ms[i + 1..];
    var spec := Collect(rebuild, ms[i + 1..], i + 1, pending);
    if spec.Some? {
      var rest := Group(rebuild, spec.value.rest, spec.value.next, spec.value.pending);
      if rest.Some? {
        var t := Turn(OpeningText(ms[i]), spec.value.steps);
        assert turns + ([t] + rest.value) == turns + [t] + rest.value;
      }
    }
  }

  lemma TurnFailureLasts(c: Codec, s: seq<Turn>, t: Option<seq<Turn>>, k: nat)
    requires EncodeTurns(c, s, k).None?
    ensures var all := JoinTurns(s, t); all.Some? ==> EncodeTurns(c, all.value, k).None?
  {
    if t.Some? {
      EncodeTurnsPrefix(c, s, t.value, k);
    }
  }

  lemma InstructedUpTo(ms: seq<ChatMessage>, i: nat, instruction: string)
    requires i < |ms|
    ensures Instructed(ms[..i + 1], instruction) <==> Instructed(ms[..i], instruction) || Carries(ms[i], instruction)
  {
    var a, b := ms[..i], ms[..i + 1];
    if j :| 0 <= j < |a| && Carries(a[j], instruction) {
      assert b[j] == a[j];
    }
    if j :| 0 <= j < |b| && Carries(b[j], instruction) {
      assert j < i ==> a[j] == b[j];
    }
    assert b[i] == ms[i];
  }

  lemma RootsSnoc(c: Codec, entries: seq<RootEntry>, e: RootEntry)
    ensures EncodeRoots(c, entries + [e]) ==
            match (EncodeRoots(c, entries), c.renderRoot(e))
            case (Some(front), Some(last)) => Some(front + [last])
            case _ => None
  {
    assert (entries + [e])[..|entries|] == entries;
  }

  lemma RootEntriesSnoc(ms: seq<ChatMessage>, i: nat)
    requires i < |ms|
    ensures var e := RootEntryOf(ms[i]);
            RootEntries(ms[..i + 1]) == if e.Some? then RootEntries(ms[..i]) + [e.value] else RootEntries(ms[..i])
  {
    assert ms[..i + 1][..i] == ms[..i] && ms[..i + 1][i] == ms[i];
    assert RootEntries(ms[..i]) + [] == RootEntries(ms[..i]);
  }

  lemma RootFailureLasts(c: Codec, ms: seq<ChatMessage>, i: nat, trailer: seq<RootEntry>)
    requires i <= |ms| && EncodeRoots(c, RootEntries(ms[..i])).None?
    ensures EncodeRoots(c, RootEntries(ms) + trailer).None?
  {
    RootEntriesExtend(ms[..i], ms[i..]);
    assert ms[..i] + ms[i..] == ms;
    if EncodeRoots(c, RootEntries(ms) + trailer).Some? {
      EncodeRootsExtend(c, RootEntries(ms[..i]), RootEntries(ms) + trailer);
    }
  }

  /** A step that cannot be encoded is not made up for by later ones. */
  lemma FailureLasts(c: Codec, s: seq<Step>, t: Option<seq<Step>>, k: nat)
    requires EncodeSteps(c, s, k).None?
    ensures var all := JoinSteps(s, t); all.Some? ==> EncodeSteps(c, all.value, k).None?
  {
    if t.Some? {
      EncodeStepsAppend(c, s, t.value, k);
    }
  }

  lemma CollectOne(rebuild: Rebuild, ms: seq<ChatMessage>, i: nat, pending: Pending, steps: seq<Step>)
    requires i < |ms| && !Opens(ms[i])
    ensures var added := StepsOf(rebuild, pending, ms[i], i);
            JoinCollected(steps, CollectFrom(rebuild, ms, i, pending)) ==
              if added.None? then None
              else JoinCollected(steps + added.value, CollectFrom(rebuild, ms, i + 1, PendingAfter(pending, ms[i])))
  {
    assert ms[i..][0] == ms[i] && ms[i..][1..] == ms[i + 1..];
    var added := StepsOf(rebuild, pending, ms[i], i);
    var tail := Collect(rebuild, ms[i + 1..], i + 1, PendingAfter(pending, ms[i]));
    if added.Some? && tail.Some? {
      assert steps + (added.value + tail.value.steps) == steps + added.value + tail.value.steps;
    }
  }

  lemma CollectNone(rebuild: Rebuild, ms: seq<ChatMessage>, i: nat, pending: Pending, steps: seq<Step>)
    requires i <= |ms| && (i < |ms| ==> Opens(ms[i]))
    ensures JoinCollected(steps, CollectFrom(rebuild, ms, i, pending)) == Some(Collected(steps, ms[i..], i, pending))
  {
    assert i < |ms| ==> ms[i..][0] == ms[i];
    assert steps + [] == steps;
  }

  lemma JoinNothing(rest: Option<Collected>)
    ensures JoinCollected([], rest) == rest
  {
    if rest.Some? {
      assert [] + rest.value.steps == rest.value.steps;
    }
  }

  lemma JoinTwice(s: seq<Step>, t: seq<Step>, rest: Option<seq<Step>>)
    ensures JoinSteps(s, JoinSteps(t, rest)) == JoinSteps(s + t, rest)
  {
    if rest.Some? {
      assert s + (t + rest.value) == s + t + rest.value;
    }
  }

  lemma JoinOneStep(steps: seq<Step>, step: Step, tail: Option<seq<Step>>)
    ensures JoinSteps(steps, JoinSteps([step], tail)) == JoinSteps(steps + [step], tail)
  {
    if tail.Some? {
      assert steps + ([step] + tail.value) == steps + [step] + tail.value;
    }
  }

  lemma OneStep(c: Codec, step: Step, k: nat)
    ensures EncodeSteps(c, [step], k) == EncodeNode(c, StepNode(step), k)
  {
    assert [step][..0] == [];
    var e := EncodeNode(c, StepNode(step), k);
    if e.Some? {
      assert [] + e.value.ids == e.value.ids && [] + e.value.blobs == e.value.blobs;
    }
  }
}
