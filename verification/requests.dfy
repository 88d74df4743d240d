// Building the Run request: history turns and root-prompt entries are encoded
// into the conversation's blob store before anything is sent.
module Requests {
  import opened Basics
  import opened BlobStores
  import opened History
  import opened BlobGraphs

  // ---- root-prompt entries ----

  predicate Contains(s: string, sub: string) {
    |sub| <= |s| && (s[..|sub|] == sub || (s != [] && Contains(s[1..], sub)))
  }

  function RootEntryOf(m: ChatMessage): Option<RootEntry> {
    if m.content == "" then None
    else match m.role
      case System => Some(RootEntry("user", "[System]\n" + m.content))
      case User => Some(RootEntry("user", m.content))
      case Assistant => Some(RootEntry("assistant", m.content))
      case Tool => Some(RootEntry("user", TOOL_RESULT + m.content))
      case OtherRole(_) => None
  }

  /** Every message with something to say says all of it, as the assistant only if it was the assistant. */
  lemma RootEntryCarriesContent(m: ChatMessage)
    ensures RootEntryOf(m).Some? <==> m.content != "" && !m.role.OtherRole?
    ensures RootEntryOf(m).Some? ==>
      var e := RootEntryOf(m).value;
      && |e.text| >= |m.content| && e.text[|e.text| - |m.content|..] == m.content
      && (if m.role.Assistant? then e.role == "assistant" else e.role == "user")
      && (m.role.User? || m.role.Assistant? ==> e.text == m.content)
  {
  }

  /** The labels: none for a user or the assistant, "[System]" and "[Tool Result]" on a line of their own. */
  lemma RootEntryByRole(m: ChatMessage)
    ensures var c := m.content;
      RootEntryOf(m) ==
        if c == "" then None
        else match m.role
          case System => Some(RootEntry("user", "[System]\n" + c))
          case User => Some(RootEntry("user", c))
          case Assistant => Some(RootEntry("assistant", c))
          case Tool => Some(RootEntry("user", "[Tool Result]\n" + c))
          case OtherRole(_) => None
  {
  }

  predicate StandsAt(s: string, sub: string, k: nat) {
    k + |sub| <= |s| && s[k..k + |sub|] == sub
  }

  lemma {:induction false} ContainsExactly(s: string, sub: string)
    ensures Contains(s, sub) <==> exists k: nat :: StandsAt(s, sub, k)
  {
    if |sub| <= |s| && s[..|sub|] == sub {
      assert StandsAt(s, sub, 0);
    } else if s != [] {
      ContainsExactly(s[1..], sub);
      if k: nat :| StandsAt(s[1..], sub, k) {
        assert s[k + 1..k + 1 + |sub|] == s[1..][k..k + |sub|];
        assert StandsAt(s, sub, k + 1);
      }
      if k: nat :| StandsAt(s, sub, k) {
        assert k > 0;
        assert s[1..][k - 1..k - 1 + |sub|] == s[k..k + |sub|];
        assert StandsAt(s[1..], sub, k - 1);
      }
    }
  }

  function RootEntries(ms: seq<ChatMessage>): seq<RootEntry> {
    if ms == [] then []
    else
      var last := RootEntryOf(ms[|ms| - 1]);
      RootEntries(ms[..|ms| - 1]) + if last.Some? then [last.value] else []
  }

  predicate Carries(m: ChatMessage, instruction: string) {
    m.role.System? && m.content != "" && Contains(m.content, instruction)
  }

  predicate Instructed(ms: seq<ChatMessage>, instruction: string) {
    exists i :: 0 <= i < |ms| && Carries(ms[i], instruction)
  }

  /** The trailing instruction, unless there are no tools or a system message carries it already. */
  function Trailer(ms: seq<ChatMessage>, declaresTools: bool, instruction: string): seq<RootEntry> {
    if declaresTools && !Instructed(ms, instruction) then [RootEntry("user", "[System]\n" + instruction)] else []
  }

  /** Some system message has the instruction somewhere in its text. */
  ghost predicate Says(ms: seq<ChatMessage>, instruction: string) {
    exists i, k: nat :: 0 <= i < |ms| && ms[i].role == System && ms[i].content != ""
      && StandsAt(ms[i].content, instruction, k)
  }

  /** The instruction comes last, as a system entry, exactly when tools are declared and no system message
      has it. */
  lemma InstructionComesLastExactly(ms: seq<ChatMessage>, declaresTools: bool, instruction: string)
    ensures Trailer(ms, declaresTools, instruction) ==
            if declaresTools && !Says(ms, instruction) then [RootEntry("user", "[System]\n" + instruction)] else []
  {
    if i :| 0 <= i < |ms| && Carries(ms[i], instruction) {
      ContainsExactly(ms[i].content, instruction);
      assert Says(ms, instruction);
    }
    if Says(ms, instruction) {
      var i, k: nat :| 0 <= i < |ms| && ms[i].role == System && ms[i].content != ""
        && StandsAt(ms[i].content, instruction, k);
      ContainsExactly(ms[i].content, instruction);
      assert Carries(ms[i], instruction);
    }
  }

  function EncodeRoots(c: Codec, entries: seq<RootEntry>): (r: Option<seq<Bytes>>)
    ensures r.Some? ==> |r.value| == |entries|
  {
    if entries == [] then Some([])
    else
      match (EncodeRoots(c, entries[..|entries| - 1]), c.renderRoot(entries[|entries| - 1]))
      case (Some(front), Some(last)) => Some(front + [last])
      case _ => None
  }

  function Ids(c: Codec, blobs: seq<Bytes>): seq<Bytes> {
    seq(|blobs|, i requires 0 <= i < |blobs| => c.hash(blobs[i]))
  }

  function ResolveRoots(c: Codec, store: Store, ids: seq<Bytes>): Option<seq<RootEntry>> {
    if ids == [] then Some([])
    else
      match (ResolveRoots(c, store, ids[..|ids| - 1]), Get(store, ids[|ids| - 1]))
      case (Some(front), Some(b)) => if c.parseRoot(b).Some? then Some(front + [c.parseRoot(b).value]) else None
      case _ => None
  }

  lemma {:induction false} RootsResolve(c: Codec, store: Store, entries: seq<RootEntry>)
    requires RootsLawful(c) && EncodeRoots(c, entries).Some? && Holds(c, store, EncodeRoots(c, entries).value)
    ensures ResolveRoots(c, store, Ids(c, EncodeRoots(c, entries).value)) == Some(entries)
  {
    if entries != [] {
      var n := |entries| - 1;
      var blobs, front := EncodeRoots(c, entries).value, EncodeRoots(c, entries[..n]).value;
      HoldsPart(c, store, front, [blobs[n]]);
      RootsResolve(c, store, entries[..n]);
      assert Ids(c, blobs)[..n] == Ids(c, front) && Ids(c, blobs)[n] == c.hash(blobs[n]);
      assert Get(store, c.hash(blobs[n])) == Some(blobs[n]);
      assert entries[..n] + [entries[n]] == entries;
    }
  }

  lemma {:induction false} RootEntriesExtend(u: seq<ChatMessage>, v: seq<ChatMessage>)
    ensures RootEntries(u) <= RootEntries(u + v)
  {
    if v == [] {
      assert u + v == u;
    } else {
      RootEntriesExtend(u, v[..|v| - 1]);
      assert (u + v)[..|u + v| - 1] == u + v[..|v| - 1];
    }
  }

  lemma {:induction false} EncodeRootsExtend(c: Codec, a: seq<RootEntry>, b: seq<RootEntry>)
    requires a <= b && EncodeRoots(c, b).Some?
    ensures EncodeRoots(c, a).Some? && EncodeRoots(c, a).value <= EncodeRoots(c, b).value
  {
    if |a| < |b| {
      EncodeRootsExtend(c, a, b[..|b| - 1]);
    } else {
      assert a == b;
    }
  }

  // ---- the request ----

  /** What the model is asked to do now: take up a user text, under an id made for it, or go on. */
  datatype RunAction = UserMessageAction(text: string, messageId: string) | ResumeAction

  /** What one request puts in the store and refers to, and its action. */
  datatype Request = Request(turnIds: seq<Bytes>, rootIds: seq<Bytes>, blobs: seq<Bytes>, action: RunAction)

  function TurnsOf(c: Codec, rebuild: Rebuild, ms: seq<ChatMessage>, k: nat): Option<Encoded> {
    match TurnsIn(rebuild, ms)
    case None => None
    case Some(turns) => EncodeTurns(c, turns, k)
  }

  function RootsOf(c: Codec, ms: seq<ChatMessage>, declaresTools: bool, instruction: string): Option<seq<Bytes>> {
    EncodeRoots(c, RootEntries(ms) + Trailer(ms, declaresTools, instruction))
  }

  /** None: a user text needs a message id and none can be made. */
  function RunActionOf(ms: seq<ChatMessage>, messageId: Option<string>): Option<RunAction> {
    match NewText(ms)
    case None => Some(ResumeAction)
    case Some(text) => if messageId.None? then None else Some(UserMessageAction(text, messageId.value))
  }

  /** None: there is nothing to send, no message id, or something cannot be encoded. */
  function RequestFor(c: Codec, rebuild: Rebuild, ms: seq<ChatMessage>, declaresTools: bool, instruction: string,
                      messageId: Option<string>, k: nat): Option<Request> {
    if ms == [] then None
    else match (RunActionOf(ms, messageId), TurnsOf(c, rebuild, HistoryOf(ms), k),
      RootsOf(c, HistoryOf(ms), declaresTools, instruction))
      case (Some(action), Some(t), Some(r)) => Some(Request(t.ids, Ids(c, r), t.blobs + r, action))
      case _ => None
  }

  /** What is resolved from the store: the turns and the prompt entries of these messages. */
  ghost predicate ResolvesTo(c: Codec, rebuild: Rebuild, ms: seq<ChatMessage>, declaresTools: bool, instruction: string,
                             store: Store, r: Request) {
    && ResolveTurns(c, store, r.turnIds) == TurnsIn(rebuild, HistoryOf(ms))
    && ResolveRoots(c, store, r.rootIds) ==
         Some(RootEntries(HistoryOf(ms)) + Trailer(HistoryOf(ms), declaresTools, instruction))
  }

  /** The blob graph round trip: for any history that encodes and any store it is put into,
      resolving the ids gives back the grouped turns and the prompt entries, also after any
      further writes that put nothing else under one of the request's own ids. */
  lemma BlobGraphRoundTrip(c: Codec, rebuild: Rebuild, ms: seq<ChatMessage>, declaresTools: bool, instruction: string,
                           messageId: Option<string>, k: nat, store: Store, later: seq<Write>)
    requires Lawful(c) && RootsLawful(c)
    requires var r := RequestFor(c, rebuild, ms, declaresTools, instruction, messageId, k);
             r.Some? && CollisionFree(c, r.value.blobs) && Harmless(c, r.value.blobs, later)
    ensures var r := RequestFor(c, rebuild, ms, declaresTools, instruction, messageId, k).value;
            ResolvesTo(c, rebuild, ms, declaresTools, instruction, Apply(Apply(store, Puts(c, r.blobs)), later), r)
  {
    var history := HistoryOf(ms);
    var r := RequestFor(c, rebuild, ms, declaresTools, instruction, messageId, k).value;
    var entries := RootEntries(history) + Trailer(history, declaresTools, instruction);
    var s := Apply(Apply(store, Puts(c, r.blobs)), later);
    PutsHold(c, store, r.blobs);
    HarmlessWritesKeep(c, Apply(store, Puts(c, r.blobs)), r.blobs, later);
    HoldsPart(c, s, TurnsOf(c, rebuild, history, k).value.blobs, EncodeRoots(c, entries).value);
    TurnsResolve(c, s, TurnsIn(rebuild, history).value, k);
    RootsResolve(c, s, entries);
  }

  // ---- prompt ids from one request to the next ----

  lemma LongerHistoryKeepsRoots(c: Codec, h: seq<ChatMessage>, v: seq<ChatMessage>, tools: bool, instruction: string)
    requires RootsOf(c, h, tools, instruction).Some? && RootsOf(c, h + v, tools, instruction).Some?
    ensures var before, after :=
        Ids(c, RootsOf(c, h, tools, instruction).value), Ids(c, RootsOf(c, h + v, tools, instruction).value);
            |RootEntries(h)| <= |before| && before[..|RootEntries(h)|] <= after
  {
    RootEntriesExtend(h, v);
    var e := RootEntries(h);
    RootIdsExtend(c, e, e + Trailer(h, tools, instruction));
    RootIdsExtend(c, e, RootEntries(h + v) + Trailer(h + v, tools, instruction));
  }

  /** The warm cache, prompt side: when messages are appended, the root ids but for the instruction are
      a prefix of the new ones, whatever has become of the tool calls. */
  lemma PromptIdsAreKept(c: Codec, rebuild: Rebuild, rebuild': Rebuild, ms: seq<ChatMessage>, more: seq<ChatMessage>,
                         tools: bool, instruction: string, id: Option<string>, id': Option<string>, k: nat, l: nat)
    requires RequestFor(c, rebuild, ms, tools, instruction, id, k).Some?
    requires RequestFor(c, rebuild', ms + more, tools, instruction, id', l).Some?
    ensures var before, after := RequestFor(c, rebuild, ms, tools, instruction, id, k).value.rootIds,
                                 RequestFor(c, rebuild', ms + more, tools, instruction, id', l).value.rootIds;
            |RootEntries(HistoryOf(ms))| <= |before| && before[..|RootEntries(HistoryOf(ms))|] <= after
  {
    var v := HistoryExtends(ms, more);
    LongerHistoryKeepsRoots(c, HistoryOf(ms), v, tools, instruction);
  }

  lemma RootIdsExtend(c: Codec, a: seq<RootEntry>, b: seq<RootEntry>)
    requires a <= b && EncodeRoots(c, b).Some?
    ensures EncodeRoots(c, a).Some?
    ensures Ids(c, EncodeRoots(c, b).value)[..|a|] == Ids(c, EncodeRoots(c, a).value)
  {
    EncodeRootsExtend(c, a, b);
  }
}
