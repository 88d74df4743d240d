// Server messages of one Run exchange and what the client does with each: the
// KV handshake, the exec handshake, and what is captured along the way.
module Protocol {
  import opened Basics
  import opened BlobStores
  import ResultWriters

  datatype ToolMessage = InvalidMessage | ToolMessage(content: ResultWriters.Message)

  /** Every variant of a tool call but the generic wrapper, which has a form of its own below. */
  type NativeField = f: string | f != "mcp_tool_call" witness ""

  datatype CursorToolCall =
    | NoVariant
    | McpToolCall(name: string, mcpArgs: map<string, Bytes>, mcpResult: ResultWriters.Message)
    | NativeToolCall(field: NativeField, message: ToolMessage)

  datatype Update =
    | TextDelta(text: string)
    | ToolCallCompleted(call: Option<CursorToolCall>)
    | TokenDelta(tokens: int)
    | TurnEnded
    | Bookkeeping

  datatype ConversationState = ConversationState(turns: seq<Bytes>, rootPrompt: seq<Bytes>, rest: string)

  datatype KvRequest = GetBlob(blobId: Bytes) | SetBlob(blobId: Bytes, blobData: Bytes) | UnknownKv

  /** An exec request is an MCP call, or any other args field with its arguments rendered as JSON. */
  datatype ExecVariant =
    | McpArgs(name: string, args: map<string, Bytes>)
    | OtherArgs(field: string, argsJSON: Option<string>)
  {
    function FieldName(): string {
      if McpArgs? then "mcp_args" else field
    }
  }

  datatype ServerMessage =
    | InteractionUpdate(update: Option<Update>)
    | KvServerMessage(kvId: nat, kv: KvRequest)
    | ExecServerMessage(id: nat, execId: string, variant: Option<ExecVariant>)
    | CheckpointUpdate(state: Option<ConversationState>)
    | OtherMessage

  datatype ToolRequest = ToolRequest(field: string, name: string, args: map<string, Bytes>, argsJSON: string)

  datatype Reply =
    | GetBlobResult(replyTo: nat, data: Bytes)
    | SetBlobResult(replyTo: nat)
    | ExecResult(replyTo: nat, execId: string, field: string, outcome: string)

  /** A result field of ExecClientMessage: the message-typed cases of its outcome oneof. */
  datatype ResultShape = NotAMessage | NoOutcome | Outcomes(cases: set<string>)

  datatype Verdict =
    | Running
    | TurnComplete
    | CleanEnd
    | StreamError
    | DecodeError
    | KvFailed
    | ExecFailed
    | Dropped
    | Crashed
  {
    predicate Clean() {
      TurnComplete? || CleanEnd?
    }
  }

  /** What the surroundings decide: codecs, the result schema, and the fate of each write. */
  datatype Peer = Peer(
    decode: Bytes -> Option<ServerMessage>,
    endStreamFails: Bytes -> bool,
    results: map<string, ResultShape>,
    writeSucceeds: nat -> bool
  )

  datatype Exchange = Exchange(
    updates: seq<Update>,
    toolRequests: seq<ToolRequest>,
    checkpoint: Option<ConversationState>,
    store: Store,
    replies: seq<Reply>,
    attempts: nat,
    verdict: Verdict
  )

  // ---- the args-to-result field mapping ----

  const ARGS: string := "_args"
  const RESULT: string := "_result"

  predicate HasSuffix(s: string, suffix: string) {
    |s| >= |suffix| && s[|s| - |suffix|..] == suffix
  }

  function ExecArgsToResultFieldName(field: string): Option<string> {
    if field == "shell_stream_args" then Some("shell_stream")
    else if |field| <= |ARGS| || !HasSuffix(field, ARGS) then None
    else Some(field[..|field| - |ARGS|] + RESULT)
  }

  /** Two request fields never share a result field, the override included. */
  lemma ResultFieldNameInjective(f: string, g: string)
    requires ExecArgsToResultFieldName(f).Some?
    requires ExecArgsToResultFieldName(f) == ExecArgsToResultFieldName(g)
    ensures f == g
  {
    var r := ExecArgsToResultFieldName(f).value;
    if f == "shell_stream_args" || g == "shell_stream_args" {
      assert r == "shell_stream";
      assert r[|r| - 1] == 'm';
      if f != g {
        assert false;
      }
    } else {
      assert r[..|r| - |RESULT|] == f[..|f| - |ARGS|] == g[..|g| - |ARGS|];
      assert f == f[..|f| - |ARGS|] + f[|f| - |ARGS|..];
      assert g == g[..|g| - |ARGS|] + g[|g| - |ARGS|..];
    }
  }

  /** The regular names, and the one exception. */
  lemma ResultFieldName(base: string)
    ensures base != "" && base != "shell_stream" ==> ExecArgsToResultFieldName(base + "_args") == Some(base + "_result")
    ensures ExecArgsToResultFieldName("shell_stream_args") == Some("shell_stream")
    ensures ExecArgsToResultFieldName("_args") == None
    ensures |base| < 5 || base[|base| - 5..] != "_args" ==> ExecArgsToResultFieldName(base) == None
  {
    var f := base + "_args";
    assert f[|f| - 5..] == "_args" && f[..|f| - 5] == base;
    if f == "shell_stream_args" {
      assert f[..|f| - 5] == "shell_stream";
    }
  }

  // ---- replies ----

  function FirstAvailable(priority: seq<string>, cases: set<string>): Option<string> {
    if priority == [] then None
    else if priority[0] in cases then Some(priority[0])
    else FirstAvailable(priority[1..], cases)
  }

  const DECLINE_PRIORITY: seq<string> := ["rejected", "error", "failure"]

  datatype Prepared = PrepareFailed | PrepareCrashed | Prepared(reply: Reply)

  /** The decline for a request: its own result field, with the first refusing case declared there. */
  function PrepareDecline(results: map<string, ResultShape>, id: nat, execId: string, resultField: string): Prepared {
    if resultField !in results then PrepareFailed
    else match results[resultField]
      case NotAMessage => PrepareCrashed
      case NoOutcome => PrepareFailed
      case Outcomes(cases) =>
        match FirstAvailable(DECLINE_PRIORITY, cases)
        case None => PrepareFailed
        case Some(c) => Prepared(ExecResult(id, execId, resultField, c))
  }

  function PrepareContext(results: map<string, ResultShape>, id: nat, execId: string): Prepared {
    var field := "request_context_result";
    if field !in results then PrepareFailed
    else if results[field].NotAMessage? then PrepareCrashed
    else Prepared(ExecResult(id, execId, field, "success"))
  }

  function Send(peer: Peer, x: Exchange, reply: Reply, onFailure: Verdict): Exchange {
    if peer.writeSucceeds(x.attempts)
    then x.(replies := x.replies + [reply], attempts := x.attempts + 1)
    else x.(attempts := x.attempts + 1, verdict := onFailure)
  }

  function HandleKv(peer: Peer, x: Exchange, id: nat, kv: KvRequest): Exchange {
    match kv
    case GetBlob(blobId) =>
      var found := Get(x.store, blobId);
      Send(peer, x, GetBlobResult(id, if found.Some? then found.value else []), KvFailed)
    case SetBlob(blobId, blobData) =>
      Send(peer, x.(store := PutKnown(x.store, blobId, blobData)), SetBlobResult(id), KvFailed)
    case UnknownKv => x
  }

  const REQUEST_CONTEXT: string := "request_context_args"

  function Capture(v: ExecVariant): seq<ToolRequest> {
    match v
    case McpArgs(name, args) =>
      if name != "" then [ToolRequest(v.FieldName(), name, args, "")] else []
    case OtherArgs(field, argsJSON) =>
      if field != REQUEST_CONTEXT && argsJSON.Some? then [ToolRequest(field, "", map[], argsJSON.value)] else []
  }

  /** None: the request is of a kind nothing can be said to. */
  function PrepareExecReply(results: map<string, ResultShape>, id: nat, execId: string,
        v: ExecVariant): Option<Prepared>
  {
    if v.FieldName() == REQUEST_CONTEXT then Some(PrepareContext(results, id, execId))
    else match ExecArgsToResultFieldName(v.FieldName())
      case None => None
      case Some(field) => Some(PrepareDecline(results, id, execId, field))
  }

  function HandleExec(peer: Peer, x: Exchange, id: nat, execId: string, variant: Option<ExecVariant>): Exchange {
    match variant
    case None => x
    case Some(v) =>
      var y := x.(toolRequests := x.toolRequests + Capture(v));
      match PrepareExecReply(peer.results, id, execId, v)
      case None => y
      case Some(PrepareFailed) => y.(verdict := ExecFailed)
      case Some(PrepareCrashed) => y.(verdict := Crashed)
      case Some(Prepared(reply)) => Send(peer, y, reply, ExecFailed)
  }

  function HandleMessage(peer: Peer, x: Exchange, m: ServerMessage): Exchange {
    match m
    case InteractionUpdate(None) => x
    case InteractionUpdate(Some(u)) =>
      x.(updates := x.updates + [u], verdict := if u.TurnEnded? then TurnComplete else x.verdict)
    case KvServerMessage(id, kv) => HandleKv(peer, x, id, kv)
    case ExecServerMessage(id, execId, variant) => HandleExec(peer, x, id, execId, variant)
    case CheckpointUpdate(None) => x
    case CheckpointUpdate(Some(s)) => x.(checkpoint := Some(s))
    case OtherMessage => x
  }

  predicate EndStream(flags: byte) {
    flags as int / 2 % 2 == 1  // flags & 0x02 != 0
  }

  function HandleFrame(peer: Peer, x: Exchange, flags: byte, payload: Bytes): Exchange {
    if EndStream(flags) then
      x.(verdict := if peer.endStreamFails(payload) then StreamError else CleanEnd)
    else match peer.decode(payload)
      case None => x.(verdict := DecodeError)
      case Some(m) => HandleMessage(peer, x, m)
  }

  // ---- handshake discipline ----

  /** The requests a peer waits on: every KV get or set, and every exec request with a reply shape. */
  predicate Awaited(m: ServerMessage) {
    match m
    case KvServerMessage(_, kv) => !kv.UnknownKv?
    case ExecServerMessage(_, _, Some(v)) =>
      v.FieldName() == REQUEST_CONTEXT || ExecArgsToResultFieldName(v.FieldName()).Some?
    case _ => false
  }

  predicate Answers(reply: Reply, m: ServerMessage) {
    match m
    case KvServerMessage(id, kv) =>
      reply.replyTo == id && (kv.GetBlob? ==> reply.GetBlobResult?) && (kv.SetBlob? ==> reply.SetBlobResult?)
    case ExecServerMessage(id, execId, Some(v)) =>
      && reply.ExecResult? && reply.replyTo == id && reply.execId == execId
      && (if v.FieldName() == REQUEST_CONTEXT then reply.field == "request_context_result" && reply.outcome == "success"
          else ExecArgsToResultFieldName(v.FieldName()) == Some(reply.field) && reply.outcome in DECLINE_PRIORITY)
    case _ => false
  }

  ghost predicate IsFirstOf(priority: seq<string>, cases: set<string>, c: string) {
    exists i :: 0 <= i < |priority| && priority[i] == c && c in cases
      && forall j :: 0 <= j < i ==> priority[j] !in cases
  }

  lemma {:induction false} FirstAvailableIsFirst(priority: seq<string>, cases: set<string>)
    ensures var r := FirstAvailable(priority, cases);
            if r.Some? then IsFirstOf(priority, cases, r.value) else forall c :: c in priority ==> c !in cases
  {
    if priority != [] {
      if priority[0] in cases {
        assert IsFirstOf(priority, cases, priority[0]);
      } else {
        FirstAvailableIsFirst(priority[1..], cases);
        var r := FirstAvailable(priority, cases);
        if r.Some? {
          var i :| 0 <= i < |priority[1..]| && priority[1..][i] == r.value
            && forall j :: 0 <= j < i ==> priority[1..][j] !in cases;
          assert priority[i + 1] == r.value;
          assert forall j :: 1 <= j < i + 1 ==> priority[j] == priority[1..][j - 1];
        }
      }
    }
  }

  /** One message earns exactly one reply of its own, or none if nobody waits, or the exchange fails. */
  lemma ExactlyOneReply(peer: Peer, x: Exchange, m: ServerMessage)
    requires x.verdict == Running
    ensures var y := HandleMessage(peer, x, m);
            if !Awaited(m) then y.replies == x.replies && y.verdict in {Running, TurnComplete}
            else if y.verdict == Running then
              |y.replies| == |x.replies| + 1 && y.replies[..|x.replies|] == x.replies
                && Answers(y.replies[|x.replies|], m)
            else y.replies == x.replies && y.verdict in {KvFailed, ExecFailed, Crashed}
  {
    match m {
      case ExecServerMessage(id, execId, Some(v)) =>
        var name := ExecArgsToResultFieldName(v.FieldName());
        if v.FieldName() != REQUEST_CONTEXT && name.Some? && name.value in peer.results
          && peer.results[name.value].Outcomes? {
          FirstAvailableIsFirst(DECLINE_PRIORITY, peer.results[name.value].cases);
        }
      case _ =>
    }
  }

  lemma NamesOfRequest(v: ExecVariant, base: string)
    requires base !in {"", "shell_stream", "request_context"}
    requires if v.McpArgs? then base == "mcp" else v.field == base + "_args"
    ensures v.FieldName() != REQUEST_CONTEXT && ExecArgsToResultFieldName(v.FieldName()) == Some(base + "_result")
  {
    ResultFieldName(base);
    assert "mcp" + "_args" == "mcp_args";
    var f, c := base + "_args", "request_context";
    assert f[..|f| - 5] == base && (c + "_args")[..15] == c;
    assert c + "_args" == "request_context_args";
  }

  /** How a request to run a tool is answered, told by names alone. */
  lemma DeclinesByName(peer: Peer, x: Exchange, id: nat, execId: string, v: ExecVariant, base: string)
    requires x.verdict == Running && base !in {"", "shell_stream", "request_context"}
    requires if v.McpArgs? then base == "mcp" else v.field == base + "_args"
    ensures var y := HandleMessage(peer, x, ExecServerMessage(id, execId, Some(v)));
      var result := base + "_result";
      if result !in peer.results || peer.results[result].NoOutcome? then
        y.verdict == ExecFailed && y.replies == x.replies
      else if peer.results[result].NotAMessage? then y.verdict == Crashed && y.replies == x.replies
      else
        var cases := peer.results[result].cases;
        if "rejected" !in cases && "error" !in cases && "failure" !in cases then
          y.verdict == ExecFailed && y.replies == x.replies
        else if !peer.writeSucceeds(x.attempts) then y.verdict == ExecFailed && y.replies == x.replies
        else
          var outcome := if "rejected" in cases then "rejected" else if "error" in cases then "error" else "failure";
          y.verdict == Running && y.replies == x.replies + [ExecResult(id, execId, result, outcome)]
  {
    NamesOfRequest(v, base);
    var results, result := peer.results, base + "_result";
    if result in results && results[result].Outcomes? {
      DeclinedWith(results[result].cases);
    }
  }

  lemma DeclinedWith(cases: set<string>)
    ensures FirstAvailable(DECLINE_PRIORITY, cases) ==
            if "rejected" in cases then Some("rejected")
            else if "error" in cases then Some("error")
            else if "failure" in cases then Some("failure")
            else None
  {
    var p := DECLINE_PRIORITY;
    var q := p[1..];
    var s := q[1..];
    assert q[0] == "error" && s[0] == "failure" && s[1..] == [];
    assert FirstAvailable(s, cases) == if "failure" in cases then Some("failure") else None;
    assert FirstAvailable(q, cases) == if "error" in cases then Some("error") else FirstAvailable(s, cases);
  }

  /** The context request is answered with success, whatever outcomes its result declares, and nothing of it
      is recorded. */
  lemma ContextIsAnswered(peer: Peer, x: Exchange, id: nat, execId: string, argsJSON: Option<string>)
    requires x.verdict == Running
    ensures var v := OtherArgs("request_context_args", argsJSON);
      var y := HandleMessage(peer, x, ExecServerMessage(id, execId, Some(v)));
      var result := "request_context_result";
      && y.toolRequests == x.toolRequests
      && (if result in peer.results && peer.results[result].NotAMessage? then
            y.verdict == Crashed && y.replies == x.replies
          else if result !in peer.results || !peer.writeSucceeds(x.attempts) then
            y.verdict == ExecFailed && y.replies == x.replies
          else y.verdict == Running && y.replies == x.replies + [ExecResult(id, execId, result, "success")])
  {
  }

  /** Every tool invocation is on record before its decline can be written. */
  lemma CapturedBeforeDeclined(peer: Peer, x: Exchange, id: nat, execId: string, v: ExecVariant)
    ensures var y := HandleMessage(peer, x, ExecServerMessage(id, execId, Some(v)));
            y.toolRequests == x.toolRequests + Capture(v) && y.updates == x.updates && y.store == x.store
  {
  }

  /** What is put on record of a request: its own name and arguments, or its field and JSON. */
  lemma CapturesAsAsked(peer: Peer, x: Exchange, id: nat, execId: string, v: ExecVariant)
    ensures var before, after := x.toolRequests,
                                 HandleMessage(peer, x, ExecServerMessage(id, execId, Some(v))).toolRequests;
      match v
      case McpArgs(name, args) =>
        if name == "" then after == before
        else
          && |after| == |before| + 1 && after[..|before|] == before
          && after[|before|].name == name && after[|before|].args == args && after[|before|].field == "mcp_args"
      case OtherArgs(field, argsJSON) =>
        if field == "request_context_args" || argsJSON.None? then after == before
        else
          && |after| == |before| + 1 && after[..|before|] == before
          && after[|before|].name == "" && after[|before|].field == field
          && after[|before|].argsJSON == argsJSON.value
  {
    CapturedBeforeDeclined(peer, x, id, execId, v);
  }

  // ---- the messages of a whole exchange, one after another ----

  function HandleAll(peer: Peer, x: Exchange, ms: seq<ServerMessage>): Exchange
    decreases |ms|
  {
    if ms == [] || x.verdict != Running then x
    else HandleAll(peer, HandleMessage(peer, x, ms[0]), ms[1..])
  }

  function ServerWrites(ms: seq<ServerMessage>): seq<Write> {
    if ms == [] then []
    else (if ms[0].KvServerMessage? && ms[0].kv.SetBlob? then [Write(ms[0].kv.blobId, ms[0].kv.blobData)] else [])
         + ServerWrites(ms[1..])
  }

  /** Only a set touches the store, and it does so before its reply is written. */
  lemma StoreAfterOne(peer: Peer, x: Exchange, m: ServerMessage)
    ensures HandleMessage(peer, x, m).store == Apply(x.store, ServerWrites([m]))
  {
    assert [m][1..] == [];
    if m.KvServerMessage? && m.kv.SetBlob? {
      var w := Write(m.kv.blobId, m.kv.blobData);
      assert ServerWrites([m]) == [w];
      assert Apply(x.store, [w]) == PutKnown(x.store, w.id, w.data);
    }
  }

  lemma {:induction false} StoreAfterAll(peer: Peer, x: Exchange, ms: seq<ServerMessage>)
    requires HandleAll(peer, x, ms).verdict == Running
    ensures HandleAll(peer, x, ms).store == Apply(x.store, ServerWrites(ms))
    decreases |ms|
  {
    if ms != [] {
      var z := HandleMessage(peer, x, ms[0]);
      assert HandleAll(peer, x, ms) == HandleAll(peer, z, ms[1..]);
      StoreAfterAll(peer, z, ms[1..]);
      StoreAfterOne(peer, x, ms[0]);
      ApplyAppend(x.store, ServerWrites([ms[0]]), ServerWrites(ms[1..]));
      assert ServerWrites(ms) == ServerWrites([ms[0]]) + ServerWrites(ms[1..]) by {
        assert [ms[0]][1..] == [];
      }
    }
  }

  lemma {:induction false} HandleAllAppend(peer: Peer, x: Exchange, u: seq<ServerMessage>, v: seq<ServerMessage>)
    ensures HandleAll(peer, x, u + v) == HandleAll(peer, HandleAll(peer, x, u), v)
    decreases |u|
  {
    if u == [] || x.verdict != Running {
      assert u == [] ==> u + v == v;
    } else {
      assert (u + v)[0] == u[0] && (u + v)[1..] == u[1..] + v;
      HandleAllAppend(peer, HandleMessage(peer, x, u[0]), u[1..], v);
    }
  }

  /** After any run of messages a get is answered with the latest set or put under that id, or nothing. */
  lemma GetReplyIsLatestWrite(peer: Peer, x: Exchange, puts: seq<Write>, ms: seq<ServerMessage>, id: nat, blobId: Bytes)
    requires x.store == Apply(map[], puts)
    requires HandleAll(peer, x, ms + [KvServerMessage(id, GetBlob(blobId))]).verdict == Running
    ensures var y := HandleAll(peer, x, ms + [KvServerMessage(id, GetBlob(blobId))]);
            var latest := Latest(puts + ServerWrites(ms), blobId);
            y.replies != [] &&
            y.replies[|y.replies| - 1] == GetBlobResult(id, if latest.Some? then latest.value else [])
  {
    var m := KvServerMessage(id, GetBlob(blobId));
    var z := HandleAll(peer, x, ms);
    HandleAllAppend(peer, x, ms, [m]);
    assert HandleAll(peer, z, [m]) ==
      if z.verdict != Running then z else HandleAll(peer, HandleMessage(peer, z, m), []);
    StoreAfterAll(peer, x, ms);
    ApplyAppend(map[], puts, ServerWrites(ms));
    GetIsLatestWrite(map[], puts + ServerWrites(ms), blobId);
  }

  function Expected(ms: seq<ServerMessage>): seq<ServerMessage> {
    if ms == [] then [] else (if Awaited(ms[0]) then [ms[0]] else []) + Expected(ms[1..])
  }

  /** The replies since before are, one for one and in order, the answers to the messages. */
  ghost predicate AnswersAll(before: seq<Reply>, after: seq<Reply>, ms: seq<ServerMessage>) {
    && |after| == |before| + |ms| && after[..|before|] == before
    && forall i :: 0 <= i < |ms| ==> Answers(after[|before| + i], ms[i])
  }

  lemma OneMoreAnswer(before: seq<Reply>, next: seq<Reply>, after: seq<Reply>, m: ServerMessage, ms: seq<ServerMessage>)
    requires |next| == |before| + 1 && next[..|before|] == before && Answers(next[|before|], m)
    requires AnswersAll(next, after, ms)
    ensures AnswersAll(before, after, [m] + ms)
  {
    assert after[..|before|] == after[..|next|][..|before|];
    assert after[|before|] == after[..|next|][|before|];
    forall i | 1 <= i < |[m] + ms| ensures Answers(after[|before| + i], ([m] + ms)[i]) {
      assert Answers(after[|next| + (i - 1)], ms[i - 1]);
    }
  }

  /** While the exchange runs, the replies are, one for one and in order, the answers to what was awaited. */
  lemma {:induction false} RepliesMatchRequests(peer: Peer, x: Exchange, ms: seq<ServerMessage>)
    requires HandleAll(peer, x, ms).verdict == Running
    ensures AnswersAll(x.replies, HandleAll(peer, x, ms).replies, Expected(ms))
    decreases |ms|
  {
    if ms != [] {
      var z := HandleMessage(peer, x, ms[0]);
      assert HandleAll(peer, x, ms) == HandleAll(peer, z, ms[1..]);
      ExactlyOneReply(peer, x, ms[0]);
      RepliesMatchRequests(peer, z, ms[1..]);
      if Awaited(ms[0]) {
        OneMoreAnswer(x.replies, z.replies, HandleAll(peer, x, ms).replies, ms[0], Expected(ms[1..]));
      } else {
        assert [] + Expected(ms[1..]) == Expected(ms[1..]);
      }
    }
  }

  // ---- the checkpoint ----

  function LatestCheckpoint(ms: seq<ServerMessage>): Option<ConversationState> {
    if ms == [] then None
    else
      var rest := LatestCheckpoint(ms[1..]);
      if rest.Some? then rest
      else if ms[0].CheckpointUpdate? then ms[0].state
      else None
  }

  lemma CheckpointAfterOne(peer: Peer, x: Exchange, m: ServerMessage)
    ensures HandleMessage(peer, x, m).checkpoint ==
        if m.CheckpointUpdate? && m.state.Some? then m.state else x.checkpoint
  {
  }

  /** The checkpoint of an exchange is the last one the server acknowledged, if any. */
  lemma {:induction false} CheckpointIsLatest(peer: Peer, x: Exchange, ms: seq<ServerMessage>)
    requires HandleAll(peer, x, ms).verdict == Running
    ensures HandleAll(peer, x, ms).checkpoint ==
        if LatestCheckpoint(ms).Some? then LatestCheckpoint(ms) else x.checkpoint
    decreases |ms|
  {
    if ms != [] {
      var z := HandleMessage(peer, x, ms[0]);
      assert HandleAll(peer, x, ms) == HandleAll(peer, z, ms[1..]);
      CheckpointAfterOne(peer, x, ms[0]);
      CheckpointIsLatest(peer, z, ms[1..]);
    }
  }
}
