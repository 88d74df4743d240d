// Folding the updates and the captured tool requests of an exchange into one
// assistant message: its text, its tool calls, its token count.
module Accumulators {
  import opened Basics
  import opened Protocol
  import opened History
  import opened McpArguments
  import opened ToolRouting
  import opened ToolCalls

  /** The schema, protojson for a variant's message, and the random call ids, numbered in the order
      they are drawn. */
  datatype Rendering = Rendering(
    schema: Schema,
    marshalMessage: (string, R.Message) -> Option<string>,
    callId: nat -> Option<string>
  )

  ghost predicate IdsAreFresh(e: Rendering) {
    forall i, j :: e.callId(i).Some? && e.callId(i) == e.callId(j) ==> i == j
  }

  // ---- one completed tool call ----

  datatype Invocation = Invocation(name: string, arguments: string)

  datatype Translated = Skipped | Untranslatable | Visible(invocation: Invocation)

  /** The echo that follows a decline: args are declared but absent, only a result is there. */
  predicate IsEcho(s: Schema, field: string, m: R.Message) {
    s.Declared(field, "args").Some? && !m.Has("args") && s.Declared(field, "result").Some? && m.Has("result")
  }

  function Translate(e: Rendering, call: Option<CursorToolCall>): Translated {
    match call
    case None => Skipped
    case Some(NoVariant) => Untranslatable
    case Some(McpToolCall(name, args, _)) =>
      if name == "" then Skipped else Visible(Invocation(name, ArgsToJson(e.schema.json, args)))
    case Some(NativeToolCall(_, InvalidMessage)) => Untranslatable
    case Some(NativeToolCall(field, ToolMessage(m))) =>
      if IsEcho(e.schema, field, m) then Skipped
      else match e.marshalMessage(field, m)
        case None => Untranslatable
        case Some(text) => Visible(Invocation(field, text))
  }

  /** The field is set: it holds a submessage, or a value. */
  predicate IsSet(m: R.Message, name: string) {
    [name] in m.present || [name] in m.leaves
  }

  /** The type has args and a result, of which the result alone is set. */
  predicate OnlyResultIsSet(s: Schema, field: string, m: R.Message) {
    && s.Declared(field, "args").Some? && s.Declared(field, "result").Some?
    && !IsSet(m, "args") && IsSet(m, "result")
  }

  /** What comes back after a decline: a result without arguments, for MCP without even a name. */
  predicate DeclineEcho(s: Schema, call: CursorToolCall) {
    || (call.McpToolCall? && call.name == "")
    || (call.NativeToolCall? && call.message.ToolMessage? && OnlyResultIsSet(s, call.field, call.message.content))
  }

  /** A native call with its arguments set is shown to the client, result or no result; one of a type with
      both whose result alone is set is not; one with neither set is. */
  lemma NativeCallIsShown(e: Rendering, field: NativeField, m: R.Message)
    ensures var t := Translate(e, Some(NativeToolCall(field, ToolMessage(m))));
      var shown := if e.marshalMessage(field, m).Some?
                   then Visible(Invocation(field, e.marshalMessage(field, m).value)) else Untranslatable;
      && (["args"] in m.present || ["args"] in m.leaves ==> t == shown)
      && (["result"] !in m.present && ["result"] !in m.leaves ==> t == shown)
      && (e.schema.Declared(field, "args").None? || e.schema.Declared(field, "result").None? ==> t == shown)
      && (e.schema.Declared(field, "args").Some? && ["args"] !in m.present && ["args"] !in m.leaves
          && e.schema.Declared(field, "result").Some? && (["result"] in m.present || ["result"] in m.leaves) ==>
            t == Skipped)
  {
  }

  /** An MCP call is shown under the name the client declared, with its arguments; a nameless one is not. */
  lemma McpCallIsShown(e: Rendering, name: string, args: map<string, Bytes>, echo: R.Message)
    ensures Translate(e, Some(McpToolCall(name, args, echo))) ==
            if name == "" then Skipped else Visible(Invocation(name, ArgsToJson(e.schema.json, args)))
  {
  }

  /** The call under its own name, or that of its variant. */
  function NameOf(call: CursorToolCall): string {
    if call.McpToolCall? then call.name else if call.NativeToolCall? then call.field else ""
  }

  // ---- the fold ----

  datatype Acc = Acc(text: string, toolCalls: seq<ChatToolCall>, failed: bool, tokens: nat, drawn: nat)

  const EMPTY: Acc := Acc("", [], false, 0, 0)

  /** A call id is drawn for every visible call; without one the call is lost and the failure noted. */
  function Surface(e: Rendering, a: Acc, v: Invocation): Acc {
    match e.callId(a.drawn)
    case None => a.(failed := true, drawn := a.drawn + 1)
    case Some(id) => a.(toolCalls := a.toolCalls + [ChatToolCall(id, v.name, v.arguments)], drawn := a.drawn + 1)
  }

  function Accumulate(e: Rendering, a: Acc, u: Update): Acc {
    match u
    case TextDelta(text) => a.(text := a.text + text)
    case ToolCallCompleted(call) =>
      (match Translate(e, call)
       case Skipped => a
       case Untranslatable => a.(failed := true)
       case Visible(v) => Surface(e, a, v))
    case TokenDelta(n) => if n > 0 then a.(tokens := a.tokens + n) else a
    case TurnEnded => a
    case Bookkeeping => a
  }

  function AccumulateAll(e: Rendering, a: Acc, us: seq<Update>): Acc {
    if us == [] then a else Accumulate(e, AccumulateAll(e, a, us[..|us| - 1]), us[|us| - 1])
  }

  /** What a captured request is surfaced as: the client's own tool, or the declared equivalent of a native one. */
  function CapturedAs(e: Rendering, declared: map<string, string>, r: ToolRequest): Option<Invocation> {
    if r.name != "" then Some(Invocation(r.name, ArgsToJson(e.schema.json, r.args)))
    else match ResolveClientTool(e.schema.table, declared, r.field)
      case None => None
      case Some(tool) => Some(Invocation(tool, if r.argsJSON == "" then "{}" else r.argsJSON))
  }

  /** The calls of the captured requests; the whole response fails when an id cannot be drawn. */
  function AddCaptured(e: Rendering, declared: map<string, string>, a: Acc, rs: seq<ToolRequest>): Option<Acc> {
    if rs == [] then Some(a)
    else
      match AddCaptured(e, declared, a, rs[..|rs| - 1])
      case None => None
      case Some(b) =>
        match CapturedAs(e, declared, rs[|rs| - 1])
        case None => Some(b)
        case Some(v) => if e.callId(b.drawn).None? then None else Some(Surface(e, b, v))
  }

  class ResponseAccumulator {
    const e: Rendering
    var text: string
    var toolCalls: seq<ChatToolCall>
    var failed: bool
    var completionTokens: nat
    var drawn: nat

    constructor (e: Rendering)
      ensures this.e == e && State() == EMPTY
    {
      this.e := e;
      text, toolCalls, failed, completionTokens, drawn := "", [], false, 0, 0;
    }

    ghost function State(): Acc
      reads this
    {
      Acc(text, toolCalls, failed, completionTokens, drawn)
    }

    /** Only an echo, or no call at all, is skipped; only a call without content, or that JSON cannot
        hold, is an error; any other surfaces under its own name. */
    method ToChatToolCall(call: Option<CursorToolCall>) returns (t: Translated)
      ensures t == Translate(e, call)
      ensures t.Skipped? <==> call.None? || DeclineEcho(e.schema, call.value)
      ensures t.Untranslatable? <==>
        call.Some? && (call.value.NoVariant? || (call.value.NativeToolCall? &&
          (call.value.message.InvalidMessage? ||
           (!DeclineEcho(e.schema, call.value)
             && e.marshalMessage(call.value.field, call.value.message.content).None?))))
      ensures t.Visible? ==> call.Some? && t.invocation.name == NameOf(call.value)
    {
      match call {
        case None => t := Skipped;
        case Some(NoVariant) => t := Untranslatable;
        case Some(McpToolCall(name, args, _)) =>
          if name == "" {
            return Skipped;
          }
          var rendered := McpArgsToJson(e.schema.json, args);
          t := Visible(Invocation(name, rendered));
        case Some(NativeToolCall(_, InvalidMessage)) => t := Untranslatable;
        case Some(NativeToolCall(field, ToolMessage(m))) =>
          if IsEcho(e.schema, field, m) {
            return Skipped;
          }
          var rendered := e.marshalMessage(field, m);
          t := if rendered.None? then Untranslatable else Visible(Invocation(field, rendered.value));
      }
    }

    /** False when no id can be drawn. */
    method Append(v: Invocation) returns (ok: bool)
      modifies this
      ensures ok == e.callId(old(drawn)).Some?
      ensures State() == if ok then Surface(e, old(State()), v) else old(State()).(drawn := old(drawn) + 1)
    {
      var id := e.callId(drawn);
      drawn := drawn + 1;
      ok := id.Some?;
      if ok {
        toolCalls := toolCalls + [ChatToolCall(id.value, v.name, v.arguments)];
      }
    }

    method Add(u: Update)
      modifies this
      ensures State() == Accumulate(e, old(State()), u)
    {
      match u {
        case TextDelta(t) => text := text + t;
        case ToolCallCompleted(call) =>
          var t := ToChatToolCall(call);
          match t {
            case Skipped =>
            case Untranslatable => failed := true;
            case Visible(v) =>
              var ok := Append(v);
              if !ok {
                failed := true;
              }
          }
        case TokenDelta(n) =>
          if n > 0 {
            completionTokens := completionTokens + n;
          }
        case TurnEnded =>
        case Bookkeeping =>
      }
    }

    method AddAll(us: seq<Update>)
      modifies this
      ensures State() == AccumulateAll(e, old(State()), us)
    {
      for i := 0 to |us|
        invariant State() == AccumulateAll(e, old(State()), us[..i])
      {
        assert us[..i + 1][..i] == us[..i] && us[..i + 1][i] == us[i];
        Add(us[i]);
      }
      assert us[..|us|] == us;
    }

    method AddCapturedToolRequests(rs: seq<ToolRequest>, declared: map<string, string>) returns (ok: bool)
      modifies this
      ensures var r := AddCaptured(e, declared, old(State()), rs);
              ok == r.Some? && (ok ==> State() == r.value)
    {
      ok := true;
      var i := 0;
      while i < |rs|
        invariant 0 <= i <= |rs| && AddCaptured(e, declared, old(State()), rs[..i]) == Some(State())
      {
        assert rs[..i + 1][..i] == rs[..i] && rs[..i + 1][i] == rs[i];
        var r := rs[i];
        i := i + 1;
        var invocation: Invocation;
        if r.name != "" {
          var rendered := McpArgsToJson(e.schema.json, r.args);
          invocation := Invocation(r.name, rendered);
        } else {
          var mapped := FindClientTool(e.schema.table, declared, r.field);
          if mapped.None? {
            continue;
          }
          invocation := Invocation(mapped.value, if r.argsJSON == "" then "{}" else r.argsJSON);
        }
        var drew := Append(invocation);
        if !drew {
          OnceFailedStaysFailed(e, declared, old(State()), rs, i);
          return false;
        }
      }
      assert rs[..i] == rs;
    }
  }

  lemma {:induction false} OnceFailedStaysFailed(e: Rendering, declared: map<string, string>, a: Acc,
        rs: seq<ToolRequest>, i: nat)
    requires i <= |rs| && AddCaptured(e, declared, a, rs[..i]).None?
    ensures AddCaptured(e, declared, a, rs).None?
    decreases |rs| - i
  {
    if i < |rs| {
      assert rs[..i + 1][..i] == rs[..i];
      OnceFailedStaysFailed(e, declared, a, rs, i + 1);
    } else {
      assert rs[..i] == rs;
    }
  }

  // ---- what the fold amounts to ----

  function AllText(us: seq<Update>): string {
    if us == [] then ""
    else AllText(us[..|us| - 1]) + if us[|us| - 1].TextDelta? then us[|us| - 1].text else ""
  }

  /** Cursor's own count of output tokens. */
  function TokensIn(us: seq<Update>): nat {
    if us == [] then 0
    else
      var u := us[|us| - 1];
      TokensIn(us[..|us| - 1]) + if u.TokenDelta? && u.tokens > 0 then u.tokens else 0
  }

  lemma {:induction false} FoldedTokens(e: Rendering, us: seq<Update>)
    ensures AccumulateAll(e, EMPTY, us).tokens == TokensIn(us)
  {
    if us != [] {
      FoldedTokens(e, us[..|us| - 1]);
    }
  }

  /** The completed calls a client is to see, in order. */
  function Completed(e: Rendering, us: seq<Update>): seq<Invocation> {
    if us == [] then []
    else
      var u := us[|us| - 1];
      Completed(e, us[..|us| - 1]) +
        if u.ToolCallCompleted? && Translate(e, u.call).Visible? then [Translate(e, u.call).invocation] else []
  }

  predicate Untranslated(e: Rendering, u: Update) {
    u.ToolCallCompleted? && Translate(e, u.call).Untranslatable?
  }

  predicate AllTranslate(e: Rendering, us: seq<Update>) {
    forall u :: u in us ==> !Untranslated(e, u)
  }

  function Requested(e: Rendering, declared: map<string, string>, rs: seq<ToolRequest>): seq<Invocation> {
    if rs == [] then []
    else
      var v := CapturedAs(e, declared, rs[|rs| - 1]);
      Requested(e, declared, rs[..|rs| - 1]) + if v.Some? then [v.value] else []
  }

  function Invocations(calls: seq<ChatToolCall>): seq<Invocation> {
    seq(|calls|, i requires 0 <= i < |calls| => Invocation(calls[i].name, calls[i].arguments))
  }

  /** Every id drawn from position from up to position to was had. */
  ghost predicate IdsHad(e: Rendering, from: nat, to: nat) {
    forall k: nat :: from <= k < to ==> e.callId(k).Some?
  }

  ghost predicate WasDrawn(e: Rendering, id: string, drawn: nat) {
    exists k: nat :: k < drawn && e.callId(k) == Some(id)
  }

  ghost predicate DistinctIds(e: Rendering, a: Acc) {
    && (forall i :: 0 <= i < |a.toolCalls| ==> WasDrawn(e, a.toolCalls[i].id, a.drawn))
    && (forall i, j :: 0 <= i < j < |a.toolCalls| ==> a.toolCalls[i].id != a.toolCalls[j].id)
  }

  lemma SurfaceOne(e: Rendering, a: Acc, v: Invocation)
    requires IdsAreFresh(e) && DistinctIds(e, a)
    ensures var b := Surface(e, a, v);
      && DistinctIds(e, b)
      && (e.callId(a.drawn).Some? ==> Invocations(b.toolCalls) == Invocations(a.toolCalls) + [v])
  {
    var b := Surface(e, a, v);
    forall i | 0 <= i < |b.toolCalls| ensures WasDrawn(e, b.toolCalls[i].id, b.drawn) {
      assert i < |a.toolCalls| ==> WasDrawn(e, a.toolCalls[i].id, a.drawn);
      assert i == |a.toolCalls| ==> e.callId(a.drawn) == Some(b.toolCalls[i].id);
    }
    if e.callId(a.drawn).Some? {
      forall i | 0 <= i < |a.toolCalls| ensures a.toolCalls[i].id != e.callId(a.drawn).value {
        assert WasDrawn(e, a.toolCalls[i].id, a.drawn);
      }
    }
  }

  /** The text is every delta; one id is drawn per visible call; the fold fails exactly when a call
      does not translate or an id is not had; with all ids had the calls are the visible ones, in order. */
  lemma {:induction false} FoldedUpdates(e: Rendering, us: seq<Update>)
    requires IdsAreFresh(e)
    ensures var a := AccumulateAll(e, EMPTY, us);
      && a.text == AllText(us)
      && a.drawn == |Completed(e, us)|
      && (a.failed <==> !AllTranslate(e, us) || !IdsHad(e, 0, a.drawn))
      && (IdsHad(e, 0, a.drawn) ==> Invocations(a.toolCalls) == Completed(e, us))
      && DistinctIds(e, a)
  {
    if us != [] {
      var front, u := us[..|us| - 1], us[|us| - 1];
      FoldedUpdates(e, front);
      var a := AccumulateAll(e, EMPTY, front);
      assert AllTranslate(e, us) <==> AllTranslate(e, front) && !Untranslated(e, u) by {
        assert us == front + [u];
      }
      if u.ToolCallCompleted? && Translate(e, u.call).Visible? {
        SurfaceOne(e, a, Translate(e, u.call).invocation);
        assert IdsHad(e, 0, a.drawn + 1) <==> IdsHad(e, 0, a.drawn) && e.callId(a.drawn).Some?;
      }
    }
  }

  lemma OneMoreId(e: Rendering, from: nat, n: nat)
    ensures IdsHad(e, from, from + n + 1) <==> IdsHad(e, from, from + n) && e.callId(from + n).Some?
  {
  }

  lemma {:induction false} FoldedRequests(e: Rendering, declared: map<string, string>, a: Acc, rs: seq<ToolRequest>)
    requires IdsAreFresh(e) && DistinctIds(e, a)
    ensures var r := AddCaptured(e, declared, a, rs);
      && (r.Some? <==> IdsHad(e, a.drawn, a.drawn + |Requested(e, declared, rs)|))
      && (r.Some? ==>
            && r.value.text == a.text && r.value.failed == a.failed && r.value.tokens == a.tokens
            && r.value.drawn == a.drawn + |Requested(e, declared, rs)|
            && Invocations(r.value.toolCalls) == Invocations(a.toolCalls) + Requested(e, declared, rs)
            && DistinctIds(e, r.value))
  {
    if rs != [] {
      var front := rs[..|rs| - 1];
      FoldedRequests(e, declared, a, front);
      var v, n := CapturedAs(e, declared, rs[|rs| - 1]), |Requested(e, declared, front)|;
      var b := AddCaptured(e, declared, a, front);
      if v.Some? {
        OneMoreId(e, a.drawn, n);
        if b.Some? {
          SurfaceOne(e, b.value, v.value);
          Associative(Invocations(a.toolCalls), Requested(e, declared, front), [v.value]);
        }
      } else {
        assert Requested(e, declared, front) + [] == Requested(e, declared, front);
      }
    }
  }

  // ---- one entry for a request and its echo ----

  lemma EchoAddsNothing(e: Rendering, us: seq<Update>, echo: CursorToolCall)
    requires DeclineEcho(e.schema, echo)
    ensures Completed(e, us + [ToolCallCompleted(Some(echo))]) == Completed(e, us)
  {
    assert (us + [ToolCallCompleted(Some(echo))])[..|us|] == us;
  }

  lemma RequestAddsItsTool(e: Rendering, declared: map<string, string>, rs: seq<ToolRequest>, v: ExecVariant)
    ensures Requested(e, declared, rs + Capture(v)) == Requested(e, declared, rs) + Requested(e, declared, Capture(v))
    ensures |Requested(e, declared, Capture(v))| <= 1
  {
    var c := Capture(v);
    if c == [] {
      assert rs + c == rs;
    } else {
      assert (rs + c)[..|rs|] == rs && (rs + c)[|rs|] == c[0] && c[..0] == [];
    }
  }

  /** The client can run what is requested: a tool it declared to Cursor, or an equivalent of a native one. */
  predicate Runnable(e: Rendering, declared: map<string, string>, v: ExecVariant) {
    if v.McpArgs? then v.name != ""
    else v.field != REQUEST_CONTEXT && v.argsJSON.Some? && ResolveClientTool(e.schema.table, declared, v.field).Some?
  }

  /** A request to run a tool, declined, and the echo of the decline add one call in all if the client can
      run it, and none otherwise. */
  lemma RequestAndEchoSurfaceOnce(e: Rendering, declared: map<string, string>, peer: Peer, x: Exchange,
                                  id: nat, execId: string, v: ExecVariant, echo: CursorToolCall)
    requires x.verdict == Running && HandleMessage(peer, x, ExecServerMessage(id, execId, Some(v))).verdict == Running
    requires DeclineEcho(e.schema, echo)
    ensures var y := HandleMessage(peer, HandleMessage(peer, x, ExecServerMessage(id, execId, Some(v))),
                                   InteractionUpdate(Some(ToolCallCompleted(Some(echo)))));
      && Completed(e, y.updates) == Completed(e, x.updates)
      && Requested(e, declared, x.toolRequests) <= Requested(e, declared, y.toolRequests)
      && |Requested(e, declared, y.toolRequests)| ==
           |Requested(e, declared, x.toolRequests)| + if Runnable(e, declared, v) then 1 else 0
  {
    CapturedBeforeDeclined(peer, x, id, execId, v);
    EchoAddsNothing(e, x.updates, echo);
    RequestAddsItsTool(e, declared, x.toolRequests, v);
    RunnableIsRequested(e, declared, v);
  }

  /** What a request is surfaced as: an MCP request under its own name with its own arguments, a native one
      under the client's equivalent with the arguments as they came, or none. */
  lemma RequestedAsAsked(e: Rendering, declared: map<string, string>, v: ExecVariant)
    ensures v.McpArgs? ==>
      Requested(e, declared, Capture(v)) ==
        if v.name == "" then [] else [Invocation(v.name, ArgsToJson(e.schema.json, v.args))]
    ensures v.OtherArgs? ==>
      var tool := ResolveClientTool(e.schema.table, declared, v.field);
      Requested(e, declared, Capture(v)) ==
        if v.field == "request_context_args" || v.argsJSON.None? || tool.None? then []
        else [Invocation(tool.value, if v.argsJSON.value == "" then "{}" else v.argsJSON.value)]
  {
    var c := Capture(v);
    if c != [] {
      assert c[..0] == [];
      assert Requested(e, declared, c) == Requested(e, declared, []) +
        if CapturedAs(e, declared, c[0]).Some? then [CapturedAs(e, declared, c[0]).value] else [];
    }
  }

  lemma RunnableIsRequested(e: Rendering, declared: map<string, string>, v: ExecVariant)
    ensures Requested(e, declared, Capture(v)) != [] <==> Runnable(e, declared, v)
  {
    var c := Capture(v);
    if c != [] {
      assert c[..0] == [];
    }
  }
}
