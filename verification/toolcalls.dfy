// Declared tools on their way into a request, and a client's tool calls on their
// way back: which are sent as MCP tools, and what each call is rebuilt as.
module ToolCalls {
  import opened Basics
  import opened Protocol
  import opened McpArguments
  import opened History
  import opened ToolRouting
  import R = ResultWriters

  datatype ToolDefinition = ToolDefinition(name: string, description: string, parameters: string)

  datatype McpToolDefinition = McpToolDefinition(
    name: string, description: string, provider: string, toolName: string, inputSchema: Bytes)

  /** The routing table, the variants of a tool call, the message types, and the codecs: encodeSchema takes
      the number of the marshal call; parse is
      protojson into a fresh message of a type, which may be partly filled when it fails; readMcp takes
      a message of the generic wrapper apart. */
  datatype Schema = Schema(
    table: Table,
    variants: map<string, R.Kind>,
    types: R.Schema,
    json: Json,
    encodeSchema: (string, nat) -> Option<Bytes>,
    parse: (string, string) -> (R.Message, bool),
    readMcp: R.Message -> (string, map<string, Bytes>, R.Message)
  )
  {
    function Fields(): set<string> {
      variants.Keys
    }

    predicate IsMessage(field: string) {
      field in variants && variants[field].MessageKind?
    }

    /** The message type of a variant. */
    function TypeOf(field: string): string
      requires IsMessage(field)
    {
      variants[field].typeName
    }

    /** The field of that name the type of a variant declares, if it does. */
    function Declared(field: string, name: string): Option<R.Field> {
      if IsMessage(field) then R.FirstNamed(R.Of(types, TypeOf(field)).fields, name) else None
    }
  }

  /** A variant's type declares a field when one of its fields has that name. */
  lemma FieldIsDeclaredExactly(s: Schema, field: string, name: string)
    requires s.IsMessage(field)
    ensures s.variants[field].MessageKind?
    ensures var fields := R.Of(s.types, s.variants[field].typeName).fields;
      match s.Declared(field, name)
      case None => forall f :: f in fields ==> f.name != name
      case Some(f) => f in fields && f.name == name
  {
    R.FirstNamedExactly(R.Of(s.types, s.TypeOf(field)).fields, name);
  }

  const PROVIDER: string := "cliproxy-cursor-plugin"

  // ---- declaring tools ----

  function Names(tools: seq<ToolDefinition>): seq<string> {
    seq(|tools|, i requires 0 <= i < |tools| => tools[i].name)
  }

  /** A tool is declared if it is named and no native tool stands for it. */
  ghost predicate IsDeclared(s: Schema, t: ToolDefinition) {
    t.name != "" && !IsNative(s.table, s.Fields(), t.name)
  }

  ghost function ToDeclare(s: Schema, tools: seq<ToolDefinition>): seq<ToolDefinition> {
    if tools == [] then []
    else
      var t := tools[|tools| - 1];
      ToDeclare(s, tools[..|tools| - 1]) + if IsDeclared(s, t) then [t] else []
  }

  function DefinitionOf(t: ToolDefinition, inputSchema: Bytes): McpToolDefinition {
    McpToolDefinition(t.name, t.description, PROVIDER, t.name, inputSchema)
  }

  /** The definitions sent, tool by tool; None when some tool's parameters cannot be encoded.  The call for
      the tool at i is numbered k + i. */
  ghost function Definitions(s: Schema, tools: seq<ToolDefinition>, k: nat): Option<seq<McpToolDefinition>> {
    if tools == [] then Some([])
    else
      var t := tools[|tools| - 1];
      match Definitions(s, tools[..|tools| - 1], k)
      case None => None
      case Some(defs) =>
        if !IsDeclared(s, t) then Some(defs)
        else match s.encodeSchema(t.parameters, k + |tools| - 1)
          case None => None
          case Some(inputSchema) => Some(defs + [DefinitionOf(t, inputSchema)])
  }

  lemma DefinitionsNext(s: Schema, tools: seq<ToolDefinition>, i: nat, k: nat)
    requires i < |tools| && Definitions(s, tools[..i], k).Some?
    ensures var (t, defs) := (tools[i], Definitions(s, tools[..i], k).value);
      Definitions(s, tools[..i + 1], k) ==
        if !IsDeclared(s, t) then Some(defs)
        else match s.encodeSchema(t.parameters, k + i)
          case None => None
          case Some(inputSchema) => Some(defs + [DefinitionOf(t, inputSchema)])
  {
    assert tools[..i + 1][..i] == tools[..i] && tools[..i + 1][i] == tools[i];
  }

  /** orders gives the map order met at each lookup.  No definitions: the field is left unset. */
  method BuildMcpTools(s: Schema, orders: nat -> seq<string>, tools: seq<ToolDefinition>, k: nat)
    returns (defs: Option<seq<McpToolDefinition>>)
    requires forall i :: IsOrder(orders(i), s.table)
    ensures defs == Definitions(s, tools, k)
  {
    defs := Some([]);
    var i := 0;
    while i < |tools|
      invariant 0 <= i <= |tools| && defs.Some? && defs == Definitions(s, tools[..i], k)
    {
      var t := tools[i];
      DefinitionsNext(s, tools, i, k);
      i := i + 1;
      if t.name == "" {
        continue;
      }
      var field := ResolveCursorToolField(s.table, s.Fields(), orders(i), t.name);
      ResultIsEligible(s.table, s.Fields(), t.name, orders(i));
      if field.Some? {
        continue;
      }
      var inputSchema := s.encodeSchema(t.parameters, k + i - 1);
      if inputSchema.None? {
        UndefinedStays(s, tools, i, k);
        return None;
      }
      defs := Some(defs.value + [McpToolDefinition(t.name, t.description, PROVIDER, t.name, inputSchema.value)]);
    }
    assert tools[..i] == tools;
  }

  lemma {:induction false} UndefinedStays(s: Schema, tools: seq<ToolDefinition>, i: nat, k: nat)
    requires i <= |tools| && Definitions(s, tools[..i], k).None?
    ensures Definitions(s, tools, k).None?
    decreases |tools| - i
  {
    if i < |tools| {
      assert tools[..i + 1][..i] == tools[..i];
      UndefinedStays(s, tools, i + 1, k);
    } else {
      assert tools[..i] == tools;
    }
  }

  /** A definition of the tool: its name twice, its description, its parameters encoded by some marshal call. */
  ghost predicate Defines(s: Schema, d: McpToolDefinition, t: ToolDefinition) {
    && d.name == t.name && d.toolName == t.name && d.description == t.description
    && d.provider == "cliproxy-cursor-plugin"
    && exists n: nat :: s.encodeSchema(t.parameters, n) == Some(d.inputSchema)
  }

  /** One definition for each tool to declare, in order, unless one of them cannot be encoded. */
  lemma {:induction false} DefinitionsExactly(s: Schema, tools: seq<ToolDefinition>, k: nat)
    ensures var defs, ts := Definitions(s, tools, k), ToDeclare(s, tools);
      && (defs.Some? <==> forall i :: 0 <= i < |tools| && IsDeclared(s, tools[i]) ==>
            s.encodeSchema(tools[i].parameters, k + i).Some?)
      && (defs.Some? ==> |defs.value| == |ts| && forall i :: 0 <= i < |ts| ==> Defines(s, defs.value[i], ts[i]))
  {
    if tools != [] {
      var n := |tools| - 1;
      DefinitionsExactly(s, tools[..n], k);
      var t, front := tools[n], ToDeclare(s, tools[..n]);
      if Definitions(s, tools, k).Some? && IsDeclared(s, t) {
        assert ToDeclare(s, tools) == front + [t];
        assert Defines(s, DefinitionOf(t, s.encodeSchema(t.parameters, k + n).value), t);
      }
    }
  }

  /** Every named tool is declared to Cursor or has a native tool standing for it, never both. */
  lemma {:induction false} McpOrNative(s: Schema, tools: seq<ToolDefinition>)
    ensures forall t :: t in tools && t.name != "" ==>
        (t in ToDeclare(s, tools) <==> !IsNative(s.table, s.Fields(), t.name))
    ensures forall t :: t in ToDeclare(s, tools) ==> t in tools && t.name != ""
  {
    if tools != [] {
      McpOrNative(s, tools[..|tools| - 1]);
    }
  }

  // ---- rebuilding a client's call ----

  const MCP_FIELD: string := "mcp_tool_call"
  const MCP_TYPE: string := "McpToolCall"

  /** What is left to chance when a call is rebuilt: the map order the lookup meets, and the marshal call
      that encodes each argument. */
  datatype Chance = Chance(order: seq<string>, calls: Numbering)

  /** The arguments in a fresh message of the type.  Under a client's name only the args submessage is
      tried, and arguments that do not fit are left out rather than refused.  None: an error, or a panic
      where args is a list. */
  function WithArgs(s: Schema, typeName: string, argsJSON: string, mapped: bool): Option<R.Message> {
    var args := R.FirstNamed(R.Of(s.types, typeName).fields, "args");
    if argsJSON == "" then Some(R.EMPTY)
    else if mapped && args.Some? && args.value.kind.MessageKind? then
      if args.value.list then None
      else
        var (sub, ok) := s.parse(args.value.kind.typeName, argsJSON);
        Some(if ok then R.SetSubmessage(R.Of(s.types, typeName), R.EMPTY, "args", sub) else R.EMPTY)
    else
      var (m, ok) := s.parse(typeName, argsJSON);
      if ok || mapped then Some(m) else None
  }

  /** The result text, if any, on top.  None: reflection panics on a list. */
  function Answered(s: Schema, typeName: string, m: R.Message, resultText: string): Option<R.Message> {
    if resultText == "" then Some(m)
    else match R.WithResult(s.types, typeName, m, resultText)
      case Panicked => None
      case Done(after) => Some(after)
  }

  function NativeMessage(s: Schema, typeName: string, argsJSON: string, mapped: bool,
        resultText: string): Option<R.Message>
  {
    match WithArgs(s, typeName, argsJSON, mapped)
    case None => None
    case Some(m) => Answered(s, typeName, m, resultText)
  }

  function Variant(s: Schema, field: string, m: R.Message): CursorToolCall {
    if field == MCP_FIELD then
      var (name, args, resultPart) := s.readMcp(m);
      McpToolCall(name, args, resultPart)
    else NativeToolCall(field, ToolMessage(m))
  }

  function Native(s: Schema, field: string, argsJSON: string, mapped: bool, resultText: string): Option<CursorToolCall>
    requires s.IsMessage(field)
  {
    match NativeMessage(s, s.TypeOf(field), argsJSON, mapped, resultText)
    case None => None
    case Some(m) => Some(Variant(s, field, m))
  }

  function McpWrapper(s: Schema, calls: Numbering, name: string, argsJSON: string,
        resultText: string): Option<CursorToolCall>
  {
    match (SplitArgs(s.json, argsJSON, calls), Answered(s, MCP_TYPE, R.EMPTY, resultText))
    case (Some(args), Some(m)) => Some(McpToolCall(name, args, m))
    case _ => None
  }

  /** A variant of that name, else the native tool the name stands for, else the MCP wrapper. */
  ghost function BuildToolCall(s: Schema, met: Chance, name: string, argsJSON: string,
        resultText: string): Option<CursorToolCall>
  {
    if name in s.Fields() then
      if s.IsMessage(name) then Native(s, name, argsJSON, false, resultText) else None
    else
      match ResolveInOrder(s.table, s.Fields(), met.order, name)
      case Some(field) =>
        if s.IsMessage(field) then Native(s, field, argsJSON, true, resultText)
        else McpWrapper(s, met.calls, name, argsJSON, resultText)
      case None => McpWrapper(s, met.calls, name, argsJSON, resultText)
  }

  method AnswerMessage(s: Schema, typeName: string, m: R.Message, resultText: string) returns (after: Option<R.Message>)
    ensures after == Answered(s, typeName, m, resultText)
  {
    if resultText == "" {
      return Some(m);
    }
    var written := R.SetGenericResultField(s.types, typeName, m, resultText);
    after := if written.Panicked? then None else Some(written.message);
  }

  method RebuildToolCall(s: Schema, met: Chance, name: string, argsJSON: string, resultText: string)
    returns (call: Option<CursorToolCall>)
    requires IsOrder(met.order, s.table)
    ensures call == BuildToolCall(s, met, name, argsJSON, resultText)
  {
    var field, mapped := None, false;
    if name in s.Fields() {
      field := Some(name);
    } else {
      var nativeField := ResolveCursorToolField(s.table, s.Fields(), met.order, name);
      if nativeField.Some? && s.IsMessage(nativeField.value) {
        field, mapped := nativeField, true;
      }
    }
    if field.None? {
      var args := SplitArguments(s.json, argsJSON, met.calls);
      if args.None? {
        return None;
      }
      var wrapper := AnswerMessage(s, MCP_TYPE, R.EMPTY, resultText);
      call := if wrapper.None? then None else Some(McpToolCall(name, args.value, wrapper.value));
    } else if !s.IsMessage(field.value) {
      call := None;
    } else {
      var typeName := s.TypeOf(field.value);
      var message := WithArgs(s, typeName, argsJSON, mapped);
      if message.None? {
        return None;
      }
      var answered := AnswerMessage(s, typeName, message.value, resultText);
      call := if answered.None? then None else Some(Variant(s, field.value, answered.value));
    }
  }

  /** Under a client's name the arguments are read as the variant's args, and stand below args and nowhere
      else; arguments that do not read as args leave the call without any. */
  lemma MappedArgumentsGoBelowArgs(s: Schema, met: Chance, name: string, field: string, argsJSON: string, args: R.Field)
    requires IsOrder(met.order, s.table) && name !in s.Fields() && s.IsMessage(field) && field != "mcp_tool_call"
    requires ResolveInOrder(s.table, s.Fields(), met.order, name) == Some(field) && argsJSON != ""
    requires s.Declared(field, "args") == Some(args) && args.kind.MessageKind? && !args.list
    ensures var (sub, ok) := s.parse(args.kind.typeName, argsJSON);
      var call := BuildToolCall(s, met, name, argsJSON, "");
      && call.Some? && call.value.NativeToolCall? && call.value.field == field && call.value.message.ToolMessage?
      && var m := call.value.message.content;
         && (!ok ==> m == R.EMPTY)
         && (ok ==> ["args"] in m.present && forall p :: R.LeafAt(m, ["args"] + p) == R.LeafAt(sub, p))
         && (forall p :: p != [] && p[0] != "args" ==> R.LeafAt(m, p) == None)
  {
    var (sub, ok) := s.parse(args.kind.typeName, argsJSON);
    var d := R.Of(s.types, s.TypeOf(field));
    var m := if ok then R.SetSubmessage(d, R.EMPTY, "args", sub) else R.EMPTY;
    assert WithArgs(s, s.TypeOf(field), argsJSON, true) == Some(m);
    if ok {
      forall p ensures R.LeafAt(m, ["args"] + p) == R.LeafAt(sub, p) {
        R.LeafUnder("args", sub, ["args"] + p);
        assert (["args"] + p)[1..] == p;
      }
      forall p | p != [] && p[0] != "args" ensures R.LeafAt(m, p) == None {
        R.LeafUnder("args", sub, p);
      }
    }
  }

  /** A variant without such a field is read whole, as far as it can be. */
  lemma MappedArgumentsWithoutArgs(s: Schema, met: Chance, name: string, field: string, argsJSON: string)
    requires IsOrder(met.order, s.table) && name !in s.Fields() && s.IsMessage(field) && field != "mcp_tool_call"
    requires ResolveInOrder(s.table, s.Fields(), met.order, name) == Some(field) && argsJSON != ""
    requires s.Declared(field, "args").Some? ==> !s.Declared(field, "args").value.kind.MessageKind?
    ensures BuildToolCall(s, met, name, argsJSON, "") ==
            Some(NativeToolCall(field, ToolMessage(s.parse(s.TypeOf(field), argsJSON).0)))
  {
  }

  /** Under a variant's own name the arguments are the whole message, or the call is refused. */
  lemma DirectArgumentsAreTheMessage(s: Schema, met: Chance, field: string, argsJSON: string)
    requires s.IsMessage(field) && field != "mcp_tool_call"
    ensures var call := BuildToolCall(s, met, field, argsJSON, "");
      if argsJSON == "" then call == Some(NativeToolCall(field, ToolMessage(R.EMPTY)))
      else
        var (m, ok) := s.parse(s.TypeOf(field), argsJSON);
        call == if ok then Some(NativeToolCall(field, ToolMessage(m))) else None
  {
  }

  /** The wrapper under its own name is taken apart into name, arguments and result. */
  lemma DirectWrapperIsTakenApart(s: Schema, met: Chance, argsJSON: string)
    requires s.IsMessage("mcp_tool_call") && argsJSON != ""
    ensures var (m, ok) := s.parse(s.TypeOf("mcp_tool_call"), argsJSON);
      BuildToolCall(s, met, "mcp_tool_call", argsJSON, "") ==
        if ok then Some(McpToolCall(s.readMcp(m).0, s.readMcp(m).1, s.readMcp(m).2)) else None
  {
  }

  /** A tool declared over MCP rebuilds as the wrapper with its own name and arguments, under any
      iteration order, unless its name happens to be that of a ToolCall variant. */
  lemma DeclaredToolRebuildsAsItself(s: Schema, tools: seq<ToolDefinition>, t: ToolDefinition, met: Chance,
                                     argsJSON: string, resultText: string)
    requires t in ToDeclare(s, tools) && IsOrder(met.order, s.table) && Lawful(s.json)
    ensures var call := BuildToolCall(s, met, t.name, argsJSON, resultText);
      if t.name in s.Fields() then
        call == if s.IsMessage(t.name) then Native(s, t.name, argsJSON, false, resultText) else None
      else if SplitArgs(s.json, argsJSON, met.calls).None? || Answered(s, MCP_TYPE, R.EMPTY, resultText).None? then
        call == None
      else
        && call.Some? && call.value.McpToolCall? && call.value.name == t.name
        && SameArguments(s.json, argsJSON, call.value.mcpArgs)
  {
    McpOrNative(s, tools);
    InOrderGivesEligible(s.table, s.Fields(), met.order, t.name);
    if SplitArgs(s.json, argsJSON, met.calls).Some? {
      ClientArgumentsRoundTrip(s.json, argsJSON, met.calls);
    }
  }

  /** A native request surfaced under a declared name, then answered under it, lands on the variant of
      the same native tool, if no other native tool could be meant. */
  lemma NativeCallReturnsToItsVariant(s: Schema, tools: seq<ToolDefinition>, base: string, field: string,
                                      met: Chance, argsJSON: string, resultText: string)
    requires base in s.table && s.IsMessage(base + TOOL_CALL) && BaseName(field) == base
    requires IsOrder(met.order, s.table)
    requires ResolveClientTool(s.table, Declared(Names(tools)), field).Some?
    ensures var tool := ResolveClientTool(s.table, Declared(Names(tools)), field).value;
      && tool in Names(tools)
      && (tool !in s.Fields() && Norm(tool) != ""
           && (forall b :: Eligible(s.table, s.Fields(), b, tool) ==> b == base) ==>
            BuildToolCall(s, met, tool, argsJSON, resultText) ==
              Native(s, base + TOOL_CALL, argsJSON, true, resultText))
  {
    ResolvesToDeclaredEquivalent(s.table, Names(tools), field);
    ReverseInvertsForward(s.table, s.Fields(), Names(tools), base, field, met.order);
  }

  // ---- routing ----

  /** What is met at each rebuilt call of a request. */
  type Routing = Site -> Chance

  ghost predicate IsRouting(s: Schema, routing: Routing) {
    forall site :: IsOrder(routing(site).order, s.table)
  }

  /** How calls are rebuilt under these chances. */
  ghost function Routed(s: Schema, routing: Routing): Rebuild {
    (site: Site, name: string, argsJSON: string, resultText: string) =>
      BuildToolCall(s, routing(site), name, argsJSON, resultText)
  }
}
