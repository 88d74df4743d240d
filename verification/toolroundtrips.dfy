// A tool call on its way to the client and back.
module ToolRoundTrips {
  import opened Basics
  import opened Protocol
  import opened McpArguments
  import opened ToolRouting
  import opened ToolCalls
  import opened Accumulators
  import ShippedResults

  /** protojson reads a message back as what it was, when read as the type it was written from.  typed
      tells the messages of a type; a message of some other type may lose fields on the way. */
  ghost predicate ReadsBack(e: Rendering, typed: (string, R.Message) -> bool) {
    forall field: string, m: R.Message ::
      e.schema.IsMessage(field) && typed(e.schema.TypeOf(field), m) && e.marshalMessage(field, m).Some? ==>
        var text := e.marshalMessage(field, m).value;
        text != "" && e.schema.parse(e.schema.TypeOf(field), text) == (m, true)
  }

  /** A native call that was surfaced and then answered keeps all it held but the result, and below the
      result is the answer alone, where its walk ends.  It is refused only where the walk meets a list. */
  lemma AnsweredCallKeepsItsArguments(e: Rendering, typed: (string, R.Message) -> bool, met: Chance,
                                      field: NativeField, m: R.Message, resultText: string)
    requires ReadsBack(e, typed) && e.schema.IsMessage(field) && typed(e.schema.TypeOf(field), m) && resultText != ""
    requires Translate(e, Some(NativeToolCall(field, ToolMessage(m)))).Visible?
    requires R.ResultField(R.Of(e.schema.types, e.schema.TypeOf(field)).fields).Some?
    ensures var d := R.Of(e.schema.types, e.schema.TypeOf(field));
      var v := Translate(e, Some(NativeToolCall(field, ToolMessage(m)))).invocation;
      var walk := R.WalkFrom(e.schema.types, R.ResultField(d.fields).value.kind.typeName, 2);
      var back := BuildToolCall(e.schema, met, v.name, v.arguments, resultText);
      && (back.None? <==> R.ResultField(d.fields).value.list || walk.end.AtList?)
      && (back.Some? ==>
            && back.value.NativeToolCall? && back.value.field == field && back.value.message.ToolMessage?
            && R.SameButResult(d, back.value.message.content, m)
            && R.OnlyLeafIs(back.value.message.content, "result", walk, resultText))
  {
    var s := e.schema;
    var d := R.Of(s.types, s.TypeOf(field));
    var v := Translate(e, Some(NativeToolCall(field, ToolMessage(m)))).invocation;
    assert WithArgs(s, s.TypeOf(field), v.arguments, false) == Some(m);
    R.PopulateFollowsWalk(s.types, R.ResultField(d.fields).value.kind.typeName, resultText, 2);
    if R.WithResult(s.types, s.TypeOf(field), m, resultText).Done? {
      R.ResultIsReadBack(s.types, s.TypeOf(field), m, resultText);
    }
  }

  /** A shell call as shipped, surfaced and answered, holds the answer as its standard output. */
  lemma ShellAnswerIsStdout(e: Rendering, typed: (string, R.Message) -> bool, met: Chance,
                            field: NativeField, m: R.Message, resultText: string)
    requires ReadsBack(e, typed) && e.schema.IsMessage(field) && typed(e.schema.TypeOf(field), m) && resultText != ""
    requires Translate(e, Some(NativeToolCall(field, ToolMessage(m)))).Visible?
    requires var result := R.ResultField(R.Of(e.schema.types, e.schema.TypeOf(field)).fields);
             result.Some? && !result.value.list && result.value.kind.typeName == "ShellResult"
    requires R.Of(e.schema.types, "ShellResult") == ShippedResults.SHELL_RESULT
    requires R.Of(e.schema.types, "ShellSuccess") == ShippedResults.SHELL_SUCCESS
    ensures var v := Translate(e, Some(NativeToolCall(field, ToolMessage(m)))).invocation;
      var back := BuildToolCall(e.schema, met, v.name, v.arguments, resultText);
      && back.Some? && back.value.NativeToolCall? && back.value.message.ToolMessage?
      && R.LeafAt(back.value.message.content, ["result", "success", "stdout"]) == Some(R.Text(resultText))
  {
    ShippedResults.ShellWalk(e.schema.types);
    AnsweredCallKeepsItsArguments(e, typed, met, field, m, resultText);
    var path := ["result", "success", "stdout"];
    assert path[0] == "result" && path[1..] == ["success"] + ["stdout"];
  }

  /** A client tool's call that was surfaced, and answered or not, is rebuilt as a call of the same tool whose
      arguments have the same names and the values the client saw.  It is refused only where an argument
      cannot be encoded or the answer's walk meets a list. */
  lemma McpCallRoundTrip(e: Rendering, met: Chance, name: string, args: map<string, Bytes>, echo: R.Message,
                         resultText: string)
    requires Lawful(e.schema.json) && IsOrder(met.order, e.schema.table)
    requires name != "" && name !in e.schema.Fields() && !IsNative(e.schema.table, e.schema.Fields(), name)
    ensures Translate(e, Some(McpToolCall(name, args, echo))).Visible?
    ensures var v := Translate(e, Some(McpToolCall(name, args, echo))).invocation;
      var back := BuildToolCall(e.schema, met, v.name, v.arguments, resultText);
      var answered := Answered(e.schema, MCP_TYPE, R.EMPTY, resultText);
      && (back.Some? <==> SplitArgs(e.schema.json, v.arguments, met.calls).Some? && answered.Some?)
      && (back.Some? ==>
            && back.value.McpToolCall? && back.value.name == name && back.value.mcpResult == answered.value
            && ShowsSame(e.schema.json, args, back.value.mcpArgs))
  {
    InOrderGivesEligible(e.schema.table, e.schema.Fields(), met.order, name);
    if SplitArgs(e.schema.json, ArgsToJson(e.schema.json, args), met.calls).Some? {
      CursorArgumentsRoundTrip(e.schema.json, args, met.calls);
    }
  }

  /** The wrapper's types as shipped. */
  predicate ShippedMcp(types: R.Schema) {
    && R.Of(types, MCP_TYPE) == ShippedResults.MCP_CALL
    && R.Of(types, "McpToolResult") == ShippedResults.MCP_RESULT
    && R.Of(types, "McpSuccess") == ShippedResults.MCP_SUCCESS
  }

  lemma McpAnswer(s: Schema, resultText: string) returns (m: R.Message)
    requires ShippedMcp(s.types) && resultText != ""
    ensures m == R.Under("result", R.Under("success", R.EMPTY)) && m.leaves == map[]
    ensures Answered(s, MCP_TYPE, R.EMPTY, resultText) == Some(m)
  {
    ShippedResults.McpAnswerIsNotWritten(s.types, resultText);
    m := R.Under("result", R.Under("success", R.EMPTY));
  }

  /** With the types as shipped, an answered call of a client tool is rebuilt whatever the answer, and holds
      none of it: any two answers give the same call. */
  lemma ShippedMcpAnswerIsDropped(e: Rendering, met: Chance, name: string, args: map<string, Bytes>, echo: R.Message,
                                  resultText: string, other: string)
    requires Lawful(e.schema.json) && IsOrder(met.order, e.schema.table)
    requires name != "" && name !in e.schema.Fields() && !IsNative(e.schema.table, e.schema.Fields(), name)
    requires ShippedMcp(e.schema.types) && resultText != "" && other != ""
    ensures Translate(e, Some(McpToolCall(name, args, echo))).Visible?
    ensures var v := Translate(e, Some(McpToolCall(name, args, echo))).invocation;
      var back := BuildToolCall(e.schema, met, v.name, v.arguments, resultText);
      && (back.Some? <==> SplitArgs(e.schema.json, v.arguments, met.calls).Some?)
      && (back.Some? ==>
            && back.value.McpToolCall? && back.value.name == name && back.value.mcpResult.leaves == map[]
            && ShowsSame(e.schema.json, args, back.value.mcpArgs))
      && BuildToolCall(e.schema, met, v.name, v.arguments, other) == back
  {
    var m := McpAnswer(e.schema, resultText);
    var n := McpAnswer(e.schema, other);
    McpCallRoundTrip(e, met, name, args, echo, resultText);
    InOrderGivesEligible(e.schema.table, e.schema.Fields(), met.order, name);
  }
}
