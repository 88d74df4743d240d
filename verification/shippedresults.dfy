// Three result types as shipped: where the text of a shell, a read and a client
// tool's result goes.
module ShippedResults {
  import opened Basics
  import opened ResultWriters

  function TextField(name: string): Field {
    Field(name, StringKind, false)
  }

  function Other(name: string): Field {
    Field(name, OtherKind, false)
  }

  function Sub(name: string, typeName: string): Field {
    Field(name, MessageKind(typeName), false)
  }

  const SHELL_OUTCOMES: seq<Field> := [
    Sub("success", "ShellSuccess"), Sub("failure", "ShellFailure"), Sub("timeout", "ShellTimeout"),
    Sub("rejected", "ShellRejected"), Sub("spawn_error", "ShellSpawnError"),
    Sub("permission_denied", "ShellPermissionDenied")]

  const SHELL_RESULT: Descriptor := Descriptor(
    SHELL_OUTCOMES + [Sub("sandbox_policy", "SandboxPolicy"), Other("is_background"),
                      TextField("terminals_folder"), Other("pid")],
    [Oneof(SHELL_OUTCOMES, false), Oneof([Sub("sandbox_policy", "SandboxPolicy")], true)])

  const SHELL_SUCCESS: Descriptor := Descriptor(
    [TextField("command"), TextField("working_directory"), Other("exit_code"), TextField("signal"),
     TextField("stdout"), TextField("stderr"), Other("execution_time"), Sub("output_location", "OutputLocation"),
     Other("shell_id"), TextField("interleaved_output"), Other("pid"), Other("ms_to_wait")],
    [Oneof([TextField("interleaved_output")], true)])

  const READ_OUTCOMES: seq<Field> := [Sub("success", "ReadToolSuccess"), Sub("error", "ReadToolError")]

  const READ_RESULT: Descriptor := Descriptor(READ_OUTCOMES, [Oneof(READ_OUTCOMES, false)])

  const READ_OUTPUTS: seq<Field> :=
    [TextField("content"), Other("data"), Other("data_blob_id"), Other("content_blob_id")]

  const READ_SUCCESS: Descriptor := Descriptor(
    READ_OUTPUTS + [Other("is_empty"), Other("exceeded_limit"), Other("total_lines"), Other("file_size"),
                    TextField("path"), Sub("read_range", "ReadRange")],
    [Oneof(READ_OUTPUTS, false), Oneof([Sub("read_range", "ReadRange")], true)])

  const MCP_CALL: Descriptor := Descriptor([Sub("args", "McpArgs"), Sub("result", "McpToolResult")], [])

  const MCP_OUTCOMES: seq<Field> := [
    Sub("success", "McpSuccess"), Sub("error", "McpToolError"), Sub("rejected", "McpRejected"),
    Sub("permission_denied", "McpPermissionDenied")]

  const MCP_RESULT: Descriptor := Descriptor(MCP_OUTCOMES, [Oneof(MCP_OUTCOMES, false)])

  const MCP_SUCCESS: Descriptor := Descriptor(
    [Field("content", MessageKind("McpToolResultContentItem"), true), Other("is_error")], [])

  lemma ShellWalk(s: Schema)
    requires Of(s, "ShellResult") == SHELL_RESULT && Of(s, "ShellSuccess") == SHELL_SUCCESS
    ensures WalkFrom(s, "ShellResult", 2) == Walk(["success"], AtString("stdout"))
  {
    var fields := SHELL_SUCCESS.fields;
    assert StringNamed(fields[3..], "stdout") == Some(TextField("stdout"));
    assert StringNamed(fields[1..], "stdout") == StringNamed(fields[3..], "stdout") by {
      assert fields[1..][1..] == fields[2..] && fields[2..][1..] == fields[3..];
    }
    assert StringNamed(fields, "stdout") == Some(TextField("stdout"));
    assert PREFERRED[0] == "stdout";
    assert Pick(fields) == Some(TextField("stdout"));
    assert FirstReal(SHELL_SUCCESS.oneofs).None?;
    assert WalkFrom(s, "ShellSuccess", 1) == Walk([], AtString("stdout"));
    assert Choose(SHELL_OUTCOMES) == Some(Sub("success", "ShellSuccess"));
    assert WalkFrom(s, "ShellResult", 2) == Walk(["success"] + [], AtString("stdout"));
  }

  /** A shell result's text is written to result.success.stdout, not to the command declared before it. */
  lemma ShellTextGoesToStdout(s: Schema, value: string)
    requires Of(s, "ShellResult") == SHELL_RESULT && Of(s, "ShellSuccess") == SHELL_SUCCESS
    ensures Populate(s, "ShellResult", value, 1).Done?
    ensures Populate(s, "ShellResult", value, 1).message.leaves == map[["success", "stdout"] := Text(value)]
  {
    ShellWalk(s);
    WrittenExactly(s, "ShellResult", value, 2);
    assert ["success"] + ["stdout"] == ["success", "stdout"];
  }

  /** A read result's text is not written: behind the success case stands a oneof whose first case is
      no message. */
  lemma ReadTextIsNotWritten(s: Schema, value: string)
    requires Of(s, "ReadToolResult") == READ_RESULT && Of(s, "ReadToolSuccess") == READ_SUCCESS
    ensures Populate(s, "ReadToolResult", value, 1).Done?
        && Populate(s, "ReadToolResult", value, 1).message.leaves == map[]
  {
    assert WalkFrom(s, "ReadToolResult", 2).end == Nowhere;
    PopulateFollowsWalk(s, "ReadToolResult", value, 2);
  }

  /** Nor is a client tool's: its success message holds a list of parts and no string. */
  lemma McpTextIsNotWritten(s: Schema, value: string)
    requires Of(s, "McpToolResult") == MCP_RESULT && Of(s, "McpSuccess") == MCP_SUCCESS
    ensures Populate(s, "McpToolResult", value, 1).Done?
        && Populate(s, "McpToolResult", value, 1).message.leaves == map[]
  {
    assert WalkFrom(s, "McpToolResult", 2).end == Nowhere;
    PopulateFollowsWalk(s, "McpToolResult", value, 2);
  }

  lemma McpResultIsEmpty(s: Schema, value: string)
    requires Of(s, "McpToolResult") == MCP_RESULT && Of(s, "McpSuccess") == MCP_SUCCESS
    ensures Populate(s, "McpToolResult", value, 1) == Done(Under("success", EMPTY))
  {
    assert Populate(s, "McpSuccess", value, 2) == Done(EMPTY);
    assert Choose(MCP_OUTCOMES) == Some(Sub("success", "McpSuccess"));
  }

  lemma ResultIsOnly(d: Descriptor, sub: Message)
    requires d == MCP_CALL
    ensures ResultField(d.fields) == Some(Sub("result", "McpToolResult"))
    ensures SetSubmessage(d, EMPTY, "result", sub) == Under("result", sub)
  {
    assert d.fields[1..][0] == Sub("result", "McpToolResult");
  }

  /** So a client tool's call gets a result with no text in it, the same whatever the text. */
  lemma McpAnswerIsNotWritten(s: Schema, value: string)
    requires Of(s, "McpToolCall") == MCP_CALL
    requires Of(s, "McpToolResult") == MCP_RESULT && Of(s, "McpSuccess") == MCP_SUCCESS
    ensures WithResult(s, "McpToolCall", EMPTY, value) == Done(Under("result", Under("success", EMPTY)))
    ensures Under("result", Under("success", EMPTY)).leaves == map[]
  {
    McpResultIsEmpty(s, value);
    ResultIsOnly(Of(s, "McpToolCall"), Under("success", EMPTY));
  }
}
