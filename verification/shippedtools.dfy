// The table and the ToolCall fields as shipped, and where they leave the reverse
// lookup open.
module ShippedTools {
  import opened Basics
  import opened ToolRouting

  const NATIVE_TOOL_ALIASES: Table := map[
    "shell" := ["bash", "shell", "exec", "run", "terminal", "command", "run_command", "execute_command",
      "run_terminal_cmd"],
    "shell_stream" := ["bash", "shell", "exec", "run", "terminal", "command"],
    "read" := ["read", "read_file", "cat", "view", "view_file", "open_file", "get_file"],
    "write" := ["write", "write_file", "create_file", "create", "put_file"],
    "edit" := ["edit", "edit_file", "apply_patch", "str_replace", "str_replace_editor", "patch", "modify_file"],
    "glob" := ["glob", "find", "file_search", "find_files", "fd", "list_files"],
    "grep" := ["grep", "search", "search_files", "ripgrep", "rg", "code_search", "text_search"],
    "ls" := ["ls", "list_dir", "list_directory", "list_files", "dir", "tree"],
    "delete" := ["delete", "rm", "remove", "remove_file", "delete_file"],
    "fetch" := ["fetch", "web_fetch", "http_fetch", "curl", "open_url", "read_url"],
    "web_search" := ["web_search", "search_web", "google", "browse"],
    "sem_search" := ["codebase_search", "semantic_search", "sem_search", "search"],
    "read_lints" := ["read_lints", "diagnostics", "lints", "get_diagnostics"],
    "task" := ["task", "subagent", "spawn_agent"],
    "update_todos" := ["update_todos", "todo_write", "set_todos"],
    "read_todos" := ["read_todos", "todo_read", "get_todos"]]

  const TOOL_CALL_FIELDS: set<string> := {
    "shell_tool_call", "delete_tool_call", "glob_tool_call", "grep_tool_call", "read_tool_call",
    "update_todos_tool_call", "read_todos_tool_call", "edit_tool_call", "ls_tool_call", "read_lints_tool_call",
    "mcp_tool_call", "sem_search_tool_call", "create_plan_tool_call", "web_search_tool_call", "task_tool_call",
    "list_mcp_resources_tool_call", "read_mcp_resource_tool_call", "apply_agent_diff_tool_call",
    "ask_question_tool_call", "fetch_tool_call", "switch_mode_tool_call", "exa_search_tool_call",
    "exa_fetch_tool_call", "generate_image_tool_call", "record_screen_tool_call", "computer_use_tool_call",
    "write_shell_stdin_tool_call", "reflect_tool_call", "setup_vm_environment_tool_call", "truncated_tool_call",
    "start_grind_execution_tool_call", "start_grind_planning_tool_call"}

  lemma SearchRows()
    ensures "grep" in NATIVE_TOOL_ALIASES && NATIVE_TOOL_ALIASES["grep"][1] == "search"
    ensures "sem_search" in NATIVE_TOOL_ALIASES && NATIVE_TOOL_ALIASES["sem_search"][3] == "search"
    ensures "grep" + TOOL_CALL in TOOL_CALL_FIELDS && "sem_search" + TOOL_CALL in TOOL_CALL_FIELDS
  {
    assert "grep" + TOOL_CALL == "grep_tool_call" && "sem_search" + TOOL_CALL == "sem_search_tool_call";
  }

  lemma ListFilesRows()
    ensures "glob" in NATIVE_TOOL_ALIASES && NATIVE_TOOL_ALIASES["glob"][5] == "list_files"
    ensures "ls" in NATIVE_TOOL_ALIASES && NATIVE_TOOL_ALIASES["ls"][3] == "list_files"
    ensures "glob" + TOOL_CALL in TOOL_CALL_FIELDS && "ls" + TOOL_CALL in TOOL_CALL_FIELDS
  {
    assert "glob" + TOOL_CALL == "glob_tool_call" && "ls" + TOOL_CALL == "ls_tool_call";
  }

  /** A tool that is alias i of base is eligible for it. */
  lemma AliasIsEligible(table: Table, fields: set<string>, base: string, i: nat)
    requires base in table && i < |table[base]| && base + TOOL_CALL in fields && Norm(table[base][i]) != ""
    ensures Eligible(table, fields, base, table[base][i])
  {
    assert Candidates(table, base)[i + 1] == table[base][i];
  }

  ghost predicate DependsOnOrder(table: Table, fields: set<string>, tool: string) {
    exists o, p :: IsOrder(o, table) && IsOrder(p, table)
      && ResolveInOrder(table, fields, o, tool) != ResolveInOrder(table, fields, p, tool)
  }

  /** Two bases that share an alias leave the reverse lookup to the iteration order. */
  lemma SharedAliasIsAmbiguous(table: Table, fields: set<string>, a: string, i: nat, b: string, j: nat, tool: string)
    requires a != b && a in table && b in table && i < |table[a]| && j < |table[b]|
        && table[a][i] == tool == table[b][j]
    requires a + TOOL_CALL in fields && b + TOOL_CALL in fields && tool != "" && 'a' <= tool[0] <= 'z'
    ensures DependsOnOrder(table, fields, tool)
  {
    assert Norm(tool) != "";
    AliasIsEligible(table, fields, a, i);
    AliasIsEligible(table, fields, b, j);
    LookupIsAFunctionExactly(table, fields, tool);
  }

  /** "search" may be taken for grep or for semantic search. */
  lemma SearchIsAmbiguous()
    ensures DependsOnOrder(NATIVE_TOOL_ALIASES, TOOL_CALL_FIELDS, "search")
  {
    SearchRows();
    SharedAliasIsAmbiguous(NATIVE_TOOL_ALIASES, TOOL_CALL_FIELDS, "grep", 1, "sem_search", 3, "search");
  }

  /** "list_files" may be taken for glob or for ls. */
  lemma ListFilesIsAmbiguous()
    ensures DependsOnOrder(NATIVE_TOOL_ALIASES, TOOL_CALL_FIELDS, "list_files")
  {
    ListFilesRows();
    SharedAliasIsAmbiguous(NATIVE_TOOL_ALIASES, TOOL_CALL_FIELDS, "glob", 5, "ls", 3, "list_files");
  }

  lemma ShellRow()
    ensures "shell" in NATIVE_TOOL_ALIASES && |NATIVE_TOOL_ALIASES["shell"]| > 0
    ensures NATIVE_TOOL_ALIASES["shell"][0] == "bash" && "shell" + TOOL_CALL in TOOL_CALL_FIELDS
  {
    assert "shell" + TOOL_CALL == "shell_tool_call";
  }

  lemma BashIsDeclared()
    ensures Norm("Bash") == "bash" && Declared(["Bash"]) == map["bash" := "Bash"]
  {
    CaseDoesNotCount("", 'B', "ash");
    assert "" + ['B'] + "ash" == "Bash" && "" + ['b'] + "ash" == "bash";
    PlainNamesAreNormal("bash");
    assert ["Bash"][..0] == [];
  }

  lemma BashResolves(table: Table, field: string)
    requires BaseName(field) == "shell"
    requires "shell" in table && |table["shell"]| > 0 && table["shell"][0] == "bash"
    ensures ResolveClientTool(table, Declared(["Bash"]), field) == Some("Bash")
  {
    var declared, cs := Declared(["Bash"]), Candidates(table, "shell");
    BashIsDeclared();
    PlainNamesAreNormal("bash");
    PlainNamesAreNormal("shell");
    assert cs[0] == "shell" && cs[1] == "bash" && cs[1..][0] == "bash";
    assert "bash" in declared && "shell" !in declared;
    assert FirstDeclared(declared, cs) == FirstDeclared(declared, cs[1..]) == Some("Bash");
  }

  lemma BashIsEligible(table: Table, fields: set<string>)
    requires "shell" in table && |table["shell"]| > 0 && table["shell"][0] == "bash" && "shell" + TOOL_CALL in fields
    ensures IsNative(table, fields, "Bash")
  {
    BashIsDeclared();
    PlainNamesAreNormal("bash");
    assert Candidates(table, "shell")[1] == "bash";
    assert Eligible(table, fields, "shell", "Bash");
  }

  /** A client's "Bash" is what a shell request or call resolves to, and it is left to the native tool. */
  lemma BashIsShell(field: string)
    requires field == "shell" + "_args" || field == "shell" + "_tool_call"
    ensures ResolveClientTool(NATIVE_TOOL_ALIASES, Declared(["Bash"]), field) == Some("Bash")
    ensures IsNative(NATIVE_TOOL_ALIASES, TOOL_CALL_FIELDS, "Bash")
  {
    ShellRow();
    BaseNameOfField("shell");
    assert "shell"[0] == 's';
    BashResolves(NATIVE_TOOL_ALIASES, field);
    BashIsEligible(NATIVE_TOOL_ALIASES, TOOL_CALL_FIELDS);
  }
}
