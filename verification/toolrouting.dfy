// Tool names: which client tool a native Cursor tool stands for, which native
// tool a client tool stands for, and how a client's tool call is rebuilt.
module ToolRouting {
  import opened Basics
  import opened Protocol

  type Table = map<string, seq<string>>

  // ---- normal forms ----

  /** Unicode lower-casing, exact wherever it gives an ASCII character: besides A to Z that is the dotted
      capital I and the Kelvin sign only. */
  function Lower(c: char): char {
    if 'A' <= c <= 'Z' then (c as int + 32) as char
    else if c == '\U{0130}' then 'i'
    else if c == '\U{212A}' then 'k'
    else c
  }

  predicate Kept(c: char) {
    'a' <= c <= 'z' || '0' <= c <= '9'
  }

  function Letter(c: char): string {
    if Kept(Lower(c)) then [Lower(c)] else ""
  }

  function Norm(name: string): string {
    if name == "" then "" else Letter(name[0]) + Norm(name[1..])
  }

  method NormalizeToolName(name: string) returns (b: string)
    ensures b == Norm(name)
  {
    b := "";
    for i := 0 to |name|
      invariant b + Norm(name[i..]) == Norm(name)
    {
      var r := Lower(name[i]);
      assert name[i..][0] == name[i] && name[i..][1..] == name[i + 1..];
      Associative(b, Letter(name[i]), Norm(name[i + 1..]));
      if Kept(r) {
        b := b + [r];
      } else {
        assert b + "" == b;
      }
    }
  }

  /** Normal forms hold only lower-case letters and digits, so normalizing again changes nothing. */
  lemma {:induction false} NormIsNormal(name: string)
    ensures Norm(Norm(name)) == Norm(name)
  {
    if name != "" {
      NormIsNormal(name[1..]);
      var r := Lower(name[0]);
      if Kept(r) {
        assert Norm(name) == [r] + Norm(name[1..]);
        assert Norm(name)[1..] == Norm(name[1..]) && Lower(r) == r;
      } else {
        assert Norm(name) == Norm(name[1..]);
      }
    }
  }

  lemma {:induction false} NormAppend(a: string, b: string)
    ensures Norm(a + b) == Norm(a) + Norm(b)
  {
    if a == "" {
      assert a + b == b;
    } else {
      assert (a + b)[0] == a[0] && (a + b)[1..] == a[1..] + b;
      NormAppend(a[1..], b);
      Associative(Letter(a[0]), Norm(a[1..]), Norm(b));
    }
  }

  lemma NormAround(a: string, c: char, b: string)
    ensures Norm(a + [c] + b) == Norm(a) + (Letter(c) + Norm(b))
  {
    NormAppend(a + [c], b);
    NormAppend(a, [c]);
    assert [c][1..] == "";
    assert Norm([c]) == Letter(c) + "";
    Associative(Norm(a), Letter(c), Norm(b));
  }

  lemma SameMiddle(x: string, u: string, v: string, y: string)
    requires |u| <= 1 && |v| <= 1
    ensures x + (u + y) == x + (v + y) <==> u == v
  {
    var p, q := x + (u + y), x + (v + y);
    if |u| == 1 && |v| == 1 {
      assert p[|x|] == u[0] && q[|x|] == v[0];
    } else if |u| != |v| {
      assert |p| != |q|;
    }
  }

  /** Separators and letter case do not count in a name, and every other character does. */
  lemma OnlyLettersAndDigitsCount(a: string, c: char, d: char, b: string)
    ensures Norm(a + [c] + b) == Norm(a + [d] + b) <==> Lower(c) == Lower(d) || (!Kept(Lower(c)) && !Kept(Lower(d)))
  {
    NormAround(a, c, b);
    NormAround(a, d, b);
    SameMiddle(Norm(a), Letter(c), Letter(d), Norm(b));
  }

  // ---- the same in plain characters ----

  predicate Plain(c: char) {
    c in "abcdefghijklmnopqrstuvwxyz0123456789"
  }

  predicate Ascii(s: string) {
    forall c :: c in s ==> c as int < 128
  }

  lemma PlainExactly(c: char)
    ensures Plain(c) <==> 'a' <= c <= 'z' || '0' <= c <= '9'
  {
    PlainAt(if 'a' <= c <= 'z' then c as int - 97 else if '0' <= c <= '9' then c as int - 22 else 0);
    if Plain(c) {
      var all := "abcdefghijklmnopqrstuvwxyz0123456789";
      var i :| 0 <= i < 36 && all[i] == c;
      PlainAt(i);
    }
  }

  lemma PlainAt(i: nat)
    requires i < 36
    ensures "abcdefghijklmnopqrstuvwxyz0123456789"[i] as int == if i < 26 then 97 + i else 22 + i
  {
  }

  /** A capital counts as its small letter. */
  lemma CaseDoesNotCount(a: string, c: char, b: string)
    requires 'A' <= c <= 'Z'
    ensures Norm(a + [c] + b) == Norm(a + [(c as int + 32) as char] + b)
  {
    OnlyLettersAndDigitsCount(a, c, (c as int + 32) as char, b);
  }

  /** Any other ASCII character that is no small letter and no digit does not count at all. */
  lemma SeparatorsDoNotCount(a: string, c: char, b: string)
    requires c as int < 128 && !Plain(c) && !('A' <= c <= 'Z')
    ensures Norm(a + [c] + b) == Norm(a + b)
  {
    PlainExactly(c);
    NormAround(a, c, b);
    NormAppend(a, b);
    assert "" + Norm(b) == Norm(b);
  }

  /** Beyond ASCII the dotted capital I counts as i and the Kelvin sign as k, and nothing else counts. */
  lemma OtherCharactersDoNotCount(a: string, c: char, b: string)
    requires c as int >= 128
    ensures Norm(a + [c] + b) ==
            if c as int == 0x130 then Norm(a + "i" + b)
            else if c as int == 0x212A then Norm(a + "k" + b)
            else Norm(a + b)
  {
    NormAround(a, c, b);
    NormAppend(a, b);
    assert "" + Norm(b) == Norm(b);
    OnlyLettersAndDigitsCount(a, c, 'i', b);
    OnlyLettersAndDigitsCount(a, c, 'k', b);
  }

  /** A name spells a word when, capitals read as small letters and separators passed over, it is that word. */
  predicate Spells(name: string, word: string) {
    if name == "" then word == ""
    else if Plain(name[0]) then word != "" && word[0] == name[0] && Spells(name[1..], word[1..])
    else if 'A' <= name[0] <= 'Z' then
      word != "" && word[0] == (name[0] as int + 32) as char && Spells(name[1..], word[1..])
    else Spells(name[1..], word)
  }

  lemma LetterByKind(c: char)
    requires c as int < 128
    ensures Letter(c) == if Plain(c) then [c] else if 'A' <= c <= 'Z' then [(c as int + 32) as char] else ""
  {
    PlainExactly(c);
  }

  lemma NormFirst(name: string)
    requires name != ""
    ensures if Letter(name[0]) == "" then Norm(name) == Norm(name[1..])
            else Norm(name) != "" && Norm(name)[0] == Letter(name[0])[0] && Norm(name)[1..] == Norm(name[1..])
  {
  }

  /** The normal form of an ASCII name is the one word it spells. */
  lemma {:induction false} NormIsWordSpelled(name: string, word: string)
    requires Ascii(name)
    ensures Spells(name, word) <==> word == Norm(name)
    decreases |name|
  {
    if name != "" {
      assert Ascii(name[1..]) by {
        assert forall c :: c in name[1..] ==> c in name;
      }
      assert name[0] in name;
      LetterByKind(name[0]);
      NormFirst(name);
      if Letter(name[0]) == "" {
        NormIsWordSpelled(name[1..], word);
      } else if word != "" {
        NormIsWordSpelled(name[1..], word[1..]);
        assert word == [word[0]] + word[1..] && Norm(name) == [Norm(name)[0]] + Norm(name)[1..];
      }
    }
  }

  /** A name of small letters and digits is its own normal form. */
  lemma {:induction false} PlainNamesAreNormal(name: string)
    requires forall c :: c in name ==> Plain(c)
    ensures Norm(name) == name
  {
    if name != "" {
      PlainExactly(name[0]);
      PlainNamesAreNormal(name[1..]);
    }
  }

  // ---- base names ----

  const TOOL_CALL: string := "_tool_call"
  const SUFFIXES: seq<string> := [TOOL_CALL, "_exec_args", "_args", "_call"]

  function StripFirst(field: string, suffixes: seq<string>): string {
    if suffixes == [] then field
    else if HasSuffix(field, suffixes[0]) then field[..|field| - |suffixes[0]|]
    else StripFirst(field, suffixes[1..])
  }

  function BaseName(field: string): string {
    StripFirst(field, SUFFIXES)
  }

  method CursorToolBaseName(field: string) returns (base: string)
    ensures base == BaseName(field)
  {
    base := field;
    for i := 0 to |SUFFIXES|
      invariant base == field && StripFirst(field, SUFFIXES[i..]) == BaseName(field)
    {
      assert SUFFIXES[i..][0] == SUFFIXES[i] && SUFFIXES[i..][1..] == SUFFIXES[i + 1..];
      if HasSuffix(base, SUFFIXES[i]) {
        base := base[..|base| - |SUFFIXES[i]|];
        break;
      }
    }
  }

  /** A ToolCall field and an exec request for one native tool have the same base name. */
  lemma BaseNameOfField(base: string)
    ensures BaseName(base + TOOL_CALL) == base
    ensures !HasSuffix(base, "_exec") ==> BaseName(base + "_args") == base
  {
    var f, g := base + TOOL_CALL, base + "_args";
    assert f[|f| - |TOOL_CALL|..] == TOOL_CALL && f[..|f| - |TOOL_CALL|] == base;
    assert g[|g| - 5..] == "_args" && g[..|g| - 5] == base;
    assert !HasSuffix(g, TOOL_CALL) by {
      assert g[|g| - 1] == 's' && TOOL_CALL[9] == 'l';
      assert |g| >= 10 ==> g[|g| - 10..][9] == g[|g| - 1];
    }
    if HasSuffix(g, "_exec_args") {
      assert base[|base| - 5..] == g[|g| - 10..][..5] == "_exec";
    }
    var s1, s2 := SUFFIXES[1..], SUFFIXES[2..];
    assert s1[0] == "_exec_args" && s1[1..] == s2 && s2[0] == "_args";
    assert StripFirst(g, SUFFIXES) == StripFirst(g, s1);
    assert !HasSuffix(base, "_exec") ==> StripFirst(g, s1) == StripFirst(g, s2);
  }

  /** The endings after the first. */
  lemma Endings()
    ensures SUFFIXES[1..] == ["_exec_args", "_args", "_call"] && SUFFIXES[2..] == ["_args", "_call"]
    ensures SUFFIXES[3..] == ["_call"] && SUFFIXES == ["_tool_call", "_exec_args", "_args", "_call"]
  {
  }

  lemma ExecArgsAreStripped(base: string)
    ensures BaseName(base + "_exec_args") == base
  {
    Endings();
    var f := base + "_exec_args";
    assert f[|f| - 10..] == "_exec_args" && f[..|f| - 10] == base && "_exec_args"[9] != "_tool_call"[9];
    assert StripFirst(f, SUFFIXES) == StripFirst(f, SUFFIXES[1..]);
  }

  lemma CallIsStripped(base: string)
    requires !HasSuffix(base, "_tool")
    ensures BaseName(base + "_call") == base
  {
    Endings();
    var g := base + "_call";
    EndsInCall(base);
    assert g[|g| - 5..] == "_call" && g[..|g| - 5] == base;
    assert StripFirst(g, SUFFIXES) == StripFirst(g, SUFFIXES[1..]);
    assert StripFirst(g, SUFFIXES[1..]) == StripFirst(g, SUFFIXES[1..][1..]) && SUFFIXES[1..][1..] == SUFFIXES[2..];
    assert StripFirst(g, SUFFIXES[2..]) == StripFirst(g, SUFFIXES[2..][1..]) && SUFFIXES[2..][1..] == SUFFIXES[3..];
  }

  /** The four endings, and a name with none of them. */
  lemma BaseNameBySuffix(base: string)
    ensures BaseName(base + "_tool_call") == base && BaseName(base + "_exec_args") == base
    ensures |base| < 5 || base[|base| - 5..] != "_exec" ==> BaseName(base + "_args") == base
    ensures |base| < 5 || base[|base| - 5..] != "_tool" ==> BaseName(base + "_call") == base
    ensures EndsInNone(base) ==> BaseName(base) == base
  {
    BaseNameOfField(base);
    ExecArgsAreStripped(base);
    if !HasSuffix(base, "_tool") {
      CallIsStripped(base);
    }
    if EndsInNone(base) {
      Endings();
      NoSuffixNothingStripped(base, SUFFIXES);
    }
  }

  predicate EndsInNone(s: string) {
    forall e :: e in ["_tool_call", "_exec_args", "_args", "_call"] ==> |s| < |e| || s[|s| - |e|..] != e
  }

  lemma EndsInCall(base: string)
    ensures var g := base + "_call";
      && !HasSuffix(g, "_exec_args") && !HasSuffix(g, "_args")
      && (HasSuffix(g, "_tool_call") ==> HasSuffix(base, "_tool"))
  {
    var g := base + "_call";
    assert g[|g| - 1] == 'l';
    if HasSuffix(g, "_tool_call") {
      assert base[|base| - 5..] == g[|g| - 10..][..5] == "_tool";
    }
    assert |g| >= 10 ==> g[|g| - 10..][9] == 'l' != "_exec_args"[9];
    assert g[|g| - 5..][4] == 'l' != "_args"[4];
  }

  lemma {:induction false} NoSuffixNothingStripped(field: string, suffixes: seq<string>)
    requires forall e :: e in suffixes ==> !HasSuffix(field, e)
    ensures StripFirst(field, suffixes) == field
  {
    if suffixes != [] {
      NoSuffixNothingStripped(field, suffixes[1..]);
    }
  }

  // ---- Cursor's name to the client's ----

  /** Normal forms of the declared names; of names with one normal form the last counts. */
  function Declared(tools: seq<string>): map<string, string> {
    if tools == [] then map[]
    else
      var last := tools[|tools| - 1];
      if last == "" then Declared(tools[..|tools| - 1]) else Declared(tools[..|tools| - 1])[Norm(last) := last]
  }

  method NewClientToolIndex(tools: seq<string>) returns (declared: map<string, string>)
    ensures declared == Declared(tools)
  {
    declared := map[];
    for i := 0 to |tools|
      invariant declared == Declared(tools[..i])
    {
      assert tools[..i + 1][..i] == tools[..i] && tools[..i + 1][i] == tools[i];
      if tools[i] != "" {
        var key := NormalizeToolName(tools[i]);
        declared := declared[key := tools[i]];
      }
    }
    assert tools[..|tools|] == tools;
  }

  lemma {:induction false} DeclaredExactly(tools: seq<string>)
    ensures forall t :: t in tools && t != "" ==> Norm(t) in Declared(tools)
    ensures forall key :: key in Declared(tools) ==>
      var t := Declared(tools)[key]; t in tools && t != "" && Norm(t) == key
  {
    if tools != [] {
      DeclaredExactly(tools[..|tools| - 1]);
    }
  }

  function Candidates(table: Table, base: string): seq<string> {
    [base] + if base in table then table[base] else []
  }

  function FirstDeclared(declared: map<string, string>, candidates: seq<string>): Option<string> {
    if candidates == [] then None
    else if Norm(candidates[0]) in declared then Some(declared[Norm(candidates[0])])
    else FirstDeclared(declared, candidates[1..])
  }

  function ResolveClientTool(table: Table, declared: map<string, string>, field: string): Option<string> {
    if declared == map[] || BaseName(field) == "" then None
    else FirstDeclared(declared, Candidates(table, BaseName(field)))
  }

  method FindClientTool(table: Table, declared: map<string, string>, field: string) returns (tool: Option<string>)
    ensures tool == ResolveClientTool(table, declared, field)
  {
    if |declared| == 0 {
      return None;
    }
    var base := CursorToolBaseName(field);
    if base == "" {
      return None;
    }
    var key := NormalizeToolName(base);
    ghost var candidates := Candidates(table, base);
    if key in declared {
      return Some(declared[key]);
    }
    var aliases := if base in table then table[base] else [];
    assert candidates[1..] == aliases;
    for i := 0 to |aliases|
      invariant FirstDeclared(declared, candidates) == FirstDeclared(declared, aliases[i..])
    {
      assert aliases[i..][0] == aliases[i] && aliases[i..][1..] == aliases[i + 1..];
      key := NormalizeToolName(aliases[i]);
      if key in declared {
        return Some(declared[key]);
      }
    }
    tool := None;
  }

  lemma {:induction false} FirstDeclaredIsFirst(declared: map<string, string>, candidates: seq<string>) returns (i: nat)
    ensures var r := FirstDeclared(declared, candidates);
      && (r.Some? ==> i < |candidates| && Norm(candidates[i]) in declared && r.value == declared[Norm(candidates[i])])
      && (forall j :: 0 <= j < |candidates| && (r.None? || j < i) ==> Norm(candidates[j]) !in declared)
  {
    if candidates == [] || Norm(candidates[0]) in declared {
      i := 0;
    } else {
      var k := FirstDeclaredIsFirst(declared, candidates[1..]);
      i := k + 1;
      assert forall j :: 1 <= j < |candidates| ==> candidates[j] == candidates[1..][j - 1];
    }
  }

  predicate NamesTool(tools: seq<string>, candidate: string) {
    exists t :: t in tools && t != "" && Norm(t) == Norm(candidate)
  }

  /** The result is a declared name of the normal form of some candidate, none before which is declared. */
  ghost predicate BestMatch(tools: seq<string>, candidates: seq<string>, result: string) {
    && result in tools && result != ""
    && exists i :: 0 <= i < |candidates| && Norm(result) == Norm(candidates[i]) && NoneNamed(tools, candidates[..i])
  }

  predicate NoneNamed(tools: seq<string>, candidates: seq<string>) {
    forall c :: c in candidates ==> !NamesTool(tools, c)
  }

  lemma FirstDeclaredIsBest(tools: seq<string>, candidates: seq<string>)
    ensures var r := FirstDeclared(Declared(tools), candidates);
      (r.None? <==> NoneNamed(tools, candidates)) && (r.Some? ==> BestMatch(tools, candidates, r.value))
  {
    DeclaredExactly(tools);
    var declared := Declared(tools);
    var r := FirstDeclared(declared, candidates);
    assert forall c :: Norm(c) in declared <==> NamesTool(tools, c);
    var i := FirstDeclaredIsFirst(declared, candidates);
    if r.Some? {
      assert Norm(r.value) == Norm(candidates[i]) && NoneNamed(tools, candidates[..i]);
      assert candidates[i] in candidates;
    }
  }

  /** Only a declared name comes back: the one that matches the first matching candidate, if any does. */
  lemma ResolvesToDeclaredEquivalent(table: Table, tools: seq<string>, field: string)
    ensures var r, base := ResolveClientTool(table, Declared(tools), field), BaseName(field);
      && (r.None? <==> base == "" || NoneNamed(tools, Candidates(table, base)))
      && (r.Some? ==> BestMatch(tools, Candidates(table, base), r.value))
  {
    var base := BaseName(field);
    FirstDeclaredIsBest(tools, Candidates(table, base));
    DeclaredExactly(tools);
    if Declared(tools) == map[] {
      assert NoneNamed(tools, Candidates(table, base));
    }
  }

  predicate Spelled(tools: seq<string>, word: string) {
    exists t :: t in tools && t != "" && Spells(t, word)
  }

  /** A declared name that spells the base, or one of its aliases, is what the native tool resolves to,
      whatever its case and separators, if no candidate before it is spelled by a declared name. */
  lemma AnySpellingResolves(table: Table, tools: seq<string>, base: string, field: string, i: nat, word: string,
                            tool: string)
    requires field in {base + "_tool_call", base + "_exec_args"} && base != ""
    requires forall t :: t in tools ==> Ascii(t)
    requires i < |Candidates(table, base)| && forall c :: c in Candidates(table, base) ==> Ascii(c)
    requires Spells(Candidates(table, base)[i], word) && tool in tools && tool != "" && Spells(tool, word)
    requires forall j, w :: 0 <= j < i && Spells(Candidates(table, base)[j], w) ==> !Spelled(tools, w)
    ensures var r := ResolveClientTool(table, Declared(tools), field);
      && r.Some? && r.value in tools && r.value != "" && Spells(r.value, word)
      && ((forall t :: t in tools && t != "" && Spells(t, word) ==> t == tool) ==> r.value == tool)
  {
    var cs := Candidates(table, base);
    BaseNameBySuffix(base);
    assert cs[i] in cs;
    NormIsWordSpelled(cs[i], word);
    NormIsWordSpelled(tool, word);
    DeclaredExactly(tools);
    var k := FirstDeclaredIsFirst(Declared(tools), cs);
    forall j | 0 <= j < i ensures Norm(cs[j]) !in Declared(tools) {
      assert cs[j] in cs;
      NormIsWordSpelled(cs[j], Norm(cs[j]));
      if Norm(cs[j]) in Declared(tools) {
        var t := Declared(tools)[Norm(cs[j])];
        NormIsWordSpelled(t, Norm(cs[j]));
        assert Spelled(tools, Norm(cs[j]));
      }
    }
    assert Norm(tool) in Declared(tools);
    var r := ResolveClientTool(table, Declared(tools), field);
    assert r == FirstDeclared(Declared(tools), cs);
    assert k == i;
    NormIsWordSpelled(r.value, word);
  }

  // ---- the client's name to Cursor's ----

  /** The tool's normal form is that of the base or of one of its aliases, and the base has a ToolCall field. */
  ghost predicate Eligible(table: Table, fields: set<string>, base: string, tool: string) {
    && base in table && Norm(tool) != "" && base + TOOL_CALL in fields
    && exists c :: c in Candidates(table, base) && Norm(c) == Norm(tool)
  }

  /** Some native tool stands for this client tool. */
  ghost predicate IsNative(table: Table, fields: set<string>, tool: string) {
    exists base :: Eligible(table, fields, base, tool)
  }

  /** The lookup ranges over a map: the order is not fixed. */
  ghost function ResolveInOrder(table: Table, fields: set<string>, order: seq<string>, tool: string): Option<string> {
    if order == [] then None
    else if Eligible(table, fields, order[0], tool) then Some(order[0] + TOOL_CALL)
    else ResolveInOrder(table, fields, order[1..], tool)
  }

  ghost predicate IsOrder(order: seq<string>, table: Table) {
    multiset(order) == multiset(table.Keys)
  }

  method MatchesAny(base: string, aliases: seq<string>, normalized: string) returns (found: bool)
    ensures found <==> exists c :: c in [base] + aliases && Norm(c) == normalized
  {
    var key := NormalizeToolName(base);
    found := key == normalized;
    var i := 0;
    while i < |aliases| && !found
      invariant 0 <= i <= |aliases|
      invariant found <==> exists c :: c in [base] + aliases[..i] && Norm(c) == normalized
    {
      key := NormalizeToolName(aliases[i]);
      found := key == normalized;
      assert aliases[..i + 1] == aliases[..i] + [aliases[i]];
      i := i + 1;
    }
    assert !found ==> aliases[..i] == aliases;
  }

  method ResolveCursorToolField(table: Table, fields: set<string>, order: seq<string>, tool: string)
    returns (field: Option<string>)
    requires IsOrder(order, table)
    ensures field == ResolveInOrder(table, fields, order, tool)
  {
    OrderCovers(order, table);
    var normalized := NormalizeToolName(tool);
    if normalized == "" {
      InOrderGivesEligible(table, fields, order, tool);
      return None;
    }
    for i := 0 to |order|
      invariant ResolveInOrder(table, fields, order, tool) == ResolveInOrder(table, fields, order[i..], tool)
    {
      assert order[i..][0] == order[i] && order[i..][1..] == order[i + 1..];
      var base := order[i];
      var matching := MatchesAny(base, table[base], normalized);
      if matching && base + TOOL_CALL in fields {
        return Some(base + TOOL_CALL);
      }
    }
    field := None;
  }

  lemma FieldNamesDiffer(a: string, b: string)
    requires a + TOOL_CALL == b + TOOL_CALL
    ensures a == b
  {
    var f := a + TOOL_CALL;
    assert a == f[..|f| - |TOOL_CALL|] && b == f[..|f| - |TOOL_CALL|];
  }

  lemma {:induction false} InOrderGivesEligible(table: Table, fields: set<string>, order: seq<string>, tool: string)
    ensures var r := ResolveInOrder(table, fields, order, tool);
      && (r.None? ==> forall b :: b in order ==> !Eligible(table, fields, b, tool))
      && (r.Some? ==> exists b :: b in order && Eligible(table, fields, b, tool) && r.value == b + TOOL_CALL)
  {
    if order != [] {
      InOrderGivesEligible(table, fields, order[1..], tool);
      assert order == [order[0]] + order[1..];
    }
  }

  lemma OrderCovers(order: seq<string>, table: Table)
    requires IsOrder(order, table)
    ensures forall b :: b in order <==> b in table
  {
    assert forall b :: b in order <==> b in multiset(order);
    assert forall b :: b in multiset(table.Keys) <==> b in table.Keys;
  }

  lemma {:induction false} Enumerate(s: set<string>) returns (order: seq<string>)
    ensures multiset(order) == multiset(s)
    decreases |s|
  {
    if s == {} {
      order := [];
    } else {
      var x :| x in s;
      var rest := Enumerate(s - {x});
      order := [x] + rest;
      assert multiset(s) == multiset(s - {x}) + multiset{x};
    }
  }

  lemma ResultIsEligible(table: Table, fields: set<string>, tool: string, order: seq<string>)
    requires IsOrder(order, table)
    ensures var r := ResolveInOrder(table, fields, order, tool);
            if r.None? then !IsNative(table, fields, tool)
            else exists b :: Eligible(table, fields, b, tool) && r.value == b + TOOL_CALL
  {
    InOrderGivesEligible(table, fields, order, tool);
    OrderCovers(order, table);
  }

  lemma EligibleCanComeFirst(table: Table, fields: set<string>, tool: string, b: string) returns (order: seq<string>)
    requires Eligible(table, fields, b, tool)
    ensures IsOrder(order, table) && ResolveInOrder(table, fields, order, tool) == Some(b + TOOL_CALL)
  {
    var rest := Enumerate(table.Keys - {b});
    order := [b] + rest;
    assert multiset(table.Keys) == multiset(table.Keys - {b}) + multiset{b};
  }

  /** Whatever an iteration order can make the lookup return is an eligible base's field, and every
      eligible base's field is returned under some order. */
  lemma ResultsAreTheEligibleFields(table: Table, fields: set<string>, tool: string, r: Option<string>)
    ensures (exists order :: IsOrder(order, table) && ResolveInOrder(table, fields, order, tool) == r) <==>
            if r.None? then !IsNative(table, fields, tool)
            else exists b :: Eligible(table, fields, b, tool) && r.value == b + TOOL_CALL
  {
    if order :| IsOrder(order, table) && ResolveInOrder(table, fields, order, tool) == r {
      ResultIsEligible(table, fields, tool, order);
    }
    if r.None? {
      var order := Enumerate(table.Keys);
      ResultIsEligible(table, fields, tool, order);
    } else if b :| Eligible(table, fields, b, tool) && r.value == b + TOOL_CALL {
      var order := EligibleCanComeFirst(table, fields, tool, b);
    }
  }

  /** The lookup is a function of the tool name exactly when at most one base is eligible. */
  lemma LookupIsAFunctionExactly(table: Table, fields: set<string>, tool: string)
    ensures (forall o, p :: IsOrder(o, table) && IsOrder(p, table) ==>
               ResolveInOrder(table, fields, o, tool) == ResolveInOrder(table, fields, p, tool)) <==>
            (forall a, b :: Eligible(table, fields, a, tool) && Eligible(table, fields, b, tool) ==> a == b)
  {
    if forall a, b :: Eligible(table, fields, a, tool) && Eligible(table, fields, b, tool) ==> a == b {
      forall o, p | IsOrder(o, table) && IsOrder(p, table)
        ensures ResolveInOrder(table, fields, o, tool) == ResolveInOrder(table, fields, p, tool)
      {
        InOrderGivesEligible(table, fields, o, tool);
        InOrderGivesEligible(table, fields, p, tool);
        OrderCovers(o, table);
        OrderCovers(p, table);
      }
    } else {
      var a, b :| Eligible(table, fields, a, tool) && Eligible(table, fields, b, tool) && a != b;
      ResultsAreTheEligibleFields(table, fields, tool, Some(a + TOOL_CALL));
      ResultsAreTheEligibleFields(table, fields, tool, Some(b + TOOL_CALL));
      if a + TOOL_CALL == b + TOOL_CALL {
        FieldNamesDiffer(a, b);
      }
    }
  }

  /** Where one base only is eligible, the lookup takes a surfaced tool back to the field it came from. */
  lemma ReverseInvertsForward(table: Table, fields: set<string>, tools: seq<string>, base: string, field: string,
        order: seq<string>)
    requires base in table && base + TOOL_CALL in fields && BaseName(field) == base && IsOrder(order, table)
    requires ResolveClientTool(table, Declared(tools), field).Some?
    ensures var tool := ResolveClientTool(table, Declared(tools), field).value;
      Norm(tool) != "" && (forall b :: Eligible(table, fields, b, tool) ==> b == base) ==>
        ResolveInOrder(table, fields, order, tool) == Some(base + TOOL_CALL)
  {
    ResolvesToDeclaredEquivalent(table, tools, field);
    var tool, candidates := ResolveClientTool(table, Declared(tools), field).value, Candidates(table, base);
    var i :| 0 <= i < |candidates| && Norm(tool) == Norm(candidates[i]);
    assert candidates[i] in candidates;
    if Norm(tool) != "" && forall b :: Eligible(table, fields, b, tool) ==> b == base {
      assert Eligible(table, fields, base, tool);
      InOrderGivesEligible(table, fields, order, tool);
      OrderCovers(order, table);
    }
  }

  /** A declared tool left to a native one can still be reached: every field it may be looked up
      under resolves to a declared tool, and to the tool itself if no other candidate is declared. */
  lemma NativeToolStaysReachable(table: Table, fields: set<string>, tools: seq<string>, tool: string, base: string)
    requires tool in tools && tool != "" && base != "" && Eligible(table, fields, base, tool)
    ensures var r := ResolveClientTool(table, Declared(tools), base + TOOL_CALL);
      && r.Some? && r.value in tools
      && ((forall t, c :: t in tools && t != "" && c in Candidates(table, base) && Norm(t) == Norm(c) ==> t == tool) ==>
           r.value == tool)
  {
    BaseNameOfField(base);
    ResolvesToDeclaredEquivalent(table, tools, base + TOOL_CALL);
    var c :| c in Candidates(table, base) && Norm(c) == Norm(tool);
    assert NamesTool(tools, c);
  }
}
