// A history whose turn ids the shipped table leaves to the map order.
module ShippedStability {
  import opened History
  import opened ToolRouting
  import opened ToolCalls
  import opened BlobGraphs
  import opened Requests
  import opened ShippedTools
  import opened Stability

  /** A user text, an assistant's call of "search", and the user text that begins the next turn. */
  predicate SearchedOnce(h: seq<ChatMessage>) {
    && |h| == 3 && h[0].role.User? && h[0].content != "" && h[2].role.User? && h[2].content != ""
    && h[1].role.Assistant? && |h[1].toolCalls| == 1 && h[1].toolCalls[0].name == "search"
  }

  lemma SearchIsUnsteady(s: Schema)
    requires s.table == NATIVE_TOOL_ALIASES && s.Fields() == TOOL_CALL_FIELDS
    ensures !Steady(s, "search")
  {
    SearchRows();
    SearchIsEligible(s.table, s.Fields(), "search");
    SearchIsNoVariant();
  }

  lemma SearchIsEligible(table: Table, fields: set<string>, tool: string)
    requires "grep" in table && |table["grep"]| > 1 && table["grep"][1] == tool
    requires "sem_search" in table && |table["sem_search"]| > 3 && table["sem_search"][3] == tool
    requires "grep" + TOOL_CALL in fields && "sem_search" + TOOL_CALL in fields && tool != "" && 'a' <= tool[0] <= 'z'
    ensures Eligible(table, fields, "grep", tool) && Eligible(table, fields, "sem_search", tool)
  {
    assert Norm(tool) != "";
    AliasIsEligible(table, fields, "grep", 1);
    AliasIsEligible(table, fields, "sem_search", 3);
  }

  lemma SearchIsNoVariant()
    ensures "search" !in TOOL_CALL_FIELDS
  {
  }

  /** With the shipped table, the turn that called "search" gets another id under some map order, so no
      longer history starts with the ids known, however it goes on. */
  lemma SearchedHistoryLosesIds(c: Codec, s: Schema, o: Routing, h: seq<ChatMessage>, k: nat) returns (p: Routing)
    requires Lawful(c) && WellFormed(s) && s.table == NATIVE_TOOL_ALIASES && s.Fields() == TOOL_CALL_FIELDS
    requires IsRouting(s, o) && SearchedOnce(h) && TurnsOf(c, Routed(s, o), h, k).Some?
    ensures IsRouting(s, p) && TurnsIn(Routed(s, p), h).Some?
    ensures forall v, l: nat :: EncodeApart(c, Routed(s, o), h, k, Routed(s, p), h + v, l) ==>
              !KeepsSettledIds(c, Routed(s, o), h, k, Routed(s, p), h + v, l)
  {
    SearchIsUnsteady(s);
    SearchCalledBeforeLastTurn(h);
    p := UnsteadyHistoryLosesIds(c, s, o, h, k);
  }

  lemma SearchCalledBeforeLastTurn(h: seq<ChatMessage>)
    requires SearchedOnce(h)
    ensures CalledIn(BeforeLastTurn(h), 1, h[1].toolCalls[0])
  {
    assert LastOpening(h) == 2;
    var a := BeforeLastTurn(h);
    assert InTurn(a, 1) by {
      assert a[0] == h[0] && BeginsTurn(a[0]);
    }
    assert a[1] == h[1];
  }
}
