// Chat history grouped into conversation turns: one turn per non-empty system
// or user message, everything up to the next such message recorded as its
// steps, tool results joined to the calls they answer.
module History {
  import opened Basics
  import opened Protocol

  datatype ChatToolCall = ChatToolCall(id: string, name: string, arguments: string)

  datatype Role = System | User | Assistant | Tool | OtherRole(name: string)

  datatype ChatMessage = ChatMessage(role: Role, content: string, toolCalls: seq<ChatToolCall>, toolCallId: string)

  datatype Step = AssistantText(text: string) | CallStep(call: CursorToolCall)

  datatype Turn = Turn(userText: string, steps: seq<Step>)

  type Pending = map<string, ChatToolCall>

  /** Where a call is rebuilt: the message, and the number of the call in it. */
  datatype Site = Site(message: nat, call: nat)

  /** Rebuilds a Cursor tool call from a name, JSON arguments and a result; may refuse.  What a name
      stands for is looked up anew each time and may come out differently, hence the site. */
  type Rebuild = (Site, string, string, string) -> Option<CursorToolCall>

  predicate Opens(m: ChatMessage) {
    m.role.User? || m.role.System?
  }

  function OpeningText(m: ChatMessage): string {
    if m.role.System? then "[system] " + m.content else m.content
  }

  /** An opener with nothing to say begins no turn, though it ends the one before it. */
  predicate BeginsTurn(m: ChatMessage) {
    Opens(m) && OpeningText(m) != ""
  }

  const TOOL_RESULT: string := "[Tool Result]\n"

  // ---- the nested loops as functions ----

  /** The calls of message i from number j on. */
  function CallSteps(rebuild: Rebuild, calls: seq<ChatToolCall>, i: nat, j: nat): Option<seq<Step>>
    decreases |calls|
  {
    if calls == [] then Some([])
    else
      match (rebuild(Site(i, j), calls[0].name, calls[0].arguments, ""), CallSteps(rebuild, calls[1..], i, j + 1))
      case (Some(call), Some(rest)) => Some([CallStep(call)] + rest)
      case _ => None
  }

  function Record(pending: Pending, calls: seq<ChatToolCall>): Pending
    decreases |calls|
  {
    if calls == [] then pending else Record(pending[calls[0].id := calls[0]], calls[1..])
  }

  function TextStep(m: ChatMessage): seq<Step> {
    if m.content != "" then [AssistantText(m.content)] else []
  }

  /** The steps message i adds to the turn it falls in; None when a call cannot be rebuilt. */
  function StepsOf(rebuild: Rebuild, pending: Pending, m: ChatMessage, i: nat): Option<seq<Step>> {
    if m.role.Assistant? then
      match CallSteps(rebuild, m.toolCalls, i, 0)
      case None => None
      case Some(calls) => Some(TextStep(m) + calls)
    else if m.role.Tool? then
      if m.toolCallId !in pending then Some([AssistantText(TOOL_RESULT + m.content)])
      else
        var original := pending[m.toolCallId];
        match rebuild(Site(i, 0), original.name, original.arguments, m.content)
        case None => None
        case Some(call) => Some([CallStep(call)])
    else Some([])
  }

  function PendingAfter(pending: Pending, m: ChatMessage): Pending {
    if m.role.Assistant? then Record(pending, m.toolCalls)
    else if m.role.Tool? then pending - {m.toolCallId}
    else pending
  }

  /** rest is what is left, from message number next on. */
  datatype Collected = Collected(steps: seq<Step>, rest: seq<ChatMessage>, next: nat, pending: Pending)

  /** The inner loop, from message i on: steps up to the next message that opens a turn. */
  function Collect(rebuild: Rebuild, ms: seq<ChatMessage>, i: nat, pending: Pending): (r: Option<Collected>)
    ensures r.Some? ==> |r.value.rest| <= |ms| && r.value.next == i + |ms| - |r.value.rest|
    ensures r.Some? && r.value.rest != [] ==> Opens(r.value.rest[0])
    decreases |ms|
  {
    if ms == [] || Opens(ms[0]) then Some(Collected([], ms, i, pending))
    else
      match (StepsOf(rebuild, pending, ms[0], i), Collect(rebuild, ms[1..], i + 1, PendingAfter(pending, ms[0])))
      case (Some(steps), Some(c)) => Some(c.(steps := steps + c.steps))
      case _ => None
  }

  /** The outer loop, from message i on: messages that open no turn are skipped until one does. */
  function Group(rebuild: Rebuild, ms: seq<ChatMessage>, i: nat, pending: Pending): Option<seq<Turn>>
    decreases |ms|
  {
    if ms == [] then Some([])
    else if !BeginsTurn(ms[0]) then Group(rebuild, ms[1..], i + 1, pending)
    else
      match Collect(rebuild, ms[1..], i + 1, pending)
      case None => None
      case Some(c) =>
        match Group(rebuild, c.rest, c.next, c.pending)
        case None => None
        case Some(turns) => Some([Turn(OpeningText(ms[0]), c.steps)] + turns)
  }

  function TurnsIn(rebuild: Rebuild, ms: seq<ChatMessage>): Option<seq<Turn>> {
    Group(rebuild, ms, 0, map[])
  }

  // ---- what becomes of each message, told message by message ----

  datatype Item = OpenTurn(text: string) | AddStep(step: Step)

  function StepItems(steps: seq<Step>): seq<Item> {
    seq(|steps|, i requires 0 <= i < |steps| => AddStep(steps[i]))
  }

  /** Whether the message at i falls inside a turn: the latest opener before it was not empty. */
  function InTurn(ms: seq<ChatMessage>, i: nat): bool
    requires i <= |ms|
  {
    if i == 0 then false
    else if Opens(ms[i - 1]) then BeginsTurn(ms[i - 1])
    else InTurn(ms, i - 1)
  }

  function LastWithId(calls: seq<ChatToolCall>, id: string): Option<ChatToolCall> {
    if calls == [] then None
    else if calls[|calls| - 1].id == id then Some(calls[|calls| - 1])
    else LastWithId(calls[..|calls| - 1], id)
  }

  /** The call a tool result at i answers: looking back over the messages inside turns, the
      latest one recorded under the id, unless a result for that id came in between. */
  function Recall(ms: seq<ChatMessage>, i: nat, id: string): Option<ChatToolCall>
    requires i <= |ms|
  {
    if i == 0 then None
    else
      var m := ms[i - 1];
      if !InTurn(ms, i - 1) || Opens(m) then Recall(ms, i - 1, id)
      else if m.role.Assistant? && LastWithId(m.toolCalls, id).Some? then LastWithId(m.toolCalls, id)
      else if m.role.Tool? && m.toolCallId == id then None
      else Recall(ms, i - 1, id)
  }

  /** What message i contributes: a new turn, steps in the turn it falls in, or nothing. */
  function Contribution(rebuild: Rebuild, ms: seq<ChatMessage>, i: nat): Option<seq<Item>>
    requires i < |ms|
  {
    var m := ms[i];
    if BeginsTurn(m) then Some([OpenTurn(OpeningText(m))])
    else if Opens(m) || !InTurn(ms, i) then Some([])
    else if m.role.Assistant? then
      match CallSteps(rebuild, m.toolCalls, i, 0)
      case None => None
      case Some(calls) => Some(StepItems(TextStep(m) + calls))
    else if m.role.Tool? then
      match Recall(ms, i, m.toolCallId)
      case None => Some([AddStep(AssistantText(TOOL_RESULT + m.content))])
      case Some(original) =>
        (match rebuild(Site(i, 0), original.name, original.arguments, m.content)
         case None => None
         case Some(call) => Some([AddStep(CallStep(call))]))
    else Some([])
  }

  function Contributions(rebuild: Rebuild, ms: seq<ChatMessage>, i: nat): Option<seq<Item>>
    requires i <= |ms|
    decreases |ms| - i
  {
    if i == |ms| then Some([])
    else
      match (Contribution(rebuild, ms, i), Contributions(rebuild, ms, i + 1))
      case (Some(c), Some(rest)) => Some(c + rest)
      case _ => None
  }

  function TurnItems(turns: seq<Turn>): seq<Item> {
    if turns == [] then [] else [OpenTurn(turns[0].userText)] + StepItems(turns[0].steps) + TurnItems(turns[1..])
  }

  function ItemsOf(grouped: Option<seq<Turn>>): Option<seq<Item>> {
    if grouped.None? then None else Some(TurnItems(grouped.value))
  }

  // ---- the pending map is the backward search ----

  ghost predicate Remembers(pending: Pending, ms: seq<ChatMessage>, i: nat)
    requires i <= |ms|
  {
    forall id :: Recall(ms, i, id) == if id in pending then Some(pending[id]) else None
  }

  lemma {:induction false} RecordIsLast(pending: Pending, calls: seq<ChatToolCall>, id: string)
    ensures var after := Record(pending, calls);
            (if id in after then Some(after[id]) else None) ==
            if LastWithId(calls, id).Some? then LastWithId(calls, id)
            else if id in pending then Some(pending[id]) else None
    decreases |calls|
  {
    if calls != [] {
      RecordIsLast(pending[calls[0].id := calls[0]], calls[1..], id);
      LastWithIdCons(calls, id);
    }
  }

  lemma {:induction false} LastWithIdCons(calls: seq<ChatToolCall>, id: string)
    requires calls != []
    ensures LastWithId(calls, id) ==
            if LastWithId(calls[1..], id).Some? then LastWithId(calls[1..], id)
            else if calls[0].id == id then Some(calls[0]) else None
  {
    var n := |calls| - 1;
    if n > 0 && calls[n].id != id {
      LastWithIdCons(calls[..n], id);
      assert calls[..n][1..] == calls[1..][..n - 1];
    }
  }

  lemma StillRemembers(pending: Pending, ms: seq<ChatMessage>, i: nat)
    requires i < |ms| && Remembers(pending, ms, i)
    ensures Opens(ms[i]) || !InTurn(ms, i) ==> Remembers(pending, ms, i + 1)
    ensures !Opens(ms[i]) && InTurn(ms, i) ==> Remembers(PendingAfter(pending, ms[i]), ms, i + 1)
  {
    if !Opens(ms[i]) && InTurn(ms, i) {
      var after := PendingAfter(pending, ms[i]);
      forall id ensures Recall(ms, i + 1, id) == if id in after then Some(after[id]) else None {
        assert Recall(ms, i, id) == if id in pending then Some(pending[id]) else None;
        if ms[i].role.Assistant? {
          RecordIsLast(pending, ms[i].toolCalls, id);
        }
      }
    } else {
      forall id ensures Recall(ms, i + 1, id) == if id in pending then Some(pending[id]) else None {
        assert Recall(ms, i, id) == if id in pending then Some(pending[id]) else None;
      }
    }
  }

  // ---- the grouping loops say the same ----

  lemma StepItemsAppend(s: seq<Step>, t: seq<Step>)
    ensures StepItems(s + t) == StepItems(s) + StepItems(t)
  {
  }

  lemma ContributionInTurn(rebuild: Rebuild, ms: seq<ChatMessage>, i: nat, pending: Pending)
    requires i < |ms| && !Opens(ms[i]) && InTurn(ms, i) && Remembers(pending, ms, i)
    ensures Contribution(rebuild, ms, i) ==
            match StepsOf(rebuild, pending, ms[i], i)
            case None => None
            case Some(steps) => Some(StepItems(steps))
  {
    var m := ms[i];
    assert Recall(ms, i, m.toolCallId) == if m.toolCallId in pending then Some(pending[m.toolCallId]) else None;
    if m.role.Tool? {
      var steps := StepsOf(rebuild, pending, m, i);
      if steps.Some? {
        assert |steps.value| == 1;
        assert StepItems(steps.value) == [AddStep(steps.value[0])];
      }
    } else if !m.role.Assistant? {
      assert StepItems([]) == [];
    }
  }

  function Join(items: seq<Item>, rest: Option<seq<Item>>): Option<seq<Item>> {
    if rest.None? then None else Some(items + rest.value)
  }

  /** Inside a turn, the inner loop's steps are the contributions up to the next opener. */
  lemma {:induction false} CollectContributions(rebuild: Rebuild, ms: seq<ChatMessage>, i: nat, pending: Pending)
    returns (j: nat)
    requires i <= |ms| && InTurn(ms, i) && Remembers(pending, ms, i)
    ensures i <= j <= |ms|
    ensures var c := Collect(rebuild, ms[i..], i, pending);
            if c.None? then Contributions(rebuild, ms, i) == None
            else
              && c.value.rest == ms[j..] && Remembers(c.value.pending, ms, j)
              && Contributions(rebuild, ms, i) == Join(StepItems(c.value.steps), Contributions(rebuild, ms, j))
    decreases |ms| - i
  {
    j := i;
    if i == |ms| || Opens(ms[i]) {
      assert i < |ms| ==> ms[i..][0] == ms[i];
      var rest := Contributions(rebuild, ms, i);
      if rest.Some? {
        assert StepItems([]) + rest.value == rest.value;
      }
    } else {
      assert ms[i..][0] == ms[i] && ms[i..][1..] == ms[i + 1..];
      ContributionInTurn(rebuild, ms, i, pending);
      StillRemembers(pending, ms, i);
      j := CollectContributions(rebuild, ms, i + 1, PendingAfter(pending, ms[i]));
      CollectStep(rebuild, ms, i, j, pending);
    }
  }

  lemma CollectStep(rebuild: Rebuild, ms: seq<ChatMessage>, i: nat, j: nat, pending: Pending)
    requires i < j <= |ms| && !Opens(ms[i]) && ms[i..][0] == ms[i] && ms[i..][1..] == ms[i + 1..]
    requires var steps := StepsOf(rebuild, pending, ms[i], i);
             Contribution(rebuild, ms, i) == if steps.None? then None else Some(StepItems(steps.value))
    requires var d := Collect(rebuild, ms[i + 1..], i + 1, PendingAfter(pending, ms[i]));
             if d.None? then Contributions(rebuild, ms, i + 1) == None
             else Contributions(rebuild, ms, i + 1) == Join(StepItems(d.value.steps), Contributions(rebuild, ms, j))
    ensures var c := Collect(rebuild, ms[i..], i, pending);
            if c.None? then Contributions(rebuild, ms, i) == None
            else Contributions(rebuild, ms, i) == Join(StepItems(c.value.steps), Contributions(rebuild, ms, j))
  {
    var steps, d := StepsOf(rebuild, pending, ms[i], i),
      Collect(rebuild, ms[i + 1..], i + 1, PendingAfter(pending, ms[i]));
    if steps.Some? && d.Some? {
      StepItemsAppend(steps.value, d.value.steps);
      JoinJoin(StepItems(steps.value), StepItems(d.value.steps), Contributions(rebuild, ms, j));
      assert Contributions(rebuild, ms, i) == Join(StepItems(steps.value), Contributions(rebuild, ms, i + 1));
    }
  }

  lemma JoinJoin(a: seq<Item>, b: seq<Item>, rest: Option<seq<Item>>)
    ensures Join(a, Join(b, rest)) == Join(a + b, rest)
  {
    if rest.Some? {
      assert a + (b + rest.value) == a + b + rest.value;
    }
  }

  lemma {:induction false} GroupContributions(rebuild: Rebuild, ms: seq<ChatMessage>, i: nat, pending: Pending)
    requires i <= |ms| && Remembers(pending, ms, i)
    requires i < |ms| && !Opens(ms[i]) ==> !InTurn(ms, i)
    ensures ItemsOf(Group(rebuild, ms[i..], i, pending)) == Contributions(rebuild, ms, i)
    decreases |ms| - i
  {
    if i < |ms| {
      assert ms[i..][0] == ms[i] && ms[i..][1..] == ms[i + 1..];
      StillRemembers(pending, ms, i);
      if !BeginsTurn(ms[i]) {
        GroupContributions(rebuild, ms, i + 1, pending);
        GroupSkips(rebuild, ms, i, pending);
      } else {
        var j := CollectContributions(rebuild, ms, i + 1, pending);
        var c := Collect(rebuild, ms[i + 1..], i + 1, pending);
        if c.Some? {
          assert j < |ms| ==> Opens(c.value.rest[0]);
          GroupContributions(rebuild, ms, j, c.value.pending);
        }
        GroupOpens(rebuild, ms, i, j, pending);
      }
    }
  }

  lemma GroupSkips(rebuild: Rebuild, ms: seq<ChatMessage>, i: nat, pending: Pending)
    requires i < |ms| && ms[i..][0] == ms[i] && ms[i..][1..] == ms[i + 1..]
    requires !BeginsTurn(ms[i])
    requires !Opens(ms[i]) ==> !InTurn(ms, i)
    requires ItemsOf(Group(rebuild, ms[i + 1..], i + 1, pending)) == Contributions(rebuild, ms, i + 1)
    ensures ItemsOf(Group(rebuild, ms[i..], i, pending)) == Contributions(rebuild, ms, i)
  {
    var rest := Contributions(rebuild, ms, i + 1);
    if rest.Some? {
      assert [] + rest.value == rest.value;
    }
  }

  lemma ContributionsOpen(rebuild: Rebuild, ms: seq<ChatMessage>, i: nat)
    requires i < |ms| && BeginsTurn(ms[i])
    ensures Contributions(rebuild, ms, i) == Join([OpenTurn(OpeningText(ms[i]))], Contributions(rebuild, ms, i + 1))
  {
  }

  lemma GroupUnfolds(rebuild: Rebuild, ms: seq<ChatMessage>, i: nat, pending: Pending)
    requires ms != [] && BeginsTurn(ms[0])
    ensures var c := Collect(rebuild, ms[1..], i + 1, pending);
            if c.None? || Group(rebuild, c.value.rest, c.value.next, c.value.pending).None? then
              Group(rebuild, ms, i, pending) == None
            else
              Group(rebuild, ms, i, pending) ==
                Some([Turn(OpeningText(ms[0]), c.value.steps)] +
                     Group(rebuild, c.value.rest, c.value.next, c.value.pending).value)
  {
  }

  lemma ItemsOfTurnFirst(t: Turn, turns: seq<Turn>)
    ensures TurnItems([t] + turns) == [OpenTurn(t.userText)] + (StepItems(t.steps) + TurnItems(turns))
  {
    assert ([t] + turns)[1..] == turns;
  }

  /** A turn and what follows read as its opener, its steps, and what follows. */
  lemma OpensATurn(text: string, c: Option<Collected>, rest: Option<seq<Turn>>, whole: Option<seq<Turn>>,
                   after: Option<seq<Item>>)
    requires whole == if c.None? || rest.None? then None else Some([Turn(text, c.value.steps)] + rest.value)
    requires c.Some? ==> ItemsOf(rest) == after
    ensures ItemsOf(whole) ==
            if c.None? then None else Join([OpenTurn(text)], Join(StepItems(c.value.steps), after))
  {
    if whole.Some? {
      ItemsOfTurnFirst(Turn(text, c.value.steps), rest.value);
    }
  }

  lemma GroupOpens(rebuild: Rebuild, ms: seq<ChatMessage>, i: nat, j: nat, pending: Pending)
    requires i < j <= |ms| && ms[i..][0] == ms[i] && ms[i..][1..] == ms[i + 1..]
    requires BeginsTurn(ms[i])
    requires var c := Collect(rebuild, ms[i + 1..], i + 1, pending);
             if c.None? then Contributions(rebuild, ms, i + 1) == None
             else
               && c.value.rest == ms[j..]
               && Contributions(rebuild, ms, i + 1) == Join(StepItems(c.value.steps), Contributions(rebuild, ms, j))
               && ItemsOf(Group(rebuild, ms[j..], j, c.value.pending)) == Contributions(rebuild, ms, j)
    ensures ItemsOf(Group(rebuild, ms[i..], i, pending)) == Contributions(rebuild, ms, i)
  {
    ContributionsOpen(rebuild, ms, i);
    GroupUnfolds(rebuild, ms[i..], i, pending);
    var c := Collect(rebuild, ms[i + 1..], i + 1, pending);
    var rest := if c.None? then None else Group(rebuild, c.value.rest, c.value.next, c.value.pending);
    OpensATurn(OpeningText(ms[i]), c, rest, Group(rebuild, ms[i..], i, pending), Contributions(rebuild, ms, j));
  }

  /** The turns, read in order, are exactly what the messages contribute, in order. */
  lemma GroupingConservesMessages(rebuild: Rebuild, ms: seq<ChatMessage>)
    ensures ItemsOf(TurnsIn(rebuild, ms)) == Contributions(rebuild, ms, 0)
  {
    assert ms[0..] == ms;
    GroupContributions(rebuild, ms, 0, map[]);
  }

  // ---- the same, told by role and content ----

  /** A message's contribution where no call has to be rebuilt for it. */
  lemma ContributionByRole(rebuild: Rebuild, ms: seq<ChatMessage>, i: nat)
    requires i < |ms|
    ensures var (m, c) := (ms[i], Contribution(rebuild, ms, i));
      match m.role
      case User => c == Some(if m.content == "" then [] else [OpenTurn(m.content)])
      case System => c == Some([OpenTurn("[system] " + m.content)])
      case Assistant =>
        m.toolCalls == [] && InTurn(ms, i) ==>
          c == Some(if m.content == "" then [] else [AddStep(AssistantText(m.content))])
      case Tool =>
        InTurn(ms, i) && Recall(ms, i, m.toolCallId).None? ==>
          c == Some([AddStep(AssistantText("[Tool Result]\n" + m.content))])
      case OtherRole(_) => c == Some([])
  {
    assert ("[system] " + ms[i].content)[0] == '[';
    if ms[i].role.Assistant? && ms[i].toolCalls == [] {
      assert TextStep(ms[i]) + [] == TextStep(ms[i]);
      assert ms[i].content == "" ==> StepItems(TextStep(ms[i])) == [];
      assert ms[i].content != "" ==> StepItems(TextStep(ms[i])) == [AddStep(AssistantText(ms[i].content))];
    }
  }

  /** A message that begins a turn: any system message, or a user message with text. */
  predicate Begins(m: ChatMessage) {
    m.role == System || (m.role == User && m.content != "")
  }

  /** Message k begins a turn, and no user or system message stands between it and i. */
  predicate LastBeganAt(ms: seq<ChatMessage>, k: nat, i: nat)
    requires i <= |ms|
  {
    k < i && Begins(ms[k]) && forall j :: k < j < i ==> ms[j].role != User && ms[j].role != System
  }

  /** A message falls inside a turn exactly when some message before it begins one and no user or system
      message stands between. */
  lemma {:induction false} InTurnExactly(ms: seq<ChatMessage>, i: nat)
    requires i <= |ms|
    ensures InTurn(ms, i) <==>
            exists k: nat :: LastBeganAt(ms, k, i)
  {
    if i > 0 {
      InTurnExactly(ms, i - 1);
      assert ("[system] " + ms[i - 1].content)[0] == '[';
      if InTurn(ms, i - 1) && !Opens(ms[i - 1]) {
        var k: nat :| LastBeganAt(ms, k, i - 1);
        assert LastBeganAt(ms, k, i);
      } else if BeginsTurn(ms[i - 1]) {
        assert LastBeganAt(ms, i - 1, i);
      } else if k: nat :| LastBeganAt(ms, k, i) {
        assert LastBeganAt(ms, k, i - 1);
      }
    }
  }

  /** The texts turns are to open with, message by message. */
  function Openings(ms: seq<ChatMessage>): seq<string> {
    if ms == [] then []
    else
      (match ms[0].role
       case System => ["[system] " + ms[0].content]
       case User => if ms[0].content == "" then [] else [ms[0].content]
       case _ => []) + Openings(ms[1..])
  }

  lemma {:induction false} CollectPassesNoOpening(rebuild: Rebuild, ms: seq<ChatMessage>, i: nat, pending: Pending)
    requires Collect(rebuild, ms, i, pending).Some?
    ensures Openings(Collect(rebuild, ms, i, pending).value.rest) == Openings(ms)
    decreases |ms|
  {
    if ms != [] && !Opens(ms[0]) {
      CollectPassesNoOpening(rebuild, ms[1..], i + 1, PendingAfter(pending, ms[0]));
      assert [] + Openings(ms[1..]) == Openings(ms[1..]);
    }
  }

  predicate Opened(turns: seq<Turn>, texts: seq<string>) {
    |turns| == |texts| && forall t :: 0 <= t < |turns| ==> turns[t].userText == texts[t]
  }

  lemma OpenedFirst(first: Turn, turns: seq<Turn>, texts: seq<string>)
    requires Opened(turns, texts)
    ensures Opened([first] + turns, [first.userText] + texts)
  {
  }

  lemma {:induction false} GroupOpensInOrder(rebuild: Rebuild, ms: seq<ChatMessage>, i: nat, pending: Pending)
    requires Group(rebuild, ms, i, pending).Some?
    ensures Opened(Group(rebuild, ms, i, pending).value, Openings(ms))
    decreases |ms|
  {
    if ms != [] {
      assert ("[system] " + ms[0].content)[0] == '[';
      if !BeginsTurn(ms[0]) {
        GroupOpensInOrder(rebuild, ms[1..], i + 1, pending);
        assert [] + Openings(ms[1..]) == Openings(ms[1..]);
      } else {
        GroupUnfolds(rebuild, ms, i, pending);
        var c := Collect(rebuild, ms[1..], i + 1, pending).value;
        CollectPassesNoOpening(rebuild, ms[1..], i + 1, pending);
        GroupOpensInOrder(rebuild, c.rest, c.next, c.pending);
        OpenedFirst(Turn(OpeningText(ms[0]), c.steps), Group(rebuild, c.rest, c.next, c.pending).value,
                    Openings(c.rest));
      }
    }
  }

  /** Where turns begin, from message k on. */
  function Beginning(ms: seq<ChatMessage>, k: nat): set<int> {
    set i | k <= i < |ms| && Begins(ms[i])
  }

  /** The turns open, in order, with the text of each system message, marked as such, and of each user
      message that has one; there are as many as there are such messages. */
  lemma TurnsOpenInOrder(rebuild: Rebuild, ms: seq<ChatMessage>)
    requires TurnsIn(rebuild, ms).Some?
    ensures var turns := TurnsIn(rebuild, ms).value;
      Opened(turns, Openings(ms)) && |turns| == |Beginning(ms, 0)|
  {
    GroupOpensInOrder(rebuild, ms, 0, map[]);
    OpeningsCount(ms, 0);
    assert ms[0..] == ms;
  }

  lemma {:induction false} OpeningsCount(ms: seq<ChatMessage>, k: nat)
    requires k <= |ms|
    ensures |Openings(ms[k..])| == |Beginning(ms, k)|
    decreases |ms| - k
  {
    if k == |ms| {
      assert Beginning(ms, k) == {};
    } else {
      OpeningsCount(ms, k + 1);
      assert ms[k..][0] == ms[k] && ms[k..][1..] == ms[k + 1..];
      assert Beginning(ms, k) == if Begins(ms[k]) then {k} + Beginning(ms, k + 1) else Beginning(ms, k + 1);
    }
  }

  // ---- the contributions determine the turns ----

  function LeadingSteps(items: seq<Item>): nat {
    if items == [] || items[0].OpenTurn? then 0 else 1 + LeadingSteps(items[1..])
  }

  lemma {:induction false} LeadingStepsOf(s: seq<Step>, u: seq<Item>)
    requires u != [] ==> u[0].OpenTurn?
    ensures LeadingSteps(StepItems(s) + u) == |s|
  {
    if s == [] {
      assert StepItems(s) + u == u;
    } else {
      assert (StepItems(s) + u)[1..] == StepItems(s[1..]) + u;
      LeadingStepsOf(s[1..], u);
    }
  }

  lemma StepItemsInjective(s: seq<Step>, t: seq<Step>, u: seq<Item>, v: seq<Item>)
    requires StepItems(s) + u == StepItems(t) + v
    requires (u != [] ==> u[0].OpenTurn?) && (v != [] ==> v[0].OpenTurn?)
    ensures s == t && u == v
  {
    LeadingStepsOf(s, u);
    LeadingStepsOf(t, v);
    var a, b := StepItems(s) + u, StepItems(t) + v;
    assert forall i :: 0 <= i < |s| ==> a[i] == AddStep(s[i]) && b[i] == AddStep(t[i]);
    assert u == a[|s|..] && v == b[|t|..];
  }

  /** No two groupings read the same: each step stands in exactly one turn. */
  lemma {:induction false} TurnItemsInjective(a: seq<Turn>, b: seq<Turn>)
    requires TurnItems(a) == TurnItems(b)
    ensures a == b
  {
    if a != [] && b != [] {
      var x, y := TurnItems(a), TurnItems(b);
      var u, v := TurnItems(a[1..]), TurnItems(b[1..]);
      assert x[0] == OpenTurn(a[0].userText) && y[0] == OpenTurn(b[0].userText);
      assert x[1..] == StepItems(a[0].steps) + u && y[1..] == StepItems(b[0].steps) + v;
      StepItemsInjective(a[0].steps, b[0].steps, u, v);
      TurnItemsInjective(a[1..], b[1..]);
    }
  }

  function TurnCount(items: seq<Item>): nat {
    if items == [] then 0 else (if items[0].OpenTurn? then 1 else 0) + TurnCount(items[1..])
  }

  lemma {:induction false} TurnCountAppend(a: seq<Item>, b: seq<Item>)
    ensures TurnCount(a + b) == TurnCount(a) + TurnCount(b)
  {
    if a == [] {
      assert a + b == b;
    } else {
      assert (a + b)[1..] == a[1..] + b;
      TurnCountAppend(a[1..], b);
    }
  }

  lemma {:induction false} StepsOpenNothing(steps: seq<Step>)
    ensures TurnCount(StepItems(steps)) == 0
  {
    if steps != [] {
      assert StepItems(steps)[1..] == StepItems(steps[1..]);
      StepsOpenNothing(steps[1..]);
    }
  }

  lemma {:induction false} TurnsAreCounted(turns: seq<Turn>)
    ensures TurnCount(TurnItems(turns)) == |turns|
  {
    if turns != [] {
      TurnsAreCounted(turns[1..]);
      StepsOpenNothing(turns[0].steps);
      TurnCountAppend([OpenTurn(turns[0].userText)] + StepItems(turns[0].steps), TurnItems(turns[1..]));
      TurnCountAppend([OpenTurn(turns[0].userText)], StepItems(turns[0].steps));
      assert TurnCount([OpenTurn(turns[0].userText)]) == 1 + TurnCount([OpenTurn(turns[0].userText)][1..]);
    }
  }

  function Openers(ms: seq<ChatMessage>): nat {
    if ms == [] then 0 else (if BeginsTurn(ms[0]) then 1 else 0) + Openers(ms[1..])
  }

  lemma {:induction false} OpenersAreCounted(rebuild: Rebuild, ms: seq<ChatMessage>, i: nat)
    requires i <= |ms| && Contributions(rebuild, ms, i).Some?
    ensures TurnCount(Contributions(rebuild, ms, i).value) == Openers(ms[i..])
    decreases |ms| - i
  {
    if i < |ms| {
      assert ms[i..][0] == ms[i] && ms[i..][1..] == ms[i + 1..];
      var c := Contribution(rebuild, ms, i).value;
      OpenersAreCounted(rebuild, ms, i + 1);
      TurnCountAppend(c, Contributions(rebuild, ms, i + 1).value);
      if Opens(ms[i]) {
        assert c != [] ==> c[1..] == [];
      } else {
        OnlyOpenersOpen(rebuild, ms, i);
      }
    }
  }

  lemma OnlyOpenersOpen(rebuild: Rebuild, ms: seq<ChatMessage>, i: nat)
    requires i < |ms| && !Opens(ms[i]) && Contribution(rebuild, ms, i).Some?
    ensures TurnCount(Contribution(rebuild, ms, i).value) == 0
  {
    var m, c := ms[i], Contribution(rebuild, ms, i).value;
    if InTurn(ms, i) && m.role.Assistant? {
      StepsOpenNothing(TextStep(m) + CallSteps(rebuild, m.toolCalls, i, 0).value);
    } else {
      assert |c| <= 1;
      assert c != [] ==> c[1..] == [];
    }
  }

  /** One turn per message that begins one. */
  lemma OneTurnPerOpener(rebuild: Rebuild, ms: seq<ChatMessage>)
    requires TurnsIn(rebuild, ms).Some?
    ensures |TurnsIn(rebuild, ms).value| == Openers(ms)
  {
    GroupingConservesMessages(rebuild, ms);
    OpenersAreCounted(rebuild, ms, 0);
    TurnsAreCounted(TurnsIn(rebuild, ms).value);
    assert ms[0..] == ms;
  }

  // ---- appending to a history ----

  /** The second grouping repeats the first, except that its last turn may have grown. */
  predicate Grows(a: seq<Turn>, b: seq<Turn>) {
    && |a| <= |b|
    && (a != [] ==> a[..|a| - 1] == b[..|a| - 1])
    && (a != [] ==> a[|a| - 1].userText == b[|a| - 1].userText && a[|a| - 1].steps <= b[|a| - 1].steps)
  }

  lemma {:induction false} CollectExtends(rebuild: Rebuild, u: seq<ChatMessage>, v: seq<ChatMessage>, i: nat,
        pending: Pending)
    requires Collect(rebuild, u + v, i, pending).Some?
    ensures Collect(rebuild, u, i, pending).Some?
    ensures var c, d := Collect(rebuild, u, i, pending).value, Collect(rebuild, u + v, i, pending).value;
            if c.rest != [] then d == c.(rest := c.rest + v) else c.steps <= d.steps
    decreases |u|
  {
    if u != [] && !Opens(u[0]) {
      assert (u + v)[0] == u[0] && (u + v)[1..] == u[1..] + v;
      CollectExtends(rebuild, u[1..], v, i + 1, PendingAfter(pending, u[0]));
    }
  }

  lemma {:induction false} GroupExtends(rebuild: Rebuild, u: seq<ChatMessage>, v: seq<ChatMessage>, i: nat,
        pending: Pending)
    requires Group(rebuild, u + v, i, pending).Some?
    ensures Group(rebuild, u, i, pending).Some?
    ensures Grows(Group(rebuild, u, i, pending).value, Group(rebuild, u + v, i, pending).value)
    decreases |u|
  {
    if u != [] {
      assert (u + v)[0] == u[0] && (u + v)[1..] == u[1..] + v;
      if !BeginsTurn(u[0]) {
        GroupExtends(rebuild, u[1..], v, i + 1, pending);
      } else {
        CollectExtends(rebuild, u[1..], v, i + 1, pending);
        var c := Collect(rebuild, u[1..], i + 1, pending).value;
        if c.rest != [] {
          GroupExtends(rebuild, c.rest, v, c.next, c.pending);
          GrowsCons(Turn(OpeningText(u[0]), c.steps), Group(rebuild, c.rest, c.next, c.pending).value,
                    Group(rebuild, c.rest + v, c.next, c.pending).value);
        } else {
          assert Group(rebuild, u, i, pending).value == [Turn(OpeningText(u[0]), c.steps)];
        }
      }
    }
  }

  lemma GrowsCons(t: Turn, a: seq<Turn>, b: seq<Turn>)
    requires Grows(a, b)
    ensures Grows([t] + a, [t] + b)
  {
    if a != [] {
      var n := |a|;
      assert ([t] + a)[..n] == [t] + a[..n - 1];
      assert ([t] + b)[..n] == [t] + b[..n - 1];
    }
  }

  /** What comes before an opener is collected as if nothing followed. */
  lemma {:induction false} CollectSplits(rebuild: Rebuild, u: seq<ChatMessage>, v: seq<ChatMessage>, i: nat,
        pending: Pending)
    requires v == [] || Opens(v[0])
    ensures var c, d := Collect(rebuild, u, i, pending), Collect(rebuild, u + v, i, pending);
            if c.None? then d == None else d == Some(c.value.(rest := c.value.rest + v))
    decreases |u|
  {
    if u == [] {
      assert u + v == v && [] + v == v;
    } else if !Opens(u[0]) {
      assert (u + v)[0] == u[0] && (u + v)[1..] == u[1..] + v;
      CollectSplits(rebuild, u[1..], v, i + 1, PendingAfter(pending, u[0]));
    }
  }

  lemma TurnSplits(rebuild: Rebuild, u: seq<ChatMessage>, v: seq<ChatMessage>, i: nat, pending: Pending)
    returns (c: Collected)
    requires (v == [] || Opens(v[0])) && Group(rebuild, u + v, i, pending).Some?
    requires u != [] && BeginsTurn(u[0]) && (u + v)[0] == u[0] && (u + v)[1..] == u[1..] + v
    ensures Collect(rebuild, u[1..], i + 1, pending) == Some(c) && |c.rest| < |u|
    ensures Collect(rebuild, u[1..] + v, i + 1, pending) == Some(c.(rest := c.rest + v))
    ensures Group(rebuild, c.rest + v, c.next, c.pending).Some?
  {
    CollectSplits(rebuild, u[1..], v, i + 1, pending);
    GroupUnfolds(rebuild, u + v, i, pending);
    c := Collect(rebuild, u[1..], i + 1, pending).value;
  }

  /** The turns before an opener are complete: what follows adds turns and changes none. */
  lemma {:induction false} GroupSplits(rebuild: Rebuild, u: seq<ChatMessage>, v: seq<ChatMessage>, i: nat,
        pending: Pending)
    requires (v == [] || Opens(v[0])) && Group(rebuild, u + v, i, pending).Some?
    ensures Group(rebuild, u, i, pending).Some?
    ensures Group(rebuild, u, i, pending).value <= Group(rebuild, u + v, i, pending).value
    decreases |u|
  {
    if u != [] {
      assert (u + v)[0] == u[0] && (u + v)[1..] == u[1..] + v;
      if !BeginsTurn(u[0]) {
        GroupSplits(rebuild, u[1..], v, i + 1, pending);
      } else {
        var c := TurnSplits(rebuild, u, v, i, pending);
        GroupSplits(rebuild, c.rest, v, c.next, c.pending);
        PrefixWithTurn(rebuild, u, v, i, pending);
      }
    }
  }

  lemma PrefixWithTurn(rebuild: Rebuild, u: seq<ChatMessage>, v: seq<ChatMessage>, i: nat, pending: Pending)
    requires u != [] && BeginsTurn(u[0]) && (u + v)[0] == u[0] && (u + v)[1..] == u[1..] + v
    requires var c, d := Collect(rebuild, u[1..], i + 1, pending), Collect(rebuild, u[1..] + v, i + 1, pending);
             && c.Some? && d == Some(c.value.(rest := c.value.rest + v))
             && Group(rebuild, c.value.rest, c.value.next, c.value.pending).Some?
             && Group(rebuild, c.value.rest + v, c.value.next, c.value.pending).Some?
             && Group(rebuild, c.value.rest, c.value.next, c.value.pending).value <=
                Group(rebuild, c.value.rest + v, c.value.next, c.value.pending).value
    ensures Group(rebuild, u, i, pending).Some? && Group(rebuild, u + v, i, pending).Some?
    ensures Group(rebuild, u, i, pending).value <= Group(rebuild, u + v, i, pending).value
  {
    GroupUnfolds(rebuild, u, i, pending);
    GroupUnfolds(rebuild, u + v, i, pending);
  }

  /** Where the last turn begins; the end if there is none. */
  function LastOpening(ms: seq<ChatMessage>): (k: nat)
    ensures k <= |ms| && (k < |ms| ==> BeginsTurn(ms[k]))
  {
    if ms == [] then 0
    else
      var n := |ms| - 1;
      if BeginsTurn(ms[n]) then n
      else
        var k := LastOpening(ms[..n]);
        if k == n then |ms| else k
  }

  function BeforeLastTurn(ms: seq<ChatMessage>): seq<ChatMessage> {
    ms[..LastOpening(ms)]
  }

  lemma {:induction false} OpenersSnoc(ms: seq<ChatMessage>, m: ChatMessage)
    ensures Openers(ms + [m]) == Openers(ms) + if BeginsTurn(m) then 1 else 0
  {
    if ms == [] {
      assert ms + [m] == [m] && [m][1..] == [];
    } else {
      assert (ms + [m])[1..] == ms[1..] + [m];
      OpenersSnoc(ms[1..], m);
    }
  }

  lemma {:induction false} OneTurnIsLast(ms: seq<ChatMessage>)
    ensures Openers(ms) == Openers(BeforeLastTurn(ms)) + if LastOpening(ms) < |ms| then 1 else 0
    ensures LastOpening(ms) == |ms| ==> Openers(ms) == 0
  {
    if ms != [] {
      var front, m := ms[..|ms| - 1], ms[|ms| - 1];
      assert ms == front + [m];
      OpenersSnoc(front, m);
      assert ms[..|front|] == front && ms[..|ms|] == ms;
      if !BeginsTurn(m) {
        OneTurnIsLast(front);
        assert front[..LastOpening(front)] == ms[..LastOpening(front)];
      }
    }
  }

  /** All turns but the last are those of the messages before it. */
  lemma AllButTheLastTurn(rebuild: Rebuild, ms: seq<ChatMessage>)
    requires TurnsIn(rebuild, ms).Some?
    ensures TurnsIn(rebuild, BeforeLastTurn(ms)).Some?
    ensures var turns := TurnsIn(rebuild, ms).value;
            turns != [] ==> LastOpening(ms) < |ms| && turns[..|turns| - 1] == TurnsIn(rebuild, BeforeLastTurn(ms)).value
  {
    var a, b := BeforeLastTurn(ms), ms[LastOpening(ms)..];
    assert a + b == ms;
    GroupSplits(rebuild, a, b, 0, map[]);
    OneTurnPerOpener(rebuild, ms);
    OneTurnPerOpener(rebuild, a);
    OneTurnIsLast(ms);
  }

  // ---- the split into history and action ----

  /** The new user text, if that is what comes last; anything else resumes the turn. */
  function NewText(ms: seq<ChatMessage>): Option<string> {
    if ms != [] && ms[|ms| - 1].role.User? && ms[|ms| - 1].content != "" then Some(ms[|ms| - 1].content) else None
  }

  /** The messages before the action: all but a final non-empty user message. */
  function HistoryOf(ms: seq<ChatMessage>): seq<ChatMessage> {
    if NewText(ms).Some? then ms[..|ms| - 1] else ms
  }

  /** Every message reaches the model: in the history, or as the text of the action.  A tool result
      that comes last is always part of the history. */
  lemma NoMessageIsLost(ms: seq<ChatMessage>)
    ensures match NewText(ms)
            case Some(text) =>
              exists m: ChatMessage :: m.role.User? && m.content == text != "" && ms == HistoryOf(ms) + [m]
            case None => HistoryOf(ms) == ms
    ensures ms != [] && ms[|ms| - 1].role.Tool? ==> HistoryOf(ms) == ms
  {
    if NewText(ms).Some? {
      assert ms == HistoryOf(ms) + [ms[|ms| - 1]];
    }
  }

  lemma HistoryExtends(ms: seq<ChatMessage>, more: seq<ChatMessage>) returns (v: seq<ChatMessage>)
    ensures HistoryOf(ms + more) == HistoryOf(ms) + v
  {
    var h, g := HistoryOf(ms), HistoryOf(ms + more);
    v := g[|h|..];
    if more != [] {
      assert (ms + more)[|ms + more| - 1] == more[|more| - 1];
      assert (ms + more)[..|ms + more| - 1] == ms + more[..|more| - 1];
    } else {
      assert ms + more == ms;
    }
    assert g == h + v;
  }
}
