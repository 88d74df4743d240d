// Turn ids from one request to the next.  A tool call is rebuilt through a lookup
// whose result may depend on a map order met anew each time, so a history's turns
// stay what they were exactly when no call in them can be routed two ways.
module Stability {
  import opened Basics
  import M = McpArguments
  import opened History
  import opened ToolRouting
  import opened ToolCalls
  import opened BlobGraphs
  import opened Requests

  // ---- what can be routed one way only ----

  /** The name is a variant's own, or at most one native tool claims it. */
  ghost predicate Steady(s: Schema, name: string) {
    || name in s.Fields()
    || forall a, b :: Eligible(s.table, s.Fields(), a, name) && Eligible(s.table, s.Fields(), b, name) ==> a == b
  }

  /** A call that becomes a step of some turn. */
  predicate CalledIn(ms: seq<ChatMessage>, i: nat, tc: ChatToolCall) {
    i < |ms| && ms[i].role.Assistant? && InTurn(ms, i) && tc in ms[i].toolCalls
  }

  ghost predicate AllSteady(s: Schema, ms: seq<ChatMessage>) {
    forall i: nat, tc :: CalledIn(ms, i, tc) ==> Steady(s, tc.name)
  }

  /** Every variant is a message, and none declares its args as a list. */
  ghost predicate WellFormed(s: Schema) {
    && (forall f :: f in s.Fields() ==> s.IsMessage(f))
    && (forall f :: f in s.Fields() && s.Declared(f, "args").Some? ==> !s.Declared(f, "args").value.list)
  }

  lemma SteadyRoutesOneWay(s: Schema, o: Chance, p: Chance, name: string, argsJSON: string, resultText: string)
    requires IsOrder(o.order, s.table) && IsOrder(p.order, s.table) && Steady(s, name) && M.EncodesOneWay(s.json)
    ensures BuildToolCall(s, o, name, argsJSON, resultText) == BuildToolCall(s, p, name, argsJSON, resultText)
  {
    if name !in s.Fields() {
      LookupIsAFunctionExactly(s.table, s.Fields(), name);
      assert ResolveInOrder(s.table, s.Fields(), o.order, name) == ResolveInOrder(s.table, s.Fields(), p.order, name);
      ArgumentsEncodeOneWay(s.json, argsJSON, o.calls, p.calls);
    }
  }

  lemma ArgumentsEncodeOneWay(j: M.Json, argsJSON: string, m: M.Numbering, n: M.Numbering)
    requires M.EncodesOneWay(j)
    ensures M.SplitArgs(j, argsJSON, m) == M.SplitArgs(j, argsJSON, n)
  {
    if !M.Blank(argsJSON) && j.parseObject(argsJSON).Some? {
      var obj := j.parseObject(argsJSON).value;
      assert forall k :: k in obj ==> j.encodeValue(obj[k], m(k)) == j.encodeValue(obj[k], n(k));
      if M.EncodedArgs(j, obj, m).Some? {
        assert M.EncodedArgs(j, obj, m).value == M.EncodedArgs(j, obj, n).value;
      }
    }
  }

  lemma {:induction false} CallsRouteOneWay(s: Schema, o: Routing, p: Routing, calls: seq<ChatToolCall>,
        i: nat, j: nat)
    requires IsRouting(s, o) && IsRouting(s, p) && M.EncodesOneWay(s.json)
    requires forall tc :: tc in calls ==> Steady(s, tc.name)
    ensures CallSteps(Routed(s, o), calls, i, j) == CallSteps(Routed(s, p), calls, i, j)
    decreases |calls|
  {
    if calls != [] {
      SteadyRoutesOneWay(s, o(Site(i, j)), p(Site(i, j)), calls[0].name, calls[0].arguments, "");
      CallsRouteOneWay(s, o, p, calls[1..], i, j + 1);
    }
  }

  lemma {:induction false} LastWithIdIsThere(calls: seq<ChatToolCall>, id: string)
    ensures LastWithId(calls, id).Some? ==> LastWithId(calls, id).value in calls
  {
    if calls != [] && calls[|calls| - 1].id != id {
      LastWithIdIsThere(calls[..|calls| - 1], id);
    }
  }

  /** A result answers a call made inside some turn. */
  lemma {:induction false} RecallIsCalled(ms: seq<ChatMessage>, i: nat, id: string)
    requires i <= |ms| && Recall(ms, i, id).Some?
    ensures exists k: nat :: CalledIn(ms, k, Recall(ms, i, id).value)
  {
    var m := ms[i - 1];
    if InTurn(ms, i - 1) && m.role.Assistant? && LastWithId(m.toolCalls, id).Some? {
      LastWithIdIsThere(m.toolCalls, id);
      assert CalledIn(ms, i - 1, Recall(ms, i, id).value);
    } else {
      RecallIsCalled(ms, i - 1, id);
    }
  }

  lemma MessageRoutesOneWay(s: Schema, o: Routing, p: Routing, ms: seq<ChatMessage>, i: nat)
    requires IsRouting(s, o) && IsRouting(s, p) && M.EncodesOneWay(s.json) && AllSteady(s, ms) && i < |ms|
    ensures Contribution(Routed(s, o), ms, i) == Contribution(Routed(s, p), ms, i)
  {
    var m := ms[i];
    if !Opens(m) && InTurn(ms, i) {
      if m.role.Assistant? {
        assert forall tc :: tc in m.toolCalls ==> CalledIn(ms, i, tc);
        CallsRouteOneWay(s, o, p, m.toolCalls, i, 0);
      } else if m.role.Tool? && Recall(ms, i, m.toolCallId).Some? {
        RecallIsCalled(ms, i, m.toolCallId);
        var original := Recall(ms, i, m.toolCallId).value;
        SteadyRoutesOneWay(s, o(Site(i, 0)), p(Site(i, 0)), original.name, original.arguments, m.content);
      }
    }
  }

  lemma {:induction false} MessagesRouteOneWay(s: Schema, o: Routing, p: Routing, ms: seq<ChatMessage>, i: nat)
    requires IsRouting(s, o) && IsRouting(s, p) && M.EncodesOneWay(s.json) && AllSteady(s, ms) && i <= |ms|
    ensures Contributions(Routed(s, o), ms, i) == Contributions(Routed(s, p), ms, i)
    decreases |ms| - i
  {
    if i < |ms| {
      MessageRoutesOneWay(s, o, p, ms, i);
      MessagesRouteOneWay(s, o, p, ms, i + 1);
    }
  }

  /** The same items come of the same turns. */
  lemma SameContributionsSameTurns(r: Rebuild, q: Rebuild, ms: seq<ChatMessage>)
    ensures TurnsIn(r, ms) == TurnsIn(q, ms) <==> Contributions(r, ms, 0) == Contributions(q, ms, 0)
  {
    GroupingConservesMessages(r, ms);
    GroupingConservesMessages(q, ms);
    if Contributions(r, ms, 0) == Contributions(q, ms, 0) && TurnsIn(r, ms).Some? {
      TurnItemsInjective(TurnsIn(r, ms).value, TurnsIn(q, ms).value);
    }
  }

  lemma SteadyTurnsStay(s: Schema, o: Routing, p: Routing, ms: seq<ChatMessage>)
    requires IsRouting(s, o) && IsRouting(s, p) && M.EncodesOneWay(s.json) && AllSteady(s, ms)
    ensures TurnsIn(Routed(s, o), ms) == TurnsIn(Routed(s, p), ms)
  {
    MessagesRouteOneWay(s, o, p, ms, 0);
    SameContributionsSameTurns(Routed(s, o), Routed(s, p), ms);
  }

  // ---- what can be routed two ways ----

  /** A call whose name two native tools claim comes out differently under some order. */
  lemma UnsteadyRoutesTwoWays(s: Schema, o: Chance, name: string, argsJSON: string) returns (p: Chance)
    requires WellFormed(s) && IsOrder(o.order, s.table) && !Steady(s, name)
    ensures IsOrder(p.order, s.table) && BuildToolCall(s, p, name, argsJSON, "").Some?
    ensures BuildToolCall(s, o, name, argsJSON, "") != BuildToolCall(s, p, name, argsJSON, "")
  {
    var a, b :| Eligible(s.table, s.Fields(), a, name) && Eligible(s.table, s.Fields(), b, name) && a != b;
    var first := ResolveInOrder(s.table, s.Fields(), o.order, name);
    if a + TOOL_CALL == b + TOOL_CALL {
      FieldNamesDiffer(a, b);
    }
    ResultIsEligible(s.table, s.Fields(), name, o.order);
    var other := if first == Some(a + TOOL_CALL) then b else a;
    var order := EligibleCanComeFirst(s.table, s.Fields(), name, other);
    p := Chance(order, o.calls);
    NativeCallsDiffer(s, first.value, other + TOOL_CALL, argsJSON);
  }

  /** Under a client's name every variant can be rebuilt, and two of them never alike. */
  lemma NativeCallsDiffer(s: Schema, f: string, g: string, argsJSON: string)
    requires WellFormed(s) && f in s.Fields() && g in s.Fields() && f != g
    ensures Native(s, f, argsJSON, true, "").Some?
        && Native(s, f, argsJSON, true, "") != Native(s, g, argsJSON, true, "")
  {
    assert s.IsMessage(f) && s.IsMessage(g);
  }

  /** The same routing, but for one call. */
  ghost function Rerouted(o: Routing, site: Site, met: Chance): Routing {
    (at: Site) => if at == site then met else o(at)
  }

  lemma {:induction false} OneCallDiffers(s: Schema, o: Routing, calls: seq<ChatToolCall>, i: nat, j: nat, n: nat,
        met: Chance)
    requires n < |calls| && CallSteps(Routed(s, o), calls, i, j).Some?
    requires BuildToolCall(s, o(Site(i, j + n)), calls[n].name, calls[n].arguments, "") !=
             BuildToolCall(s, met, calls[n].name, calls[n].arguments, "")
    requires BuildToolCall(s, met, calls[n].name, calls[n].arguments, "").Some?
    ensures var x, y := CallSteps(Routed(s, o), calls, i, j),
                        CallSteps(Routed(s, Rerouted(o, Site(i, j + n), met)), calls, i, j);
            y.Some? && x != y && |x.value| == |y.value|
    decreases |calls|
  {
    var p := Rerouted(o, Site(i, j + n), met);
    CallStepsCount(Routed(s, o), calls, i, j);
    CallStepsCount(Routed(s, p), calls, i, j);
    var x, y := CallSteps(Routed(s, o), calls, i, j), CallSteps(Routed(s, p), calls, i, j);
    if n > 0 {
      OneCallDiffers(s, o, calls[1..], i, j + 1, n - 1, met);
      assert Site(i, j + 1 + (n - 1)) == Site(i, j + n);
      assert x.value[1..] == CallSteps(Routed(s, o), calls[1..], i, j + 1).value;
      assert y.value[1..] == CallSteps(Routed(s, p), calls[1..], i, j + 1).value;
    } else {
      LaterCallsAgree(s, o, Site(i, j), met, calls[1..], i, j + 1);
      assert x.value[0] != y.value[0];
    }
  }

  lemma {:induction false} LaterCallsAgree(s: Schema, o: Routing, site: Site, met: Chance,
        calls: seq<ChatToolCall>, i: nat, j: nat)
    requires j > site.call
    ensures CallSteps(Routed(s, Rerouted(o, site, met)), calls, i, j) == CallSteps(Routed(s, o), calls, i, j)
    decreases |calls|
  {
    if calls != [] {
      LaterCallsAgree(s, o, site, met, calls[1..], i, j + 1);
    }
  }

  lemma {:induction false} CallStepsCount(r: Rebuild, calls: seq<ChatToolCall>, i: nat, j: nat)
    ensures CallSteps(r, calls, i, j).Some? ==> |CallSteps(r, calls, i, j).value| == |calls|
    decreases |calls|
  {
    if calls != [] {
      CallStepsCount(r, calls[1..], i, j + 1);
    }
  }

  lemma MessageDiffers(s: Schema, o: Routing, ms: seq<ChatMessage>, i: nat, n: nat, met: Chance)
    requires i < |ms| && ms[i].role.Assistant? && InTurn(ms, i) && n < |ms[i].toolCalls|
    requires Contribution(Routed(s, o), ms, i).Some?
    requires var tc := ms[i].toolCalls[n];
             && BuildToolCall(s, o(Site(i, n)), tc.name, tc.arguments, "") !=
                  BuildToolCall(s, met, tc.name, tc.arguments, "")
             && BuildToolCall(s, met, tc.name, tc.arguments, "").Some?
    ensures var x, y := Contribution(Routed(s, o), ms, i),
                        Contribution(Routed(s, Rerouted(o, Site(i, n), met)), ms, i);
            y.Some? && x != y && |x.value| == |y.value|
  {
    var p := Rerouted(o, Site(i, n), met);
    OneCallDiffers(s, o, ms[i].toolCalls, i, 0, n, met);
    var x, y := CallSteps(Routed(s, o), ms[i].toolCalls, i, 0), CallSteps(Routed(s, p), ms[i].toolCalls, i, 0);
    assert Site(i, 0 + n) == Site(i, n);
    SameItemsSameSteps(TextStep(ms[i]), x.value, y.value);
  }

  lemma SameItemsSameSteps(t: seq<Step>, a: seq<Step>, b: seq<Step>)
    ensures StepItems(t + a) == StepItems(t + b) ==> a == b
  {
    assert forall s :: StepItems(s) + [] == StepItems(s);
    if StepItems(t + a) == StepItems(t + b) {
      StepItemsInjective(t + a, t + b, [], []);
      assert (t + a)[|t|..] == a && (t + b)[|t|..] == b;
    }
  }

  lemma {:induction false} OtherCallsAgree(s: Schema, o: Routing, site: Site, met: Chance,
        calls: seq<ChatToolCall>, i: nat, j: nat)
    requires i != site.message
    ensures CallSteps(Routed(s, Rerouted(o, site, met)), calls, i, j) == CallSteps(Routed(s, o), calls, i, j)
    decreases |calls|
  {
    if calls != [] {
      OtherCallsAgree(s, o, site, met, calls[1..], i, j + 1);
    }
  }

  lemma OtherMessagesAgree(s: Schema, o: Routing, site: Site, met: Chance, ms: seq<ChatMessage>, i: nat)
    requires i < |ms| && i != site.message
    ensures Contribution(Routed(s, Rerouted(o, site, met)), ms, i) == Contribution(Routed(s, o), ms, i)
  {
    OtherCallsAgree(s, o, site, met, ms[i].toolCalls, i, 0);
  }

  lemma {:induction false} LaterMessagesAgree(s: Schema, o: Routing, site: Site, met: Chance,
        ms: seq<ChatMessage>, k: nat)
    requires site.message < k <= |ms|
    ensures Contributions(Routed(s, Rerouted(o, site, met)), ms, k) == Contributions(Routed(s, o), ms, k)
    decreases |ms| - k
  {
    if k < |ms| {
      OtherMessagesAgree(s, o, site, met, ms, k);
      LaterMessagesAgree(s, o, site, met, ms, k + 1);
    }
  }

  lemma {:induction false} ContributionsDiffer(s: Schema, o: Routing, site: Site, met: Chance,
        ms: seq<ChatMessage>, k: nat)
    requires k <= site.message < |ms| && Contributions(Routed(s, o), ms, k).Some?
    requires var x, y := Contribution(Routed(s, o), ms, site.message),
                         Contribution(Routed(s, Rerouted(o, site, met)), ms, site.message);
             y.Some? && x != y && (x.Some? ==> |x.value| == |y.value|)
    ensures Contributions(Routed(s, Rerouted(o, site, met)), ms, k).Some?
    ensures Contributions(Routed(s, o), ms, k) != Contributions(Routed(s, Rerouted(o, site, met)), ms, k)
    decreases site.message - k
  {
    var r, q := Routed(s, o), Routed(s, Rerouted(o, site, met));
    var x, y := Contribution(r, ms, k), Contribution(q, ms, k);
    if k < site.message {
      OtherMessagesAgree(s, o, site, met, ms, k);
      ContributionsDiffer(s, o, site, met, ms, k + 1);
      var u, v := Contributions(r, ms, k + 1).value, Contributions(q, ms, k + 1).value;
      assert (x.value + u)[|x.value|..] == u && (x.value + v)[|x.value|..] == v;
    } else {
      LaterMessagesAgree(s, o, site, met, ms, k + 1);
      var u, v := Contributions(r, ms, k + 1).value, Contributions(q, ms, k + 1).value;
      assert (x.value + u)[..|x.value|] == x.value && (y.value + v)[..|y.value|] == y.value;
    }
  }

  /** Rerouting one call that comes out differently gives other turns. */
  lemma ReroutedTurnsDiffer(s: Schema, o: Routing, ms: seq<ChatMessage>, i: nat, n: nat, met: Chance)
    requires TurnsIn(Routed(s, o), ms).Some?
    requires i < |ms| && ms[i].role.Assistant? && InTurn(ms, i) && n < |ms[i].toolCalls|
    requires var tc := ms[i].toolCalls[n];
             && BuildToolCall(s, o(Site(i, n)), tc.name, tc.arguments, "") !=
                  BuildToolCall(s, met, tc.name, tc.arguments, "")
             && BuildToolCall(s, met, tc.name, tc.arguments, "").Some?
    ensures var p := Rerouted(o, Site(i, n), met);
            TurnsIn(Routed(s, p), ms).Some? && TurnsIn(Routed(s, p), ms) != TurnsIn(Routed(s, o), ms)
  {
    var p := Rerouted(o, Site(i, n), met);
    GroupingConservesMessages(Routed(s, o), ms);
    GroupingConservesMessages(Routed(s, p), ms);
    ContributionsReach(Routed(s, o), ms, 0, i);
    MessageDiffers(s, o, ms, i, n, met);
    ContributionsDiffer(s, o, Site(i, n), met, ms, 0);
    SameContributionsSameTurns(Routed(s, o), Routed(s, p), ms);
  }

  lemma {:induction false} InTurnPrefix(ms: seq<ChatMessage>, n: nat, i: nat)
    requires i <= n <= |ms|
    ensures InTurn(ms[..n], i) == InTurn(ms, i)
  {
    if i > 0 {
      InTurnPrefix(ms, n, i - 1);
    }
  }

  /** Both the turns of the first n messages and those of all of them can be made to change. */
  lemma UnsteadyTurnsChange(s: Schema, o: Routing, ms: seq<ChatMessage>, n: nat) returns (p: Routing)
    requires n <= |ms| && WellFormed(s) && IsRouting(s, o) && !AllSteady(s, ms[..n])
    requires TurnsIn(Routed(s, o), ms).Some? && TurnsIn(Routed(s, o), ms[..n]).Some?
    ensures IsRouting(s, p) && TurnsIn(Routed(s, p), ms).Some? && TurnsIn(Routed(s, p), ms[..n]).Some?
    ensures TurnsIn(Routed(s, p), ms) != TurnsIn(Routed(s, o), ms)
    ensures TurnsIn(Routed(s, p), ms[..n]) != TurnsIn(Routed(s, o), ms[..n])
  {
    var i: nat, tc :| CalledIn(ms[..n], i, tc) && !Steady(s, tc.name);
    var j :| 0 <= j < |ms[i].toolCalls| && ms[i].toolCalls[j] == tc;
    var met := UnsteadyRoutesTwoWays(s, o(Site(i, j)), tc.name, tc.arguments);
    p := Rerouted(o, Site(i, j), met);
    InTurnPrefix(ms, n, i);
    ReroutedTurnsDiffer(s, o, ms, i, j, met);
    ReroutedTurnsDiffer(s, o, ms[..n], i, j, met);
  }

  lemma {:induction false} ContributionsReach(r: Rebuild, ms: seq<ChatMessage>, k: nat, i: nat)
    requires k <= i < |ms| && Contributions(r, ms, k).Some?
    ensures Contribution(r, ms, i).Some?
    decreases i - k
  {
    if k < i {
      ContributionsReach(r, ms, k + 1, i);
    }
  }

  /** With arguments encoded one way, the turns are the same under every map order exactly when no call in
      them can be routed two ways. */
  lemma TurnsStayExactly(s: Schema, o: Routing, ms: seq<ChatMessage>)
    requires WellFormed(s) && M.EncodesOneWay(s.json) && IsRouting(s, o) && TurnsIn(Routed(s, o), ms).Some?
    ensures (forall p: Routing :: IsRouting(s, p) ==> TurnsIn(Routed(s, p), ms) == TurnsIn(Routed(s, o), ms)) <==>
        AllSteady(s, ms)
  {
    if AllSteady(s, ms) {
      forall p: Routing | IsRouting(s, p) ensures TurnsIn(Routed(s, p), ms) == TurnsIn(Routed(s, o), ms) {
        SteadyTurnsStay(s, o, p, ms);
      }
    } else {
      assert ms[..|ms|] == ms;
      var p := UnsteadyTurnsChange(s, o, ms, |ms|);
    }
  }

  // ---- the ids ----

  function TurnIdsOf(c: Codec, r: Rebuild, ms: seq<ChatMessage>, k: nat): Option<seq<Bytes>> {
    match TurnsOf(c, r, ms, k)
    case None => None
    case Some(e) => Some(e.ids)
  }

  /** The blobs of the turns under two routings. */
  ghost function BothBlobs(c: Codec, s: Schema, o: Routing, p: Routing, ms: seq<ChatMessage>, k: nat,
        l: nat): seq<Bytes>
    requires TurnsOf(c, Routed(s, o), ms, k).Some? && TurnsOf(c, Routed(s, p), ms, l).Some?
  {
    TurnsOf(c, Routed(s, o), ms, k).value.blobs + TurnsOf(c, Routed(s, p), ms, l).value.blobs
  }

  /** With deterministic marshalling and no hash collision, a history's turn ids are the same under
      every map order exactly when no call in it can be routed two ways. */
  lemma TurnIdsStayExactly(c: Codec, s: Schema, o: Routing, ms: seq<ChatMessage>, k: nat)
    requires Lawful(c) && Deterministic(c) && M.EncodesOneWay(s.json)
    requires WellFormed(s) && IsRouting(s, o) && TurnsOf(c, Routed(s, o), ms, k).Some?
    requires forall p: Routing, l: nat :: IsRouting(s, p) && TurnsOf(c, Routed(s, p), ms, l).Some? ==>
               CollisionFree(c, BothBlobs(c, s, o, p, ms, k, l))
    ensures (forall p: Routing, l: nat :: IsRouting(s, p) ==>
               TurnIdsOf(c, Routed(s, p), ms, l) == TurnIdsOf(c, Routed(s, o), ms, k)) <==> AllSteady(s, ms)
  {
    if AllSteady(s, ms) {
      forall p: Routing, l: nat | IsRouting(s, p)
        ensures TurnIdsOf(c, Routed(s, p), ms, l) == TurnIdsOf(c, Routed(s, o), ms, k)
      {
        SteadyTurnsStay(s, o, p, ms);
        TurnIdsStable(c, TurnsIn(Routed(s, o), ms).value, k, l);
      }
    } else {
      assert ms[..|ms|] == ms;
      var p := UnsteadyTurnsChange(s, o, ms, |ms|);
      if TurnIdsOf(c, Routed(s, p), ms, k) == TurnIdsOf(c, Routed(s, o), ms, k) {
        assert CollisionFree(c, BothBlobs(c, s, o, p, ms, k, k));
        SameIdsSameTurns(c, TurnsIn(Routed(s, o), ms).value, TurnsIn(Routed(s, p), ms).value, k, k);
        assert false;
      }
    }
  }

  // ---- from one request to the next ----

  /** However a history goes on, its turns but the last are, under each routing, those of the
      messages before its last turn. */
  lemma LaterTurnsFollow(r: Rebuild, h: seq<ChatMessage>, v: seq<ChatMessage>)
    requires TurnsIn(r, h + v).Some?
    ensures TurnsIn(r, BeforeLastTurn(h)).Some?
    ensures TurnsIn(r, BeforeLastTurn(h)).value <= TurnsIn(r, h + v).value
  {
    var a, b := BeforeLastTurn(h), h[LastOpening(h)..];
    assert h + v == a + (b + v);
    if b == [] {
      GroupExtends(r, h, v, 0, map[]);
      assert a == h;
      OneTurnIsLast(h);
      OneTurnPerOpener(r, h);
    } else {
      assert (b + v)[0] == h[LastOpening(h)];
      GroupSplits(r, a, b + v, 0, map[]);
    }
  }

  /** The settled ids are those of the turns before the last one. */
  lemma SettledIdsAreOfTurns(c: Codec, r: Rebuild, h: seq<ChatMessage>, k: nat)
    requires TurnsOf(c, r, h, k).Some?
    ensures TurnsOf(c, r, BeforeLastTurn(h), k).Some?
    ensures var ids := TurnsOf(c, r, h, k).value.ids;
            TurnsOf(c, r, BeforeLastTurn(h), k).value.ids == if ids == [] then [] else ids[..|ids| - 1]
    ensures TurnsOf(c, r, BeforeLastTurn(h), k).value.blobs <= TurnsOf(c, r, h, k).value.blobs
  {
    AllButTheLastTurn(r, h);
    var turns, front := TurnsIn(r, h).value, TurnsIn(r, BeforeLastTurn(h)).value;
    if turns == [] {
      OneTurnPerOpener(r, h);
      OneTurnPerOpener(r, BeforeLastTurn(h));
      OneTurnIsLast(h);
    } else {
      TurnIdsExtend(c, turns, |turns| - 1, k);
    }
  }

  lemma LaterIdsFollow(c: Codec, r: Rebuild, h: seq<ChatMessage>, v: seq<ChatMessage>, l: nat)
    requires TurnsOf(c, r, h + v, l).Some?
    ensures TurnsOf(c, r, BeforeLastTurn(h), l).Some?
    ensures TurnsOf(c, r, BeforeLastTurn(h), l).value.ids <= TurnsOf(c, r, h + v, l).value.ids
    ensures TurnsOf(c, r, BeforeLastTurn(h), l).value.blobs <= TurnsOf(c, r, h + v, l).value.blobs
  {
    LaterTurnsFollow(r, h, v);
    var turns, front := TurnsIn(r, h + v).value, TurnsIn(r, BeforeLastTurn(h)).value;
    TurnIdsExtend(c, turns, |front|, l);
    assert turns[..|front|] == front;
  }

  /** Both histories encode, under their routings, and no two of their blobs share a hash. */
  ghost predicate EncodeApart(c: Codec, r: Rebuild, h: seq<ChatMessage>, k: nat, q: Rebuild, g: seq<ChatMessage>,
        l: nat)
  {
    && TurnsOf(c, r, h, k).Some? && TurnsOf(c, q, g, l).Some?
    && CollisionFree(c, TurnsOf(c, r, h, k).value.blobs + TurnsOf(c, q, g, l).value.blobs)
  }

  /** The turn ids of a history start with all but the last of an earlier one's. */
  ghost predicate KeepsSettledIds(c: Codec, r: Rebuild, h: seq<ChatMessage>, k: nat, q: Rebuild, g: seq<ChatMessage>,
        l: nat)
    requires TurnsOf(c, r, h, k).Some? && TurnsOf(c, q, g, l).Some?
  {
    var ids := TurnsOf(c, r, h, k).value.ids;
    ids != [] ==> ids[..|ids| - 1] <= TurnsOf(c, q, g, l).value.ids
  }

  /** With deterministic marshalling, if no call before the last turn can be routed two ways, all turn ids
      but the last are kept when messages are appended. */
  lemma SettledIdsAreKept(c: Codec, s: Schema, o: Routing, p: Routing, h: seq<ChatMessage>, v: seq<ChatMessage>,
        k: nat, l: nat)
    requires Deterministic(c) && M.EncodesOneWay(s.json)
    requires IsRouting(s, o) && IsRouting(s, p) && AllSteady(s, BeforeLastTurn(h))
    requires TurnsOf(c, Routed(s, o), h, k).Some? && TurnsOf(c, Routed(s, p), h + v, l).Some?
    ensures KeepsSettledIds(c, Routed(s, o), h, k, Routed(s, p), h + v, l)
  {
    SettledIdsAreOfTurns(c, Routed(s, o), h, k);
    LaterIdsFollow(c, Routed(s, p), h, v, l);
    SteadyTurnsStay(s, o, p, BeforeLastTurn(h));
    TurnIdsStable(c, TurnsIn(Routed(s, o), BeforeLastTurn(h)).value, k, l);
  }

  /** The warm cache, history side, from one request to the next: whatever routing each of them meets, the
      old turn ids but the last are a prefix of the new ones. */
  lemma WarmCacheStability(c: Codec, s: Schema, o: Routing, p: Routing, ms: seq<ChatMessage>, more: seq<ChatMessage>,
                           tools: bool, instruction: string, id: Option<string>, id': Option<string>, k: nat, l: nat)
    requires Deterministic(c) && M.EncodesOneWay(s.json)
    requires IsRouting(s, o) && IsRouting(s, p) && AllSteady(s, BeforeLastTurn(HistoryOf(ms)))
    requires RequestFor(c, Routed(s, o), ms, tools, instruction, id, k).Some?
    requires RequestFor(c, Routed(s, p), ms + more, tools, instruction, id', l).Some?
    ensures var before, after := RequestFor(c, Routed(s, o), ms, tools, instruction, id, k).value.turnIds,
                                 RequestFor(c, Routed(s, p), ms + more, tools, instruction, id', l).value.turnIds;
            before != [] ==> before[..|before| - 1] <= after
  {
    var v := HistoryExtends(ms, more);
    SettledIdsAreKept(c, s, o, p, HistoryOf(ms), v, k, l);
  }

  lemma DifferentTurnsLoseIds(c: Codec, r: Rebuild, q: Rebuild, h: seq<ChatMessage>, v: seq<ChatMessage>, k: nat,
        l: nat)
    requires Lawful(c) && EncodeApart(c, r, h, k, q, h + v, l)
    requires TurnsIn(r, BeforeLastTurn(h)) != TurnsIn(q, BeforeLastTurn(h))
    ensures !KeepsSettledIds(c, r, h, k, q, h + v, l)
  {
    var a := BeforeLastTurn(h);
    SettledIdsAreOfTurns(c, r, h, k);
    LaterIdsFollow(c, q, h, v, l);
    var x, y := TurnsOf(c, r, a, k).value, TurnsOf(c, q, a, l).value;
    CollisionFreePart(c, x.blobs + y.blobs, TurnsOf(c, r, h, k).value.blobs + TurnsOf(c, q, h + v, l).value.blobs);
    OneTurnPerOpener(r, a);
    OneTurnPerOpener(q, a);
    assert x.ids != y.ids by {
      if x.ids == y.ids {
        SameIdsSameTurns(c, TurnsIn(r, a).value, TurnsIn(q, a).value, k, l);
      }
    }
  }

  /** Otherwise some map order loses them: however the conversation goes on, a history that encodes under
      that order does not start with the ids known. */
  lemma UnsteadyHistoryLosesIds(c: Codec, s: Schema, o: Routing, h: seq<ChatMessage>, k: nat) returns (p: Routing)
    requires Lawful(c) && WellFormed(s) && IsRouting(s, o) && TurnsOf(c, Routed(s, o), h, k).Some?
    requires !AllSteady(s, BeforeLastTurn(h))
    ensures IsRouting(s, p) && TurnsIn(Routed(s, p), h).Some?
    ensures forall v, l: nat :: EncodeApart(c, Routed(s, o), h, k, Routed(s, p), h + v, l) ==>
              !KeepsSettledIds(c, Routed(s, o), h, k, Routed(s, p), h + v, l)
  {
    SettledIdsAreOfTurns(c, Routed(s, o), h, k);
    p := UnsteadyTurnsChange(s, o, h, LastOpening(h));
    forall v, l: nat | EncodeApart(c, Routed(s, o), h, k, Routed(s, p), h + v, l)
      ensures !KeepsSettledIds(c, Routed(s, o), h, k, Routed(s, p), h + v, l)
    {
      DifferentTurnsLoseIds(c, Routed(s, o), Routed(s, p), h, v, k, l);
    }
  }
}
