// The chat-completions response: usage, errors, and the streamed form a client
// folds back together.
module Responses {
  import opened Basics
  import opened History
  import opened Accumulators

  datatype ErrorKind = StreamFailure | TranslationFailure

  datatype Usage = Usage(prompt: nat, completion: nat, total: nat)

  datatype Choice = Choice(content: string, toolCalls: seq<ChatToolCall>, finishReason: string)

  datatype Response = Response(id: string, model: string, choices: seq<Choice>, usage: Usage, error: Option<ErrorKind>)

  // ---- usage ----

  /** About four bytes a token, and never zero for some text; size is the length in bytes. */
  function EstimateTokens(size: string -> nat, text: string): nat {
    if text == "" then 0
    else if size(text) / 4 > 0 then size(text) / 4
    else 1
  }

  /** A quarter of the bytes, rounded down, but at least one for a text that is not empty. */
  lemma EstimateIsAQuarter(size: string -> nat, text: string)
    ensures var n := EstimateTokens(size, text);
      && (text == "" <==> n == 0)
      && (text != "" && size(text) >= 4 ==> 4 * n <= size(text) < 4 * n + 4)
      && (text != "" && size(text) < 4 ==> n == 1)
  {
  }

  function Billable(content: string, calls: seq<ChatToolCall>): string {
    if calls == [] then content
    else Billable(content, calls[..|calls| - 1]) + (calls[|calls| - 1].name + calls[|calls| - 1].arguments)
  }

  function UsageOf(size: string -> nat, a: Acc, prompt: string): Usage {
    var completion := if a.tokens == 0 then EstimateTokens(size, Billable(a.text, a.toolCalls)) else a.tokens;
    var p := EstimateTokens(size, prompt);
    Usage(p, completion, p + completion)
  }

  method ComputeUsage(size: string -> nat, a: Acc, prompt: string) returns (u: Usage)
    ensures u == UsageOf(size, a, prompt)
  {
    var completion := a.tokens;
    if completion == 0 {
      var billable := a.text;
      for i := 0 to |a.toolCalls|
        invariant billable == Billable(a.text, a.toolCalls[..i])
      {
        assert a.toolCalls[..i + 1][..i] == a.toolCalls[..i] && a.toolCalls[..i + 1][i] == a.toolCalls[i];
        billable := billable + (a.toolCalls[i].name + a.toolCalls[i].arguments);
      }
      assert a.toolCalls[..|a.toolCalls|] == a.toolCalls;
      completion := EstimateTokens(size, billable);
    }
    var p := EstimateTokens(size, prompt);
    u := Usage(p, completion, p + completion);
  }

  lemma {:induction false} BillableIsEmptyExactly(content: string, calls: seq<ChatToolCall>)
    ensures Billable(content, calls) == "" <==>
            content == "" && forall c :: c in calls ==> c.name == "" && c.arguments == ""
  {
    if calls != [] {
      var front, last := calls[..|calls| - 1], calls[|calls| - 1];
      BillableIsEmptyExactly(content, front);
      assert calls == front + [last];
      assert Billable(content, calls) == "" <==>
        Billable(content, front) == "" && last.name == "" && last.arguments == "" by {
        assert |Billable(content, calls)| == |Billable(content, front)| + |last.name| + |last.arguments|;
      }
    }
  }

  /** Usage is all zero only when nothing was asked, produced or counted. */
  lemma UsageIsZeroExactly(size: string -> nat, a: Acc, prompt: string)
    ensures UsageOf(size, a, prompt).total == 0 <==>
            prompt == "" && a.tokens == 0 && a.text == ""
            && forall c :: c in a.toolCalls ==> c.name == "" && c.arguments == ""
  {
    BillableIsEmptyExactly(a.text, a.toolCalls);
  }

  // ---- the whole response ----

  /** A translation failure drops the choices; anything else keeps text and tool calls. */
  function ToResponse(size: string -> nat, a: Acc, model: string, id: string, prompt: string): Response {
    var usage := UsageOf(size, a, prompt);
    if a.failed then Response(id, model, [], usage, Some(TranslationFailure))
    else
      var finishReason := if |a.toolCalls| > 0 then "tool_calls" else "stop";
      Response(id, model, [Choice(a.text, a.toolCalls, finishReason)], usage, None)
  }

  // ---- the streamed form ----

  datatype Chunk = Chunk(id: string, model: string, content: string, toolCalls: seq<ChatToolCall>,
                         finishReason: Option<string>, usage: Option<Usage>, error: Option<ErrorKind>)

  /** One chunk with the whole delta and any error, then one with the finish reason and the usage. */
  function ToStreamChunks(r: Response): seq<Chunk> {
    var (content, toolCalls) := if |r.choices| > 0 then (r.choices[0].content, r.choices[0].toolCalls) else ("", []);
    var finish := if |r.choices| > 0 && r.choices[0].finishReason != "" then r.choices[0].finishReason else "stop";
    [Chunk(r.id, r.model, content, toolCalls, None, None, r.error),
     Chunk(r.id, r.model, "", [], Some(finish), Some(r.usage), None)]
  }

  datatype Folded = Folded(content: string, toolCalls: seq<ChatToolCall>, finishReason: Option<string>,
                           usage: Option<Usage>, error: Option<ErrorKind>)

  /** What a streaming client puts together from the chunks. */
  function Fold(chunks: seq<Chunk>): Folded {
    if chunks == [] then Folded("", [], None, None, None)
    else
      var f, c := Fold(chunks[..|chunks| - 1]), chunks[|chunks| - 1];
      Folded(f.content + c.content, f.toolCalls + c.toolCalls,
             if c.finishReason.Some? then c.finishReason else f.finishReason,
             if c.usage.Some? then c.usage else f.usage,
             if f.error.Some? then f.error else c.error)
  }

  /** The streamed form says what the whole response says, under its id and model in every chunk; only the
      last chunk closes it, with "stop" where there is no choice or no reason is given. */
  lemma StreamReassembles(r: Response)
    ensures var cs := ToStreamChunks(r);
      && |cs| == 2 && (forall c :: c in cs ==> c.id == r.id && c.model == r.model)
      && cs[0].finishReason.None? && cs[0].usage.None? && cs[0].error == r.error
      && cs[1].finishReason.Some? && cs[1].usage.Some? && cs[1].content == "" && cs[1].toolCalls == []
    ensures var f := Fold(ToStreamChunks(r));
      && f.usage == Some(r.usage) && f.error == r.error
      && (if |r.choices| > 0 then
            && f.content == r.choices[0].content && f.toolCalls == r.choices[0].toolCalls
            && f.finishReason == Some(if r.choices[0].finishReason == "" then "stop" else r.choices[0].finishReason)
          else f.content == "" && f.toolCalls == [] && f.finishReason == Some("stop"))
  {
    var cs := ToStreamChunks(r);
    assert cs[..1] == [cs[0]] && cs[..1][..0] == [];
    assert Fold(cs[..1]) == Folded("" + cs[0].content, [] + cs[0].toolCalls, None, None, cs[0].error);
    assert Fold(cs).content == cs[0].content + "" && Fold(cs).toolCalls == cs[0].toolCalls + [];
  }
}
