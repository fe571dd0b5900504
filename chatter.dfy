/** The chat loop of cmd/chatter/main.go: recording the model's answer in the message
    history, and printing the tool responses that were appended after it. The logging of
    the tool calls is modelled as the successive contents of the buffer it prints. */
module Chatter {
  import opened Langchain

  /** `fmt.Sprintf("%s(%s)", name, arguments)` of one tool call. */
  function RenderCall(call: ToolCall): string
  {
    call.functionCall.name + "(" + call.functionCall.arguments + ")"
  }

  /** The responses `appendLlmResponse` handles without a run-time panic: there is a
      first choice, and no choice asks for more tool calls than the first one, whose
      count sizes the shared buffer. */
  predicate ToolCallsFit(response: ContentResponse)
  {
    && |response.choices| > 0
    && forall i :: 0 <= i < |response.choices| ==>
         |response.choices[i].toolCalls| <= |response.choices[0].toolCalls|
  }

  /** The message that records a choice: an AI message whose first part is the choice's
      text and whose remaining parts are its tool calls, in order. */
  predicate RecordsChoice(m: MessageContent, choice: ContentChoice)
  {
    && m.role == AI
    && |m.parts| == 1 + |choice.toolCalls|
    && m.parts[0] == TextContent(choice.content)
    && forall j :: 0 <= j < |choice.toolCalls| ==> m.parts[1 + j] == ToolCallPart(choice.toolCalls[j])
  }

  /** cmd/chatter/main.go:30-35: the first choice becomes one AI message appended to the
      history. */
  method AppendChoice(history: seq<MessageContent>, choice: ContentChoice)
    returns (newHistory: seq<MessageContent>)
    ensures |newHistory| == |history| + 1
    ensures newHistory[..|history|] == history
    ensures RecordsChoice(newHistory[|history|], choice)
  {
    var responseText := TextParts(AI, choice.content);
    for j := 0 to |choice.toolCalls|
      invariant responseText.role == AI
      invariant |responseText.parts| == 1 + j
      invariant responseText.parts[0] == TextContent(choice.content)
      invariant forall k :: 0 <= k < j ==> responseText.parts[1 + k] == ToolCallPart(choice.toolCalls[k])
    {
      responseText := responseText.(parts := responseText.parts + [ToolCallPart(choice.toolCalls[j])]);
    }
    newHistory := history + [responseText];
  }

  /** A record is determined by the choice it records. */
  lemma {:induction false} RecordsChoiceUnique(m: MessageContent, other: MessageContent, choice: ContentChoice)
    requires RecordsChoice(m, choice) && RecordsChoice(other, choice)
    ensures m == other
  {
    forall k | 0 <= k < |m.parts|
      ensures m.parts[k] == other.parts[k]
    {
      if k > 0 {
        var j := k - 1;
        assert m.parts[1 + j] == ToolCallPart(choice.toolCalls[j]) == other.parts[1 + j];
      }
    }
  }

  /** The log buffer after a choice's tool calls are written over it from the start; the
      entries past them keep what they held. */
  function Overwritten(buffer: seq<string>, calls: seq<ToolCall>): (written: seq<string>)
    requires |calls| <= |buffer|
    ensures |written| == |buffer|
    ensures forall j :: 0 <= j < |calls| ==> written[j] == RenderCall(calls[j])
    ensures forall j :: |calls| <= j < |buffer| ==> written[j] == buffer[j]
  {
    seq(|buffer|, j requires 0 <= j < |buffer| => if j < |calls| then RenderCall(calls[j]) else buffer[j])
  }

  /** The shared buffer of `appendLlmResponse` as it is logged after choice `i`: a buffer
      of empty strings, sized by the first choice, overwritten by choices 0 to `i` in
      turn. */
  function LogBuffer(response: ContentResponse, i: nat): (buffer: seq<string>)
    requires ToolCallsFit(response) && i < |response.choices|
    ensures |buffer| == |response.choices[0].toolCalls|
    decreases i, 1
  {
    Overwritten(BufferBefore(response, i), response.choices[i].toolCalls)
  }

  /** The shared buffer as choice `i` finds it. */
  function BufferBefore(response: ContentResponse, i: nat): (buffer: seq<string>)
    requires ToolCallsFit(response) && i < |response.choices|
    ensures |buffer| == |response.choices[0].toolCalls|
    decreases i, 0
  {
    if i == 0 then seq(|response.choices[0].toolCalls|, _ => "") else LogBuffer(response, i - 1)
  }

  /** The latest of the choices 0 to `i` that asks for more than `j` tool calls. The
      first choice asks for the most, so there is always one. */
  function LatestWithCall(response: ContentResponse, i: nat, j: nat): (k: nat)
    requires ToolCallsFit(response) && i < |response.choices| && j < |response.choices[0].toolCalls|
    ensures k <= i && j < |response.choices[k].toolCalls|
    ensures forall m :: k < m <= i ==> |response.choices[m].toolCalls| <= j
  {
    if i == 0 || j < |response.choices[i].toolCalls| then i else LatestWithCall(response, i - 1, j)
  }

  /** What the line logged after choice `i` shows at position `j`: call `j` of the latest
      choice so far that has one, which is a call of an earlier choice whenever choice
      `i` itself has fewer calls. */
  lemma {:induction false} LoggedEntryIsLatestCall(response: ContentResponse, i: nat, j: nat)
    requires ToolCallsFit(response) && i < |response.choices| && j < |response.choices[0].toolCalls|
    ensures LogBuffer(response, i)[j] == RenderCall(response.choices[LatestWithCall(response, i, j)].toolCalls[j])
  {
    if i > 0 && |response.choices[i].toolCalls| <= j {
      LoggedEntryIsLatestCall(response, i - 1, j);
    }
  }

  /** cmd/chatter/main.go:24-26 for one choice: its tool calls rendered into the buffer
      from the start. */
  method WriteCalls(toolCalls: array<string>, calls: seq<ToolCall>)
    requires |calls| <= toolCalls.Length
    modifies toolCalls
    ensures toolCalls[..] == Overwritten(old(toolCalls[..]), calls)
  {
    for j := 0 to |calls|
      invariant forall k :: 0 <= k < j ==> toolCalls[k] == RenderCall(calls[k])
      invariant forall k :: j <= k < toolCalls.Length ==> toolCalls[k] == old(toolCalls[k])
    {
      toolCalls[j] := RenderCall(calls[j]);
    }
  }

  /** `appendLlmResponse` as written. One buffer, sized by the first choice, is shared by
      all choices and never cleared, so the line logged for a later choice with fewer tool
      calls repeats calls of the choices before it. `logged[i]` is the buffer as it is
      logged after choice `i`. */
  method AppendLlmResponse(history: seq<MessageContent>, response: ContentResponse)
    returns (newHistory: seq<MessageContent>, logged: seq<seq<string>>)
    requires ToolCallsFit(response)
    ensures |newHistory| == |history| + 1
    ensures newHistory[..|history|] == history
    ensures RecordsChoice(newHistory[|history|], response.choices[0])
    ensures |logged| == |response.choices|
    ensures forall i :: 0 <= i < |logged| ==> logged[i] == LogBuffer(response, i)
  {
    var choices := response.choices;
    var toolCalls := new string[|choices[0].toolCalls|](_ => "");
    assert toolCalls[..] == BufferBefore(response, 0);
    logged := [];
    for i := 0 to |choices|
      invariant |logged| == i
      invariant i < |choices| ==> toolCalls[..] == BufferBefore(response, i)
      invariant forall k :: 0 <= k < i ==> logged[k] == LogBuffer(response, k)
    {
      WriteCalls(toolCalls, choices[i].toolCalls);
      logged := logged + [toolCalls[..]];
    }
    newHistory := AppendChoice(history, choices[0]);
  }

  /** A response whose second choice asks for more tool calls than its first is outside
      what `appendLlmResponse` handles: the buffer write for the extra call is out of
      range and panics. */
  lemma LaterChoiceOverflows(first: ContentChoice, later: ContentChoice)
    requires |later.toolCalls| > |first.toolCalls|
    ensures !ToolCallsFit(ContentResponse([first, later]))
  {
    var response := ContentResponse([first, later]);
    assert response.choices[1] == later;
  }

  /** `appendLlmResponse` with a buffer sized for each choice: every response with a
      first choice is handled, and the line logged for each choice holds exactly that
      choice's tool calls. */
  method AppendLlmResponseSized(history: seq<MessageContent>, response: ContentResponse)
    returns (newHistory: seq<MessageContent>, logged: seq<seq<string>>)
    requires |response.choices| > 0
    ensures |newHistory| == |history| + 1
    ensures newHistory[..|history|] == history
    ensures RecordsChoice(newHistory[|history|], response.choices[0])
    ensures |logged| == |response.choices|
    ensures forall i :: 0 <= i < |logged| ==> |logged[i]| == |response.choices[i].toolCalls|
    ensures forall i, j :: 0 <= i < |logged| && 0 <= j < |logged[i]| ==>
      logged[i][j] == RenderCall(response.choices[i].toolCalls[j])
  {
    var choices := response.choices;
    logged := [];
    for i := 0 to |choices|
      invariant |logged| == i
      invariant forall k :: 0 <= k < i ==> |logged[k]| == |choices[k].toolCalls|
      invariant forall k, j :: 0 <= k < i && 0 <= j < |logged[k]| ==>
        logged[k][j] == RenderCall(choices[k].toolCalls[j])
    {
      var choice := choices[i];
      var toolCalls := new string[|choice.toolCalls|];
      for j := 0 to |choice.toolCalls|
        invariant forall k :: 0 <= k < j ==> toolCalls[k] == RenderCall(choice.toolCalls[k])
      {
        toolCalls[j] := RenderCall(choice.toolCalls[j]);
      }
      logged := logged + [toolCalls[..]];
    }
    newHistory := AppendChoice(history, choices[0]);
  }

  /** When every choice asks for as many tool calls as the first, the shared buffer is
      overwritten completely each time, and the version as written logs and records
      exactly what the corrected one does. */
  method AgreesOnUniformResponse(history: seq<MessageContent>, response: ContentResponse)
    returns (sameHistory: bool, sameLog: bool)
    requires |response.choices| > 0
    requires forall i :: 0 <= i < |response.choices| ==>
      |response.choices[i].toolCalls| == |response.choices[0].toolCalls|
    ensures sameHistory && sameLog
  {
    var shared, sharedLog := AppendLlmResponse(history, response);
    var sized, sizedLog := AppendLlmResponseSized(history, response);
    RecordsChoiceUnique(shared[|history|], sized[|history|], response.choices[0]);
    assert shared == shared[..|history|] + [shared[|history|]];
    assert sized == sized[..|history|] + [sized[|history|]];
    forall i | 0 <= i < |sharedLog|
      ensures sharedLog[i] == sizedLog[i]
    {
      assert sharedLog[i] == LogBuffer(response, i);
    }
    sameHistory := shared == sized;
    sameLog := sharedLog == sizedLog;
  }

  /** cmd/chatter/main.go:44-46, in `executeToolCalls`: the first part of each of the last
      `responseCount` messages, oldest first. A count that is not positive prints
      nothing; the messages read must exist and have a part, or Go panics. */
  method PrintedParts(history: seq<MessageContent>, responseCount: int)
    returns (printed: seq<ContentPart>)
    requires responseCount <= |history|
    requires forall k :: |history| - responseCount <= k < |history| ==> |history[k].parts| > 0
    ensures |printed| == if responseCount > 0 then responseCount else 0
    ensures forall k :: 0 <= k < |printed| ==> printed[k] == history[|history| - responseCount + k].parts[0]
  {
    printed := [];
    var i := responseCount;
    while i > 0
      invariant responseCount <= 0 ==> printed == []
      invariant responseCount > 0 ==> 0 <= i <= responseCount && |printed| == responseCount - i
      invariant forall k :: 0 <= k < |printed| ==> printed[k] == history[|history| - responseCount + k].parts[0]
    {
      printed := printed + [history[|history| - i].parts[0]];
      i := i - 1;
    }
  }
}
