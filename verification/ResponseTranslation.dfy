/**
 Chat responses as Responses responses and back (types/responses.go), and the splitting of a streamed
 tool-call choice into chunks (types/chat.go). Generated output ids, which nothing reads back, are left
 out. `created` and the ids of the whole response are copied unchanged.
 */
module ResponseTranslation {
  import opened Options
  import opened RequestTranslation

  // ----- Usage -----

  datatype PromptDetails = PromptDetails(cached: int, text: int, image: int, audio: int, cachedInternal: int)
  datatype CompletionDetails = CompletionDetails(reasoning: int, audio: int, text: int, image: int, accepted: int, rejected: int)
  datatype Usage = Usage(prompt: int, completion: int, total: int, promptDetails: PromptDetails, completionDetails: CompletionDetails)

  datatype InputDetails = InputDetails(cached: int, text: int, image: int)
  datatype ResponsesUsage = ResponsesUsage(input: int, output: int, total: int, reasoning: Option<int>, inputDetails: Option<InputDetails>)

  function ToOpenAIUsage(u: ResponsesUsage): Usage {
    Usage(u.input, u.output, u.total,
          match u.inputDetails
            case Some(d) => PromptDetails(d.cached, d.text, d.image, 0, 0)
            case None => PromptDetails(0, 0, 0, 0, 0),
          CompletionDetails(if u.reasoning.Some? then u.reasoning.value else 0, 0, 0, 0, 0, 0))
  }

  function ToResponsesUsage(u: Usage): ResponsesUsage {
    ResponsesUsage(u.prompt, u.completion, u.total,
                   if u.completionDetails.reasoning > 0 then Some(u.completionDetails.reasoning) else None,
                   Some(InputDetails(u.promptDetails.cached, u.promptDetails.text, u.promptDetails.image)))
  }

  /** The counters a Responses usage has no place for. */
  predicate OnlyCommonCounters(u: Usage) {
    && u.promptDetails.audio == 0 && u.promptDetails.cachedInternal == 0
    && u.completionDetails == CompletionDetails(u.completionDetails.reasoning, 0, 0, 0, 0, 0)
    && u.completionDetails.reasoning >= 0
  }

  /** Usage survives the trip exactly when it uses only the common counters. */
  lemma UsageSurvivesIff(u: Usage)
    ensures ToOpenAIUsage(ToResponsesUsage(u)) == u <==> OnlyCommonCounters(u)
  {
  }

  /** The other way round, what is lost is a zero reasoning count and the difference between absent and zero. */
  lemma ResponsesUsageSurvivesIff(u: ResponsesUsage)
    ensures ToResponsesUsage(ToOpenAIUsage(u)) == u <==>
            u.inputDetails.Some? && (u.reasoning.Some? ==> u.reasoning.value > 0)
  {
  }

  /** Which counter goes where; a reasoning count that is not positive is left out. */
  lemma UsageOnWire(u: Usage)
    ensures
      var r := ToResponsesUsage(u);
      && r.input == u.prompt && r.output == u.completion && r.total == u.total
      && (r.reasoning.Some? <==> u.completionDetails.reasoning > 0)
      && (r.reasoning.Some? ==> r.reasoning.value == u.completionDetails.reasoning)
      && r.inputDetails.Some? && r.inputDetails.value.cached == u.promptDetails.cached
      && r.inputDetails.value.text == u.promptDetails.text && r.inputDetails.value.image == u.promptDetails.image
  {
  }

  // ----- Finish reasons -----

  /** The finish reasons of a chat choice; any other string is an OtherReason. */
  datatype FinishReason = Stop | Length | ToolCalls | ContentFilter | OtherReason(reason: string)

  /** The statuses the translation uses; the remaining ones behave alike. */
  datatype Status = Completed | Failed | Incomplete | OtherStatus(status: string)

  /** The kinds of output that matter to chat. */
  datatype OutputKind = Speech | Thought | Call | OtherKind(kind: string)

  function ChatStatusToResponses(reason: FinishReason): Status {
    match reason
    case ContentFilter => Failed
    case Length => Incomplete
    case _ => Completed
  }

  function ResponsesStatusToChat(status: Status): FinishReason {
    match status
    case Failed => ContentFilter
    case Incomplete => Length
    case _ => Stop
  }

  // ----- Responses -----

  datatype Choice = Choice(content: Content, refusal: string, reasoning: string, toolCalls: seq<ToolCall>, audio: bool, finishReason: FinishReason)

  datatype OutputPart = OutputPart(kind: string, text: string, refusal: string)
  datatype Summary = Summary(kind: string, text: string)

  /** Output content as built in memory, or as decoded from JSON: reading back tells the two apart. */
  datatype OutputContent = NoOutput | OutputString(s: string) | Typed(parts: seq<OutputPart>) | Decoded(parts: seq<OutputPart>)

  datatype Output = Output(
    kind: OutputKind, status: Status, content: OutputContent,
    callId: string, name: string, arguments: Option<string>, summary: seq<Summary>
  )

  function RefusalParts(c: Choice): seq<OutputPart> {
    if c.refusal != "" then [OutputPart("refusal", "", c.refusal)] else []
  }

  function TextParts(c: Choice): seq<OutputPart> {
    if c.content.Text? && c.content.s != "" then [OutputPart("output_text", c.content.s, "")] else []
  }

  function ReasoningOutputs(c: Choice): seq<Output> {
    if c.reasoning == "" then []
    else [Output(Thought, Completed, NoOutput, "", "", None, [Summary("summary_text", c.reasoning)])]
  }

  function SpeechOutputs(c: Choice): seq<Output> {
    var parts := RefusalParts(c) + TextParts(c);
    if parts == [] then [] else [Output(Speech, ChatStatusToResponses(c.finishReason), Typed(parts), "", "", None, [])]
  }

  /** The outputs for one choice of a chat response, in order. */
  function ChoiceToOutputs(c: Choice): seq<Output> {
    if c.finishReason == ToolCalls then CallsToOutputs(c.toolCalls)
    else if c.audio then []
    else ReasoningOutputs(c) + SpeechOutputs(c)
  }

  function CallsToOutputs(calls: seq<ToolCall>): seq<Output> {
    if calls == [] then []
    else
      (if calls[0].fn.Some? then
         [Output(Call, Completed, NoOutput, calls[0].id, calls[0].fn.value.name, Some(calls[0].fn.value.arguments), [])]
       else [])
      + CallsToOutputs(calls[1..])
  }

  /** What arrives after encoding to JSON and decoding. */
  function OnWire(outputs: seq<Output>): seq<Output> {
    if outputs == [] then []
    else
      [if outputs[0].content.Typed? then outputs[0].(content := Decoded(outputs[0].content.parts)) else outputs[0]]
      + OnWire(outputs[1..])
  }

  function Texts(parts: seq<OutputPart>): string {
    if parts == [] then "" else parts[0].text + Texts(parts[1..])
  }

  /** ResponsesOutput.StringContent: a list is recognized only in decoded form. */
  function StringContent(o: Output): string {
    if o.kind != Speech then ""
    else match o.content
      case OutputString(s) => s
      case Decoded(parts) => Texts(parts)
      case _ => ""
  }

  function SummaryString(summary: seq<Summary>): string {
    if summary == [] then ""
    else (if summary[0].kind == "summary_text" then summary[0].text else "") + SummaryString(summary[1..])
  }

  /** The choice that ToChat assembles; its content is absent until a message output sets it. */
  datatype Assembled = Assembled(content: Option<string>, reasoning: string, toolCalls: seq<ToolCall>, finishReason: FinishReason)

  const NOTHING := Assembled(None, "", [], Stop)

  function AddOutput(a: Assembled, o: Output): Assembled {
    var a' :=
      if o.kind == Speech then a.(content := Some(StringContent(o)))
      else if o.kind == Thought then a.(reasoning := SummaryString(o.summary))
      else if o.kind == Call then
        var fn := Function(o.name, if o.arguments.Some? then o.arguments.value else "");
        a.(toolCalls := a.toolCalls + [ToolCall(o.callId, "function", Some(fn), 0)], finishReason := ToolCalls)
      else a;
    if o.status == Failed || o.status == Incomplete then a'.(finishReason := ResponsesStatusToChat(o.status)) else a'
  }

  function AddOutputs(a: Assembled, outputs: seq<Output>): Assembled
    decreases |outputs|
  {
    if outputs == [] then a else AddOutputs(AddOutput(a, outputs[0]), outputs[1..])
  }

  /** OpenAIResponsesResponses.ToChat, its single choice. */
  method ToChat(outputs: seq<Output>) returns (choice: Assembled)
    ensures choice == AddOutputs(NOTHING, outputs)
  {
    choice := NOTHING;
    for i := 0 to |outputs|
      invariant AddOutputs(choice, outputs[i..]) == AddOutputs(NOTHING, outputs)
    {
      var output := outputs[i];
      assert outputs[i..][1..] == outputs[i + 1..];
      ghost var before := choice;
      if output.kind == Speech {
        choice := choice.(content := Some(StringContent(output)));
      } else if output.kind == Thought {
        choice := choice.(reasoning := SummaryString(output.summary));
      } else if output.kind == Call {
        var arguments := "";
        if output.arguments.Some? {
          arguments := output.arguments.value;
        }
        choice := choice.(toolCalls := choice.toolCalls + [ToolCall(output.callId, "function", Some(Function(output.name, arguments)), 0)]);
        choice := choice.(finishReason := ToolCalls);
      }
      if output.status == Failed || output.status == Incomplete {
        choice := choice.(finishReason := ResponsesStatusToChat(output.status));
      }
      assert choice == AddOutput(before, output);
    }
  }

  /** The status of the last choice. */
  function LastStatus(choices: seq<Choice>): Status {
    if choices == [] then Completed else ChatStatusToResponses(choices[|choices| - 1].finishReason)
  }

  /** The last choice alone decides: filtered is failed, cut short is incomplete, and everything else completed. */
  lemma StatusFollowsLastChoice(choices: seq<Choice>)
    ensures
      var status, last := LastStatus(choices), if choices == [] then Stop else choices[|choices| - 1].finishReason;
      && (status == Failed <==> last == ContentFilter)
      && (status == Incomplete <==> last == Length)
      && (status == Completed <==> last != ContentFilter && last != Length)
  {
  }

  /** ChatCompletionResponse.ToResponses, its outputs and its status. */
  method ToResponses(choices: seq<Choice>) returns (outputs: seq<Output>, status: Status)
    ensures outputs == ChoicesToOutputs(choices) && status == LastStatus(choices)
  {
    outputs, status := [], Completed;
    assert [] + ChoicesToOutputs(choices) == ChoicesToOutputs(choices);
    for i := 0 to |choices|
      invariant outputs + ChoicesToOutputs(choices[i..]) == ChoicesToOutputs(choices)
      invariant status == LastStatus(choices[..i])
    {
      var choice := choices[i];
      status := ChatStatusToResponses(choice.finishReason);
      var added := BuildOutputs(choice, status);
      NextOutputs(choices, i, outputs, added);
      outputs := outputs + added;
    }
    assert choices[..|choices|] == choices;
  }

  lemma NextOutputs(choices: seq<Choice>, i: nat, outputs: seq<Output>, added: seq<Output>)
    requires i < |choices| && added == ChoiceToOutputs(choices[i])
    ensures (outputs + added) + ChoicesToOutputs(choices[i + 1..]) == outputs + ChoicesToOutputs(choices[i..])
  {
    assert choices[i..][0] == choices[i] && choices[i..][1..] == choices[i + 1..];
    assert (outputs + added) + ChoicesToOutputs(choices[i + 1..]) == outputs + (added + ChoicesToOutputs(choices[i + 1..]));
  }

  method BuildOutputs(choice: Choice, status: Status) returns (added: seq<Output>)
    requires status == ChatStatusToResponses(choice.finishReason)
    ensures added == ChoiceToOutputs(choice)
  {
    if choice.finishReason == ToolCalls {
      added := BuildCalls(choice.toolCalls);
      return;
    }
    added := [];
    if choice.audio {
      return;
    }
    var content: seq<OutputPart> := [];
    if choice.refusal != "" {
      content := content + [OutputPart("refusal", "", choice.refusal)];
    }
    if choice.reasoning != "" {
      added := added + [Output(Thought, Completed, NoOutput, "", "", None, [Summary("summary_text", choice.reasoning)])];
    }
    if choice.content.Text? && choice.content.s != "" {
      content := content + [OutputPart("output_text", choice.content.s, "")];
    }
    assert content == RefusalParts(choice) + TextParts(choice);
    assert added == ReasoningOutputs(choice);
    if |content| > 0 {
      added := added + [Output(Speech, status, Typed(content), "", "", None, [])];
    }
  }

  function ChoicesToOutputs(choices: seq<Choice>): seq<Output> {
    if choices == [] then [] else ChoiceToOutputs(choices[0]) + ChoicesToOutputs(choices[1..])
  }

  method BuildCalls(calls: seq<ToolCall>) returns (outputs: seq<Output>)
    ensures outputs == CallsToOutputs(calls)
  {
    outputs := [];
    assert [] + CallsToOutputs(calls) == CallsToOutputs(calls);
    for i := 0 to |calls|
      invariant outputs + CallsToOutputs(calls[i..]) == CallsToOutputs(calls)
    {
      assert calls[i..][1..] == calls[i + 1..];
      var tool := calls[i];
      if tool.fn.Some? {
        var added := Output(Call, Completed, NoOutput, tool.id, tool.fn.value.name, Some(tool.fn.value.arguments), []);
        assert outputs + ([added] + CallsToOutputs(calls[i + 1..])) == (outputs + [added]) + CallsToOutputs(calls[i + 1..]);
        outputs := outputs + [added];
      } else {
        assert [] + CallsToOutputs(calls[i + 1..]) == CallsToOutputs(calls[i + 1..]);
      }
    }
  }

  // ----- What is on the wire -----

  function WithFunction(calls: seq<ToolCall>): seq<ToolCall> {
    if calls == [] then [] else (if calls[0].fn.Some? then [calls[0]] else []) + WithFunction(calls[1..])
  }

  predicate CallOnWire(call: ToolCall, o: Output) {
    && call.fn.Some? && o.kind == Call && o.status == Completed && o.callId == call.id
    && o.name == call.fn.value.name && o.arguments == Some(call.fn.value.arguments)
  }

  lemma {:induction false} CallsOnWire(calls: seq<ToolCall>)
    ensures
      var sent, outputs := WithFunction(calls), CallsToOutputs(calls);
      |outputs| == |sent| && forall i :: 0 <= i < |sent| ==> CallOnWire(sent[i], outputs[i])
  {
    if calls != [] {
      CallsOnWire(calls[1..]);
    }
  }

  /** The message output of a choice: its refusal, then its text, and a status that tells how it ended. */
  predicate SpeechOnWire(c: Choice, o: Output) {
    && o.kind == Speech && o.content.Typed?
    && o.status == (if c.finishReason == ContentFilter then Failed else if c.finishReason == Length then Incomplete else Completed)
    && var parts, text := o.content.parts, c.content.Text? && c.content.s != "";
       && |parts| == (if c.refusal != "" then 1 else 0) + (if text then 1 else 0)
       && (c.refusal != "" ==> parts[0] == OutputPart("refusal", "", c.refusal))
       && (text ==> parts[|parts| - 1] == OutputPart("output_text", c.content.s, ""))
  }

  /**
   The outputs of a choice: its calls, if that is how it ended; nothing for audio; else its reasoning, if
   any, and then what it says, if anything.
   */
  lemma ChoiceOnWire(c: Choice)
    ensures
      var outputs, calls := ChoiceToOutputs(c), WithFunction(c.toolCalls);
      if c.finishReason == ToolCalls then
        |outputs| == |calls| && forall i :: 0 <= i < |calls| ==> CallOnWire(calls[i], outputs[i])
      else if c.audio then outputs == []
      else
        var thinks, says := c.reasoning != "", c.refusal != "" || (c.content.Text? && c.content.s != "");
        && |outputs| == (if thinks then 1 else 0) + (if says then 1 else 0)
        && (thinks ==> outputs[0].kind == Thought && outputs[0].summary == [Summary("summary_text", c.reasoning)])
        && (says ==> SpeechOnWire(c, outputs[|outputs| - 1]))
  {
    CallsOnWire(c.toolCalls);
  }

  // ----- A response that starts in Responses form -----

  function OutputsOf(outputs: seq<Output>, kind: OutputKind): seq<Output> {
    if outputs == [] then [] else (if outputs[0].kind == kind then [outputs[0]] else []) + OutputsOf(outputs[1..], kind)
  }

  predicate CallRead(o: Output, call: ToolCall) {
    && call.id == o.callId && call.kind == "function" && call.index == 0 && call.fn.Some?
    && call.fn.value.name == o.name && call.fn.value.arguments == (if o.arguments.Some? then o.arguments.value else "")
  }

  /** What is said and thought: the text of the last message and the last reasoning. */
  lemma {:induction false} SpeechRead(a: Assembled, outputs: seq<Output>)
    ensures
      var r, speech, thought := AddOutputs(a, outputs), OutputsOf(outputs, Speech), OutputsOf(outputs, Thought);
      && r.content == (if speech == [] then a.content else Some(StringContent(speech[|speech| - 1])))
      && r.reasoning == (if thought == [] then a.reasoning else SummaryString(thought[|thought| - 1].summary))
    decreases |outputs|
  {
    if outputs != [] {
      SpeechRead(AddOutput(a, outputs[0]), outputs[1..]);
    }
  }

  /** And all calls, in order, after those there are already. */
  lemma {:induction false} CallsRead(a: Assembled, outputs: seq<Output>)
    ensures
      var calls, read := OutputsOf(outputs, Call), AddOutputs(a, outputs).toolCalls;
      && |read| == |a.toolCalls| + |calls| && a.toolCalls <= read
      && forall i :: 0 <= i < |calls| ==> CallRead(calls[i], read[|a.toolCalls| + i])
    decreases |outputs|
  {
    if outputs != [] {
      var next, rest := AddOutput(a, outputs[0]), outputs[1..];
      var calls, read := OutputsOf(rest, Call), AddOutputs(next, rest).toolCalls;
      CallsRead(next, rest);
      if outputs[0].kind == Call {
        forall i | 0 <= i < |calls| + 1 ensures CallRead(([outputs[0]] + calls)[i], read[|a.toolCalls| + i]) {
          if i > 0 {
            assert CallRead(calls[i - 1], read[|next.toolCalls| + (i - 1)]);
          }
        }
      }
    }
  }

  /** An output that decides how the choice ends: a call, or one that failed or is incomplete. */
  predicate Ends(o: Output) {
    o.kind == Call || o.status == Failed || o.status == Incomplete
  }

  /** The finish reason comes from the last output that decides; a failed or incomplete call ends as such. */
  lemma {:induction false} FinishRead(a: Assembled, outputs: seq<Output>, k: nat)
    requires k <= |outputs| && (k < |outputs| ==> Ends(outputs[k])) && forall i :: k < i < |outputs| ==> !Ends(outputs[i])
    requires k == |outputs| ==> forall i :: 0 <= i < |outputs| ==> !Ends(outputs[i])
    ensures
      AddOutputs(a, outputs).finishReason ==
        if k == |outputs| then a.finishReason
        else if outputs[k].status == Failed then ContentFilter
        else if outputs[k].status == Incomplete then Length
        else ToolCalls
    decreases |outputs|
  {
    if outputs != [] {
      var rest, next := outputs[1..], AddOutput(a, outputs[0]);
      if k == 0 {
        assert forall i :: 0 <= i < |rest| ==> rest[i] == outputs[i + 1];
        FinishRead(next, rest, |rest|);
      } else {
        assert forall i :: 0 <= i < |rest| ==> rest[i] == outputs[i + 1];
        FinishRead(next, rest, k - 1);
      }
    }
  }

  // ----- The round trip of one choice -----

  /** The calls that have a function, with id, name and arguments. */
  function KeptCalls(calls: seq<ToolCall>): seq<ToolCall> {
    if calls == [] then []
    else (if calls[0].fn.Some? then [ToolCall(calls[0].id, "function", calls[0].fn, 0)] else []) + KeptCalls(calls[1..])
  }

  /** What a choice becomes on the way there and back. */
  function NormalChoice(c: Choice): Assembled {
    if c.finishReason == ToolCalls then
      var calls := KeptCalls(c.toolCalls);
      Assembled(None, "", calls, if calls != [] then ToolCalls else Stop)
    else if c.audio then NOTHING
    else
      var speaks := TextOf(c) != "" || c.refusal != "";
      Assembled(if speaks then Some(TextOf(c)) else None, c.reasoning, [],
                if speaks && (c.finishReason == Length || c.finishReason == ContentFilter) then c.finishReason else Stop)
  }

  lemma {:induction false} AddOutputsConcat(a: Assembled, x: seq<Output>, y: seq<Output>)
    ensures AddOutputs(a, x + y) == AddOutputs(AddOutputs(a, x), y)
    ensures OnWire(x + y) == OnWire(x) + OnWire(y)
    decreases |x|
  {
    if x == [] {
      assert x + y == y;
    } else {
      assert (x + y)[1..] == x[1..] + y;
      AddOutputsConcat(AddOutput(a, x[0]), x[1..], y);
    }
  }

  lemma {:induction false} CallsKeepOnWire(calls: seq<ToolCall>)
    ensures OnWire(CallsToOutputs(calls)) == CallsToOutputs(calls)
  {
    if calls != [] {
      CallsKeepOnWire(calls[1..]);
      if calls[0].fn.Some? {
        assert CallsToOutputs(calls)[1..] == CallsToOutputs(calls[1..]);
      } else {
        assert CallsToOutputs(calls) == CallsToOutputs(calls[1..]);
      }
    }
  }

  function WithCalls(a: Assembled, calls: seq<ToolCall>): Assembled {
    a.(toolCalls := a.toolCalls + calls, finishReason := if calls != [] then ToolCalls else a.finishReason)
  }

  lemma WithMoreCalls(a: Assembled, call: ToolCall, calls: seq<ToolCall>)
    ensures WithCalls(WithCalls(a, [call]), calls) == WithCalls(a, [call] + calls)
  {
    assert a.toolCalls + [call] + calls == a.toolCalls + ([call] + calls);
  }

  lemma {:induction false} CallsSurvive(a: Assembled, calls: seq<ToolCall>)
    ensures AddOutputs(a, CallsToOutputs(calls)) == WithCalls(a, KeptCalls(calls))
    decreases |calls|
  {
    if calls == [] {
      assert a.toolCalls + [] == a.toolCalls;
    } else if calls[0].fn.Some? {
      var o, call := CallsToOutputs(calls)[0], ToolCall(calls[0].id, "function", calls[0].fn, 0);
      assert CallsToOutputs(calls)[1..] == CallsToOutputs(calls[1..]);
      assert AddOutput(a, o) == WithCalls(a, [call]);
      CallsSurvive(WithCalls(a, [call]), calls[1..]);
      WithMoreCalls(a, call, KeptCalls(calls[1..]));
    } else {
      assert CallsToOutputs(calls) == CallsToOutputs(calls[1..]) && KeptCalls(calls) == KeptCalls(calls[1..]);
      CallsSurvive(a, calls[1..]);
    }
  }

  function TextOf(c: Choice): string {
    if c.content.Text? then c.content.s else ""
  }

  lemma TextsOfParts(c: Choice)
    ensures Texts(RefusalParts(c) + TextParts(c)) == TextOf(c)
    ensures RefusalParts(c) + TextParts(c) == [] <==> c.refusal == "" && TextOf(c) == ""
  {
    var r, t := RefusalParts(c), TextParts(c);
    assert r != [] ==> (r + t)[1..] == t;
    assert r == [] ==> r + t == t;
    assert t != [] ==> t[1..] == [] && t[0].text + "" == t[0].text;
    assert "" + Texts(t) == Texts(t);
  }

  /** The message output of a choice, read back on the other side of the wire. */
  lemma SpeechSurvives(a: Assembled, c: Choice)
    requires c.finishReason != ToolCalls && a.finishReason == Stop && a.content == None
    ensures var speaks := TextOf(c) != "" || c.refusal != "";
            AddOutputs(a, OnWire(SpeechOutputs(c))) == a.(content := if speaks then Some(TextOf(c)) else None,
              finishReason := if speaks && (c.finishReason == Length || c.finishReason == ContentFilter) then c.finishReason else Stop)
  {
    TextsOfParts(c);
    if SpeechOutputs(c) != [] {
      var o := SpeechOutputs(c)[0];
    }
  }

  lemma ReasoningSurvives(c: Choice)
    ensures AddOutputs(NOTHING, OnWire(ReasoningOutputs(c))) == NOTHING.(reasoning := c.reasoning)
  {
    if c.reasoning != "" {
      var o := ReasoningOutputs(c)[0];
      assert o.summary[1..] == [] && SummaryString(o.summary) == c.reasoning + "" == c.reasoning;
    }
  }

  /** On the wire a single choice comes back as its normal form. */
  lemma ChoiceRoundTrip(c: Choice)
    ensures AddOutputs(NOTHING, OnWire(ChoiceToOutputs(c))) == NormalChoice(c)
  {
    if c.finishReason == ToolCalls {
      CallsKeepOnWire(c.toolCalls);
      CallsSurvive(NOTHING, c.toolCalls);
      assert [] + KeptCalls(c.toolCalls) == KeptCalls(c.toolCalls);
    } else if !c.audio {
      var x, y := ReasoningOutputs(c), SpeechOutputs(c);
      AddOutputsConcat(NOTHING, x, y);
      AddOutputsConcat(NOTHING, OnWire(x), OnWire(y));
      ReasoningSurvives(c);
      SpeechSurvives(NOTHING.(reasoning := c.reasoning), c);
    }
  }

  /**
   Content comes back as it was: a text as the same text, no content as none. A list, or any other
   value that is not a string, has no such form, since only a string is ever read.
   */
  predicate ContentKept(c: Choice, content: Option<string>) {
    match c.content
    case Text(s) => content == Some(s)
    case Absent => content == None
    case _ => false
  }

  /** Content, reasoning, calls and finish reason all come back as they were. */
  predicate Preserved(c: Choice, a: Assembled) {
    && ContentKept(c, a.content)
    && a.reasoning == c.reasoning
    && a.toolCalls == c.toolCalls
    && a.finishReason == c.finishReason
  }

  /** Calls in the form the translation gives them: a function, type "function", index zero. */
  predicate PlainCalls(calls: seq<ToolCall>) {
    forall t | t in calls :: t.fn.Some? && t.kind == "function" && t.index == 0
  }

  lemma {:induction false} PlainCallsAreKept(calls: seq<ToolCall>)
    ensures KeptCalls(calls) == calls <==> PlainCalls(calls)
    ensures |KeptCalls(calls)| <= |calls|
  {
    if calls != [] {
      PlainCallsAreKept(calls[1..]);
      assert calls == [calls[0]] + calls[1..];
      assert forall t :: t in calls <==> t == calls[0] || t in calls[1..];
      if calls[0].fn.Some? {
        var call := ToolCall(calls[0].id, "function", calls[0].fn, 0);
        assert ([call] + KeptCalls(calls[1..]))[0] == call && ([call] + KeptCalls(calls[1..]))[1..] == KeptCalls(calls[1..]);
      } else {
        assert KeptCalls(calls) == KeptCalls(calls[1..]);
      }
    }
  }

  /**
   A choice survives the trip exactly if it is a plain tool-call choice with nothing else in it, or a
   choice without calls that has a text (or neither content nor a refusal, and stopped), no audio
   unless it says nothing at all, and one of the three finish reasons the other format knows. Content
   that is not a string never survives.
   */
  lemma ChoiceSurvivesIff(c: Choice)
    ensures Preserved(c, AddOutputs(NOTHING, OnWire(ChoiceToOutputs(c)))) <==> Survives(c)
  {
    ChoiceRoundTrip(c);
    PlainCallsAreKept(c.toolCalls);
  }

  /** A list of texts with a usual end: the response arrives with no content at all. */
  lemma ListContentIsLost()
    returns (c: Choice)
    ensures c.content == Parts([Part("text", "hi", None, None)]) && c.finishReason == Stop && !c.audio && c.toolCalls == []
    ensures AddOutputs(NOTHING, OnWire(ChoiceToOutputs(c))) == NOTHING
  {
    c := Choice(Parts([Part("text", "hi", None, None)]), "", "", [], false, Stop);
    ChoiceRoundTrip(c);
  }

  predicate Survives(c: Choice) {
    if c.finishReason == ToolCalls then
      c.toolCalls != [] && PlainCalls(c.toolCalls) && c.content.Absent? && c.reasoning == ""
    else if c.toolCalls != [] then false
    else if c.content.Text? && c.content.s != "" then
      !c.audio && c.finishReason in {Stop, Length, ContentFilter}
    else if c.content.Text? then
      !c.audio && c.refusal != "" && c.finishReason in {Stop, Length, ContentFilter}
    else
      c.content.Absent? && c.finishReason == Stop && (if c.audio then c.reasoning == "" else c.refusal == "")
  }

  /** Without the wire in between, the text of every choice that has one is lost. */
  lemma TextIsLostInMemory(c: Choice)
    requires c.finishReason != ToolCalls && !c.audio && c.content.Text? && c.content.s != ""
    ensures AddOutputs(NOTHING, ChoiceToOutputs(c)).content == Some("")
  {
    var x := ChoiceToOutputs(c);
    var last := x[|x| - 1];
    assert x == x[..|x| - 1] + [last];
    AddOutputsConcat(NOTHING, x[..|x| - 1], [last]);
  }

  /**
   In memory, content comes back exactly when it is absent and nothing is said in its place (with calls,
   with audio, or without a refusal), or when an empty text stands beside a refusal.
   */
  lemma TextSurvivesInMemoryIff(c: Choice)
    ensures ContentKept(c, AddOutputs(NOTHING, ChoiceToOutputs(c)).content) <==>
            if c.content.Text? then c.finishReason != ToolCalls && !c.audio && c.content.s == "" && c.refusal != ""
            else c.content.Absent? && (c.finishReason == ToolCalls || c.audio || c.refusal == "")
  {
    if c.finishReason == ToolCalls {
      CallsSurvive(NOTHING, c.toolCalls);
    } else if !c.audio {
      SpokenInMemory(c);
    }
  }

  /** A choice that says anything comes back with an empty text, any other with no content. */
  lemma SpokenInMemory(c: Choice)
    requires c.finishReason != ToolCalls && !c.audio
    ensures AddOutputs(NOTHING, ChoiceToOutputs(c)).content == if TextOf(c) != "" || c.refusal != "" then Some("") else None
  {
    var x, y := ReasoningOutputs(c), SpeechOutputs(c);
    AddOutputsConcat(NOTHING, x, y);
  }

  // ----- Streamed tool calls -----

  /** The part of a streamed choice that ConvertOpenaiStream reads. */
  datatype StreamChoice = StreamChoice(index: int, role: string, functionCall: Option<Function>, calls: seq<ToolCall>)

  datatype Piece = Piece(id: string, index: int, fn: Function)

  /** A chunk sent to the client: at most one function call or tool call piece, and a finish reason or none. */
  datatype Chunk = Chunk(index: int, role: string, functionCall: Option<Function>, piece: Option<Piece>, finishReason: Option<FinishReason>)

  const FUNCTION_CALL := OtherReason("function_call")

  /** ChatCompletionToolCallsFunction.Split: first the name, then the arguments. */
  function Halves(fn: Function): (Function, Function) {
    (Function(fn.name, ""), Function("", if fn.arguments == "" || fn.arguments == "{}" then "{}" else fn.arguments))
  }

  /** Split for the tool at a position. */
  function Split(c: StreamChoice, fn: Function, firstId: string, at: int): seq<Chunk> {
    [Chunk(c.index, c.role, None, Some(Piece(firstId, at, Halves(fn).0)), None),
     Chunk(c.index, c.role, None, Some(Piece("", at, Halves(fn).1)), None)]
  }

  /** Split for a function call. */
  function SplitFunction(c: StreamChoice, fn: Function): seq<Chunk> {
    [Chunk(c.index, c.role, Some(Halves(fn).0), None, None), Chunk(c.index, c.role, Some(Halves(fn).1), None, None)]
  }

  function SplitFrom(c: StreamChoice, calls: seq<ToolCall>, firstId: string, at: nat): seq<Chunk>
    requires forall t | t in calls :: t.fn.Some?
    decreases |calls|
  {
    if calls == [] then [] else Split(c, calls[0].fn.value, firstId, at) + SplitFrom(c, calls[1..], firstId, at + 1)
  }

  function FirstId(calls: seq<ToolCall>): string {
    if calls == [] then "" else calls[0].id
  }

  function LastChunk(c: StreamChoice, stop: FinishReason): Chunk {
    Chunk(c.index, "", None, None, Some(stop))
  }

  /** A function call goes before any tool calls, which are then dropped. */
  function Streamed(c: StreamChoice): seq<Chunk>
    requires forall t | t in c.calls :: t.fn.Some?
  {
    if c.functionCall.Some? then SplitFunction(c, c.functionCall.value) + [LastChunk(c, FUNCTION_CALL)]
    else SplitFrom(c, c.calls, FirstId(c.calls), 0) + [LastChunk(c, ToolCalls)]
  }

  /** ChatCompletionStreamChoice.ConvertOpenaiStream; a tool without a function ends in a nil dereference. */
  method ConvertOpenaiStream(c: StreamChoice) returns (chunks: seq<Chunk>)
    requires forall t | t in c.calls :: t.fn.Some?
    ensures chunks == Streamed(c)
  {
    var stopFinish := ToolCalls;
    if c.functionCall.Some? {
      stopFinish := FUNCTION_CALL;
      chunks := SplitFunction(c, c.functionCall.value);
    } else {
      chunks := [];
      ghost var firstId := FirstId(c.calls);
      assert [] + SplitFrom(c, c.calls, firstId, 0) == SplitFrom(c, c.calls, firstId, 0);
      for i := 0 to |c.calls|
        invariant chunks + SplitFrom(c, c.calls[i..], firstId, i) == SplitFrom(c, c.calls, firstId, 0)
      {
        var split := Split(c, c.calls[i].fn.value, c.calls[0].id, i);
        NextSplit(c, i, chunks);
        chunks := chunks + split;
      }
    }
    chunks := chunks + [LastChunk(c, stopFinish)];
  }

  /** One turn of that loop. */
  lemma NextSplit(c: StreamChoice, i: nat, chunks: seq<Chunk>)
    requires (forall t | t in c.calls :: t.fn.Some?) && i < |c.calls|
    ensures chunks + SplitFrom(c, c.calls[i..], FirstId(c.calls), i)
         == (chunks + Split(c, c.calls[i].fn.value, c.calls[0].id, i)) + SplitFrom(c, c.calls[i + 1..], FirstId(c.calls), i + 1)
  {
    var split, rest := Split(c, c.calls[i].fn.value, c.calls[0].id, i), SplitFrom(c, c.calls[i + 1..], FirstId(c.calls), i + 1);
    assert c.calls[i..][0] == c.calls[i] && c.calls[i..][1..] == c.calls[i + 1..];
    assert chunks + (split + rest) == (chunks + split) + rest;
  }

  /** What a client puts together for a position from the chunks it receives. */
  function Reassemble(chunks: seq<Chunk>, at: int): Piece {
    if chunks == [] then Piece("", at, Function("", ""))
    else
      var rest := Reassemble(chunks[1..], at);
      if chunks[0].piece.Some? && chunks[0].piece.value.index == at then
        var p := chunks[0].piece.value;
        Piece(p.id + rest.id, at, Function(p.fn.name + rest.fn.name, p.fn.arguments + rest.fn.arguments))
      else rest
  }

  /** The same for a function call. */
  function ReassembleFunction(chunks: seq<Chunk>): Function {
    if chunks == [] then Function("", "")
    else
      var rest := ReassembleFunction(chunks[1..]);
      if chunks[0].functionCall.Some? then
        var f := chunks[0].functionCall.value;
        Function(f.name + rest.name, f.arguments + rest.arguments)
      else rest
  }

  lemma {:induction false} ReassembleOthers(c: StreamChoice, calls: seq<ToolCall>, firstId: string, from: nat, tail: seq<Chunk>, at: int)
    requires (forall t | t in calls :: t.fn.Some?) && at < from
    ensures Reassemble(SplitFrom(c, calls, firstId, from) + tail, at) == Reassemble(tail, at)
    decreases |calls|
  {
    var chunks := SplitFrom(c, calls, firstId, from) + tail;
    if calls == [] {
      assert chunks == tail;
    } else {
      var rest := SplitFrom(c, calls[1..], firstId, from + 1) + tail;
      assert chunks[2..] == rest && chunks[1..][1..] == chunks[2..];
      ReassembleOthers(c, calls[1..], firstId, from + 1, tail, at);
    }
  }

  function ArgumentsOf(fn: Function): string {
    if fn.arguments == "" then "{}" else fn.arguments
  }

  /** The two chunks of one tool in front of others. */
  lemma ReassembleSplit(c: StreamChoice, fn: Function, firstId: string, from: int, rest: seq<Chunk>, at: int)
    ensures Reassemble(Split(c, fn, firstId, from) + rest, at)
         == var r := Reassemble(rest, at);
            if from != at then r
            else Piece(firstId + ("" + r.id), at, Function(fn.name + ("" + r.fn.name), "" + (ArgumentsOf(fn) + r.fn.arguments)))
  {
    var chunks := Split(c, fn, firstId, from) + rest;
    assert chunks[1..][1..] == rest;
  }

  lemma {:induction false} ReassembleOne(c: StreamChoice, calls: seq<ToolCall>, firstId: string, from: nat, k: nat)
    requires (forall t | t in calls :: t.fn.Some?) && k < |calls|
    ensures Reassemble(SplitFrom(c, calls, firstId, from) + [LastChunk(c, ToolCalls)], from + k)
         == Piece(firstId, from + k, Function(calls[k].fn.value.name, ArgumentsOf(calls[k].fn.value)))
    decreases |calls|
  {
    var last := [LastChunk(c, ToolCalls)];
    var fn := calls[0].fn.value;
    var split, others := Split(c, fn, firstId, from), SplitFrom(c, calls[1..], firstId, from + 1);
    assert (split + others) + last == split + (others + last);
    ReassembleSplit(c, fn, firstId, from, others + last, from + k);
    if k > 0 {
      ReassembleOne(c, calls[1..], firstId, from + 1, k - 1);
    } else {
      ReassembleOthers(c, calls[1..], firstId, from + 1, last, from);
      assert last[1..] == [];
    }
  }

  /**
   A client gets back every tool's name and arguments, empty arguments as an empty object; but every
   tool carries the id of the first one, so ids survive exactly if they are all the same.
   */
  lemma StreamReassembles(c: StreamChoice, chunks: seq<Chunk>)
    requires (forall t | t in c.calls :: t.fn.Some?) && c.functionCall == None && c.calls != [] && chunks == Streamed(c)
    ensures forall k | 0 <= k < |c.calls| ::
              Reassemble(chunks, k).fn == Function(c.calls[k].fn.value.name, ArgumentsOf(c.calls[k].fn.value))
    ensures (forall k | 0 <= k < |c.calls| :: Reassemble(chunks, k).id == c.calls[k].id) <==>
            (forall k | 0 <= k < |c.calls| :: c.calls[k].id == c.calls[0].id)
  {
    forall k | 0 <= k < |c.calls|
      ensures Reassemble(chunks, k) == Piece(c.calls[0].id, k, Function(c.calls[k].fn.value.name, ArgumentsOf(c.calls[k].fn.value)))
    {
      ReassembleOne(c, c.calls, c.calls[0].id, 0, k);
    }
  }

  /** A function call comes back whole, and the tool calls beside it, if any, are not sent. */
  lemma StreamedFunctionReassembles(c: StreamChoice, at: int)
    requires (forall t | t in c.calls :: t.fn.Some?) && c.functionCall.Some?
    ensures ReassembleFunction(Streamed(c)) == Function(c.functionCall.value.name, ArgumentsOf(c.functionCall.value))
    ensures Reassemble(Streamed(c), at) == Piece("", at, Function("", ""))
  {
    var split, last := SplitFunction(c, c.functionCall.value), [LastChunk(c, FUNCTION_CALL)];
    assert (split + last)[1..] == [split[1]] + last && ([split[1]] + last)[1..] == last && last[1..] == [];
    assert ReassembleFunction(last) == Function("", "") && Reassemble(last, at) == Piece("", at, Function("", ""));
    assert ReassembleFunction([split[1]] + last) == Function("" + "", ArgumentsOf(c.functionCall.value) + "");
  }

  /** Every chunk carries the choice's index, every chunk but the last its role, and only the last a finish reason. */
  lemma StreamedChunks(c: StreamChoice)
    requires forall t | t in c.calls :: t.fn.Some?
    ensures var chunks := Streamed(c);
            chunks != [] && chunks[|chunks| - 1] == LastChunk(c, if c.functionCall.Some? then FUNCTION_CALL else ToolCalls)
            && forall i | 0 <= i < |chunks| - 1 :: Labelled(c, chunks[i])
  {
    if c.functionCall == None {
      SplitIsLabelled(c, c.calls, FirstId(c.calls), 0);
    }
  }

  predicate Labelled(c: StreamChoice, chunk: Chunk) {
    chunk.index == c.index && chunk.role == c.role && chunk.finishReason == None
  }

  lemma {:induction false} SplitIsLabelled(c: StreamChoice, calls: seq<ToolCall>, firstId: string, at: nat)
    requires forall t | t in calls :: t.fn.Some?
    ensures forall i | 0 <= i < |SplitFrom(c, calls, firstId, at)| :: Labelled(c, SplitFrom(c, calls, firstId, at)[i])
    decreases |calls|
  {
    if calls != [] {
      SplitIsLabelled(c, calls[1..], firstId, at + 1);
    }
  }
}
