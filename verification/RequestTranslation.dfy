/**
 Chat requests as Responses requests and back (types/chat.go, types/responses.go).

 Dynamically typed content is modelled in its decoded wire form: absent, a string, a list of parts, or
 any other JSON value. JSON encoding itself is taken to round-trip.
 */
module RequestTranslation {
  import opened Options

  datatype Result<+T, +E> = Success(value: T) | Failure(error: E)

  // ----- Chat side -----

  datatype ImageUrl = ImageUrl(url: string, detail: string)
  datatype File = File(name: string, data: string)
  datatype Part = Part(kind: string, text: string, image: Option<ImageUrl>, file: Option<File>)
  datatype Content = Absent | Text(s: string) | Parts(parts: seq<Part>) | Other(json: string)

  datatype Function = Function(name: string, arguments: string)
  datatype ToolCall = ToolCall(id: string, kind: string, fn: Option<Function>, index: int)
  datatype Message = Message(role: string, content: Content, toolCalls: seq<Option<ToolCall>>, toolCallId: string)

  datatype FunctionTool = FunctionTool(name: string, description: string, parameters: Option<string>, strict: Option<bool>)

  /** A tool in Responses form; `rest` stands for all fields that function tools do not use. */
  datatype FlatTool = FlatTool(kind: string, name: string, description: string, parameters: Option<string>, strict: Option<bool>, rest: string)

  const NO_FLAT_TOOL := FlatTool("", "", "", None, None, "")

  /** A chat tool: a nested function, and the flat form embedded beside it. */
  datatype Tool = Tool(kind: string, fn: FunctionTool, flat: FlatTool)

  datatype Schema = Schema(name: string, description: string, schema: Option<string>, strict: Option<string>)
  datatype ResponseFormat = ResponseFormat(kind: string, schema: Option<Schema>)

  datatype ChatReasoning = ChatReasoning(effort: string, summary: Option<string>)

  datatype ChatRequest = ChatRequest(
    model: string,
    messages: seq<Message>,
    maxTokens: int,
    maxCompletionTokens: int,
    parallelToolCalls: bool,
    stream: bool,
    temperature: Option<real>,
    topP: Option<real>,
    toolChoice: Content,
    tools: seq<Tool>,
    responseFormat: Option<ResponseFormat>,
    verbosity: string,
    reasoning: Option<ChatReasoning>,
    reasoningEffort: Option<string>
  )

  // ----- Responses side -----

  datatype ContentItem = ContentItem(kind: string, text: string, detail: string, fileId: string, imageUrl: string, fileData: string, fileName: string)
  datatype ItemContent = NoContent | TextContent(s: string) | Items(items: seq<ContentItem>)

  /** An entry of the input list; the fields that only other kinds of entries use are left out. */
  datatype InputItem = InputItem(kind: string, role: string, content: ItemContent, callId: string, name: string, arguments: string, output: Content)

  datatype Input = NoInput | TextInput(s: string) | InputItems(items: seq<InputItem>)

  datatype TextFormat = TextFormat(kind: string, schema: Schema)
  datatype ResponsesText = ResponsesText(format: Option<TextFormat>, verbosity: string)
  datatype Reasoning = Reasoning(effort: Option<string>, summary: Option<string>)

  datatype ResponsesRequest = ResponsesRequest(
    model: string,
    input: Input,
    instructions: string,
    maxOutputTokens: int,
    parallelToolCalls: bool,
    stream: bool,
    temperature: Option<real>,
    topP: Option<real>,
    toolChoice: Content,
    tools: seq<FlatTool>,
    text: Option<ResponsesText>,
    reasoning: Option<Reasoning>
  )

  const NO_SCHEMA := Schema("", "", None, None)

  /** What a request is refused for. */
  datatype Error = ContentMissing | ImageWithoutSource | FileWithoutData | ContentsEmpty

  // ----- From chat to Responses -----

  /** ChatCompletionMessage.ParseContent: other JSON values decode to no parts. */
  function ParseContent(content: Content): seq<Part> {
    match content
    case Text(s) => [Part("text", s, None, None)]
    case Parts(parts) => parts
    case _ => []
  }

  function PartToItems(role: string, p: Part): seq<ContentItem> {
    if p.kind == "image_url" then
      if p.image == None then [] else [ContentItem("input_image", "", "", "", p.image.value.url, "", "")]
    else if p.kind == "text" then
      [ContentItem(if role == "assistant" then "output_text" else "input_text", p.text, "", "", "", "", "")]
    else []
  }

  function PartsToItems(role: string, parts: seq<Part>): seq<ContentItem> {
    if parts == [] then [] else PartToItems(role, parts[0]) + PartsToItems(role, parts[1..])
  }

  function CallToItems(call: Option<ToolCall>): seq<InputItem> {
    if call == None || call.value.fn == None then []
    else [InputItem("function_call", "", NoContent, call.value.id, call.value.fn.value.name, call.value.fn.value.arguments, Absent)]
  }

  function CallsToItems(calls: seq<Option<ToolCall>>): seq<InputItem> {
    if calls == [] then [] else CallToItems(calls[0]) + CallsToItems(calls[1..])
  }

  function MessageToItems(m: Message): seq<InputItem> {
    if m.toolCalls != [] then CallsToItems(m.toolCalls)
    else if m.toolCallId != "" then [InputItem("function_call_output", "", NoContent, m.toolCallId, "", "", m.content)]
    else
      var items := PartsToItems(m.role, ParseContent(m.content));
      if items == [] then [] else [InputItem("message", m.role, Items(items), "", "", "", Absent)]
  }

  function MessagesToItems(messages: seq<Message>): seq<InputItem> {
    if messages == [] then [] else MessageToItems(messages[0]) + MessagesToItems(messages[1..])
  }

  function ToFlat(t: Tool): FlatTool {
    if t.kind == "function" && t.fn.name != "" then
      FlatTool(t.kind, t.fn.name, t.fn.description, t.fn.parameters, t.fn.strict, "")
    else t.flat.(kind := t.kind)
  }

  function ToFlats(tools: seq<Tool>): seq<FlatTool> {
    if tools == [] then [] else [ToFlat(tools[0])] + ToFlats(tools[1..])
  }

  function ToText(c: ChatRequest): Option<ResponsesText> {
    if c.responseFormat == None && c.verbosity == "" then None
    else
      var format := match c.responseFormat
                    case None => None
                    case Some(f) => if f.kind == "" then None
                                    else Some(TextFormat(f.kind, if f.schema.Some? then f.schema.value else NO_SCHEMA));
      Some(ResponsesText(format, c.verbosity))
  }

  function ToReasoning(c: ChatRequest): Option<Reasoning> {
    match c.reasoning
    case Some(r) => Some(Reasoning(if r.effort != "" then Some(r.effort) else None, r.summary))
    case None => if c.reasoningEffort.Some? then Some(Reasoning(c.reasoningEffort, None)) else None
  }

  /** ChatCompletionRequest.ToResponsesRequest. */
  function ToResponsesRequest(c: ChatRequest): ResponsesRequest {
    var items := MessagesToItems(c.messages);
    ResponsesRequest(
      c.model,
      if items == [] then NoInput else InputItems(items),
      "",
      if c.maxCompletionTokens > 0 && c.maxTokens == 0 then c.maxCompletionTokens else c.maxTokens,
      c.parallelToolCalls, c.stream, c.temperature, c.topP, c.toolChoice,
      ToFlats(c.tools),
      ToText(c),
      ToReasoning(c)
    )
  }

  // ----- From Responses to chat -----

  /** ContentResponses.ToChatContent: unknown kinds are dropped. */
  function ToChatContent(i: ContentItem): Result<Option<Part>, Error> {
    if i.kind == "input_text" || i.kind == "output_text" then Success(Some(Part("text", i.text, None, None)))
    else if i.kind == "input_image" then
      if i.fileId == "" && i.imageUrl == "" then Failure(ImageWithoutSource)
      else Success(Some(Part("image_url", "", Some(ImageUrl(i.imageUrl, i.detail)), None)))
    else if i.kind == "input_file" then
      if i.fileData == "" && i.fileName == "" then Failure(FileWithoutData)
      else Success(Some(Part("file", "", None, Some(File(i.fileName, i.fileData)))))
    else Success(None)
  }

  /** More elements in front of a result, unless it is an error. */
  function Prepend<T>(a: seq<T>, r: Result<seq<T>, Error>): Result<seq<T>, Error> {
    if r.Failure? then r else Success(a + r.value)
  }

  lemma PrependTwice<T>(a: seq<T>, b: seq<T>, r: Result<seq<T>, Error>)
    ensures Prepend(a, Prepend(b, r)) == Prepend(a + b, r)
    ensures Prepend([], r) == r
  {
    if r.Success? {
      assert a + (b + r.value) == (a + b) + r.value;
      assert [] + r.value == r.value;
    }
  }

  function ItemsToParts(items: seq<ContentItem>): Result<seq<Part>, Error> {
    if items == [] then Success([])
    else
      var head := ToChatContent(items[0]);
      if head.Failure? then Failure(head.error)
      else Prepend(if head.value.Some? then [head.value.value] else [], ItemsToParts(items[1..]))
  }

  /** One input item as no message or one, or the error it is refused with. */
  function ItemToMessages(i: InputItem): Result<seq<Message>, Error> {
    if i.kind == "message" || i.kind == "" then
      if i.content == NoContent then Failure(ContentMissing)
      else
        var items := match i.content
                     case TextContent(s) => [ContentItem("input_text", s, "", "", "", "", "")]
                     case Items(items) => items;
        var parts := ItemsToParts(items);
        if parts.Failure? then Failure(parts.error)
        else if parts.value == [] then Failure(ContentsEmpty)
        else Success([Message(i.role, Parts(parts.value), [], "")])
    else if i.kind == "function_call" then
      Success([Message("assistant", Absent, [Some(ToolCall(i.callId, "function", Some(Function(i.name, i.arguments)), 0))], "")])
    else if i.kind == "function_call_output" then
      Success([Message("tool", i.output, [], i.callId)])
    else Success([])
  }

  function ItemsToMessages(items: seq<InputItem>): Result<seq<Message>, Error> {
    if items == [] then Success([])
    else
      var head := ItemToMessages(items[0]);
      if head.Failure? then head else Prepend(head.value, ItemsToMessages(items[1..]))
  }

  /** OpenAIResponsesRequest.ParseInput. */
  function ParseInput(input: Input): seq<InputItem> {
    match input
    case NoInput => []
    case TextInput(s) => [InputItem("message", "user", TextContent(s), "", "", "", Absent)]
    case InputItems(items) => items
  }

  /** OpenAIResponsesRequest.InputToMessages. */
  function InputToMessages(r: ResponsesRequest): Result<seq<Message>, Error> {
    var messages := ItemsToMessages(ParseInput(r.input));
    if messages.Failure? || r.instructions == "" then messages
    else Success([Message("system", Text(r.instructions), [], "")] + messages.value)
  }

  function ToTools(flats: seq<FlatTool>): seq<Tool> {
    if flats == [] then []
    else
      (if flats[0].kind == "function" then
         [Tool(flats[0].kind, FunctionTool(flats[0].name, flats[0].description, flats[0].parameters, flats[0].strict), NO_FLAT_TOOL)]
       else [])
      + ToTools(flats[1..])
  }

  function ToFormat(text: Option<ResponsesText>): Option<ResponseFormat> {
    if text == None || text.value.format == None then None
    else
      var f := text.value.format.value;
      Some(ResponseFormat(f.kind, if f.kind == "json_schema" then Some(f.schema) else None))
  }

  /** OpenAIResponsesRequest.ToChatCompletionRequest. */
  function ToChatCompletionRequest(r: ResponsesRequest): Result<ChatRequest, Error> {
    var messages := InputToMessages(r);
    if messages.Failure? then Failure(messages.error)
    else Success(ChatRequest(r.model, messages.value, r.maxOutputTokens, 0, r.parallelToolCalls, r.stream, r.temperature,
                             r.topP, r.toolChoice, ToTools(r.tools), ToFormat(r.text), "", None, None))
  }

  function Trip(c: ChatRequest): Result<ChatRequest, Error> {
    ToChatCompletionRequest(ToResponsesRequest(c))
  }

  // ----- What is on the wire -----

  /** The parts that have a form on the wire: texts, and images with a source. */
  predicate IsSent(p: Part) {
    p.kind == "text" || (p.kind == "image_url" && p.image.Some?)
  }

  function SentParts(parts: seq<Part>): seq<Part> {
    if parts == [] then [] else (if IsSent(parts[0]) then [parts[0]] else []) + SentParts(parts[1..])
  }

  /** How a part is sent in a message of a role; the assistant's texts are output, all others input. */
  predicate PartOnWire(role: string, p: Part, item: ContentItem) {
    && (item.kind == "output_text" <==> p.kind == "text" && role == "assistant")
    && (item.kind == "input_text" <==> p.kind == "text" && role != "assistant")
    && (item.kind == "input_image" <==> p.kind == "image_url")
    && item.text == (if p.kind == "text" then p.text else "")
    && item.imageUrl == (if p.kind == "image_url" && p.image.Some? then p.image.value.url else "")
    && item.detail == item.fileId == item.fileData == item.fileName == ""
  }

  lemma KindsDiffer()
    ensures "text" != "image_url" && "output_text" != "input_text" && "output_text" != "input_image" && "input_text" != "input_image"
    ensures "input_file" != "output_text" && "input_file" != "input_text" && "input_file" != "input_image"
  {
    assert "text"[0] != "image_url"[0] && "output_text"[0] != "input_text"[0];
    assert "input_text"[6] != "input_image"[6] && "input_file"[6] != "input_text"[6] && "input_file"[7] != "input_image"[7];
  }

  lemma OnePartOnWire(role: string, p: Part)
    ensures if IsSent(p) then |PartToItems(role, p)| == 1 && PartOnWire(role, p, PartToItems(role, p)[0]) else PartToItems(role, p) == []
  {
    KindsDiffer();
  }

  lemma {:induction false} PartsOnWire(role: string, parts: seq<Part>)
    ensures
      var sent, items := SentParts(parts), PartsToItems(role, parts);
      |items| == |sent| && forall i :: 0 <= i < |items| ==> PartOnWire(role, sent[i], items[i])
  {
    if parts != [] {
      OnePartOnWire(role, parts[0]);
      PartsOnWire(role, parts[1..]);
    }
  }

  /** What an entry of the input list comes from: a call of a tool, a tool's answer, or a message with something to send. */
  datatype Source = Called(call: ToolCall) | Answered(message: Message) | Said(message: Message)

  function CallSources(calls: seq<Option<ToolCall>>): seq<Source> {
    if calls == [] then []
    else (if calls[0].Some? && calls[0].value.fn.Some? then [Called(calls[0].value)] else []) + CallSources(calls[1..])
  }

  function Sources(messages: seq<Message>): seq<Source> {
    if messages == [] then []
    else
      var m := messages[0];
      (if m.toolCalls != [] then CallSources(m.toolCalls)
       else if m.toolCallId != "" then [Answered(m)]
       else if SentParts(ParseContent(m.content)) != [] then [Said(m)]
       else [])
      + Sources(messages[1..])
  }

  predicate EntryOnWire(source: Source, item: InputItem) {
    match source
    case Called(call) =>
      && item.kind == "function_call" && item.callId == call.id && call.fn.Some?
      && item.name == call.fn.value.name && item.arguments == call.fn.value.arguments && item.content == NoContent
    case Answered(m) =>
      item.kind == "function_call_output" && item.callId == m.toolCallId && item.output == m.content && item.content == NoContent
    case Said(m) =>
      && item.kind == "message" && item.role == m.role && item.content.Items?
      && var sent, items := SentParts(ParseContent(m.content)), item.content.items;
         |items| == |sent| && forall i :: 0 <= i < |items| ==> PartOnWire(m.role, sent[i], items[i])
  }

  predicate EntriesOnWire(sources: seq<Source>, items: seq<InputItem>) {
    |items| == |sources| && forall i :: 0 <= i < |items| ==> EntryOnWire(sources[i], items[i])
  }

  lemma {:induction false} CallsOnWire(calls: seq<Option<ToolCall>>)
    ensures EntriesOnWire(CallSources(calls), CallsToItems(calls))
  {
    if calls != [] {
      CallsOnWire(calls[1..]);
    }
  }

  lemma {:induction false} MessagesOnWire(messages: seq<Message>)
    ensures EntriesOnWire(Sources(messages), MessagesToItems(messages))
  {
    if messages != [] {
      MessagesOnWire(messages[1..]);
      CallsOnWire(messages[0].toolCalls);
      PartsOnWire(messages[0].role, ParseContent(messages[0].content));
    }
  }

  /** A function tool by its nested function, if that has a name; any other as its flat form. */
  predicate ToolOnWire(t: Tool, flat: FlatTool) {
    && flat.kind == t.kind
    && (if t.kind == "function" && t.fn.name != "" then
          flat.name == t.fn.name && flat.description == t.fn.description && flat.parameters == t.fn.parameters && flat.strict == t.fn.strict
        else
          flat.name == t.flat.name && flat.description == t.flat.description && flat.parameters == t.flat.parameters
          && flat.strict == t.flat.strict && flat.rest == t.flat.rest)
  }

  lemma {:induction false} ToolsOnWire(tools: seq<Tool>)
    ensures |ToFlats(tools)| == |tools| && forall i :: 0 <= i < |tools| ==> ToolOnWire(tools[i], ToFlats(tools)[i])
  {
    if tools != [] {
      ToolsOnWire(tools[1..]);
    }
  }

  /** The reasoning object goes before the plain effort; an empty effort is not sent. */
  predicate ReasoningOnWire(c: ChatRequest, r: Option<Reasoning>) {
    && (r == None <==> c.reasoning == None && c.reasoningEffort == None)
    && (r.Some? ==> r.value.summary == (if c.reasoning.Some? then c.reasoning.value.summary else None))
    && (r.Some? && c.reasoning.Some? ==>
          (r.value.effort == None <==> c.reasoning.value.effort == "")
          && (r.value.effort.Some? ==> r.value.effort.value == c.reasoning.value.effort))
    && (r.Some? && c.reasoning == None ==> r.value.effort == c.reasoningEffort)
  }

  /** The Responses request that is sent, field by field. */
  lemma RequestOnWire(c: ChatRequest)
    ensures
      var r := ToResponsesRequest(c);
      && r.model == c.model && r.stream == c.stream && r.parallelToolCalls == c.parallelToolCalls
      && r.temperature == c.temperature && r.topP == c.topP && r.toolChoice == c.toolChoice && r.instructions == ""
      && r.maxOutputTokens == (if c.maxTokens == 0 && c.maxCompletionTokens > 0 then c.maxCompletionTokens else c.maxTokens)
      && (if Sources(c.messages) == [] then r.input == NoInput
          else r.input.InputItems? && EntriesOnWire(Sources(c.messages), r.input.items))
    ensures
      var tools := ToResponsesRequest(c).tools;
      |tools| == |c.tools| && forall i :: 0 <= i < |tools| ==> ToolOnWire(c.tools[i], tools[i])
    ensures
      var text := ToResponsesRequest(c).text;
      && (text == None <==> c.responseFormat == None && c.verbosity == "")
      && (text.Some? ==> text.value.verbosity == c.verbosity)
      && (text.Some? ==> (text.value.format.Some? <==> c.responseFormat.Some? && c.responseFormat.value.kind != ""))
      && (text.Some? && text.value.format.Some? ==>
            text.value.format.value.kind == c.responseFormat.value.kind &&
            (c.responseFormat.value.schema.Some? ==> text.value.format.value.schema == c.responseFormat.value.schema.value))
    ensures ReasoningOnWire(c, ToResponsesRequest(c).reasoning)
  {
    MessagesOnWire(c.messages);
    ToolsOnWire(c.tools);
  }

  // ----- A request that starts in Responses form -----

  predicate IsText(i: ContentItem) {
    i.kind == "input_text" || i.kind == "output_text"
  }

  /** An image or a file with nothing to show for it. */
  predicate IsHollow(i: ContentItem) {
    (i.kind == "input_image" && i.fileId == "" && i.imageUrl == "") || (i.kind == "input_file" && i.fileData == "" && i.fileName == "")
  }

  predicate IsKnown(i: ContentItem) {
    IsText(i) || i.kind == "input_image" || i.kind == "input_file"
  }

  predicate PartRead(i: ContentItem, p: Part) {
    if IsText(i) then p == Part("text", i.text, None, None)
    else if i.kind == "input_image" then p == Part("image_url", "", Some(ImageUrl(i.imageUrl, i.detail)), None)
    else p == Part("file", "", None, Some(File(i.fileName, i.fileData)))
  }

  function KnownItems(items: seq<ContentItem>): seq<ContentItem> {
    if items == [] then [] else (if IsKnown(items[0]) then [items[0]] else []) + KnownItems(items[1..])
  }

  lemma ItemRead(i: ContentItem)
    ensures
      match ToChatContent(i)
      case Failure(error) => IsHollow(i) && error == if i.kind == "input_image" then ImageWithoutSource else FileWithoutData
      case Success(None) => !IsHollow(i) && !IsKnown(i)
      case Success(Some(p)) => !IsHollow(i) && IsKnown(i) && PartRead(i, p)
  {
    KindsDiffer();
  }

  /** The error of the first hollow item. */
  ghost predicate FirstHollow(items: seq<ContentItem>, error: Error) {
    exists k :: 0 <= k < |items| && IsHollow(items[k]) && (forall j :: 0 <= j < k ==> !IsHollow(items[j]))
      && error == if items[k].kind == "input_image" then ImageWithoutSource else FileWithoutData
  }

  lemma HollowLater(items: seq<ContentItem>, error: Error)
    requires items != [] && !IsHollow(items[0]) && FirstHollow(items[1..], error)
    ensures FirstHollow(items, error)
  {
    var rest := items[1..];
    var k :| 0 <= k < |rest| && IsHollow(rest[k]) && (forall j :: 0 <= j < k ==> !IsHollow(rest[j]))
      && error == if rest[k].kind == "input_image" then ImageWithoutSource else FileWithoutData;
    assert items[k + 1] == rest[k] && forall j :: 0 < j < k + 1 ==> items[j] == rest[j - 1];
  }

  /** Content is refused for its first hollow item, and otherwise read item by item, unknown kinds left out. */
  lemma {:induction false} PartsRead(items: seq<ContentItem>)
    ensures
      var known := KnownItems(items);
      match ItemsToParts(items)
      case Failure(error) => FirstHollow(items, error)
      case Success(parts) =>
        && (forall i | i in items :: !IsHollow(i))
        && |parts| == |known| && forall i :: 0 <= i < |known| ==> PartRead(known[i], parts[i])
  {
    if items != [] {
      ItemRead(items[0]);
      PartsRead(items[1..]);
      if !IsHollow(items[0]) && ItemsToParts(items[1..]).Failure? {
        HollowLater(items, ItemsToParts(items[1..]).error);
      }
    }
  }

  /** What a message says: a plain string counts as one text. */
  function ContentOf(i: InputItem): seq<ContentItem> {
    match i.content
    case NoContent => []
    case TextContent(s) => [ContentItem("input_text", s, "", "", "", "", "")]
    case Items(items) => items
  }

  predicate IsMessage(i: InputItem) {
    i.kind == "message" || i.kind == ""
  }

  predicate IsRead(i: InputItem) {
    IsMessage(i) || i.kind == "function_call" || i.kind == "function_call_output"
  }

  /** Without content, with a hollow item, or with nothing of a known kind. */
  predicate IsRefused(i: InputItem) {
    IsMessage(i) && (KnownItems(ContentOf(i)) == [] || exists x | x in ContentOf(i) :: IsHollow(x))
  }

  predicate MessageRead(i: InputItem, m: Message) {
    if IsMessage(i) then
      && m.role == i.role && m.toolCalls == [] && m.toolCallId == "" && m.content.Parts?
      && var known, parts := KnownItems(ContentOf(i)), m.content.parts;
         |parts| == |known| && forall k :: 0 <= k < |known| ==> PartRead(known[k], parts[k])
    else if i.kind == "function_call" then
      m == Message("assistant", Absent, [Some(ToolCall(i.callId, "function", Some(Function(i.name, i.arguments)), 0))], "")
    else m == Message("tool", i.output, [], i.callId)
  }

  function ReadItems(items: seq<InputItem>): seq<InputItem> {
    if items == [] then [] else (if IsRead(items[0]) then [items[0]] else []) + ReadItems(items[1..])
  }

  lemma EntryRead(i: InputItem)
    ensures ItemToMessages(i).Failure? <==> IsRefused(i)
    ensures
      var r := ItemToMessages(i);
      r.Success? ==> if IsRead(i) then |r.value| == 1 && MessageRead(i, r.value[0]) else r.value == []
  {
    PartsRead(ContentOf(i));
  }

  lemma {:induction false} MessagesRead(items: seq<InputItem>)
    ensures ItemsToMessages(items).Failure? <==> exists i | i in items :: IsRefused(i)
    ensures
      ItemsToMessages(items).Success? ==> AllRead(ReadItems(items), ItemsToMessages(items).value)
  {
    if items != [] {
      EntryRead(items[0]);
      MessagesRead(items[1..]);
      assert forall i :: i in items <==> i == items[0] || i in items[1..];
    }
  }

  /** The entries of an input; a plain string is what a user says. */
  function EntriesOf(input: Input): seq<InputItem> {
    match input
    case NoInput => []
    case TextInput(s) => [InputItem("message", "user", TextContent(s), "", "", "", Absent)]
    case InputItems(items) => items
  }

  /**
   A request in Responses form is refused exactly for a message without content of a known kind or with a
   hollow item; otherwise the instructions come first, as the system's message, and then every known entry
   in order.
   */
  lemma ResponsesRequestRead(r: ResponsesRequest)
    ensures
      var items := EntriesOf(r.input);
      match ToChatCompletionRequest(r)
      case Failure(_) => exists i | i in items :: IsRefused(i)
      case Success(c) =>
        && (forall i | i in items :: !IsRefused(i))
        && MessagesAre(r.instructions, ReadItems(items), c.messages)
  {
    MessagesRead(EntriesOf(r.input));
    if InputToMessages(r).Success? {
      InstructionsFirst(r.instructions, ReadItems(EntriesOf(r.input)), ItemsToMessages(ParseInput(r.input)).value);
    }
  }

  lemma InstructionsFirst(instructions: string, read: seq<InputItem>, messages: seq<Message>)
    requires AllRead(read, messages)
    ensures MessagesAre(instructions, read,
                        if instructions == "" then messages else [Message("system", Text(instructions), [], "")] + messages)
  {
    assert messages[0..] == messages;
    assert ([Message("system", Text(instructions), [], "")] + messages)[1..] == messages;
  }

  predicate AllRead(read: seq<InputItem>, messages: seq<Message>) {
    |messages| == |read| && forall i :: 0 <= i < |read| ==> MessageRead(read[i], messages[i])
  }

  predicate MessagesAre(instructions: string, read: seq<InputItem>, messages: seq<Message>) {
    var first := if instructions == "" then 0 else 1;
    && |messages| >= first
    && (first == 1 ==> messages[0] == Message("system", Text(instructions), [], ""))
    && AllRead(read, messages[first..])
  }

  function FunctionFlats(flats: seq<FlatTool>): seq<FlatTool> {
    if flats == [] then [] else (if flats[0].kind == "function" then [flats[0]] else []) + FunctionFlats(flats[1..])
  }

  predicate ToolRead(flat: FlatTool, t: Tool) {
    t.kind == "function" && t.flat == NO_FLAT_TOOL
    && t.fn.name == flat.name && t.fn.description == flat.description && t.fn.parameters == flat.parameters && t.fn.strict == flat.strict
  }

  lemma {:induction false} ToolsRead(flats: seq<FlatTool>)
    ensures
      var read, tools := FunctionFlats(flats), ToTools(flats);
      |tools| == |read| && forall i :: 0 <= i < |read| ==> ToolRead(read[i], tools[i])
  {
    if flats != [] {
      ToolsRead(flats[1..]);
    }
  }

  /** Its other fields are carried over; reasoning and verbosity are not, and a schema only with its own kind. */
  lemma ResponsesFieldsRead(r: ResponsesRequest)
    requires ToChatCompletionRequest(r).Success?
    ensures
      var c := ToChatCompletionRequest(r).value;
      && c.model == r.model && c.stream == r.stream && c.parallelToolCalls == r.parallelToolCalls
      && c.temperature == r.temperature && c.topP == r.topP && c.toolChoice == r.toolChoice
      && c.maxTokens == r.maxOutputTokens && c.maxCompletionTokens == 0
      && c.reasoning == None && c.reasoningEffort == None && c.verbosity == ""
    ensures
      var read, tools := FunctionFlats(r.tools), ToChatCompletionRequest(r).value.tools;
      |tools| == |read| && forall i :: 0 <= i < |read| ==> ToolRead(read[i], tools[i])
    ensures
      var format := ToChatCompletionRequest(r).value.responseFormat;
      && (format.Some? <==> r.text.Some? && r.text.value.format.Some?)
      && (format.Some? ==>
            && format.value.kind == r.text.value.format.value.kind
            && (format.value.schema.Some? <==> format.value.kind == "json_schema")
            && (format.value.schema.Some? ==> format.value.schema.value == r.text.value.format.value.schema))
  {
    ToolsRead(r.tools);
  }

  // ----- The normal form -----

  /** Text and image parts are kept in order, without the image detail; other parts are dropped. */
  function NormalParts(parts: seq<Part>): seq<Part> {
    if parts == [] then []
    else
      (if parts[0].kind == "text" then [Part("text", parts[0].text, None, None)]
       else if parts[0].kind == "image_url" && parts[0].image.Some? then
         [Part("image_url", "", Some(ImageUrl(parts[0].image.value.url, "")), None)]
       else [])
      + NormalParts(parts[1..])
  }

  function NormalCall(call: ToolCall): Message
    requires call.fn.Some?
  {
    Message("assistant", Absent, [Some(ToolCall(call.id, "function", call.fn, 0))], "")
  }

  /** One assistant message for each tool call that has a function. */
  function NormalCalls(calls: seq<Option<ToolCall>>): seq<Message> {
    if calls == [] then []
    else (if calls[0].Some? && calls[0].value.fn.Some? then [NormalCall(calls[0].value)] else []) + NormalCalls(calls[1..])
  }

  function NormalMessage(m: Message): seq<Message> {
    if m.toolCalls != [] then NormalCalls(m.toolCalls)
    else if m.toolCallId != "" then [Message("tool", m.content, [], m.toolCallId)]
    else
      var parts := NormalParts(ParseContent(m.content));
      if parts == [] then [] else [Message(m.role, Parts(parts), [], "")]
  }

  function NormalMessages(messages: seq<Message>): seq<Message> {
    if messages == [] then [] else NormalMessage(messages[0]) + NormalMessages(messages[1..])
  }

  /** An image part whose URL is empty. */
  predicate EmptyImage(p: Part) {
    p.kind == "image_url" && p.image.Some? && p.image.value.url == ""
  }

  /** A message that is neither tool calls nor a tool's answer and contains such a part. */
  predicate HasEmptyImage(m: Message) {
    m.toolCalls == [] && m.toolCallId == "" && exists p | p in ParseContent(m.content) :: EmptyImage(p)
  }

  /** Only function tools survive; an unnamed one is read from its flat form. */
  function NormalTools(tools: seq<Tool>): seq<Tool> {
    if tools == [] then []
    else
      (if tools[0].kind == "function" then [Tool("function", NormalFunction(tools[0]), NO_FLAT_TOOL)] else [])
      + NormalTools(tools[1..])
  }

  function NormalFunction(t: Tool): FunctionTool {
    if t.fn.name != "" then t.fn
    else FunctionTool(t.flat.name, t.flat.description, t.flat.parameters, t.flat.strict)
  }

  function NormalFormat(format: Option<ResponseFormat>): Option<ResponseFormat> {
    if format == None || format.value.kind == "" then None
    else if format.value.kind != "json_schema" then Some(ResponseFormat(format.value.kind, None))
    else Some(ResponseFormat("json_schema", Some(if format.value.schema.Some? then format.value.schema.value else NO_SCHEMA)))
  }

  function NormalRequest(c: ChatRequest): ChatRequest {
    c.(messages := NormalMessages(c.messages),
       maxTokens := if c.maxCompletionTokens > 0 && c.maxTokens == 0 then c.maxCompletionTokens else c.maxTokens,
       maxCompletionTokens := 0,
       tools := NormalTools(c.tools),
       responseFormat := NormalFormat(c.responseFormat),
       verbosity := "", reasoning := None, reasoningEffort := None)
  }

  // ----- The trip computes it -----

  lemma {:induction false} PartsTrip(role: string, parts: seq<Part>)
    ensures ItemsToParts(PartsToItems(role, parts))
         == if exists p | p in parts :: EmptyImage(p) then Failure(ImageWithoutSource) else Success(NormalParts(parts))
    ensures PartsToItems(role, parts) == [] <==> NormalParts(parts) == []
  {
    if parts != [] {
      var head, rest := parts[0], parts[1..];
      PartsTrip(role, rest);
      assert forall p :: p in parts <==> p == head || p in rest;
      var first := PartToItems(role, head);
      if first == [] {
        assert first + PartsToItems(role, rest) == PartsToItems(role, rest);
        assert NormalParts(parts) == NormalParts(rest);
      } else {
        var items := first + PartsToItems(role, rest);
        assert items[0] == first[0] && items[1..] == PartsToItems(role, rest);
        PartTrip(role, head);
      }
    }
  }

  lemma PartTrip(role: string, p: Part)
    requires PartToItems(role, p) != []
    ensures ToChatContent(PartToItems(role, p)[0])
         == if EmptyImage(p) then Failure(ImageWithoutSource)
            else Success(Some(if p.kind == "text" then Part("text", p.text, None, None)
                              else Part("image_url", "", Some(ImageUrl(p.image.value.url, "")), None)))
    ensures p.kind == "text" || (p.kind == "image_url" && p.image.Some?)
  {
    assert "text" != "image_url" by { assert |"text"| != |"image_url"|; }
  }

  lemma {:induction false} ItemsToMessagesConcat(a: seq<InputItem>, b: seq<InputItem>)
    ensures ItemsToMessages(a + b)
         == if ItemsToMessages(a).Failure? then ItemsToMessages(a) else Prepend(ItemsToMessages(a).value, ItemsToMessages(b))
  {
    if a == [] {
      assert a + b == b;
      PrependTwice([], [], ItemsToMessages(b));
    } else {
      assert (a + b)[1..] == a[1..] + b;
      ItemsToMessagesConcat(a[1..], b);
      var head, tail := ItemToMessages(a[0]), ItemsToMessages(a[1..]);
      if head.Success? && tail.Success? {
        PrependTwice(head.value, tail.value, ItemsToMessages(b));
      }
    }
  }

  lemma SingleItem(i: InputItem)
    ensures ItemsToMessages([i]) == ItemToMessages(i)
  {
    assert ItemsToMessages([i][1..]) == Success([]);
    var r := ItemToMessages(i);
    assert r.Success? ==> r.value + [] == r.value;
  }

  lemma {:induction false} CallsTrip(calls: seq<Option<ToolCall>>)
    ensures ItemsToMessages(CallsToItems(calls)) == Success(NormalCalls(calls))
  {
    if calls != [] {
      CallsTrip(calls[1..]);
      ItemsToMessagesConcat(CallToItems(calls[0]), CallsToItems(calls[1..]));
      if CallToItems(calls[0]) != [] {
        SingleItem(CallToItems(calls[0])[0]);
      }
    }
  }

  lemma MessageTrip(m: Message)
    ensures ItemsToMessages(MessageToItems(m))
         == if HasEmptyImage(m) then Failure(ImageWithoutSource) else Success(NormalMessage(m))
  {
    if m.toolCalls != [] {
      CallsTrip(m.toolCalls);
    } else if m.toolCallId != "" {
      SingleItem(MessageToItems(m)[0]);
    } else {
      var parts := ParseContent(m.content);
      PartsTrip(m.role, parts);
      if MessageToItems(m) != [] {
        SingleItem(MessageToItems(m)[0]);
      } else {
        assert ItemsToParts([]) == Success([]);
      }
    }
  }

  lemma {:induction false} MessagesTrip(messages: seq<Message>)
    ensures ItemsToMessages(MessagesToItems(messages))
         == if exists m | m in messages :: HasEmptyImage(m) then Failure(ImageWithoutSource) else Success(NormalMessages(messages))
  {
    if messages != [] {
      MessageTrip(messages[0]);
      MessagesTrip(messages[1..]);
      ItemsToMessagesConcat(MessageToItems(messages[0]), MessagesToItems(messages[1..]));
    }
  }

  lemma {:induction false} ToolsTrip(tools: seq<Tool>)
    ensures ToTools(ToFlats(tools)) == NormalTools(tools)
  {
    if tools != [] {
      ToolsTrip(tools[1..]);
      assert ToFlats(tools)[1..] == ToFlats(tools[1..]);
    }
  }

  /** The trip fails exactly on an image part with an empty URL, and otherwise yields the normal form. */
  lemma TripIsNormalForm(c: ChatRequest)
    ensures Trip(c) == if exists m | m in c.messages :: HasEmptyImage(m) then Failure(ImageWithoutSource)
                       else Success(NormalRequest(c))
  {
    MessagesTrip(c.messages);
    ToolsTrip(c.tools);
    assert ParseInput(ToResponsesRequest(c).input) == MessagesToItems(c.messages);
  }

  // ----- Twice is once -----

  lemma {:induction false} NormalPartsAreNormal(parts: seq<Part>)
    requires !exists p | p in parts :: EmptyImage(p)
    ensures NormalParts(NormalParts(parts)) == NormalParts(parts)
    ensures forall p | p in NormalParts(parts) :: !EmptyImage(p)
  {
    if parts != [] {
      var rest := NormalParts(parts[1..]);
      assert parts[0] in parts;
      NormalPartsAreNormal(parts[1..]);
      if NormalParts(parts) != rest {
        assert NormalParts(parts)[1..] == rest;
      }
    }
  }

  lemma {:induction false} NormalConcat(a: seq<Message>, b: seq<Message>)
    ensures NormalMessages(a + b) == NormalMessages(a) + NormalMessages(b)
  {
    if a == [] {
      assert a + b == b;
    } else {
      assert (a + b)[1..] == a[1..] + b;
      NormalConcat(a[1..], b);
    }
  }

  lemma NormalOfOne(m: Message)
    ensures NormalMessages([m]) == NormalMessage(m)
  {
    assert NormalMessages([m][1..]) == [];
  }

  lemma {:induction false} NormalCallsAreNormal(calls: seq<Option<ToolCall>>)
    ensures NormalMessages(NormalCalls(calls)) == NormalCalls(calls)
    ensures forall m | m in NormalCalls(calls) :: !HasEmptyImage(m)
  {
    if calls != [] {
      var rest := NormalCalls(calls[1..]);
      NormalCallsAreNormal(calls[1..]);
      if calls[0].Some? && calls[0].value.fn.Some? {
        var m := NormalCall(calls[0].value);
        NormalConcat([m], rest);
        NormalOfOne(m);
        assert NormalCalls(m.toolCalls) == [m] + NormalCalls(m.toolCalls[1..]);
        assert NormalCalls(calls) == [m] + rest;
      } else {
        assert NormalCalls(calls) == rest;
      }
    }
  }

  lemma NormalMessageIsNormal(m: Message)
    requires !HasEmptyImage(m)
    ensures NormalMessages(NormalMessage(m)) == NormalMessage(m)
    ensures forall n | n in NormalMessage(m) :: !HasEmptyImage(n)
  {
    if m.toolCalls != [] {
      NormalCallsAreNormal(m.toolCalls);
    } else if m.toolCallId != "" {
      NormalOfOne(NormalMessage(m)[0]);
    } else {
      NormalPartsAreNormal(ParseContent(m.content));
      if NormalMessage(m) != [] {
        NormalOfOne(NormalMessage(m)[0]);
      }
    }
  }

  lemma {:induction false} NormalMessagesAreNormal(messages: seq<Message>)
    requires !exists m | m in messages :: HasEmptyImage(m)
    ensures NormalMessages(NormalMessages(messages)) == NormalMessages(messages)
    ensures forall m | m in NormalMessages(messages) :: !HasEmptyImage(m)
  {
    if messages != [] {
      assert messages[0] in messages;
      NormalMessageIsNormal(messages[0]);
      NormalMessagesAreNormal(messages[1..]);
      NormalConcat(NormalMessage(messages[0]), NormalMessages(messages[1..]));
    }
  }

  /** A function tool without a name in either form, yet with something else in its flat form. */
  predicate NamelessTool(t: Tool) {
    t.kind == "function" && t.fn.name == "" && t.flat.name == ""
    && !(t.flat.description == "" && t.flat.parameters == None && t.flat.strict == None)
  }

  lemma NormalFunctionIsNormalIff(t: Tool)
    requires t.kind == "function"
    ensures NormalFunction(Tool("function", NormalFunction(t), NO_FLAT_TOOL)) == NormalFunction(t) <==> !NamelessTool(t)
  {
  }

  lemma {:induction false} NormalToolsAreNormalIff(tools: seq<Tool>)
    ensures NormalTools(NormalTools(tools)) == NormalTools(tools) <==> forall t | t in tools :: !NamelessTool(t)
  {
    if tools != [] {
      var head, rest := tools[0], NormalTools(tools[1..]);
      NormalToolsAreNormalIff(tools[1..]);
      assert forall t :: t in tools <==> t == head || t in tools[1..];
      if head.kind == "function" {
        var t := Tool("function", NormalFunction(head), NO_FLAT_TOOL);
        var t' := Tool("function", NormalFunction(t), NO_FLAT_TOOL);
        NormalFunctionIsNormalIff(head);
        assert NormalTools(tools) == [t] + rest && NormalTools(NormalTools(tools)) == [t'] + NormalTools(rest);
        assert ([t] + rest)[0] == t && ([t] + rest)[1..] == rest;
        assert ([t'] + NormalTools(rest))[0] == t' && ([t'] + NormalTools(rest))[1..] == NormalTools(rest);
      } else {
        assert NormalTools(tools) == rest;
      }
    }
  }

  /** The normal form is reached in one trip: a second one changes nothing, exactly if no tool is nameless. */
  lemma SecondTripChangesNothingIff(c: ChatRequest)
    requires Trip(c).Success?
    ensures Trip(Trip(c).value) == Trip(c) <==> forall t | t in c.tools :: !NamelessTool(t)
    ensures Trip(Trip(c).value).Success? && Trip(Trip(c).value).value.messages == Trip(c).value.messages
  {
    TripIsNormalForm(c);
    var n := NormalRequest(c);
    NormalMessagesAreNormal(c.messages);
    NormalToolsAreNormalIff(c.tools);
    TripIsNormalForm(n);
  }

  /** A nameless tool: its description survives the first trip and is lost on the second. */
  lemma NamelessToolChangesTwice(c: ChatRequest)
    requires c.messages == []
    requires c.tools == [Tool("function", FunctionTool("", "", None, None), FlatTool("function", "", "d", None, None, ""))]
    ensures Trip(c).Success? && Trip(Trip(c).value).Success? && Trip(Trip(c).value) != Trip(c)
  {
    assert c.tools[0] in c.tools;
    TripIsNormalForm(c);
    SecondTripChangesNothingIff(c);
  }

  // ----- The code -----

  /** The input list of ToResponsesRequest, built by appending. */
  method BuildInputs(messages: seq<Message>) returns (inputs: seq<InputItem>)
    ensures inputs == MessagesToItems(messages)
  {
    inputs := [];
    assert [] + MessagesToItems(messages) == MessagesToItems(messages);
    for i := 0 to |messages|
      invariant inputs + MessagesToItems(messages[i..]) == MessagesToItems(messages)
    {
      var items := BuildMessage(messages[i]);
      assert messages[i..][1..] == messages[i + 1..];
      assert inputs + (items + MessagesToItems(messages[i + 1..])) == (inputs + items) + MessagesToItems(messages[i + 1..]);
      inputs := inputs + items;
    }
  }

  method BuildMessage(msg: Message) returns (items: seq<InputItem>)
    ensures items == MessageToItems(msg)
  {
    if |msg.toolCalls| > 0 {
      items := BuildCalls(msg.toolCalls);
    } else if msg.toolCallId != "" {
      items := [InputItem("function_call_output", "", NoContent, msg.toolCallId, "", "", msg.content)];
    } else {
      var inputContent := BuildContent(msg.role, ParseContent(msg.content));
      items := if |inputContent| > 0 then [InputItem("message", msg.role, Items(inputContent), "", "", "", Absent)] else [];
    }
  }

  method BuildCalls(calls: seq<Option<ToolCall>>) returns (inputs: seq<InputItem>)
    ensures inputs == CallsToItems(calls)
  {
    inputs := [];
    assert [] + CallsToItems(calls) == CallsToItems(calls);
    for i := 0 to |calls|
      invariant inputs + CallsToItems(calls[i..]) == CallsToItems(calls)
    {
      var rest, items := CallsToItems(calls[i + 1..]), CallToItems(calls[i]);
      assert inputs + (items + rest) == (inputs + items) + rest;
      if calls[i].Some? && calls[i].value.fn.Some? {
        var fn := calls[i].value.fn.value;
        inputs := inputs + [InputItem("function_call", "", NoContent, calls[i].value.id, fn.name, fn.arguments, Absent)];
      } else {
        assert inputs + items == inputs;
      }
    }
  }

  method BuildContent(role: string, parts: seq<Part>) returns (inputContent: seq<ContentItem>)
    ensures inputContent == PartsToItems(role, parts)
  {
    inputContent := [];
    assert [] + PartsToItems(role, parts) == PartsToItems(role, parts);
    for i := 0 to |parts|
      invariant inputContent + PartsToItems(role, parts[i..]) == PartsToItems(role, parts)
    {
      var part := parts[i];
      ghost var rest, items := PartsToItems(role, parts[i + 1..]), PartToItems(role, part);
      assert inputContent + (items + rest) == (inputContent + items) + rest;
      if part.kind == "image_url" && part.image.Some? {
        inputContent := inputContent + [ContentItem("input_image", "", "", "", part.image.value.url, "", "")];
      } else if part.kind != "image_url" && part.kind == "text" {
        var roleType := if role == "assistant" then "output_text" else "input_text";
        inputContent := inputContent + [ContentItem(roleType, part.text, "", "", "", "", "")];
      } else {
        assert inputContent + items == inputContent;
      }
    }
  }

  /** The loop of InputToMessages over the parsed input. */
  method BuildMessages(inputs: seq<InputItem>) returns (r: Result<seq<Message>, Error>)
    ensures r == ItemsToMessages(inputs)
  {
    var messages: seq<Message> := [];
    PrependTwice([], [], ItemsToMessages(inputs));
    for i := 0 to |inputs|
      invariant ItemsToMessages(inputs) == Prepend(messages, ItemsToMessages(inputs[i..]))
    {
      var item, added := inputs[i], [];
      assert inputs[i..][1..] == inputs[i + 1..];
      if item.kind == "message" || item.kind == "" {
        if item.content == NoContent {
          return Failure(ContentMissing);
        }
        var contents := match item.content
                        case TextContent(s) => [ContentItem("input_text", s, "", "", "", "", "")]
                        case Items(items) => items;
        var msgContents := BuildParts(contents);
        if msgContents.Failure? {
          return Failure(msgContents.error);
        }
        if |msgContents.value| == 0 {
          return Failure(ContentsEmpty);
        }
        added := [Message(item.role, Parts(msgContents.value), [], "")];
      } else if item.kind == "function_call" {
        added := [Message("assistant", Absent,
          [Some(ToolCall(item.callId, "function", Some(Function(item.name, item.arguments)), 0))], "")];
      } else if item.kind == "function_call_output" {
        added := [Message("tool", item.output, [], item.callId)];
      }
      assert ItemToMessages(item) == Success(added);
      PrependTwice(messages, added, ItemsToMessages(inputs[i + 1..]));
      messages := messages + added;
    }
    assert messages + [] == messages;
    return Success(messages);
  }

  method BuildParts(contents: seq<ContentItem>) returns (r: Result<seq<Part>, Error>)
    ensures r == ItemsToParts(contents)
  {
    var parts: seq<Part> := [];
    PrependTwice([], [], ItemsToParts(contents));
    for i := 0 to |contents|
      invariant ItemsToParts(contents) == Prepend(parts, ItemsToParts(contents[i..]))
    {
      assert contents[i..][1..] == contents[i + 1..];
      var content := ToChatContent(contents[i]);
      if content.Failure? {
        return Failure(content.error);
      }
      var added := if content.value.Some? then [content.value.value] else [];
      PrependTwice(parts, added, ItemsToParts(contents[i + 1..]));
      parts := parts + added;
    }
    assert parts + [] == parts;
    return Success(parts);
  }
}
