/**
 An OpenAI chat request member by member: what a client's body says, and what the body sent upstream consists of. No
 definition of a meaning here uses the parser or the serialiser.
 */
module OpenAIRequest {
  import opened Wrappers
  import opened Json
  import opened JsonView
  import opened Conversation
  import opened OpenAICodec

  // ---------- What is accepted ----------

  predicate PartKinds(part: Json) {
    Strings(part, ["type", "text"]) && Strings(At(part, "image_url"), ["url"])
  }

  predicate PartOk(part: Json) {
    TextIn(At(part, "type")) == "text" || TextIn(At(part, "type")) == "image_url"
  }

  predicate ContentOk(content: Json) {
    content.Null? || content.Str?
    || (content.Arr? && forall p :: p in content.elems ==> PartKinds(p) && PartOk(p))
  }

  predicate CallKinds(call: Json) {
    Strings(call, ["id", "type"]) && Strings(At(call, "function"), ["name", "arguments"])
  }

  predicate MessageKinds(message: Json) {
    && Strings(message, ["role", "name", "tool_call_id"])
    && IsList(At(message, "tool_calls")) && forall c :: c in ListIn(At(message, "tool_calls")) ==> CallKinds(c)
  }

  predicate MessageOk(message: Json) {
    ContentOk(At(message, "content"))
  }

  predicate ToolKinds(tool: Json) {
    Strings(tool, ["type"]) && Strings(At(tool, "function"), ["name", "description"])
  }

  predicate RequestKinds(doc: Json) {
    && IsStruct(doc) && IsStr(At(doc, "model")) && IsBool(At(doc, "stream")) && IsNumber(At(doc, "temperature"))
    && IsInt(At(doc, "max_tokens"))
    && IsList(At(doc, "messages")) && (forall m :: m in ListIn(At(doc, "messages")) ==> MessageKinds(m))
    && IsList(At(doc, "tools")) && (forall t :: t in ListIn(At(doc, "tools")) ==> ToolKinds(t))
  }

  /** A request names a model and has contents of the known shapes. */
  predicate RequestOk(doc: Json) {
    && RequestKinds(doc) && TextIn(At(doc, "model")) != ""
    && forall m :: m in ListIn(At(doc, "messages")) ==> MessageOk(m)
  }

  // ---------- What it says ----------

  function PartIn(part: Json): Part {
    if TextIn(At(part, "type")) == "text" then TextPart(TextIn(At(part, "text")))
    else ImagePart(TextIn(At(At(part, "image_url"), "url")))
  }

  function ContentIn(content: Json): seq<Part> {
    match content
    case Str(s) => [TextPart(s)]
    case Arr(parts) => Map(parts, PartIn)
    case _ => []
  }

  function CallIn(call: Json): ToolCall {
    ToolCall(TextIn(At(call, "id")), TextIn(At(At(call, "function"), "name")),
             TextIn(At(At(call, "function"), "arguments")))
  }

  function MessageIn(message: Json): Message {
    Message(TextIn(At(message, "role")), ContentIn(At(message, "content")), TextIn(At(message, "name")),
            TextIn(At(message, "tool_call_id")), Map(ListIn(At(message, "tool_calls")), CallIn))
  }

  /** A tool is a function unless it says otherwise. */
  function ToolIn(tool: Json): Tool {
    var typ, f := TextIn(At(tool, "type")), At(tool, "function");
    Tool(if typ == "" then "function" else typ, TextIn(At(f, "name")), TextIn(At(f, "description")),
         Member(f, "parameters"))
  }

  function RequestIn(doc: Json): ChatRequest {
    ChatRequest(
      TextIn(At(doc, "model")), Map(ListIn(At(doc, "messages")), MessageIn), Map(ListIn(At(doc, "tools")), ToolIn),
      At(doc, "tool_choice"), BoolIn(At(doc, "stream")), OptNumberIn(At(doc, "temperature")),
      OptIntIn(At(doc, "max_tokens")), At(doc, "response_format"))
  }

  // ---------- Contents ----------

  function RawPartIn(part: Json): RawPart {
    RawPart(TextIn(At(part, "type")), TextIn(At(part, "text")), TextIn(At(At(part, "image_url"), "url")))
  }

  lemma PartDecodes(part: Json)
    ensures DecodePart(part).Ok? <==> PartKinds(part)
    ensures PartKinds(part) ==> DecodePart(part) == Ok(RawPartIn(part))
  {
    StructView(part);
    if IsStruct(part) {
      StringMembers(part, ["type", "text"]);
      MemberView(part, "image_url");
      if IsStruct(At(part, "image_url")) {
        StringMembers(At(part, "image_url"), ["url"]);
      }
    }
    hide StrField, ObjField;
  }

  predicate RawPartOk(p: RawPart) {
    p.typ == "text" || p.typ == "image_url"
  }

  function PartFrom(p: RawPart): Part {
    if p.typ == "text" then TextPart(p.text) else ImagePart(p.url)
  }

  lemma PartsRead(parts: seq<Json>)
    ensures var r := DecodeAll(Map(parts, RawPartIn), PartOf);
      && (r.Ok? <==> forall p :: p in parts ==> PartOk(p)) && (r.Ok? ==> r.value == Map(parts, PartIn))
  {
    var raws := Map(parts, RawPartIn);
    ListView(raws, PartOf, RawPartOk, PartFrom);
    hide At;
    forall i | 0 <= i < |parts|
      ensures raws[i] in raws && parts[i] in parts && (RawPartOk(raws[i]) <==> PartOk(parts[i]))
    {
    }
    assert Map(raws, PartFrom) == Map(parts, PartIn);
  }

  lemma ContentRead(message: Json)
    ensures var r := ContentOf(Member(message, "content"));
      && (r.Ok? <==> ContentOk(At(message, "content"))) && (r.Ok? ==> r.value == ContentIn(At(message, "content")))
  {
    hide DecodeAll, PartOf, DecodePart, PartOk, PartKinds, RawPartIn, PartIn;
    var content := At(message, "content");
    if content.Arr? {
      forall p
        ensures DecodePart(p).Ok? <==> PartKinds(p)
        ensures PartKinds(p) ==> DecodePart(p) == Ok(RawPartIn(p))
      {
        PartDecodes(p);
      }
      ListView(content.elems, DecodePart, PartKinds, RawPartIn);
      PartsRead(content.elems);
    }
  }

  // ---------- Messages and tools ----------

  lemma CallDecodes(call: Json)
    ensures DecodeToolCall(call).Ok? <==> CallKinds(call)
    ensures CallKinds(call) ==> DecodeToolCall(call) == Ok(CallIn(call))
  {
    StructView(call);
    if IsStruct(call) {
      StringMembers(call, ["id", "type"]);
      MemberView(call, "function");
      if IsStruct(At(call, "function")) {
        StringMembers(At(call, "function"), ["name", "arguments"]);
      }
    }
    hide StrField, ObjField;
  }

  function RawMessageIn(message: Json): RawMessage {
    RawMessage(TextIn(At(message, "role")), Member(message, "content"), TextIn(At(message, "name")),
               TextIn(At(message, "tool_call_id")), Map(ListIn(At(message, "tool_calls")), CallIn))
  }

  lemma MessageDecodes(message: Json)
    ensures DecodeMessage(message).Ok? <==> MessageKinds(message)
    ensures MessageKinds(message) ==> DecodeMessage(message) == Ok(RawMessageIn(message))
  {
    hide StrField, ArrField, DecodeAll, DecodeToolCall, CallKinds, CallIn;
    StructView(message);
    if IsStruct(message) {
      StringMembers(message, ["role", "name", "tool_call_id"]);
      MemberView(message, "tool_calls");
      forall c
        ensures DecodeToolCall(c).Ok? <==> CallKinds(c)
        ensures CallKinds(c) ==> DecodeToolCall(c) == Ok(CallIn(c))
      {
        CallDecodes(c);
      }
      ListView(ListIn(At(message, "tool_calls")), DecodeToolCall, CallKinds, CallIn);
    }
  }

  predicate RawMessageOk(m: RawMessage) {
    m.content.None? || ContentOk(m.content.value)
  }

  function MessageFrom(m: RawMessage): Message {
    Message(m.role, if m.content.None? then [] else ContentIn(m.content.value), m.name, m.toolCallId, m.toolCalls)
  }

  lemma RawMessageRead(m: RawMessage)
    ensures MessageOf(m).Ok? <==> RawMessageOk(m)
    ensures RawMessageOk(m) ==> MessageOf(m) == Ok(MessageFrom(m))
  {
    hide ContentIn, ContentOk, ContentOf;
    if m.content.Some? {
      var message := Obj(map["content" := m.content.value]);
      ContentRead(message);
      assert Member(message, "content") == m.content;
    } else {
      NoContent();
    }
  }

  lemma NoContent()
    ensures ContentOf(None) == Ok([])
  {
  }

  lemma ConversationRead(messages: seq<Json>)
    ensures var r := DecodeAll(Map(messages, RawMessageIn), MessageOf);
      && (r.Ok? <==> forall m :: m in messages ==> MessageOk(m)) && (r.Ok? ==> r.value == Map(messages, MessageIn))
  {
    var raws := Map(messages, RawMessageIn);
    forall m
      ensures MessageOf(m).Ok? <==> RawMessageOk(m)
      ensures RawMessageOk(m) ==> MessageOf(m) == Ok(MessageFrom(m))
    {
      RawMessageRead(m);
    }
    ListView(raws, MessageOf, RawMessageOk, MessageFrom);
    hide MessageOf, RawMessageOk, MessageFrom, RawMessageIn, MessageOk, MessageIn, DecodeAll;
    forall i | 0 <= i < |messages|
      ensures raws[i] in raws && messages[i] in messages
      ensures RawMessageOk(raws[i]) <==> MessageOk(messages[i])
      ensures MessageFrom(raws[i]) == MessageIn(messages[i])
    {
      SameMessage(messages[i]);
    }
    assert Map(raws, MessageFrom) == Map(messages, MessageIn);
  }

  lemma SameMessage(message: Json)
    ensures RawMessageOk(RawMessageIn(message)) <==> MessageOk(message)
    ensures MessageFrom(RawMessageIn(message)) == MessageIn(message)
  {
    hide CallIn, ListIn, PartKinds, PartOk, PartIn;
  }

  function RawToolIn(tool: Json): Tool {
    var f := At(tool, "function");
    Tool(TextIn(At(tool, "type")), TextIn(At(f, "name")), TextIn(At(f, "description")), Member(f, "parameters"))
  }

  lemma ToolDecodes(tool: Json)
    ensures DecodeTool(tool).Ok? <==> ToolKinds(tool)
    ensures ToolKinds(tool) ==> DecodeTool(tool) == Ok(RawToolIn(tool))
    ensures ToolOf(RawToolIn(tool)) == ToolIn(tool)
  {
    StructView(tool);
    if IsStruct(tool) {
      StringMembers(tool, ["type"]);
      MemberView(tool, "function");
      var f := At(tool, "function");
      if IsStruct(f) {
        StringMembers(f, ["name", "description"]);
        MemberView(f, "parameters");
      }
    }
    hide StrField, ObjField;
  }

  lemma ToolsRead(tools: seq<Json>)
    ensures DecodeAll(tools, DecodeTool).Ok? <==> forall t :: t in tools ==> ToolKinds(t)
    ensures DecodeAll(tools, DecodeTool).Ok? ==> Map(DecodeAll(tools, DecodeTool).value, ToolOf) == Map(tools, ToolIn)
  {
    forall t
      ensures DecodeTool(t).Ok? <==> ToolKinds(t)
      ensures ToolKinds(t) ==> DecodeTool(t) == Ok(RawToolIn(t))
      ensures ToolOf(RawToolIn(t)) == ToolIn(t)
    {
      ToolDecodes(t);
    }
    ListView(tools, DecodeTool, ToolKinds, RawToolIn);
    hide ToolIn, ToolOf, RawToolIn;
    assert Map(Map(tools, RawToolIn), ToolOf) == Map(tools, ToolIn);
  }

  lemma MessagesDecode(messages: seq<Json>)
    ensures DecodeAll(messages, DecodeMessage).Ok? <==> forall m :: m in messages ==> MessageKinds(m)
    ensures DecodeAll(messages, DecodeMessage).Ok? ==>
      DecodeAll(messages, DecodeMessage).value == Map(messages, RawMessageIn)
  {
    forall m
      ensures DecodeMessage(m).Ok? <==> MessageKinds(m)
      ensures MessageKinds(m) ==> DecodeMessage(m) == Ok(RawMessageIn(m))
    {
      MessageDecodes(m);
    }
    ListView(messages, DecodeMessage, MessageKinds, RawMessageIn);
  }

  // ---------- Requests ----------

  lemma RequestDecodes(doc: Json)
    ensures DecodeRequest(doc).Ok? <==> RequestKinds(doc)
    ensures RequestKinds(doc) ==>
      var raw, tools := DecodeRequest(doc).value, DecodeAll(ListIn(At(doc, "tools")), DecodeTool);
      && tools.Ok?
      && raw == RawRequest(
           TextIn(At(doc, "model")), Map(ListIn(At(doc, "messages")), RawMessageIn), tools.value,
           At(doc, "tool_choice"), BoolIn(At(doc, "stream")), OptNumberIn(At(doc, "temperature")),
           OptIntIn(At(doc, "max_tokens")), At(doc, "response_format"))
  {
    hide DecodeAll, DecodeMessage, DecodeTool, MessageKinds, ToolKinds, StrField, OptIntField, OptNumberField,
      ArrField, BoolField, AnyField, AsStruct, ToolOf, ToolIn, RawMessageIn, ObjField, OptObjField, IntField, StringIn,
      At, FieldsOf, TextIn, IntIn, OptIntIn, OptNumberIn, BoolIn, ListIn, IsStr, IsInt, IsBool, IsNumber, IsList;
    StructView(doc);
    if IsStruct(doc) {
      MemberView(doc, "model");
      MemberView(doc, "messages");
      MemberView(doc, "tools");
      MemberView(doc, "tool_choice");
      MemberView(doc, "stream");
      MemberView(doc, "temperature");
      MemberView(doc, "max_tokens");
      MemberView(doc, "response_format");
      MessagesDecode(ListIn(At(doc, "messages")));
      ToolsRead(ListIn(At(doc, "tools")));
    }
  }

  /** Any document: the parser accepts exactly the requests described above, and gives what they say. */
  lemma ParsedMeaning(doc: Json)
    ensures Parsed(doc).Ok? <==> RequestOk(doc)
    ensures RequestOk(doc) ==> Parsed(doc) == Ok(RequestIn(doc))
  {
    hide DecodeRequest, DecodeAll, MessageOf, MessageOk, RequestKinds, ToolOf, ToolIn, MessageIn, RawMessageIn;
    RequestDecodes(doc);
    if RequestKinds(doc) {
      ConversationRead(ListIn(At(doc, "messages")));
      ToolsRead(ListIn(At(doc, "tools")));
    }
  }

  // ---------- The body sent upstream ----------

  /** A tool choice in the forms an OpenAI upstream knows. */
  predicate ChoiceSent(choice: Json, sent: Json) {
    if !choice.Obj? then sent == choice else
    match TextIn(At(choice, "type"))
    case "auto" => sent == Str("auto")
    case "any" => sent == Str("auto")
    case "none" => sent == Str("none")
    case "required" => sent == Str("required")
    case "tool" => NamedSent(choice, sent)
    case "function" => if "function" in choice.fields then sent == choice else NamedSent(choice, sent)
    case _ => sent == choice
  }

  /** A function named by the choice itself; without a name there is no choice. */
  predicate NamedSent(choice: Json, sent: Json) {
    var name := TextIn(At(choice, "name"));
    if name == "" then sent == Null
    else sent == Obj(map["type" := Str("function"), "function" := Obj(map["name" := Str(name)])])
  }

  lemma NormalizedMeaning(choice: Json)
    ensures ChoiceSent(choice, Normalized(choice))
  {
  }

  predicate PartSent(p: Part, sent: Json) {
    match p
    case TextPart(text) => sent == Obj(map["type" := Str("text"), "text" := Str(text)])
    case ImagePart(url) => sent == Obj(map["type" := Str("image_url"), "image_url" := Obj(map["url" := Str(url)])])
  }

  /** Nothing is null, a single text is a string, and everything else a list. */
  predicate ContentSent(content: seq<Part>, sent: Json) {
    if content == [] then sent == Null
    else if |content| == 1 && content[0].TextPart? then sent == Str(content[0].text)
    else sent.Arr? && |sent.elems| == |content|
         && forall i :: 0 <= i < |content| ==> PartSent(content[i], sent.elems[i])
  }

  predicate CallsSent(calls: seq<ToolCall>, sent: Json) {
    && sent.Arr? && |sent.elems| == |calls|
    && forall i :: 0 <= i < |calls| ==> CallSent(calls[i], sent.elems[i])
  }

  predicate CallSent(call: ToolCall, sent: Json) {
    sent == Obj(map["id" := Str(call.id), "type" := Str("function"),
                    "function" := Obj(map["name" := Str(call.name), "arguments" := Str(call.arguments)])])
  }

  predicate MessageSent(m: Message, sent: Json) {
    && sent.Obj? && sent.fields.Keys <= {"role", "content", "name", "tool_call_id", "tool_calls"}
    && "role" in sent.fields && sent.fields["role"] == Str(m.role)
    && "content" in sent.fields && ContentSent(m.content, sent.fields["content"])
    && Said(sent.fields, "name", m.name != "", Str(m.name))
    && Said(sent.fields, "tool_call_id", m.toolCallId != "", Str(m.toolCallId))
    && ("tool_calls" in sent.fields <==> m.toolCalls != [])
    && (m.toolCalls != [] ==> CallsSent(m.toolCalls, sent.fields["tool_calls"]))
  }

  predicate ToolSent(t: Tool, sent: Json) {
    && sent.Obj? && sent.fields.Keys == {"type", "function"}
    && sent.fields["type"] == Str(if t.typ == "" then "function" else t.typ)
    && var f := sent.fields["function"];
    && f.Obj? && f.fields.Keys <= {"name", "description", "parameters"}
    && Said(f.fields, "name", true, Str(t.name))
    && Said(f.fields, "description", t.description != "", Str(t.description))
    && Said(f.fields, "parameters", t.parameters.Some?, if t.parameters.Some? then t.parameters.value else Null)
  }

  lemma ContentIsSent(content: seq<Part>)
    ensures ContentSent(content, ContentJson(content))
  {
  }

  lemma MessageIsSent(m: Message)
    ensures MessageSent(m, MessageJson(m))
  {
    hide ContentJson, ContentSent;
    ContentIsSent(m.content);
    var calls := Map(m.toolCalls, ToolCallJson);
    assert m.toolCalls != [] ==> CallsSent(m.toolCalls, Arr(calls));
  }

  lemma ToolIsSent(t: Tool)
    ensures ToolSent(t, ToolJson(t))
  {
  }

  predicate MessagesSent(ms: seq<Message>, sent: Json) {
    sent.Arr? && |sent.elems| == |ms| && forall i :: 0 <= i < |ms| ==> MessageSent(ms[i], sent.elems[i])
  }

  predicate ToolsSent(ts: seq<Tool>, sent: Json) {
    sent.Arr? && |sent.elems| == |ts| && forall i :: 0 <= i < |ts| ==> ToolSent(ts[i], sent.elems[i])
  }

  /** The body sent for any request: every message and tool in order, and no member without something to say. */
  lemma SerializedMeaning(req: ChatRequest)
    ensures var doc := Serialized(req);
      && doc.Obj?
      && var o := doc.fields;
      && o.Keys <= {"model", "messages", "tools", "tool_choice", "stream", "temperature", "max_tokens",
        "response_format"}
      && Said(o, "model", true, Str(req.model))
      && "messages" in o && MessagesSent(req.messages, o["messages"])
      && ("tools" in o <==> req.tools != []) && (req.tools != [] ==> ToolsSent(req.tools, o["tools"]))
      && ChoiceSent(req.toolChoice, At(doc, "tool_choice")) && ("tool_choice" in o ==> o["tool_choice"] != Null)
      && Said(o, "stream", req.stream, Bool(true))
      && (match req.temperature
          case None => "temperature" !in o
          case Some(Whole(n)) => Said(o, "temperature", true, Int(n))
          case Some(Part(f)) => Said(o, "temperature", true, Float(f)))
      && Said(o, "max_tokens", req.maxTokens.Some?, Int(if req.maxTokens.Some? then req.maxTokens.value else 0))
      && Said(o, "response_format", req.responseFormat != Null, req.responseFormat)
  {
    hide MessageJson, ToolJson, Normalized, MessageSent, ToolSent, ChoiceSent;
    forall i | 0 <= i < |req.messages|
      ensures MessageSent(req.messages[i], Map(req.messages, MessageJson)[i])
    {
      MessageIsSent(req.messages[i]);
    }
    forall i | 0 <= i < |req.tools|
      ensures ToolSent(req.tools[i], Map(req.tools, ToolJson)[i])
    {
      ToolIsSent(req.tools[i]);
    }
    NormalizedMeaning(req.toolChoice);
    var messages, tools := Map(req.messages, MessageJson), Map(req.tools, ToolJson);
    RequestEntries(req, messages, tools);
    BodyKeys(req, messages, tools);
    hide RequestJson, RequestHead, Put;
  }

  lemma BodyKeys(req: ChatRequest, messages: seq<Json>, tools: seq<Json>)
    ensures RequestJson(req, messages, tools).fields.Keys <=
      {"model", "messages", "tools", "tool_choice", "stream", "temperature", "max_tokens", "response_format"}
  {
    hide Normalized, OmitAny, OmitArr, OmitBool, OmitInt, OmitNumber;
  }
}
