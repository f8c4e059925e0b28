/** The OpenAI chat request: its parser, its serialiser, and the theorem that parsing undoes serialising. */
module OpenAICodec {
  import opened Wrappers
  import opened Json
  import opened Conversation

  // ---------- Parsing ----------

  /** A message as unmarshalled, its content still raw. */
  datatype RawMessage = RawMessage(
    role: string, content: Option<Json>, name: string, toolCallId: string, toolCalls: seq<ToolCall>)

  datatype RawPart = RawPart(typ: string, text: string, url: string)

  datatype RawRequest = RawRequest(
    model: string, messages: seq<RawMessage>, tools: seq<Tool>, toolChoice: Json, stream: bool,
    temperature: Option<Number>, maxTokens: Option<int>, responseFormat: Json)

  function DecodeToolCall(doc: Json): Result<ToolCall> {
    var o :- AsStruct(doc);
    var id :- StrField(o, "id");
    var _ :- StrField(o, "type");
    var f :- ObjField(o, "function");
    var name :- StrField(f, "name");
    var arguments :- StrField(f, "arguments");
    Ok(ToolCall(id, name, arguments))
  }

  function DecodeMessage(doc: Json): Result<RawMessage> {
    var o :- AsStruct(doc);
    var role :- StrField(o, "role");
    var name :- StrField(o, "name");
    var toolCallId :- StrField(o, "tool_call_id");
    var callDocs :- ArrField(o, "tool_calls");
    var toolCalls :- DecodeAll(callDocs, DecodeToolCall);
    Ok(RawMessage(role, RawField(o, "content"), name, toolCallId, toolCalls))
  }

  function DecodeTool(doc: Json): Result<Tool> {
    var o :- AsStruct(doc);
    var typ :- StrField(o, "type");
    var f :- ObjField(o, "function");
    var name :- StrField(f, "name");
    var description :- StrField(f, "description");
    Ok(Tool(typ, name, description, RawField(f, "parameters")))
  }

  function DecodePart(doc: Json): Result<RawPart> {
    var o :- AsStruct(doc);
    var typ :- StrField(o, "type");
    var text :- StrField(o, "text");
    var image :- ObjField(o, "image_url");
    var url :- StrField(image, "url");
    Ok(RawPart(typ, text, url))
  }

  function DecodeRequest(doc: Json): Result<RawRequest> {
    var o :- AsStruct(doc);
    var model :- StrField(o, "model");
    var messageDocs :- ArrField(o, "messages");
    var messages :- DecodeAll(messageDocs, DecodeMessage);
    var toolDocs :- ArrField(o, "tools");
    var tools :- DecodeAll(toolDocs, DecodeTool);
    var stream :- BoolField(o, "stream");
    var temperature :- OptNumberField(o, "temperature");
    var maxTokens :- OptIntField(o, "max_tokens");
    Ok(RawRequest(model, messages, tools, AnyField(o, "tool_choice"), stream, temperature, maxTokens,
                  AnyField(o, "response_format")))
  }

  function PartOf(p: RawPart): Result<Part> {
    if p.typ == "text" then Ok(TextPart(p.text)) else
    if p.typ == "image_url" then Ok(ImagePart(p.url)) else Err("unsupported content type")
  }

  /** Content is a string, an array of parts, or null. */
  function ContentOf(raw: Option<Json>): Result<seq<Part>> {
    if raw.None? || raw.value.Null? then Ok([]) else
    if raw.value.Str? then Ok([TextPart(raw.value.s)]) else
    if !raw.value.Arr? then Err("content is neither a string nor an array") else
    var parts :- DecodeAll(raw.value.elems, DecodePart);
    DecodeAll(parts, PartOf)
  }

  function MessageOf(m: RawMessage): Result<Message> {
    var content :- ContentOf(m.content);
    Ok(Message(m.role, content, m.name, m.toolCallId, m.toolCalls))
  }

  function ToolOf(t: Tool): Tool {
    if t.typ == "" then t.(typ := "function") else t
  }

  function Parsed(doc: Json): Result<ChatRequest> {
    var raw :- DecodeRequest(doc);
    if raw.model == "" then Err("missing model") else
    var messages :- DecodeAll(raw.messages, MessageOf);
    Ok(ChatRequest(raw.model, messages, Map(raw.tools, ToolOf), raw.toolChoice, raw.stream, raw.temperature,
                   raw.maxTokens, raw.responseFormat))
  }

  method ParseContent(raw: Option<Json>) returns (r: Result<seq<Part>>)
    ensures r == ContentOf(raw)
  {
    if raw.None? || raw.value.Null? {
      return Ok([]);
    }
    if raw.value.Str? {
      return Ok([TextPart(raw.value.s)]);
    }
    if !raw.value.Arr? {
      return Err("content is neither a string nor an array");
    }
    var arr :- DecodeAll(raw.value.elems, DecodePart);
    var parts := [];
    for i := 0 to |arr|
      invariant DecodeAll(arr[..i], PartOf) == Ok(parts)
    {
      assert arr[..i + 1][..i] == arr[..i];
      match arr[i].typ
      case "text" => parts := parts + [TextPart(arr[i].text)];
      case "image_url" => parts := parts + [ImagePart(arr[i].url)];
      case _ =>
        FirstError(arr, PartOf, i);
        return Err("unsupported content type");
    }
    assert arr[..|arr|] == arr;
    return Ok(parts);
  }

  method ParseMessage(m: RawMessage) returns (r: Result<Message>)
    ensures r == MessageOf(m)
  {
    var parts :- ParseContent(m.content);
    var toolCalls := [];
    for i := 0 to |m.toolCalls|
      invariant toolCalls == m.toolCalls[..i]
    {
      var tc := m.toolCalls[i];
      toolCalls := toolCalls + [ToolCall(tc.id, tc.name, tc.arguments)];
    }
    assert m.toolCalls[..|m.toolCalls|] == m.toolCalls;
    return Ok(Message(m.role, parts, m.name, m.toolCallId, toolCalls));
  }

  /** ParseOpenAIChatRequest on a body already decoded to a value. */
  method ParseOpenAIChatRequest(doc: Json) returns (r: Result<ChatRequest>)
    ensures r == Parsed(doc)
  {
    var raw :- DecodeRequest(doc);
    if raw.model == "" {
      return Err("missing model");
    }
    var messages := [];
    for i := 0 to |raw.messages|
      invariant DecodeAll(raw.messages[..i], MessageOf) == Ok(messages)
    {
      assert raw.messages[..i + 1][..i] == raw.messages[..i];
      var im := ParseMessage(raw.messages[i]);
      if im.Err? {
        FirstError(raw.messages, MessageOf, i);
        return Err(im.error);
      }
      messages := messages + [im.value];
    }
    assert raw.messages[..|raw.messages|] == raw.messages;
    var tools := [];
    for i := 0 to |raw.tools|
      invariant tools == Map(raw.tools, ToolOf)[..i]
    {
      var typ := raw.tools[i].typ;
      if typ == "" {
        typ := "function";
      }
      tools := tools + [Tool(typ, raw.tools[i].name, raw.tools[i].description, raw.tools[i].parameters)];
    }
    assert tools == Map(raw.tools, ToolOf);
    return Ok(ChatRequest(raw.model, messages, tools, raw.toolChoice, raw.stream, raw.temperature, raw.maxTokens,
                          raw.responseFormat));
  }

  // ---------- tool_choice ----------

  function FunctionChoice(name: string): Json {
    if name == "" then Null else
    Obj(map["type" := Str("function"), "function" := Obj(map["name" := Str(name)])])
  }

  /** normalizeToolChoice. */
  function Normalized(choice: Json): Json {
    if !choice.Obj? then choice else
    var typ := StringIn(choice.fields, "type");
    if typ == "auto" || typ == "any" then Str("auto") else
    if typ == "none" then Str("none") else
    if typ == "required" then Str("required") else
    if typ == "tool" then FunctionChoice(StringIn(choice.fields, "name")) else
    if typ == "function" && "function" !in choice.fields then FunctionChoice(StringIn(choice.fields, "name")) else
    choice
  }

  /** The forms an OpenAI upstream refuses as a choice object. */
  predicate Foreign(choice: Json) {
    choice.Obj? &&
    var typ := StringIn(choice.fields, "type");
    typ == "auto" || typ == "any" || typ == "none" || typ == "required" || typ == "tool"
    || (typ == "function" && "function" !in choice.fields)
  }

  /** Normalising removes exactly the foreign forms, and once is enough. */
  lemma NormalizedIsStable(choice: Json)
    ensures !Foreign(Normalized(choice))
    ensures Normalized(choice) == choice <==> !Foreign(choice)
    ensures Normalized(Normalized(choice)) == Normalized(choice)
  {
  }

  // ---------- Serialising ----------

  function PartJson(p: Part): Json {
    match p
    case TextPart(text) => Obj(map["type" := Str("text"), "text" := Str(text)])
    case ImagePart(url) => Obj(map["type" := Str("image_url"), "image_url" := Obj(map["url" := Str(url)])])
  }

  /** contentPartsToAny. */
  function ContentJson(parts: seq<Part>): Json {
    if parts == [] then Null else
    if |parts| == 1 && parts[0].TextPart? then Str(parts[0].text) else Arr(Map(parts, PartJson))
  }

  function ToolCallJson(tc: ToolCall): Json {
    Obj(map["id" := Str(tc.id), "type" := Str("function"),
            "function" := Obj(map["name" := Str(tc.name), "arguments" := Str(tc.arguments)])])
  }

  function MessageJson(m: Message): Json {
    Obj(Put(Put(Put(map["role" := Str(m.role), "content" := ContentJson(m.content)],
      "name", OmitStr(m.name)),
      "tool_call_id", OmitStr(m.toolCallId)),
      "tool_calls", OmitArr(Map(m.toolCalls, ToolCallJson))))
  }

  function ToolJson(t: Tool): Json {
    Obj(map["type" := Str(ToolOf(t).typ),
            "function" := Obj(Put(Put(map["name" := Str(t.name)],
              "description", OmitStr(t.description)),
              "parameters", t.parameters))])
  }

  function RequestHead(req: ChatRequest, messages: seq<Json>, tools: seq<Json>): Fields {
    Put(Put(Put(map["model" := Str(req.model), "messages" := Arr(messages)],
      "tools", OmitArr(tools)),
      "tool_choice", OmitAny(Normalized(req.toolChoice))),
      "stream", OmitBool(req.stream))
  }

  function RequestJson(req: ChatRequest, messages: seq<Json>, tools: seq<Json>): Json {
    Obj(Put(Put(Put(RequestHead(req, messages, tools),
      "temperature", OmitNumber(req.temperature)),
      "max_tokens", OmitInt(req.maxTokens)),
      "response_format", OmitAny(req.responseFormat)))
  }

  function Serialized(req: ChatRequest): Json {
    RequestJson(req, Map(req.messages, MessageJson), Map(req.tools, ToolJson))
  }

  method ContentPartsToAny(parts: seq<Part>) returns (doc: Json)
    ensures doc == ContentJson(parts)
  {
    if |parts| == 0 {
      return Null;
    }
    if |parts| == 1 && parts[0].TextPart? {
      return Str(parts[0].text);
    }
    var out := [];
    for i := 0 to |parts|
      invariant out == Map(parts, PartJson)[..i]
    {
      match parts[i]
      case TextPart(text) => out := out + [Obj(map["type" := Str("text"), "text" := Str(text)])];
      case ImagePart(url) =>
        out := out + [Obj(map["type" := Str("image_url"), "image_url" := Obj(map["url" := Str(url)])])];
    }
    return Arr(out);
  }

  method MessageOutToOpenAI(m: Message) returns (doc: Json)
    ensures doc == MessageJson(m)
  {
    var content := ContentPartsToAny(m.content);
    var toolCalls := [];
    for i := 0 to |m.toolCalls|
      invariant toolCalls == Map(m.toolCalls, ToolCallJson)[..i]
    {
      toolCalls := toolCalls + [ToolCallJson(m.toolCalls[i])];
    }
    assert toolCalls == Map(m.toolCalls, ToolCallJson);
    var out := map["role" := Str(m.role), "content" := content];
    out := Put(Put(out, "name", OmitStr(m.name)), "tool_call_id", OmitStr(m.toolCallId));
    return Obj(Put(out, "tool_calls", OmitArr(toolCalls)));
  }

  method SerializeOpenAIChatRequest(req: ChatRequest) returns (doc: Json)
    ensures doc == Serialized(req)
  {
    var messages, tools := [], [];
    for i := 0 to |req.messages|
      invariant messages == Map(req.messages, MessageJson)[..i]
    {
      var m := MessageOutToOpenAI(req.messages[i]);
      messages := messages + [m];
    }
    for i := 0 to |req.tools|
      invariant tools == Map(req.tools, ToolJson)[..i]
    {
      tools := tools + [ToolJson(req.tools[i])];
    }
    assert messages == Map(req.messages, MessageJson) && tools == Map(req.tools, ToolJson);
    return RequestJson(req, messages, tools);
  }

  // ---------- Parsing undoes serialising ----------

  function RawOf(m: Message): RawMessage {
    RawMessage(m.role, Some(ContentJson(m.content)), m.name, m.toolCallId, m.toolCalls)
  }

  lemma PartDecodes(p: Part)
    ensures DecodePart(PartJson(p)).Ok? && PartOf(DecodePart(PartJson(p)).value) == Ok(p)
  {
  }

  lemma ContentRoundTrip(parts: seq<Part>)
    ensures ContentOf(Some(ContentJson(parts))) == Ok(parts)
  {
    var doc := ContentJson(parts);
    if doc.Str? {
      assert parts == [parts[0]];
    } else if doc.Arr? {
      forall i | 0 <= i < |parts|
        ensures DecodePart(doc.elems[i]).Ok? && PartOf(DecodePart(doc.elems[i]).value) == Ok(parts[i])
      {
        PartDecodes(parts[i]);
      }
      var raw := seq(|parts|, i requires 0 <= i < |parts| => DecodePart(doc.elems[i]).value);
      DecodeAllOf(doc.elems, DecodePart, raw);
      DecodeAllOf(raw, PartOf, parts);
    }
  }

  lemma MessageFields(m: Message)
    ensures var o := MessageJson(m).fields;
      && StrField(o, "role") == Ok(m.role) && RawField(o, "content") == Some(ContentJson(m.content))
      && StrField(o, "name") == Ok(m.name) && StrField(o, "tool_call_id") == Ok(m.toolCallId)
      && ArrField(o, "tool_calls") == Ok(Map(m.toolCalls, ToolCallJson))
  {
    hide ContentJson, ToolCallJson;
  }

  lemma MessageDecodes(m: Message)
    ensures DecodeMessage(MessageJson(m)) == Ok(RawOf(m))
    ensures MessageOf(RawOf(m)) == Ok(m)
  {
    hide ContentJson, ContentOf, Put, StrField, ArrField, RawField, DecodeAll;
    ContentRoundTrip(m.content);
    MessageFields(m);
    var calls := Map(m.toolCalls, ToolCallJson);
    forall i | 0 <= i < |calls|
      ensures DecodeToolCall(calls[i]) == Ok(m.toolCalls[i])
    {
      ToolCallDecodes(m.toolCalls[i]);
    }
    DecodeAllOf(calls, DecodeToolCall, m.toolCalls);
  }

  lemma ToolCallDecodes(tc: ToolCall)
    ensures DecodeToolCall(ToolCallJson(tc)) == Ok(tc)
  {
  }

  lemma ToolDecodes(t: Tool)
    ensures DecodeTool(ToolJson(t)) == Ok(ToolOf(t))
  {
  }

  /** What survives of a request: everything, with tool_choice normalised and the tool type filled in. */
  function Canonical(req: ChatRequest): ChatRequest {
    req.(toolChoice := Normalized(req.toolChoice), tools := Map(req.tools, ToolOf))
  }

  lemma HeadFields(req: ChatRequest, messages: seq<Json>, tools: seq<Json>)
    ensures var o := RequestHead(req, messages, tools);
      && Entry(o, "model") == Some(Str(req.model)) && Entry(o, "messages") == Some(Arr(messages))
      && Entry(o, "tools") == OmitArr(tools) && Entry(o, "tool_choice") == OmitAny(Normalized(req.toolChoice))
      && Entry(o, "stream") == OmitBool(req.stream) && Entry(o, "temperature") == None
      && Entry(o, "max_tokens") == None && Entry(o, "response_format") == None
  {
    hide Normalized, Put, OmitArr, OmitAny, OmitBool;
  }

  lemma RequestEntries(req: ChatRequest, messages: seq<Json>, tools: seq<Json>)
    ensures var o := RequestJson(req, messages, tools).fields;
      && Entry(o, "model") == Some(Str(req.model)) && Entry(o, "messages") == Some(Arr(messages))
      && Entry(o, "tools") == OmitArr(tools) && Entry(o, "tool_choice") == OmitAny(Normalized(req.toolChoice))
      && Entry(o, "stream") == OmitBool(req.stream) && Entry(o, "temperature") == OmitNumber(req.temperature)
      && Entry(o, "max_tokens") == OmitInt(req.maxTokens) && Entry(o, "response_format") == OmitAny(req.responseFormat)
  {
    hide Normalized, Put, RequestHead, OmitArr, OmitAny, OmitBool, OmitNumber, OmitInt;
    HeadFields(req, messages, tools);
  }

  lemma RequestFields(req: ChatRequest, messages: seq<Json>, tools: seq<Json>)
    ensures var o := RequestJson(req, messages, tools).fields;
      && StrField(o, "model") == Ok(req.model) && ArrField(o, "messages") == Ok(messages)
      && ArrField(o, "tools") == Ok(tools) && AnyField(o, "tool_choice") == Normalized(req.toolChoice)
      && BoolField(o, "stream") == Ok(req.stream) && OptNumberField(o, "temperature") == Ok(req.temperature)
      && OptIntField(o, "max_tokens") == Ok(req.maxTokens) && AnyField(o, "response_format") == req.responseFormat
  {
    hide Normalized, RequestJson, RequestHead;
    RequestEntries(req, messages, tools);
  }

  lemma RequestDecodes(req: ChatRequest)
    ensures DecodeRequest(Serialized(req)) ==
      Ok(RawRequest(req.model, Map(req.messages, RawOf), Map(req.tools, ToolOf), Normalized(req.toolChoice), req.stream,
                    req.temperature, req.maxTokens, req.responseFormat))
  {
    hide Normalized, Put, StrField, ArrField, AnyField, BoolField, OptNumberField, OptIntField, DecodeAll,
        MessageJson, ToolJson,
      DecodeMessage, DecodeTool;
    var messages, tools := Map(req.messages, MessageJson), Map(req.tools, ToolJson);
    RequestFields(req, messages, tools);
    forall i | 0 <= i < |messages|
      ensures DecodeMessage(messages[i]) == Ok(Map(req.messages, RawOf)[i])
    {
      MessageDecodes(req.messages[i]);
    }
    DecodeAllOf(messages, DecodeMessage, Map(req.messages, RawOf));
    forall i | 0 <= i < |tools|
      ensures DecodeTool(tools[i]) == Ok(Map(req.tools, ToolOf)[i])
    {
      ToolDecodes(req.tools[i]);
    }
    DecodeAllOf(tools, DecodeTool, Map(req.tools, ToolOf));
  }

  /** Parsing a serialised request gives the request back, in canonical form, unless it names no model. */
  lemma RoundTrip(req: ChatRequest)
    ensures Parsed(Serialized(req)) == if req.model == "" then Err("missing model") else Ok(Canonical(req))
  {
    hide Serialized, DecodeRequest, DecodeAll, MessageOf;
    RequestDecodes(req);
    forall i | 0 <= i < |req.messages|
      ensures MessageOf(Map(req.messages, RawOf)[i]) == Ok(req.messages[i])
    {
      MessageDecodes(req.messages[i]);
    }
    DecodeAllOf(Map(req.messages, RawOf), MessageOf, req.messages);
    assert Map(Map(req.tools, ToolOf), ToolOf) == Map(req.tools, ToolOf);
  }

  /** Canonical requests are the fixed points, and canonicalising does not change what is sent. */
  lemma CanonicalIsStable(req: ChatRequest)
    ensures Canonical(Canonical(req)) == Canonical(req)
    ensures Serialized(Canonical(req)) == Serialized(req)
  {
    NormalizedIsStable(req.toolChoice);
    assert Map(Map(req.tools, ToolOf), ToolOf) == Map(req.tools, ToolOf);
    assert Map(Map(req.tools, ToolOf), ToolJson) == Map(req.tools, ToolJson);
  }

  lemma ToolsFilledIn(doc: Json)
    requires Parsed(doc).Ok?
    ensures var req := Parsed(doc).value;
      req.model != "" && forall i :: 0 <= i < |req.tools| ==> ToolOf(req.tools[i]) == req.tools[i]
  {
    hide DecodeRequest, DecodeAll, MessageOf;
  }

  /** A client body that is accepted reaches an OpenAI upstream with its meaning intact, tool_choice normalised. */
  lemma UpstreamReadsTheClient(doc: Json)
    requires Parsed(doc).Ok?
    ensures var req := Parsed(doc).value;
      Parsed(Serialized(req)) == Ok(req.(toolChoice := Normalized(req.toolChoice)))
  {
    var req := Parsed(doc).value;
    ToolsFilledIn(doc);
    RoundTrip(req);
    hide Parsed, Serialized;
    assert Map(req.tools, ToolOf) == req.tools;
  }

  /** The same on text. */
  function ParsedText(codec: Codec, body: string): Result<ChatRequest> {
    match codec.dec(body)
    case None => Err("malformed JSON")
    case Some(doc) => Parsed(doc)
  }

  lemma TextRoundTrip(codec: Codec, req: ChatRequest)
    requires codec.Valid()
    ensures ParsedText(codec, codec.enc(Serialized(req))) ==
      if req.model == "" then Err("missing model") else Ok(Canonical(req))
  {
    RoundTrip(req);
  }
}
