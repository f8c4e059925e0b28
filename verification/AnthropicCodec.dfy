/**
 The Anthropic messages request: its parser, its serialiser, and exactly when serialising, parsing and
 serialising again gives the same body.
 */
module AnthropicCodec {
  import opened Wrappers
  import opened Text
  import opened Json
  import opened Conversation
  import opened DataUrl

  // ---------- Parsing ----------

  datatype RawSource = RawSource(typ: string, mediaType: string, data: string, url: string)

  datatype RawBlock = RawBlock(
    typ: string, text: string, source: Option<RawSource>, id: string, name: string, input: Option<Json>,
    toolUseId: string, content: Option<Json>)

  datatype RawMessage = RawMessage(role: string, content: Option<Json>)

  datatype RawRequest = RawRequest(
    model: string, maxTokens: Option<int>, temperature: Option<Number>, system: Option<Json>,
    messages: seq<RawMessage>, tools: seq<Tool>, toolChoice: Json, stream: bool)

  function DecodeSource(o: Fields): Result<RawSource> {
    var typ :- StrField(o, "type");
    var mediaType :- StrField(o, "media_type");
    var data :- StrField(o, "data");
    var url :- StrField(o, "url");
    Ok(RawSource(typ, mediaType, data, url))
  }

  function DecodeOptSource(o: Fields): Result<Option<RawSource>> {
    var source :- OptObjField(o, "source");
    if source.None? then Ok(None) else
    var s :- DecodeSource(source.value);
    Ok(Some(s))
  }

  function DecodeBlock(doc: Json): Result<RawBlock> {
    var o :- AsStruct(doc);
    var typ :- StrField(o, "type");
    var text :- StrField(o, "text");
    var source :- DecodeOptSource(o);
    var id :- StrField(o, "id");
    var name :- StrField(o, "name");
    var toolUseId :- StrField(o, "tool_use_id");
    Ok(RawBlock(typ, text, source, id, name, RawField(o, "input"), toolUseId, RawField(o, "content")))
  }

  function DecodeMessage(doc: Json): Result<RawMessage> {
    var o :- AsStruct(doc);
    var role :- StrField(o, "role");
    Ok(RawMessage(role, RawField(o, "content")))
  }

  /** A tool definition; the protocol has only function tools. */
  function DecodeTool(doc: Json): Result<Tool> {
    var o :- AsStruct(doc);
    var name :- StrField(o, "name");
    var description :- StrField(o, "description");
    Ok(Tool("function", name, description, RawField(o, "input_schema")))
  }

  function DecodeRequest(doc: Json): Result<RawRequest> {
    var o :- AsStruct(doc);
    var model :- StrField(o, "model");
    var maxTokens :- OptIntField(o, "max_tokens");
    var temperature :- OptNumberField(o, "temperature");
    var messageDocs :- ArrField(o, "messages");
    var messages :- DecodeAll(messageDocs, DecodeMessage);
    var toolDocs :- ArrField(o, "tools");
    var tools :- DecodeAll(toolDocs, DecodeTool);
    var stream :- BoolField(o, "stream");
    Ok(RawRequest(model, maxTokens, temperature, RawField(o, "system"), messages, tools,
                  AnyField(o, "tool_choice"), stream))
  }

  datatype Snippet = Snippet(typ: string, text: string)

  function DecodeSnippet(doc: Json): Result<Snippet> {
    var o :- AsStruct(doc);
    var typ :- StrField(o, "type");
    var text :- StrField(o, "text");
    Ok(Snippet(typ, text))
  }

  function SnippetOf(b: RawBlock): Snippet {
    Snippet(b.typ, b.text)
  }

  function TextsOf(blocks: seq<Snippet>): seq<string> {
    if |blocks| == 0 then [] else
    var b := blocks[|blocks| - 1];
    TextsOf(blocks[..|blocks| - 1]) + (if b.typ == "text" then [b.text] else [])
  }

  /** parseAnthropicSystem: a string, or blocks whose texts are joined; anything else counts as no text. */
  function SystemOf(raw: Option<Json>): string {
    if raw.None? then "" else
    match raw.value
    case Str(s) => s
    case Arr(elems) =>
      var blocks := DecodeAll(elems, DecodeSnippet);
      if blocks.Err? then "" else Join(TextsOf(blocks.value), "\n\n")
    case _ => ""
  }

  /** parseAnthropicBlockContent, for the content of a tool result. */
  function ResultTextOf(raw: Option<Json>): string {
    if raw.None? then "" else
    match raw.value
    case Str(s) => s
    case Arr(elems) =>
      var blocks := DecodeAll(elems, DecodeBlock);
      if blocks.Err? then "" else Join(TextsOf(Map(blocks.value, SnippetOf)), "\n")
    case _ => ""
  }

  /** imageToDataURL. */
  function ImageUrl(source: Option<RawSource>): Result<string> {
    if source.None? then Err("image block without source") else
    var s := source.value;
    if s.typ == "url" then Ok(s.url) else
    if s.typ == "base64" then Joined(Base64(s.mediaType, s.data)) else Err("unsupported image source")
  }

  function Plain(role: string, content: seq<Part>, toolCalls: seq<ToolCall>): Message {
    Message(role, content, "", "", toolCalls)
  }

  function ToolMessage(id: string, text: string): Message {
    Message("tool", [TextPart(text)], "", id, [])
  }

  /** What the blocks of one message have given so far: tool messages, content, tool calls. */
  datatype Gathered = Gathered(results: seq<Message>, parts: seq<Part>, calls: seq<ToolCall>)

  function Arguments(codec: Codec, input: Option<Json>): string {
    if input.None? then "" else codec.enc(input.value)
  }

  function AfterBlock(codec: Codec, role: string, g: Gathered, b: RawBlock): Result<Gathered> {
    match b.typ
    case "text" => Ok(g.(parts := g.parts + [TextPart(b.text)]))
    case "image" =>
      var url :- ImageUrl(b.source);
      Ok(g.(parts := g.parts + [ImagePart(url)]))
    case "tool_use" =>
      Ok(if role == "assistant" then g.(calls := g.calls + [ToolCall(b.id, b.name, Arguments(codec, b.input))]) else g)
    case "tool_result" => Ok(g.(results := g.results + [ToolMessage(b.toolUseId, ResultTextOf(b.content))]))
    case _ => Err("unsupported block type")
  }

  function Gather(codec: Codec, role: string, blocks: seq<RawBlock>): Result<Gathered> {
    if |blocks| == 0 then Ok(Gathered([], [], [])) else
    var g :- Gather(codec, role, blocks[..|blocks| - 1]);
    AfterBlock(codec, role, g, blocks[|blocks| - 1])
  }

  /** Tool messages first, then one message with the content; tool calls join it or make a message of their own. */
  function Messages(role: string, g: Gathered): seq<Message> {
    var out := g.results + (if g.parts != [] then [Plain(role, g.parts, [])] else []);
    if g.calls == [] then out else
    if out != [] && out[|out| - 1].role == role then out[|out| - 1 := out[|out| - 1].(toolCalls := g.calls)]
    else out + [Plain(role, [], g.calls)]
  }

  /** parseAnthropicMessage. */
  function MessagesOf(codec: Codec, m: RawMessage): Result<seq<Message>> {
    if m.content.None? || m.content.value.Null? then Ok([Plain(m.role, [], [])]) else
    if m.content.value.Str? then Ok([Plain(m.role, [TextPart(m.content.value.s)], [])]) else
    if !m.content.value.Arr? then Err("content is neither a string nor an array of blocks") else
    var blocks :- DecodeAll(m.content.value.elems, DecodeBlock);
    var g :- Gather(codec, m.role, blocks);
    Ok(Messages(m.role, g))
  }

  function AllMessages(codec: Codec, raws: seq<RawMessage>): Result<seq<Message>> {
    if |raws| == 0 then Ok([]) else
    var init :- AllMessages(codec, raws[..|raws| - 1]);
    var last :- MessagesOf(codec, raws[|raws| - 1]);
    Ok(init + last)
  }

  function SystemMessages(text: string): seq<Message> {
    if text == "" then [] else [Plain("system", [TextPart(text)], [])]
  }

  function Parsed(codec: Codec, doc: Json): Result<ChatRequest> {
    var raw :- DecodeRequest(doc);
    if raw.model == "" then Err("missing model") else
    if raw.maxTokens.None? then Err("missing max_tokens") else
    var messages :- AllMessages(codec, raw.messages);
    Ok(ChatRequest(raw.model, SystemMessages(SystemOf(raw.system)) + messages, raw.tools, raw.toolChoice, raw.stream,
                   raw.temperature, raw.maxTokens, Null))
  }

  // ---------- The parsing loops ----------

  method JoinTexts(blocks: seq<Snippet>, sep: string) returns (text: string)
    ensures text == Join(TextsOf(blocks), sep)
  {
    var texts := [];
    for i := 0 to |blocks|
      invariant texts == TextsOf(blocks[..i])
    {
      assert blocks[..i + 1][..i] == blocks[..i];
      if blocks[i].typ == "text" {
        texts := texts + [blocks[i].text];
      }
    }
    assert blocks[..|blocks|] == blocks;
    return Join(texts, sep);
  }

  lemma {:induction false} GatherFails(codec: Codec, role: string, blocks: seq<RawBlock>, i: nat)
    requires i <= |blocks| && Gather(codec, role, blocks[..i]).Err?
    ensures Gather(codec, role, blocks) == Err(Gather(codec, role, blocks[..i]).error)
  {
    if i == |blocks| {
      assert blocks[..i] == blocks;
    } else {
      assert blocks[..|blocks| - 1][..i] == blocks[..i];
      GatherFails(codec, role, blocks[..|blocks| - 1], i);
    }
  }

  method ParseSystem(raw: Option<Json>) returns (text: string)
    ensures text == SystemOf(raw)
  {
    hide DecodeAll, TextsOf, Join;
    text := "";
    if raw.Some? && raw.value.Str? {
      text := raw.value.s;
    } else if raw.Some? && raw.value.Arr? {
      var arr := DecodeAll(raw.value.elems, DecodeSnippet);
      if arr.Ok? {
        text := JoinTexts(arr.value, "\n\n");
      }
    }
  }

  method ParseBlockContent(raw: Option<Json>) returns (text: string)
    ensures text == ResultTextOf(raw)
  {
    hide DecodeAll, TextsOf, Join;
    text := "";
    if raw.Some? && raw.value.Str? {
      text := raw.value.s;
    } else if raw.Some? && raw.value.Arr? {
      var blocks := DecodeAll(raw.value.elems, DecodeBlock);
      if blocks.Ok? {
        text := JoinTexts(Map(blocks.value, SnippetOf), "\n");
      }
    }
  }

  /** The loop over the blocks of one message. */
  method GatherBlocks(codec: Codec, role: string, blocks: seq<RawBlock>) returns (r: Result<Gathered>)
    ensures r == Gather(codec, role, blocks)
  {
    hide ImageUrl, ResultTextOf, Arguments;
    var out, textParts, toolCalls := [], [], [];
    for i := 0 to |blocks|
      invariant Gather(codec, role, blocks[..i]) == Ok(Gathered(out, textParts, toolCalls))
    {
      assert blocks[..i + 1][..i] == blocks[..i];
      var b := blocks[i];
      match b.typ
      case "text" => textParts := textParts + [TextPart(b.text)];
      case "image" =>
        var img := ImageUrl(b.source);
        if img.Err? {
          GatherFails(codec, role, blocks, i + 1);
          return Err(img.error);
        }
        textParts := textParts + [ImagePart(img.value)];
      case "tool_use" =>
        if role == "assistant" {
          toolCalls := toolCalls + [ToolCall(b.id, b.name, Arguments(codec, b.input))];
        }
      case "tool_result" =>
        var txt := ParseBlockContent(b.content);
        out := out + [ToolMessage(b.toolUseId, txt)];
      case _ =>
        GatherFails(codec, role, blocks, i + 1);
        return Err("unsupported block type");
    }
    assert blocks[..|blocks|] == blocks;
    return Ok(Gathered(out, textParts, toolCalls));
  }

  method ParseAnthropicMessage(codec: Codec, m: RawMessage) returns (r: Result<seq<Message>>)
    ensures r == MessagesOf(codec, m)
  {
    hide DecodeBlock, DecodeAll, Gather;
    if m.content.None? || m.content.value.Null? {
      return Ok([Plain(m.role, [], [])]);
    }
    if m.content.value.Str? {
      return Ok([Plain(m.role, [TextPart(m.content.value.s)], [])]);
    }
    if !m.content.value.Arr? {
      return Err("content is neither a string nor an array of blocks");
    }
    var blocks :- DecodeAll(m.content.value.elems, DecodeBlock);
    var g :- GatherBlocks(codec, m.role, blocks);
    var out := g.results;
    if |g.parts| > 0 {
      out := out + [Plain(m.role, g.parts, [])];
    }
    if |g.calls| > 0 {
      if |out| > 0 && out[|out| - 1].role == m.role {
        out := out[|out| - 1 := out[|out| - 1].(toolCalls := g.calls)];
      } else {
        out := out + [Plain(m.role, [], g.calls)];
      }
    }
    assert out == Messages(m.role, g);
    assert m.content.value.Arr? && Gather(codec, m.role, blocks) == Ok(g);
    return Ok(out);
  }

  lemma {:induction false} AllMessagesFail(codec: Codec, raws: seq<RawMessage>, i: nat)
    requires i <= |raws| && AllMessages(codec, raws[..i]).Err?
    ensures AllMessages(codec, raws) == Err(AllMessages(codec, raws[..i]).error)
  {
    if i == |raws| {
      assert raws[..i] == raws;
    } else {
      assert raws[..|raws| - 1][..i] == raws[..i];
      AllMessagesFail(codec, raws[..|raws| - 1], i);
    }
  }

  method ParseAnthropicMessagesRequest(codec: Codec, doc: Json) returns (r: Result<ChatRequest>)
    ensures r == Parsed(codec, doc)
  {
    hide DecodeRequest, MessagesOf, SystemOf, SystemMessages;
    var raw :- DecodeRequest(doc);
    if raw.model == "" {
      return Err("missing model");
    }
    if raw.maxTokens.None? {
      return Err("missing max_tokens");
    }
    var sysText := ParseSystem(raw.system);
    var system := SystemMessages(sysText);
    var messages := system;
    for i := 0 to |raw.messages|
      invariant AllMessages(codec, raw.messages[..i]).Ok?
      invariant messages == system + AllMessages(codec, raw.messages[..i]).value
    {
      assert raw.messages[..i + 1][..i] == raw.messages[..i];
      var ims := ParseAnthropicMessage(codec, raw.messages[i]);
      if ims.Err? {
        AllMessagesFail(codec, raw.messages, i + 1);
        return Err(ims.error);
      }
      messages := messages + ims.value;
    }
    assert raw.messages[..|raw.messages|] == raw.messages
      && messages == system + AllMessages(codec, raw.messages).value;
    return Ok(ChatRequest(raw.model, messages, raw.tools, raw.toolChoice, raw.stream, raw.temperature,
        raw.maxTokens, Null));
  }

  // ---------- Serialising ----------

  datatype Block =
    | TextBlock(text: string)
    | ImageBlock(source: Source)
    | ToolUse(id: string, name: string, input: Json)
    | ToolResult(id: string, text: string)

  function SourceFields(s: Source): Fields {
    match s
    case Base64(mediaType, data) => map["type" := Str("base64"), "media_type" := Str(mediaType), "data" := Str(data)]
    case Link(url) => map["type" := Str("url"), "url" := Str(url)]
  }

  function BlockFields(b: Block): Fields {
    match b
    case TextBlock(text) => map["type" := Str("text"), "text" := Str(text)]
    case ImageBlock(source) => map["type" := Str("image"), "source" := Obj(SourceFields(source))]
    case ToolUse(id, name, input) =>
      map["type" := Str("tool_use"), "id" := Str(id), "name" := Str(name), "input" := input]
    case ToolResult(id, text) =>
      map["type" := Str("tool_result"), "tool_use_id" := Str(id), "content" := Str(text)]
  }

  function BlockJson(b: Block): Json {
    Obj(BlockFields(b))
  }

  /** Arguments that are not an object become an empty one; null stays null, as unmarshalling it clears the map. */
  function Input(codec: Codec, arguments: string): Json {
    if arguments == "" then Obj(map[]) else
    match codec.dec(arguments)
    case Some(Obj(o)) => Obj(o)
    case Some(Null) => Null
    case _ => Obj(map[])
  }

  function PartBlock(p: Part): Block {
    match p
    case TextPart(text) => TextBlock(text)
    case ImagePart(url) => ImageBlock(Split(url))
  }

  function CallBlock(codec: Codec, tc: ToolCall): Block {
    ToolUse(tc.id, tc.name, Input(codec, tc.arguments))
  }

  function CallBlocks(codec: Codec, calls: seq<ToolCall>): (r: seq<Block>)
    ensures |r| == |calls|
    ensures forall i :: 0 <= i < |calls| ==> r[i] == CallBlock(codec, calls[i])
  {
    seq(|calls|, i requires 0 <= i < |calls| => CallBlock(codec, calls[i]))
  }

  function Blocks(codec: Codec, m: Message): seq<Block> {
    Map(m.content, PartBlock) + CallBlocks(codec, m.toolCalls)
  }

  /** A single text block is sent as a string, and so is nothing at all. */
  function BlocksJson(blocks: seq<Block>): Json {
    if |blocks| == 1 && blocks[0].TextBlock? then Str(blocks[0].text) else
    if blocks == [] then Str("") else Arr(Map(blocks, BlockJson))
  }

  function ResultText(m: Message): string {
    if |m.content| > 0 && m.content[0].TextPart? then m.content[0].text else ""
  }

  /** anthropicContentToAny. */
  function ContentJson(codec: Codec, m: Message): Json {
    if m.role == "tool" then Arr([BlockJson(ToolResult(m.toolCallId, ResultText(m)))]) else BlocksJson(Blocks(codec, m))
  }

  function MessageJson(codec: Codec, m: Message): Json {
    Obj(map["role" := Str(m.role), "content" := ContentJson(codec, m)])
  }

  function ToolJson(t: Tool): Json {
    Obj(Put(Put(map["name" := Str(t.name)], "description", OmitStr(t.description)), "input_schema", t.parameters))
  }

  function PartTexts(content: seq<Part>): seq<string> {
    if |content| == 0 then [] else
    var p := content[|content| - 1];
    PartTexts(content[..|content| - 1]) + (if p.TextPart? then [p.text] else [])
  }

  function SystemTexts(ms: seq<Message>): seq<string> {
    if |ms| == 0 then [] else
    var m := ms[|ms| - 1];
    SystemTexts(ms[..|ms| - 1]) + (if m.role == "system" then PartTexts(m.content) else [])
  }

  function MessageDocs(codec: Codec, ms: seq<Message>): seq<Json> {
    if |ms| == 0 then [] else
    var m := ms[|ms| - 1];
    MessageDocs(codec, ms[..|ms| - 1]) + (if m.role == "system" then [] else [MessageJson(codec, m)])
  }

  function Choice(typ: string): Json {
    Obj(map["type" := Str(typ)])
  }

  function NamedChoice(name: string): Json {
    Obj(map["type" := Str("tool"), "name" := Str(name)])
  }

  function FunctionName(o: Fields): string {
    if "function" in o && o["function"].Obj? && StringIn(o["function"].fields, "name") != ""
    then StringIn(o["function"].fields, "name") else StringIn(o, "name")
  }

  /** normalizeAnthropicToolChoice. */
  function Normalized(choice: Json): Json {
    match choice
    case Str(s) => Choice(if s == "none" then "none" else if s == "required" then "any" else "auto")
    case Obj(o) =>
      if StringIn(o, "type") != "function" then choice else
      if FunctionName(o) == "" then Choice("auto") else NamedChoice(FunctionName(o))
    case _ => choice
  }

  /** The request as marshalled. */
  datatype Out = Out(
    model: string, maxTokens: int, temperature: Option<Number>, system: string, messages: seq<Json>, tools: seq<Json>,
    toolChoice: Json, stream: bool)

  const DEFAULT_MAX_TOKENS := 1024

  function OutOf(codec: Codec, req: ChatRequest): Out {
    Out(req.model, if req.maxTokens.Some? then req.maxTokens.value else DEFAULT_MAX_TOKENS, req.temperature,
        Join(SystemTexts(req.messages), "\n\n"), MessageDocs(codec, req.messages), Map(req.tools, ToolJson),
        Normalized(req.toolChoice), req.stream)
  }

  function OutHead(o: Out): Fields {
    Put(Put(map["model" := Str(o.model), "max_tokens" := Int(o.maxTokens), "messages" := Arr(o.messages)],
      "temperature", OmitNumber(o.temperature)),
      "system", OmitStr(o.system))
  }

  function OutJson(o: Out): Json {
    Obj(Put(Put(Put(OutHead(o),
      "tools", OmitArr(o.tools)),
      "tool_choice", OmitAny(o.toolChoice)),
      "stream", OmitBool(o.stream)))
  }

  function Serialized(codec: Codec, req: ChatRequest): Json {
    OutJson(OutOf(codec, req))
  }

  // ---------- The serialising loops ----------

  method AnthropicContentToAny(codec: Codec, m: Message) returns (doc: Json)
    ensures doc == ContentJson(codec, m)
  {
    if m.role == "tool" {
      var txt := "";
      if |m.content| > 0 && m.content[0].TextPart? {
        txt := m.content[0].text;
      }
      return Arr([BlockJson(ToolResult(m.toolCallId, txt))]);
    }
    var out: seq<Block> := [];
    for i := 0 to |m.content|
      invariant out == Map(m.content, PartBlock)[..i]
    {
      match m.content[i]
      case TextPart(text) => out := out + [TextBlock(text)];
      case ImagePart(url) => out := out + [ImageBlock(Split(url))];
    }
    for i := 0 to |m.toolCalls|
      invariant out == Map(m.content, PartBlock) + CallBlocks(codec, m.toolCalls)[..i]
    {
      out := out + [CallBlock(codec, m.toolCalls[i])];
    }
    assert out == Blocks(codec, m);
    if |out| == 1 && out[0].TextBlock? {
      return Str(out[0].text);
    }
    if |out| == 0 {
      return Str("");
    }
    return Arr(Map(out, BlockJson));
  }

  /** The inner loop over the content of one system message. */
  method AppendTexts(texts: seq<string>, content: seq<Part>) returns (r: seq<string>)
    ensures r == texts + PartTexts(content)
  {
    r := texts;
    for j := 0 to |content|
      invariant r == texts + PartTexts(content[..j])
    {
      assert content[..j + 1][..j] == content[..j];
      if content[j].TextPart? {
        r := r + [content[j].text];
      }
    }
    assert content[..|content|] == content;
  }

  method SerializeAnthropicMessagesRequest(codec: Codec, req: ChatRequest) returns (doc: Json)
    ensures doc == Serialized(codec, req)
  {
    hide ContentJson, ToolJson, Normalized, OutJson, Join;
    var maxTokens := DEFAULT_MAX_TOKENS;
    if req.maxTokens.Some? {
      maxTokens := req.maxTokens.value;
    }
    var sysTexts, messages, tools := [], [], [];
    for i := 0 to |req.messages|
      invariant sysTexts == SystemTexts(req.messages[..i]) && messages == MessageDocs(codec, req.messages[..i])
    {
      assert req.messages[..i + 1][..i] == req.messages[..i];
      var m := req.messages[i];
      if m.role == "system" {
        sysTexts := AppendTexts(sysTexts, m.content);
      } else {
        var content := AnthropicContentToAny(codec, m);
        messages := messages + [Obj(map["role" := Str(m.role), "content" := content])];
      }
    }
    assert req.messages[..|req.messages|] == req.messages;
    for i := 0 to |req.tools|
      invariant tools == Map(req.tools, ToolJson)[..i]
    {
      tools := tools + [ToolJson(req.tools[i])];
    }
    assert tools == Map(req.tools, ToolJson);
    return OutJson(Out(req.model, maxTokens, req.temperature, Join(sysTexts, "\n\n"), messages, tools,
                       Normalized(req.toolChoice), req.stream));
  }
}
