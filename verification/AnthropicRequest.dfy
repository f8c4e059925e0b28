/**
 What an Anthropic messages request says, read off its JSON members, and that the parser accepts exactly the requests
 described here and reads them as described. No definition of a meaning here uses the parser.
 */
module AnthropicRequest {
  import opened Wrappers
  import opened Text
  import opened Json
  import opened JsonView
  import opened Conversation
  import opened AnthropicCodec
  import D = DataUrl

  // ---------- Kinds of members ----------

  predicate SnippetKinds(block: Json) {
    Strings(block, ["type", "text"])
  }

  predicate BlockKinds(block: Json) {
    && Strings(block, ["type", "text", "id", "name", "tool_use_id"])
    && Strings(At(block, "source"), ["type", "media_type", "data", "url"])
  }

  predicate ToolKinds(tool: Json) {
    Strings(tool, ["name", "description"])
  }

  predicate MessageKinds(message: Json) {
    Strings(message, ["role"])
  }

  predicate RequestKinds(doc: Json) {
    && IsStruct(doc) && IsStr(At(doc, "model")) && IsInt(At(doc, "max_tokens")) && IsNumber(At(doc, "temperature"))
    && IsList(At(doc, "messages")) && (forall m :: m in MessagesIn(doc) ==> MessageKinds(m))
    && IsList(At(doc, "tools")) && (forall t :: t in ListIn(At(doc, "tools")) ==> ToolKinds(t))
    && IsBool(At(doc, "stream"))
  }

  // ---------- What is accepted ----------

  function Type(block: Json): string {
    TextIn(At(block, "type"))
  }

  /** An image is given by a link, or as data that is not empty. */
  predicate ImageOk(source: Json) {
    match TextIn(At(source, "type"))
    case "url" => true
    case "base64" => TextIn(At(source, "data")) != ""
    case _ => false
  }

  predicate BlockOk(block: Json) {
    match Type(block)
    case "text" => true
    case "tool_use" => true
    case "tool_result" => true
    case "image" => At(block, "source").Obj? && ImageOk(At(block, "source"))
    case _ => false
  }

  predicate ContentOk(content: Json) {
    content.Null? || content.Str?
    || (content.Arr? && forall b :: b in content.elems ==> BlockKinds(b) && BlockOk(b))
  }

  function MessagesIn(doc: Json): seq<Json> {
    ListIn(At(doc, "messages"))
  }

  /** A request names a model, limits its tokens, and its messages hold known blocks. */
  predicate RequestOk(doc: Json) {
    && RequestKinds(doc) && TextIn(At(doc, "model")) != "" && !At(doc, "max_tokens").Null?
    && forall m :: m in MessagesIn(doc) ==> ContentOk(At(m, "content"))
  }

  // ---------- What it says ----------

  /** The texts of the text blocks, in order. */
  function TextsIn(blocks: seq<Json>): seq<string> {
    if |blocks| == 0 then [] else
    (if Type(blocks[0]) == "text" then [TextIn(At(blocks[0], "text"))] else []) + TextsIn(blocks[1..])
  }

  /** The system text: as given, or that of the blocks with a blank line between each two. */
  function SystemIn(doc: Json): string {
    match At(doc, "system")
    case Str(s) => s
    case Arr(blocks) =>
      if forall b :: b in blocks ==> SnippetKinds(b) then Separated(TextsIn(blocks), "\n\n") else ""
    case _ => ""
  }

  /** The text of a tool result: as given, or that of the blocks, one below the other. */
  function ResultIn(block: Json): string {
    match At(block, "content")
    case Str(s) => s
    case Arr(blocks) => if forall b :: b in blocks ==> BlockKinds(b) then Separated(TextsIn(blocks), "\n") else ""
    case _ => ""
  }

  /** The link, or a data URL; without a media type the data is a PNG. */
  function ImageIn(source: Json): string {
    if TextIn(At(source, "type")) == "url" then TextIn(At(source, "url")) else
    var media := TextIn(At(source, "media_type"));
    "data:" + (if media == "" then "image/png" else media) + ";base64," + TextIn(At(source, "data"))
  }

  /** A tool message for each tool result. */
  function ResultsIn(blocks: seq<Json>): seq<Message> {
    if |blocks| == 0 then [] else
    var b := blocks[0];
    (if Type(b) == "tool_result" then [Message("tool", [TextPart(ResultIn(b))], "", TextIn(At(b, "tool_use_id")), [])]
     else [])
    + ResultsIn(blocks[1..])
  }

  /** The texts and images, in order. */
  function PartsIn(blocks: seq<Json>): seq<Part> {
    if |blocks| == 0 then [] else
    (match Type(blocks[0])
     case "text" => [TextPart(TextIn(At(blocks[0], "text")))]
     case "image" => [ImagePart(ImageIn(At(blocks[0], "source")))]
     case _ => [])
    + PartsIn(blocks[1..])
  }

  /** The tool calls, with the JSON text of their input. */
  function CallsIn(codec: Codec, blocks: seq<Json>): seq<ToolCall> {
    if |blocks| == 0 then [] else
    var b := blocks[0];
    (if Type(b) == "tool_use" then [ToolCall(TextIn(At(b, "id")), TextIn(At(b, "name")), InputIn(codec, b))] else [])
    + CallsIn(codec, blocks[1..])
  }

  function InputIn(codec: Codec, block: Json): string {
    if block.Obj? && "input" in block.fields then codec.enc(block.fields["input"]) else ""
  }

  /** The results of a message first, and then the rest of it, if there is any. Only an assistant calls tools. */
  function MessageIn(codec: Codec, message: Json): seq<Message> {
    var role := TextIn(At(message, "role"));
    match At(message, "content")
    case Str(s) => [Message(role, [TextPart(s)], "", "", [])]
    case Arr(blocks) =>
      var parts, calls := PartsIn(blocks), if role == "assistant" then CallsIn(codec, blocks) else [];
      ResultsIn(blocks) + (if parts == [] && calls == [] then [] else [Message(role, parts, "", "", calls)])
    case _ => [Message(role, [], "", "", [])]
  }

  function ConversationIn(codec: Codec, messages: seq<Json>): seq<Message> {
    if |messages| == 0 then [] else MessageIn(codec, messages[0]) + ConversationIn(codec, messages[1..])
  }

  function ToolIn(tool: Json): Tool {
    Tool("function", TextIn(At(tool, "name")), TextIn(At(tool, "description")),
         if tool.Obj? && "input_schema" in tool.fields then Some(tool.fields["input_schema"]) else None)
  }

  function RequestIn(codec: Codec, doc: Json): ChatRequest {
    var system := SystemIn(doc);
    ChatRequest(
      TextIn(At(doc, "model")),
      (if system == "" then [] else [Message("system", [TextPart(system)], "", "", [])])
        + ConversationIn(codec, MessagesIn(doc)),
      Map(ListIn(At(doc, "tools")), ToolIn), At(doc, "tool_choice"), BoolIn(At(doc, "stream")),
      OptNumberIn(At(doc, "temperature")), OptIntIn(At(doc, "max_tokens")), Null)
  }

  // ---------- Blocks ----------

  function SnippetIn(block: Json): Snippet {
    Snippet(Type(block), TextIn(At(block, "text")))
  }

  lemma SnippetDecodes(block: Json)
    ensures DecodeSnippet(block).Ok? <==> SnippetKinds(block)
    ensures SnippetKinds(block) ==> DecodeSnippet(block) == Ok(SnippetIn(block))
  {
    StructView(block);
    if IsStruct(block) {
      StringMembers(block, ["type", "text"]);
    }
  }

  function SourceIn(source: Json): RawSource {
    RawSource(TextIn(At(source, "type")), TextIn(At(source, "media_type")), TextIn(At(source, "data")),
              TextIn(At(source, "url")))
  }

  function OptSourceIn(block: Json): Option<RawSource> {
    if At(block, "source").Obj? then Some(SourceIn(At(block, "source"))) else None
  }

  lemma SourceDecodes(block: Json)
    requires IsStruct(block)
    ensures DecodeOptSource(FieldsOf(block)).Ok? <==>
      Strings(At(block, "source"), ["type", "media_type", "data", "url"])
    ensures DecodeOptSource(FieldsOf(block)).Ok? ==> DecodeOptSource(FieldsOf(block)) == Ok(OptSourceIn(block))
  {
    MemberView(block, "source");
    if IsStruct(At(block, "source")) {
      StringMembers(At(block, "source"), ["type", "media_type", "data", "url"]);
    }
  }

  function BlockIn(block: Json): RawBlock {
    RawBlock(Type(block), TextIn(At(block, "text")), OptSourceIn(block), TextIn(At(block, "id")),
             TextIn(At(block, "name")), Member(block, "input"), TextIn(At(block, "tool_use_id")),
             Member(block, "content"))
  }

  lemma BlockDecodes(block: Json)
    ensures DecodeBlock(block).Ok? <==> BlockKinds(block)
    ensures BlockKinds(block) ==> DecodeBlock(block) == Ok(BlockIn(block))
  {
    hide StrField, DecodeOptSource, OptSourceIn;
    StructView(block);
    if IsStruct(block) {
      StringMembers(block, ["type", "text", "id", "name", "tool_use_id"]);
      SourceDecodes(block);
    }
  }

  // ---------- System and results ----------

  lemma {:induction false} TextsSnoc(blocks: seq<Json>, b: Json)
    ensures TextsIn(blocks + [b]) ==
      TextsIn(blocks) + (if Type(b) == "text" then [TextIn(At(b, "text"))] else [])
  {
    hide Type, At;
    if |blocks| == 0 {
      assert (blocks + [b])[1..] == [];
    } else {
      TextsSnoc(blocks[1..], b);
      assert (blocks + [b])[1..] == blocks[1..] + [b];
    }
  }

  /** The texts of decoded blocks. */
  lemma {:induction false} TextsRead(blocks: seq<Json>)
    ensures TextsOf(Map(blocks, SnippetIn)) == TextsIn(blocks)
  {
    hide Type, At;
    if |blocks| == 0 {
    } else {
      var init, b := blocks[..|blocks| - 1], blocks[|blocks| - 1];
      TextsRead(init);
      TextsSnoc(init, b);
      assert blocks == init + [b];
      assert Map(blocks, SnippetIn)[..|init|] == Map(init, SnippetIn);
    }
  }

  lemma SystemRead(doc: Json)
    requires IsStruct(doc)
    ensures SystemOf(RawField(FieldsOf(doc), "system")) == SystemIn(doc)
  {
    hide DecodeSnippet, SnippetKinds, TextsOf, TextsIn, Join, Separated, DecodeAll;
    MemberView(doc, "system");
    var system := At(doc, "system");
    if system.Arr? {
      forall b
        ensures DecodeSnippet(b).Ok? <==> SnippetKinds(b)
        ensures SnippetKinds(b) ==> DecodeSnippet(b) == Ok(SnippetIn(b))
      {
        SnippetDecodes(b);
      }
      ListView(system.elems, DecodeSnippet, SnippetKinds, SnippetIn);
      TextsRead(system.elems);
      JoinSeparates(TextsIn(system.elems), "\n\n");
    }
  }

  lemma BlocksDecode(blocks: seq<Json>)
    ensures DecodeAll(blocks, DecodeBlock).Ok? <==> forall b :: b in blocks ==> BlockKinds(b)
    ensures DecodeAll(blocks, DecodeBlock).Ok? ==> DecodeAll(blocks, DecodeBlock) == Ok(Map(blocks, BlockIn))
  {
    forall b
      ensures DecodeBlock(b).Ok? <==> BlockKinds(b)
      ensures BlockKinds(b) ==> DecodeBlock(b) == Ok(BlockIn(b))
    {
      BlockDecodes(b);
    }
    ListView(blocks, DecodeBlock, BlockKinds, BlockIn);
  }

  lemma ResultRead(block: Json)
    ensures ResultTextOf(Member(block, "content")) == ResultIn(block)
  {
    hide DecodeBlock, BlockKinds, TextsOf, TextsIn, Join, Separated, DecodeAll;
    var content := At(block, "content");
    if content.Arr? {
      BlocksDecode(content.elems);
      TextsRead(content.elems);
      JoinSeparates(TextsIn(content.elems), "\n");
      assert Map(Map(content.elems, BlockIn), SnippetOf) == Map(content.elems, SnippetIn);
    }
  }

  // ---------- The blocks of one message ----------

  lemma ImageRead(block: Json)
    ensures ImageUrl(OptSourceIn(block)).Ok? <==> At(block, "source").Obj? && ImageOk(At(block, "source"))
    ensures ImageUrl(OptSourceIn(block)).Ok? ==> ImageUrl(OptSourceIn(block)) == Ok(ImageIn(At(block, "source")))
  {
    var media := TextIn(At(At(block, "source"), "media_type"));
    var data := TextIn(At(At(block, "source"), "data"));
    D.SameText(if media == "" then "image/png" else media, data);
  }

  lemma {:induction false} ResultsSnoc(blocks: seq<Json>, b: Json)
    ensures ResultsIn(blocks + [b]) == ResultsIn(blocks) + ResultsIn([b])
  {
    hide Type, At, ResultIn;
    if |blocks| == 0 {
      assert blocks + [b] == [b];
    } else {
      ResultsSnoc(blocks[1..], b);
      assert (blocks + [b])[1..] == blocks[1..] + [b];
    }
  }

  lemma {:induction false} PartsSnoc(blocks: seq<Json>, b: Json)
    ensures PartsIn(blocks + [b]) == PartsIn(blocks) + PartsIn([b])
  {
    hide Type, At, ImageIn;
    if |blocks| == 0 {
      assert blocks + [b] == [b];
    } else {
      PartsSnoc(blocks[1..], b);
      assert (blocks + [b])[1..] == blocks[1..] + [b];
    }
  }

  lemma {:induction false} CallsSnoc(codec: Codec, blocks: seq<Json>, b: Json)
    ensures CallsIn(codec, blocks + [b]) == CallsIn(codec, blocks) + CallsIn(codec, [b])
  {
    hide Type, At, InputIn;
    if |blocks| == 0 {
      assert blocks + [b] == [b];
    } else {
      CallsSnoc(codec, blocks[1..], b);
      assert (blocks + [b])[1..] == blocks[1..] + [b];
    }
  }

  function Says(codec: Codec, role: string, blocks: seq<Json>): Gathered {
    Gathered(ResultsIn(blocks), PartsIn(blocks), if role == "assistant" then CallsIn(codec, blocks) else [])
  }

  /** What one block adds. */
  function Adds(codec: Codec, role: string, g: Gathered, b: Json): Gathered {
    var more := Says(codec, role, [b]);
    Gathered(g.results + more.results, g.parts + more.parts, g.calls + more.calls)
  }

  lemma SaysSnoc(codec: Codec, role: string, blocks: seq<Json>, b: Json)
    ensures Says(codec, role, blocks + [b]) == Adds(codec, role, Says(codec, role, blocks), b)
  {
    hide ResultsIn, PartsIn, CallsIn;
    ResultsSnoc(blocks, b);
    PartsSnoc(blocks, b);
    CallsSnoc(codec, blocks, b);
  }

  lemma NothingMore<T>(s: seq<T>)
    ensures s + [] == s
  {
  }

  lemma OneBlock(codec: Codec, role: string, b: Json)
    ensures Says(codec, role, [b]) ==
      match Type(b)
      case "text" => Gathered([], [TextPart(TextIn(At(b, "text")))], [])
      case "image" => Gathered([], [ImagePart(ImageIn(At(b, "source")))], [])
      case "tool_use" => Gathered([], [],
        if role == "assistant" then [ToolCall(TextIn(At(b, "id")), TextIn(At(b, "name")), InputIn(codec, b))] else [])
      case "tool_result" =>
        Gathered([Message("tool", [TextPart(ResultIn(b))], "", TextIn(At(b, "tool_use_id")), [])], [], [])
      case _ => Gathered([], [], [])
  {
    hide At, ImageIn, ResultIn, InputIn;
    assert [b][1..] == [] && ResultsIn([]) == [] && PartsIn([]) == [] && CallsIn(codec, []) == [];
    var said := Says(codec, role, [b]);
    assert |said.results| <= 1 && |said.parts| <= 1 && |said.calls| <= 1;
  }

  lemma BlockRead(codec: Codec, role: string, g: Gathered, b: Json)
    ensures var r := AfterBlock(codec, role, g, BlockIn(b));
      (r.Ok? <==> BlockOk(b)) && (BlockOk(b) ==> r == Ok(Adds(codec, role, g, b)))
  {
    hide ImageUrl, ImageOk, ImageIn, ResultTextOf, ResultIn, At, Says;
    OneBlock(codec, role, b);
    ResultRead(b);
    ImageRead(b);
    NothingMore(g.results);
    NothingMore(g.parts);
    NothingMore(g.calls);
  }

  lemma GatherSnoc(codec: Codec, role: string, raws: seq<RawBlock>, b: RawBlock)
    ensures var g := Gather(codec, role, raws);
      Gather(codec, role, raws + [b]) == if g.Ok? then AfterBlock(codec, role, g.value, b) else g
  {
    hide AfterBlock;
    assert (raws + [b])[..|raws|] == raws;
  }

  lemma {:induction false} BlocksRead(codec: Codec, role: string, blocks: seq<Json>)
    ensures var g := Gather(codec, role, Map(blocks, BlockIn));
      && (g.Ok? <==> forall b :: b in blocks ==> BlockOk(b)) && (g.Ok? ==> g == Ok(Says(codec, role, blocks)))
  {
    if |blocks| == 0 {
    } else {
      hide AfterBlock, BlockOk, Says, BlockIn, Gather;
      var init, b := blocks[..|blocks| - 1], blocks[|blocks| - 1];
      BlocksRead(codec, role, init);
      BlockRead(codec, role, Says(codec, role, init), b);
      SaysSnoc(codec, role, init, b);
      assert blocks == init + [b];
      assert Map(blocks, BlockIn) == Map(init, BlockIn) + [BlockIn(b)];
      GatherSnoc(codec, role, Map(init, BlockIn), BlockIn(b));
      assert forall x :: x in blocks <==> x in init || x == b;
    }
  }

  lemma {:induction false} ResultsAreToolMessages(blocks: seq<Json>)
    ensures forall m :: m in ResultsIn(blocks) ==> m.role == "tool"
  {
    if |blocks| == 0 {
    } else {
      ResultsAreToolMessages(blocks[1..]);
    }
  }

  // ---------- Messages ----------

  lemma Arranged(codec: Codec, role: string, blocks: seq<Json>)
    ensures var g := Says(codec, role, blocks);
      Messages(role, g) ==
        g.results + (if g.parts == [] && g.calls == [] then [] else [Message(role, g.parts, "", "", g.calls)])
  {
    hide ResultsIn, PartsIn, CallsIn;
    var g := Says(codec, role, blocks);
    ResultsAreToolMessages(blocks);
    if g.calls != [] && g.parts != [] {
      var out := g.results + [Plain(role, g.parts, [])];
      assert out[|out| - 1 := out[|out| - 1].(toolCalls := g.calls)] ==
        g.results + [Message(role, g.parts, "", "", g.calls)];
    } else if g.calls != [] {
      assert g.results != [] ==> g.results[|g.results| - 1] in g.results;
      assert g.results + [] == g.results;
    }
  }

  function RawMessageIn(message: Json): RawMessage {
    RawMessage(TextIn(At(message, "role")), Member(message, "content"))
  }

  lemma MessageDecodes(message: Json)
    ensures DecodeMessage(message).Ok? <==> MessageKinds(message)
    ensures MessageKinds(message) ==> DecodeMessage(message) == Ok(RawMessageIn(message))
  {
    StructView(message);
    if IsStruct(message) {
      StringMembers(message, ["role"]);
    }
  }

  lemma MessageRead(codec: Codec, message: Json)
    ensures var r := MessagesOf(codec, RawMessageIn(message));
      && (r.Ok? <==> HasContent(message)) && (r.Ok? ==> r == Ok(MessageIn(codec, message)))
  {
    hide DecodeAll, DecodeBlock, Gather, BlockKinds, BlockOk, Messages, ResultsIn, PartsIn, CallsIn, BlockIn;
    var content := At(message, "content");
    if content.Arr? {
      var role := TextIn(At(message, "role"));
      BlocksDecode(content.elems);
      BlocksRead(codec, role, content.elems);
      Arranged(codec, role, content.elems);
    }
  }

  lemma {:induction false} ConversationSnoc(codec: Codec, messages: seq<Json>, m: Json)
    ensures ConversationIn(codec, messages + [m]) == ConversationIn(codec, messages) + MessageIn(codec, m)
  {
    hide MessageIn;
    if |messages| == 0 {
      assert messages + [m] == [m];
      assert MessageIn(codec, m) + [] == [] + MessageIn(codec, m);
    } else {
      ConversationSnoc(codec, messages[1..], m);
      assert (messages + [m])[1..] == messages[1..] + [m];
    }
  }

  lemma AllMessagesSnoc(codec: Codec, raws: seq<RawMessage>, m: RawMessage)
    ensures var init, last := AllMessages(codec, raws), MessagesOf(codec, m);
      AllMessages(codec, raws + [m]) ==
        if init.Err? then init else if last.Err? then last else Ok(init.value + last.value)
  {
    hide MessagesOf;
    assert (raws + [m])[..|raws|] == raws;
  }

  predicate HasContent(m: Json) {
    ContentOk(At(m, "content"))
  }

  lemma {:induction false} ConversationRead(codec: Codec, messages: seq<Json>)
    ensures var r := AllMessages(codec, Map(messages, RawMessageIn));
      (r.Ok? <==> AllHaveContent(messages)) && (r.Ok? ==> r == Ok(ConversationIn(codec, messages)))
  {
    if |messages| == 0 {
    } else {
      hide MessagesOf, HasContent, MessageIn, RawMessageIn, AllMessages, ConversationIn, AllHaveContent;
      var init, m := messages[..|messages| - 1], messages[|messages| - 1];
      MessageRead(codec, m);
      ConversationRead(codec, init);
      ConversationSnoc(codec, init, m);
      assert messages == init + [m];
      RawSnoc(init, m);
      AllMessagesSnoc(codec, Map(init, RawMessageIn), RawMessageIn(m));
    }
  }

  predicate AllHaveContent(messages: seq<Json>) {
    forall m :: m in messages ==> HasContent(m)
  }

  lemma RawSnoc(init: seq<Json>, m: Json)
    ensures Map(init + [m], RawMessageIn) == Map(init, RawMessageIn) + [RawMessageIn(m)]
    ensures AllHaveContent(init + [m]) <==> AllHaveContent(init) && HasContent(m)
  {
    hide RawMessageIn, HasContent;
    assert forall x :: x in init + [m] <==> x in init || x == m;
  }

  // ---------- Requests ----------

  lemma ToolDecodes(tool: Json)
    ensures DecodeTool(tool).Ok? <==> ToolKinds(tool)
    ensures ToolKinds(tool) ==> DecodeTool(tool) == Ok(ToolIn(tool))
  {
    StructView(tool);
    if IsStruct(tool) {
      StringMembers(tool, ["name", "description"]);
      MemberView(tool, "input_schema");
    }
  }

  lemma ListsDecode(doc: Json)
    ensures var ms, ts := MessagesIn(doc), ListIn(At(doc, "tools"));
      && (DecodeAll(ms, DecodeMessage).Ok? <==> forall m :: m in ms ==> MessageKinds(m))
      && (DecodeAll(ms, DecodeMessage).Ok? ==> DecodeAll(ms, DecodeMessage).value == Map(ms, RawMessageIn))
      && (DecodeAll(ts, DecodeTool).Ok? <==> forall t :: t in ts ==> ToolKinds(t))
      && (DecodeAll(ts, DecodeTool).Ok? ==> DecodeAll(ts, DecodeTool).value == Map(ts, ToolIn))
  {
    forall m
      ensures DecodeMessage(m).Ok? <==> MessageKinds(m)
      ensures MessageKinds(m) ==> DecodeMessage(m) == Ok(RawMessageIn(m))
    {
      MessageDecodes(m);
    }
    forall t
      ensures DecodeTool(t).Ok? <==> ToolKinds(t)
      ensures ToolKinds(t) ==> DecodeTool(t) == Ok(ToolIn(t))
    {
      ToolDecodes(t);
    }
    ListView(MessagesIn(doc), DecodeMessage, MessageKinds, RawMessageIn);
    ListView(ListIn(At(doc, "tools")), DecodeTool, ToolKinds, ToolIn);
  }

  lemma RequestDecodes(doc: Json)
    ensures DecodeRequest(doc).Ok? <==> RequestKinds(doc)
    ensures RequestKinds(doc) ==> DecodeRequest(doc) == Ok(RawRequest(
      TextIn(At(doc, "model")), OptIntIn(At(doc, "max_tokens")), OptNumberIn(At(doc, "temperature")),
      RawField(FieldsOf(doc), "system"), Map(MessagesIn(doc), RawMessageIn), Map(ListIn(At(doc, "tools")), ToolIn),
      At(doc, "tool_choice"), BoolIn(At(doc, "stream"))))
  {
    hide DecodeAll, DecodeMessage, DecodeTool, MessageKinds, ToolKinds, StrField, IntField, OptIntField, OptNumberField,
      ArrField, BoolField, AnyField, RawField, AsStruct, ObjField, OptObjField, StringIn, At, FieldsOf, TextIn, IntIn,
      OptIntIn, OptNumberIn, BoolIn, ListIn, IsStr, IsInt, IsBool, IsNumber, IsList;
    StructView(doc);
    if IsStruct(doc) {
      MemberView(doc, "model");
      MemberView(doc, "max_tokens");
      MemberView(doc, "temperature");
      MemberView(doc, "messages");
      MemberView(doc, "tools");
      MemberView(doc, "tool_choice");
      MemberView(doc, "stream");
      ListsDecode(doc);
    }
  }

  /** Any document: the parser accepts exactly the requests described above, and gives what they say. */
  lemma ParsedMeaning(codec: Codec, doc: Json)
    ensures Parsed(codec, doc).Ok? <==> RequestOk(doc)
    ensures RequestOk(doc) ==> Parsed(codec, doc) == Ok(RequestIn(codec, doc))
  {
    hide DecodeRequest, RequestKinds, AllMessages, ContentOk, ConversationIn, RawMessageIn, SystemOf, SystemIn, ToolIn;
    RequestDecodes(doc);
    if RequestKinds(doc) {
      ConversationRead(codec, MessagesIn(doc));
      IsStructOf(doc);
      SystemRead(doc);
    }
  }

  lemma IsStructOf(doc: Json)
    requires RequestKinds(doc)
    ensures IsStruct(doc) && IsInt(At(doc, "max_tokens"))
  {
  }

  /**
   A system given as blocks: the request starts with one system message that has the texts of the text blocks in order,
   a blank line between each two, unless that is no text; the conversation follows.
   */
  lemma SystemBlocks(codec: Codec, doc: Json, blocks: seq<Json>)
    requires Parsed(codec, doc).Ok? && At(doc, "system") == Arr(blocks)
    requires forall b :: b in blocks ==> SnippetKinds(b)
    ensures var text := Separated(TextsIn(blocks), "\n\n");
      Parsed(codec, doc).value.messages ==
        (if text == "" then [] else [Message("system", [TextPart(text)], "", "", [])])
        + ConversationIn(codec, ListIn(At(doc, "messages")))
  {
    hide Parsed, RequestOk;
    ParsedMeaning(codec, doc);
  }
}
