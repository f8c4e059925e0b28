/** The Anthropic messages body sent upstream for a request, member by member, without the serialiser's functions. */
module AnthropicBody {
  import opened Wrappers
  import opened Text
  import opened Json
  import opened JsonView
  import opened Conversation
  import opened AnthropicCodec
  import D = DataUrl
  import R = AnthropicCodecRoundTrip

  // ---------- Contents ----------

  /** An image: the media type and data of a base64 data URL, or any other URL as it is. */
  ghost predicate SourceSent(url: string, sent: Json) {
    if exists mediaType, data :: D.IsDataUrl(url, mediaType, data) then
      exists mediaType, data :: D.IsDataUrl(url, mediaType, data) && sent ==
        Obj(map["type" := Str("base64"), "media_type" := Str(mediaType), "data" := Str(data)])
    else sent == Obj(map["type" := Str("url"), "url" := Str(url)])
  }

  ghost predicate PartSent(p: Part, sent: Json) {
    match p
    case TextPart(text) => sent == Obj(map["type" := Str("text"), "text" := Str(text)])
    case ImagePart(url) =>
      sent.Obj? && sent.fields.Keys == {"type", "source"} && sent.fields["type"] == Str("image")
      && SourceSent(url, sent.fields["source"])
  }

  /** Arguments are parsed; what is no object becomes an empty one, but for null. */
  predicate InputSent(codec: Codec, arguments: string, sent: Json) {
    var doc := if arguments == "" then None else codec.dec(arguments);
    sent == if doc.Some? && (doc.value.Obj? || doc.value.Null?) then doc.value else Obj(map[])
  }

  predicate CallSent(codec: Codec, call: ToolCall, sent: Json) {
    && sent.Obj? && sent.fields.Keys == {"type", "id", "name", "input"}
    && sent.fields["type"] == Str("tool_use") && sent.fields["id"] == Str(call.id)
    && sent.fields["name"] == Str(call.name) && InputSent(codec, call.arguments, sent.fields["input"])
  }

  /** The parts and then the calls, as blocks; a single text is a string, and so is nothing at all. */
  ghost predicate BlocksSent(codec: Codec, m: Message, sent: Json) {
    var p, c := |m.content|, |m.toolCalls|;
    if p + c == 0 then sent == Str("") else
    if p == 1 && c == 0 && m.content[0].TextPart? then sent == Str(m.content[0].text) else
    && sent.Arr? && |sent.elems| == p + c
    && (forall i :: 0 <= i < p ==> PartSent(m.content[i], sent.elems[i]))
    && (forall i :: 0 <= i < c ==> CallSent(codec, m.toolCalls[i], sent.elems[p + i]))
  }

  /** A tool message is a single result block with the text of the first part. */
  predicate ResultSent(m: Message, sent: Json) {
    var text := if m.content == [] || m.content[0].ImagePart? then "" else m.content[0].text;
    sent == Arr([Obj(map["type" := Str("tool_result"), "tool_use_id" := Str(m.toolCallId), "content" := Str(text)])])
  }

  ghost predicate MessageSent(codec: Codec, m: Message, sent: Json) {
    && sent.Obj? && sent.fields.Keys == {"role", "content"} && sent.fields["role"] == Str(m.role)
    && if m.role == "tool" then ResultSent(m, sent.fields["content"])
       else BlocksSent(codec, m, sent.fields["content"])
  }

  // ---------- The conversation ----------

  /** The texts of all text parts, empty ones included. */
  function TextsSaid(content: seq<Part>): seq<string> {
    if |content| == 0 then [] else
    (if content[0].TextPart? then [content[0].text] else []) + TextsSaid(content[1..])
  }

  /** The texts of the system messages, wherever they stand. */
  function SystemSaid(ms: seq<Message>): seq<string> {
    if |ms| == 0 then [] else
    (if ms[0].role == "system" then TextsSaid(ms[0].content) else []) + SystemSaid(ms[1..])
  }

  /** One message for each that is no system message, in order. */
  ghost predicate ConversationSent(codec: Codec, ms: seq<Message>, sent: seq<Json>) {
    if |ms| == 0 then sent == [] else
    if ms[0].role == "system" then ConversationSent(codec, ms[1..], sent)
    else |sent| > 0 && MessageSent(codec, ms[0], sent[0]) && ConversationSent(codec, ms[1..], sent[1..])
  }

  // ---------- Tools ----------

  predicate ToolSent(t: Tool, sent: Json) {
    && sent.Obj? && sent.fields.Keys <= {"name", "description", "input_schema"}
    && Said(sent.fields, "name", true, Str(t.name))
    && Said(sent.fields, "description", t.description != "", Str(t.description))
    && Said(sent.fields, "input_schema", t.parameters.Some?, if t.parameters.Some? then t.parameters.value else Null)
  }

  predicate ToolsSent(ts: seq<Tool>, sent: Json) {
    sent.Arr? && |sent.elems| == |ts| && forall i :: 0 <= i < |ts| ==> ToolSent(ts[i], sent.elems[i])
  }

  /** A tool choice in Anthropic's forms: words become objects, and a named function becomes a named tool. */
  predicate ChoiceSent(choice: Json, sent: Json) {
    match choice
    case Str(word) => sent ==
      Obj(map["type" := Str(match word case "none" => "none" case "required" => "any" case _ => "auto")])
    case Obj(o) =>
      if TextIn(At(choice, "type")) != "function" then sent == choice else
      var inner, outer := TextIn(At(At(choice, "function"), "name")), TextIn(At(choice, "name"));
      var name := if inner != "" then inner else outer;
      if name == "" then sent == Obj(map["type" := Str("auto")])
      else sent == Obj(map["type" := Str("tool"), "name" := Str(name)])
    case _ => sent == choice
  }

  // ---------- The serialiser against this ----------

  lemma SourceIsSent(url: string)
    ensures SourceSent(url, Obj(SourceFields(D.Split(url))))
  {
    hide D.Split, D.IsDataUrl;
    D.SplitExactly(url);
    match D.Split(url)
    case Base64(mediaType, data) => assert D.IsDataUrl(url, mediaType, data);
    case Link(_) =>
  }

  lemma PartIsSent(p: Part)
    ensures PartSent(p, BlockJson(PartBlock(p)))
  {
    hide SourceSent, SourceFields, D.Split;
    if p.ImagePart? {
      SourceIsSent(p.url);
    }
  }

  lemma CallIsSent(codec: Codec, call: ToolCall)
    ensures CallSent(codec, call, BlockJson(CallBlock(codec, call)))
  {
  }

  lemma ContentIsSent(codec: Codec, m: Message)
    ensures if m.role == "tool" then ResultSent(m, ContentJson(codec, m))
      else BlocksSent(codec, m, ContentJson(codec, m))
  {
    hide PartSent, CallSent, BlockFields, SourceFields, D.Split, Input;
    if m.role == "tool" {
      ResultIsSent(m);
    } else {
      var blocks := Blocks(codec, m);
      forall i | 0 <= i < |m.content|
        ensures PartSent(m.content[i], BlockJson(blocks[i]))
      {
        PartIsSent(m.content[i]);
      }
      forall i | 0 <= i < |m.toolCalls|
        ensures CallSent(codec, m.toolCalls[i], BlockJson(blocks[|m.content| + i]))
      {
        CallIsSent(codec, m.toolCalls[i]);
      }
      BlocksShape(codec, m);
    }
  }

  lemma ResultIsSent(m: Message)
    ensures ResultSent(m, Arr([BlockJson(ToolResult(m.toolCallId, ResultText(m)))]))
  {
  }

  lemma BlocksShape(codec: Codec, m: Message)
    ensures |Blocks(codec, m)| == |m.content| + |m.toolCalls|
    ensures |Blocks(codec, m)| == 1 ==>
      (Blocks(codec, m)[0].TextBlock? <==> |m.content| == 1 && m.content[0].TextPart?)
      && (Blocks(codec, m)[0].TextBlock? ==> Blocks(codec, m)[0].text == m.content[0].text)
  {
  }

  lemma MessageIsSent(codec: Codec, m: Message)
    ensures MessageSent(codec, m, MessageJson(codec, m))
  {
    hide ContentJson, ResultSent, BlocksSent;
    ContentIsSent(codec, m);
  }

  // ---------- Lists of messages, from the other end ----------

  lemma {:induction false} TextsAreSaid(content: seq<Part>)
    ensures PartTexts(content) == TextsSaid(content)
  {
    if |content| == 0 {
    } else {
      var init, p := content[..|content| - 1], content[|content| - 1];
      TextsAreSaid(init);
      TextsSaidSnoc(init, p);
      assert content == init + [p];
    }
  }

  lemma {:induction false} TextsSaidSnoc(content: seq<Part>, p: Part)
    ensures TextsSaid(content + [p]) == TextsSaid(content) + (if p.TextPart? then [p.text] else [])
  {
    if |content| == 0 {
      assert (content + [p])[1..] == [];
    } else {
      TextsSaidSnoc(content[1..], p);
      assert (content + [p])[1..] == content[1..] + [p];
    }
  }

  lemma {:induction false} SystemIsSaid(ms: seq<Message>)
    ensures SystemTexts(ms) == SystemSaid(ms)
  {
    hide PartTexts, TextsSaid;
    if |ms| == 0 {
    } else {
      var init, m := ms[..|ms| - 1], ms[|ms| - 1];
      SystemIsSaid(init);
      SystemSaidSnoc(init, m);
      TextsAreSaid(m.content);
      assert ms == init + [m];
    }
  }

  lemma {:induction false} SystemSaidSnoc(ms: seq<Message>, m: Message)
    ensures SystemSaid(ms + [m]) == SystemSaid(ms) + (if m.role == "system" then TextsSaid(m.content) else [])
  {
    hide TextsSaid;
    if |ms| == 0 {
      assert (ms + [m])[1..] == [];
    } else {
      SystemSaidSnoc(ms[1..], m);
      assert (ms + [m])[1..] == ms[1..] + [m];
    }
  }

  lemma {:induction false} ConversationSnoc(codec: Codec, ms: seq<Message>, sent: seq<Json>, m: Message, doc: Json)
    requires ConversationSent(codec, ms, sent) && (m.role != "system" ==> MessageSent(codec, m, doc))
    ensures ConversationSent(codec, ms + [m], if m.role == "system" then sent else sent + [doc])
  {
    hide MessageSent;
    if |ms| == 0 {
      assert (ms + [m])[1..] == [];
      assert ([] + [doc])[1..] == [];
    } else {
      assert (ms + [m])[1..] == ms[1..] + [m];
      if ms[0].role == "system" {
        ConversationSnoc(codec, ms[1..], sent, m, doc);
      } else {
        ConversationSnoc(codec, ms[1..], sent[1..], m, doc);
        assert (sent + [doc])[1..] == sent[1..] + [doc];
      }
    }
  }

  lemma {:induction false} ConversationIsSent(codec: Codec, ms: seq<Message>)
    ensures ConversationSent(codec, ms, MessageDocs(codec, ms))
  {
    if |ms| == 0 {
    } else {
      hide MessageSent, MessageJson, ConversationSent;
      var init, m := ms[..|ms| - 1], ms[|ms| - 1];
      ConversationIsSent(codec, init);
      MessageIsSent(codec, m);
      ConversationSnoc(codec, init, MessageDocs(codec, init), m, MessageJson(codec, m));
      assert ms == init + [m];
      assert MessageDocs(codec, init) + [] == MessageDocs(codec, init);
    }
  }

  // ---------- The whole body ----------

  lemma ToolIsSent(t: Tool)
    ensures ToolSent(t, ToolJson(t))
  {
  }

  lemma ChoiceIsSent(choice: Json)
    ensures ChoiceSent(choice, Normalized(choice))
  {
  }

  lemma BodyKeys(o: Out)
    ensures OutJson(o).fields.Keys <=
      {"model", "max_tokens", "messages", "temperature", "system", "tools", "tool_choice", "stream"}
  {
    hide OmitAny, OmitArr, OmitBool, OmitStr, OmitNumber;
  }

  lemma ToolsAreSent(ts: seq<Tool>)
    ensures ToolsSent(ts, Arr(Map(ts, ToolJson)))
  {
    hide ToolSent, ToolJson;
    forall i | 0 <= i < |ts|
      ensures ToolSent(ts[i], Map(ts, ToolJson)[i])
    {
      ToolIsSent(ts[i]);
    }
  }

  /**
   The body sent for any request: at most 1024 tokens unless it says otherwise, the system texts apart from the
   messages with a blank line between each two, and no member without something to say.
   */
  lemma SerializedMeaning(codec: Codec, req: ChatRequest)
    ensures var doc := Serialized(codec, req);
      && doc.Obj?
      && var o := doc.fields;
      && o.Keys <= {"model", "max_tokens", "messages", "temperature", "system", "tools", "tool_choice", "stream"}
      && Said(o, "model", true, Str(req.model))
      && Said(o, "max_tokens", true, Int(if req.maxTokens.Some? then req.maxTokens.value else 1024))
      && At(doc, "messages").Arr? && ConversationSent(codec, req.messages, ListIn(At(doc, "messages")))
      && (match req.temperature
          case None => "temperature" !in o
          case Some(Whole(n)) => Said(o, "temperature", true, Int(n))
          case Some(Part(f)) => Said(o, "temperature", true, Float(f)))
      && (var system := Separated(SystemSaid(req.messages), "\n\n"); Said(o, "system", system != "", Str(system)))
      && ("tools" in o <==> req.tools != []) && (req.tools != [] ==> ToolsSent(req.tools, At(doc, "tools")))
      && ChoiceSent(req.toolChoice, At(doc, "tool_choice")) && ("tool_choice" in o ==> o["tool_choice"] != Null)
      && Said(o, "stream", req.stream, Bool(true))
  {
    hide ToolJson, Normalized, ToolsSent, ChoiceSent, ConversationSent, MessageDocs, SystemTexts, SystemSaid, Join,
      Separated, OutHead, Put;
    var out := OutOf(codec, req);
    R.OutEntries(out);
    BodyKeys(out);
    ConversationIsSent(codec, req.messages);
    SystemIsSaid(req.messages);
    JoinSeparates(SystemTexts(req.messages), "\n\n");
    ToolsAreSent(req.tools);
    ChoiceIsSent(req.toolChoice);
    R.OutIsObject(out);
    hide OutJson;
  }
}
