/** Serialising an Anthropic request, parsing it and serialising it again: exactly when the same body results. */
module AnthropicCodecRoundTrip {
  import opened Wrappers
  import opened Text
  import opened Json
  import opened Conversation
  import opened DataUrl
  import opened AnthropicCodec

  // ---------- tool_choice ----------

  /** The object forms an Anthropic upstream takes, apart from free-form ones that are passed through. */
  predicate Native(choice: Json) {
    !choice.Str? && (choice.Obj? ==> StringIn(choice.fields, "type") != "function")
  }

  /** Normalising changes exactly the OpenAI forms, and once is enough. */
  lemma NormalizedIsStable(choice: Json)
    ensures Native(Normalized(choice))
    ensures Normalized(choice) == choice <==> Native(choice)
    ensures Normalized(Normalized(choice)) == Normalized(choice)
  {
  }

  // ---------- Blocks ----------

  function RawSourceOf(s: Source): RawSource {
    match s
    case Base64(mediaType, data) => RawSource("base64", mediaType, data, "")
    case Link(url) => RawSource("url", "", "", url)
  }

  /** A sent block as its reader sees it. */
  function RawBlockOf(b: Block): RawBlock {
    match b
    case TextBlock(text) => RawBlock("text", text, None, "", "", None, "", None)
    case ImageBlock(source) => RawBlock("image", "", Some(RawSourceOf(source)), "", "", None, "", None)
    case ToolUse(id, name, input) => RawBlock("tool_use", "", None, id, name, Some(input), "", None)
    case ToolResult(id, text) => RawBlock("tool_result", "", None, "", "", None, id, Some(Str(text)))
  }

  lemma SourceDecodes(s: Source)
    ensures DecodeSource(SourceFields(s)) == Ok(RawSourceOf(s))
  {
    match s
    case Base64(mediaType, data) =>
      var o := SourceFields(s);
      assert StrField(o, "media_type") == Ok(mediaType) && StrField(o, "data") == Ok(data)
        && StrField(o, "url") == Ok("");
    case Link(url) =>
      var o := SourceFields(s);
      assert StrField(o, "media_type") == Ok("") && StrField(o, "data") == Ok("") && StrField(o, "url") == Ok(url);
  }

  ghost predicate Says(o: Fields, b: RawBlock) {
    && StrField(o, "type") == Ok(b.typ) && StrField(o, "text") == Ok(b.text) && DecodeOptSource(o) == Ok(b.source)
    && StrField(o, "id") == Ok(b.id) && StrField(o, "name") == Ok(b.name) && RawField(o, "input") == b.input
    && StrField(o, "tool_use_id") == Ok(b.toolUseId) && RawField(o, "content") == b.content
  }

  lemma BlockSays(b: Block)
    ensures Says(BlockFields(b), RawBlockOf(b))
  {
    hide DecodeSource, SourceFields;
    if b.ImageBlock? {
      SourceDecodes(b.source);
      assert DecodeOptSource(BlockFields(b)) == Ok(Some(RawSourceOf(b.source)));
    }
  }

  lemma BlockDecodes(b: Block)
    ensures DecodeBlock(BlockJson(b)) == Ok(RawBlockOf(b))
  {
    hide BlockFields, DecodeOptSource, StrField, RawField;
    BlockSays(b);
  }

  lemma BlocksDecode(blocks: seq<Block>)
    ensures DecodeAll(Map(blocks, BlockJson), DecodeBlock) == Ok(Map(blocks, RawBlockOf))
  {
    hide DecodeBlock, BlockJson, RawBlockOf;
    forall i | 0 <= i < |blocks|
      ensures DecodeBlock(Map(blocks, BlockJson)[i]) == Ok(Map(blocks, RawBlockOf)[i])
    {
      BlockDecodes(blocks[i]);
    }
    DecodeAllOf(Map(blocks, BlockJson), DecodeBlock, Map(blocks, RawBlockOf));
  }

  /** Different blocks are sent differently. */
  lemma BlockJsonInjective(a: Block, b: Block)
    requires BlockJson(a) == BlockJson(b)
    ensures a == b
  {
    hide BlockJson, DecodeBlock;
    BlockDecodes(a);
    BlockDecodes(b);
  }

  // ---------- What a message's blocks give back ----------

  /** The arguments as they come back: the text of the input that was sent. */
  function ReprintedCall(codec: Codec, tc: ToolCall): ToolCall {
    ToolCall(tc.id, tc.name, codec.enc(Input(codec, tc.arguments)))
  }

  lemma InputIsStable(codec: Codec, tc: ToolCall)
    requires codec.Valid()
    ensures CallBlock(codec, ReprintedCall(codec, tc)) == CallBlock(codec, tc)
  {
  }

  function ReprintedCalls(codec: Codec, calls: seq<ToolCall>): (r: seq<ToolCall>)
    ensures |r| == |calls|
    ensures forall i :: 0 <= i < |calls| ==> r[i] == ReprintedCall(codec, calls[i])
  {
    seq(|calls|, i requires 0 <= i < |calls| => ReprintedCall(codec, calls[i]))
  }

  lemma CallBlocksStable(codec: Codec, calls: seq<ToolCall>)
    requires codec.Valid()
    ensures CallBlocks(codec, ReprintedCalls(codec, calls)) == CallBlocks(codec, calls)
  {
    forall i | 0 <= i < |calls|
      ensures CallBlocks(codec, ReprintedCalls(codec, calls))[i] == CallBlocks(codec, calls)[i]
    {
      InputIsStable(codec, calls[i]);
    }
  }

  /** A part as it comes back: an image URL is split and joined again, which may fail. */
  function PartBack(p: Part): Result<Part> {
    match p
    case TextPart(_) => Ok(p)
    case ImagePart(url) =>
      var u :- Joined(Split(url));
      Ok(ImagePart(u))
  }

  predicate PartKept(p: Part) {
    p.ImagePart? ==> Complete(Split(p.url))
  }

  lemma PartBackMeaning(p: Part)
    ensures PartBack(p) == Ok(p) <==> PartKept(p)
    ensures PartBack(p).Ok? ==> (PartBlock(PartBack(p).value) == PartBlock(p) <==> PartKept(p))
    ensures PartBack(p).Ok? ==> PartBack(p).value.TextPart? == p.TextPart?
  {
    hide Split, Joined;
    if p.ImagePart? {
      JoinSplit(p.url);
    }
  }

  lemma ImageUrlOf(s: Source)
    ensures ImageUrl(Some(RawSourceOf(s))) == Joined(s)
  {
  }

  lemma {:induction false} GatherParts(codec: Codec, role: string, parts: seq<Part>)
    ensures var back := DecodeAll(parts, PartBack);
      Gather(codec, role, Map(Map(parts, PartBlock), RawBlockOf)) ==
      if back.Ok? then Ok(Gathered([], back.value, [])) else Err(back.error)
  {
    hide Split, Joined, ImageUrl;
    if |parts| == 0 {
    } else {
      var init, p := parts[..|parts| - 1], parts[|parts| - 1];
      GatherParts(codec, role, init);
      var raws := Map(Map(parts, PartBlock), RawBlockOf);
      assert raws[..|raws| - 1] == Map(Map(init, PartBlock), RawBlockOf);
      if p.ImagePart? {
        ImageUrlOf(Split(p.url));
      }
    }
  }

  lemma CallStep(codec: Codec, role: string, g: Gathered, tc: ToolCall)
    ensures AfterBlock(codec, role, g, RawBlockOf(CallBlock(codec, tc))) ==
      Ok(if role == "assistant" then g.(calls := g.calls + [ReprintedCall(codec, tc)]) else g)
  {
    hide Input;
  }

  lemma {:induction false} GatherCalls(codec: Codec, role: string, before: seq<RawBlock>, calls: seq<ToolCall>)
    requires Gather(codec, role, before).Ok? && Gather(codec, role, before).value.calls == []
    ensures Gather(codec, role, before + Map(CallBlocks(codec, calls), RawBlockOf)) ==
      Ok(Gather(codec, role, before).value.(calls := if role == "assistant" then ReprintedCalls(codec, calls) else []))
  {
    hide AfterBlock, RawBlockOf, CallBlock, ReprintedCall, Map;
    var all := before + Map(CallBlocks(codec, calls), RawBlockOf);
    if |calls| > 0 {
      var init, tc := calls[..|calls| - 1], calls[|calls| - 1];
      GatherCalls(codec, role, before, init);
      assert all[..|all| - 1] == before + Map(CallBlocks(codec, init), RawBlockOf);
      assert all[|all| - 1] == RawBlockOf(CallBlock(codec, tc));
      CallStep(codec, role, Gather(codec, role, all[..|all| - 1]).value, tc);
      assert ReprintedCalls(codec, calls) == ReprintedCalls(codec, init) + [ReprintedCall(codec, tc)];
    } else {
      assert all == before;
      assert ReprintedCalls(codec, calls) == [];
    }
  }

  lemma {:induction false} GatherFailsOn(codec: Codec, role: string, before: seq<RawBlock>, rest: seq<RawBlock>)
    requires Gather(codec, role, before).Err?
    ensures Gather(codec, role, before + rest) == Err(Gather(codec, role, before).error)
  {
    assert (before + rest)[..|before|] == before;
    GatherFails(codec, role, before + rest, |before|);
  }

  /** The blocks of a message that is neither system nor tool, read back. */
  lemma BlocksBack(codec: Codec, m: Message)
    ensures var back := DecodeAll(m.content, PartBack);
      Gather(codec, m.role, Map(Blocks(codec, m), RawBlockOf)) ==
      if back.Err? then Err(back.error)
      else Ok(Gathered([], back.value, if m.role == "assistant" then ReprintedCalls(codec, m.toolCalls) else []))
  {
    hide RawBlockOf, PartBlock, CallBlocks, PartBack, ReprintedCalls;
    var head := Map(Map(m.content, PartBlock), RawBlockOf);
    var tail := Map(CallBlocks(codec, m.toolCalls), RawBlockOf);
    assert Map(Blocks(codec, m), RawBlockOf) == head + tail;
    GatherParts(codec, m.role, m.content);
    if DecodeAll(m.content, PartBack).Ok? {
      GatherCalls(codec, m.role, head, m.toolCalls);
    } else {
      GatherFailsOn(codec, m.role, head, tail);
    }
  }

  // ---------- One message ----------

  /** What the protocol can carry of a message: tool calls of the assistant only, and complete images. */
  predicate Carried(m: Message) {
    && (m.toolCalls != [] ==> m.role == "assistant")
    && forall i :: 0 <= i < |m.content| ==> PartKept(m.content[i])
  }

  /** The message as sent and unmarshalled again. */
  function Sent(codec: Codec, m: Message): RawMessage {
    RawMessage(m.role, Some(ContentJson(codec, m)))
  }

  /** A message read back is at most one message of the same role. */
  ghost predicate AtMostOne(r: Result<seq<Message>>, role: string) {
    r.Ok? ==> |r.value| <= 1 && forall i :: 0 <= i < |r.value| ==> r.value[i].role == role
  }

  /** It would be sent the same way again. */
  ghost predicate Same(codec: Codec, r: Result<seq<Message>>, m: Message) {
    r.Ok? && |r.value| == 1 && r.value[0].role == m.role && ContentJson(codec, r.value[0]) == ContentJson(codec, m)
  }

  lemma ToolBack(codec: Codec, m: Message)
    requires m.role == "tool"
    ensures var r := MessagesOf(codec, Sent(codec, m)); AtMostOne(r, m.role) && Same(codec, r, m)
  {
    var b := ToolResult(m.toolCallId, ResultText(m));
    BlocksDecode([b]);
    assert Map([b], BlockJson) == [BlockJson(b)] && Map([b], RawBlockOf) == [RawBlockOf(b)];
    hide DecodeBlock, BlockJson, DecodeAll;
    var raws := [RawBlockOf(b)];
    assert raws[..0] == [];
    assert Gather(codec, "tool", raws) == AfterBlock(codec, "tool", Gathered([], [], []), raws[0]);
    assert Messages("tool", Gathered([ToolMessage(b.id, b.text)], [], [])) == [ToolMessage(b.id, b.text)];
  }

  lemma BlocksAt(codec: Codec, m: Message)
    ensures |Blocks(codec, m)| == |m.content| + |m.toolCalls|
    ensures forall i :: 0 <= i < |m.content| ==> Blocks(codec, m)[i] == PartBlock(m.content[i])
    ensures forall i :: 0 <= i < |m.toolCalls| ==> Blocks(codec, m)[|m.content| + i] == CallBlock(codec, m.toolCalls[i])
  {
    hide PartBlock, CallBlock, Map, CallBlocks;
    var head, tail := Map(m.content, PartBlock), CallBlocks(codec, m.toolCalls);
    assert Blocks(codec, m) == head + tail;
  }

  /** A message sent as a string. */
  lemma StringBack(codec: Codec, m: Message)
    requires m.role != "tool" && ContentJson(codec, m).Str?
    ensures var r := MessagesOf(codec, Sent(codec, m)); AtMostOne(r, m.role) && Same(codec, r, m) && Carried(m)
  {
    var text := ContentJson(codec, m).s;
    var back := Plain(m.role, [TextPart(text)], []);
    assert Blocks(codec, back) == [TextBlock(text)];
    BlocksAt(codec, m);
  }

  lemma ArrayDoc(blocks: seq<Block>)
    requires BlocksJson(blocks).Arr?
    ensures blocks != [] && BlocksJson(blocks) == Arr(Map(blocks, BlockJson))
  {
  }

  /** Two lists of blocks sent alike as arrays are equal. */
  lemma SameBlocks(a: seq<Block>, b: seq<Block>)
    requires BlocksJson(a) == BlocksJson(b) && BlocksJson(b).Arr?
    ensures a == b
  {
    hide BlockJson;
    ArrayDoc(a);
    ArrayDoc(b);
    assert |Map(a, BlockJson)| == |Map(b, BlockJson)|;
    forall i | 0 <= i < |a|
      ensures a[i] == b[i]
    {
      assert Map(a, BlockJson)[i] == Map(b, BlockJson)[i];
      BlockJsonInjective(a[i], b[i]);
    }
  }

  /** The message that comes back from blocks that could be read. */
  function Back(codec: Codec, m: Message, parts: seq<Part>): Message {
    Plain(m.role, parts, if m.role == "assistant" then ReprintedCalls(codec, m.toolCalls) else [])
  }

  /** A message sent as an array of blocks, as it is read back. */
  lemma ArrayBack(codec: Codec, m: Message)
    requires m.role != "tool" && ContentJson(codec, m).Arr?
    ensures var parts := DecodeAll(m.content, PartBack);
      MessagesOf(codec, Sent(codec, m)) ==
      if parts.Err? then Err(parts.error) else
      Ok(if parts.value == [] && m.role != "assistant" then [] else [Back(codec, m, parts.value)])
  {
    hide Blocks, RawBlockOf, BlockJson, DecodeBlock, Gather, PartBack;
    var blocks := Blocks(codec, m);
    ArrayDoc(blocks);
    BlocksDecode(blocks);
    BlocksBack(codec, m);
    BackCounts(codec, m);
    var parts := DecodeAll(m.content, PartBack);
    if parts.Ok? {
      assert Gather(codec, m.role, Map(blocks, RawBlockOf)).Ok?;
      var g := Gather(codec, m.role, Map(blocks, RawBlockOf)).value;
      assert g.results == [] && g.parts == parts.value;
      if g.parts != [] || m.role == "assistant" {
        assert Messages(m.role, g) == [Back(codec, m, parts.value)];
      } else {
        assert Messages(m.role, g) == [];
      }
    }
  }

  lemma BackCounts(codec: Codec, m: Message)
    ensures |Blocks(codec, m)| == |m.content| + |m.toolCalls|
    ensures DecodeAll(m.content, PartBack).Ok? ==> |DecodeAll(m.content, PartBack).value| == |m.content|
  {
    hide PartBack;
    if DecodeAll(m.content, PartBack).Ok? {
      DecodeAllEach(m.content, PartBack);
    }
  }

  /** What is carried comes back as it was sent. */
  lemma CarriedComesBack(codec: Codec, m: Message)
    requires codec.Valid() && m.role != "tool" && Carried(m)
    ensures DecodeAll(m.content, PartBack) == Ok(m.content)
    ensures Blocks(codec, Back(codec, m, m.content)) == Blocks(codec, m)
  {
    hide PartBack, PartKept;
    forall i | 0 <= i < |m.content|
      ensures PartBack(m.content[i]) == Ok(m.content[i])
    {
      PartBackMeaning(m.content[i]);
    }
    DecodeAllOf(m.content, PartBack, m.content);
    CallBlocksStable(codec, m.toolCalls);
  }

  /** What comes back as it was sent is carried. */
  lemma ComesBackCarried(codec: Codec, m: Message, parts: seq<Part>)
    requires m.role != "tool" && DecodeAll(m.content, PartBack) == Ok(parts)
    requires Blocks(codec, Back(codec, m, parts)) == Blocks(codec, m)
    ensures Carried(m)
  {
    hide PartBack, PartKept, PartBlock;
    DecodeAllEach(m.content, PartBack);
    var back := Back(codec, m, parts);
    assert |Blocks(codec, back)| == |parts| + |back.toolCalls|;
    forall i | 0 <= i < |m.content|
      ensures PartKept(m.content[i])
    {
      PartBackMeaning(m.content[i]);
      assert Blocks(codec, back)[i] == PartBlock(parts[i]) && Blocks(codec, m)[i] == PartBlock(m.content[i]);
    }
  }

  /** A message comes back as it was sent exactly when the protocol carries it; tool messages always do. */
  lemma MessageTwice(codec: Codec, m: Message)
    requires codec.Valid()
    ensures var r := MessagesOf(codec, Sent(codec, m));
      AtMostOne(r, m.role) && (Same(codec, r, m) <==> m.role == "tool" || Carried(m))
  {
    if m.role == "tool" {
      ToolBack(codec, m);
    } else if ContentJson(codec, m).Str? {
      StringBack(codec, m);
    } else {
      ArrayTwice(codec, m);
    }
  }

  lemma ArrayTwice(codec: Codec, m: Message)
    requires codec.Valid() && m.role != "tool" && ContentJson(codec, m).Arr?
    ensures var r := MessagesOf(codec, Sent(codec, m));
      AtMostOne(r, m.role) && (Same(codec, r, m) <==> Carried(m))
  {
    ArrayBack(codec, m);
    BackCounts(codec, m);
    ArrayDoc(Blocks(codec, m));
    hide MessagesOf, BlocksJson, Blocks, PartBack, PartKept, ReprintedCalls;
    var r := MessagesOf(codec, Sent(codec, m));
    if Carried(m) {
      CarriedComesBack(codec, m);
      assert m.content == [] ==> m.role == "assistant";
      assert r.value == [Back(codec, m, m.content)];
    }
    if Same(codec, r, m) {
      var parts := DecodeAll(m.content, PartBack).value;
      assert r.value[0] == Back(codec, m, parts);
      SameBlocks(Blocks(codec, r.value[0]), Blocks(codec, m));
      ComesBackCarried(codec, m, parts);
    }
  }

  // ---------- The list of messages ----------

  function SentAll(codec: Codec, ms: seq<Message>): seq<RawMessage> {
    if |ms| == 0 then [] else
    var m := ms[|ms| - 1];
    SentAll(codec, ms[..|ms| - 1]) + (if m.role == "system" then [] else [Sent(codec, m)])
  }

  /** Every message other than system and tool messages is carried. */
  predicate AllCarried(ms: seq<Message>) {
    forall i :: 0 <= i < |ms| && ms[i].role != "system" && ms[i].role != "tool" ==> Carried(ms[i])
  }

  ghost predicate NoSystem(ms: seq<Message>) {
    forall i :: 0 <= i < |ms| ==> ms[i].role != "system"
  }

  lemma {:induction false} NoSystemDocs(codec: Codec, ms: seq<Message>)
    requires NoSystem(ms)
    ensures |MessageDocs(codec, ms)| == |ms| && SystemTexts(ms) == []
  {
    if |ms| == 0 {
    } else {
      NoSystemDocs(codec, ms[..|ms| - 1]);
    }
  }

  lemma {:induction false} DocsAppend(codec: Codec, a: seq<Message>, b: seq<Message>)
    ensures MessageDocs(codec, a + b) == MessageDocs(codec, a) + MessageDocs(codec, b)
    ensures SystemTexts(a + b) == SystemTexts(a) + SystemTexts(b)
  {
    hide MessageJson;
    if |b| == 0 {
      assert a + b == a;
    } else {
      assert (a + b)[..|a + b| - 1] == a + b[..|b| - 1];
      DocsAppend(codec, a, b[..|b| - 1]);
    }
  }

  lemma SameDoc(codec: Codec, a: Message, b: Message)
    ensures MessageJson(codec, a) == MessageJson(codec, b) <==>
      a.role == b.role && ContentJson(codec, a) == ContentJson(codec, b)
  {
    hide ContentJson;
    var s, t := MessageJson(codec, a).fields, MessageJson(codec, b).fields;
    assert s["role"] == Str(a.role) && s["content"] == ContentJson(codec, a);
    assert t["role"] == Str(b.role) && t["content"] == ContentJson(codec, b);
  }

  /** The whole list, sent and read back. */
  ghost predicate ListBack(codec: Codec, ms: seq<Message>) {
    var r := AllMessages(codec, SentAll(codec, ms));
    && (r.Ok? ==> NoSystem(r.value) && |r.value| <= |MessageDocs(codec, ms)|)
    && (r.Ok? && MessageDocs(codec, r.value) == MessageDocs(codec, ms) <==> AllCarried(ms))
  }

  lemma {:induction false} ListTwice(codec: Codec, ms: seq<Message>)
    requires codec.Valid()
    ensures ListBack(codec, ms)
  {
    hide MessagesOf, MessageJson, Carried;
    if |ms| == 0 {
    } else {
      var init, m := ms[..|ms| - 1], ms[|ms| - 1];
      ListTwice(codec, init);
      assert ms == init + [m];
      if m.role == "system" {
        SystemStep(codec, init, m);
      } else {
        ListStep(codec, init, m);
      }
    }
  }

  lemma AllCarriedSnoc(init: seq<Message>, m: Message)
    ensures AllCarried(init + [m]) <==> AllCarried(init) && (m.role == "system" || m.role == "tool" || Carried(m))
  {
    hide Carried;
    var ms := init + [m];
    assert forall i :: 0 <= i < |init| ==> ms[i] == init[i];
    assert ms[|init|] == m;
  }

  lemma SystemStep(codec: Codec, init: seq<Message>, m: Message)
    requires ListBack(codec, init) && m.role == "system"
    ensures ListBack(codec, init + [m])
  {
    hide MessageJson, ContentJson, MessagesOf, AllMessages, AllCarried, NoSystem;
    var ms := init + [m];
    assert ms[..|ms| - 1] == init;
    AllCarriedSnoc(init, m);
    assert SentAll(codec, ms) == SentAll(codec, init) && MessageDocs(codec, ms) == MessageDocs(codec, init);
  }

  lemma SameTail<T>(a: seq<T>, b: seq<T>, c: seq<T>, d: T)
    requires |a| <= |c| && |b| <= 1
    ensures a + b == c + [d] <==> a == c && b == [d]
  {
    if a + b == c + [d] {
      assert |a + b| == |c + [d]|;
      assert a == (a + b)[..|a|] && c == (c + [d])[..|a|];
      assert b == (a + b)[|a|..] && [d] == (c + [d])[|a|..];
    }
  }

  lemma SentSnoc(codec: Codec, init: seq<Message>, m: Message)
    requires m.role != "system"
    ensures MessageDocs(codec, init + [m]) == MessageDocs(codec, init) + [MessageJson(codec, m)]
    ensures var r0, r1 := AllMessages(codec, SentAll(codec, init)), MessagesOf(codec, Sent(codec, m));
      var r := AllMessages(codec, SentAll(codec, init + [m]));
      if r0.Ok? && r1.Ok? then r == Ok(r0.value + r1.value) else r.Err?
  {
    hide MessageJson, Sent, MessagesOf;
    var ms := init + [m];
    assert ms[..|ms| - 1] == init;
    var sent := SentAll(codec, ms);
    assert sent == SentAll(codec, init) + [Sent(codec, m)] && sent[..|sent| - 1] == SentAll(codec, init);
  }

  lemma ListStep(codec: Codec, init: seq<Message>, m: Message)
    requires codec.Valid() && ListBack(codec, init) && m.role != "system"
    ensures ListBack(codec, init + [m])
  {
    hide MessageJson, ContentJson, MessagesOf, Carried, AllCarried, SystemTexts;
    hide AllMessages, SentAll, MessageDocs;
    MessageTwice(codec, m);
    AllCarriedSnoc(init, m);
    SentSnoc(codec, init, m);
    var r0, r1 := AllMessages(codec, SentAll(codec, init)), MessagesOf(codec, Sent(codec, m));
    if r0.Ok? && r1.Ok? {
      NoSystemDocs(codec, r0.value);
      DocsAppend(codec, r0.value, r1.value);
      LastDoc(codec, r1.value, m);
      SameTail(MessageDocs(codec, r0.value), MessageDocs(codec, r1.value), MessageDocs(codec, init),
          MessageJson(codec, m));
    }
  }

  /** At most one message of a role, sent again: one equal document, or not the same list. */
  lemma LastDoc(codec: Codec, r: seq<Message>, m: Message)
    requires m.role != "system" && AtMostOne(Ok(r), m.role)
    ensures |MessageDocs(codec, r)| == |r|
    ensures MessageDocs(codec, r) == [MessageJson(codec, m)] <==> Same(codec, Ok(r), m)
  {
    hide MessageJson, ContentJson;
    if |r| == 1 {
      assert r[..0] == [];
      assert MessageDocs(codec, r) == [MessageJson(codec, r[0])];
      SameDoc(codec, r[0], m);
    }
  }

  // ---------- The whole request ----------

  lemma HeadEntries(o: Out)
    ensures var f := OutHead(o);
      && Entry(f, "model") == Some(Str(o.model)) && Entry(f, "max_tokens") == Some(Int(o.maxTokens))
      && Entry(f, "messages") == Some(Arr(o.messages)) && Entry(f, "temperature") == OmitNumber(o.temperature)
      && Entry(f, "system") == OmitStr(o.system) && Entry(f, "tools") == None
      && Entry(f, "tool_choice") == None && Entry(f, "stream") == None
  {
    hide Put, OmitNumber, OmitStr;
  }

  lemma OutEntries(o: Out)
    ensures var f := OutJson(o).fields;
      && Entry(f, "model") == Some(Str(o.model)) && Entry(f, "max_tokens") == Some(Int(o.maxTokens))
      && Entry(f, "messages") == Some(Arr(o.messages)) && Entry(f, "temperature") == OmitNumber(o.temperature)
      && Entry(f, "system") == OmitStr(o.system) && Entry(f, "tools") == OmitArr(o.tools)
      && Entry(f, "tool_choice") == OmitAny(o.toolChoice) && Entry(f, "stream") == OmitBool(o.stream)
  {
    hide Put, OutHead, OmitNumber, OmitStr, OmitArr, OmitAny, OmitBool;
    HeadEntries(o);
  }

  lemma OutFields(o: Out)
    ensures var f := OutJson(o).fields;
      && StrField(f, "model") == Ok(o.model) && OptIntField(f, "max_tokens") == Ok(Some(o.maxTokens))
      && ArrField(f, "messages") == Ok(o.messages) && OptNumberField(f, "temperature") == Ok(o.temperature)
      && SystemOf(RawField(f, "system")) == o.system && ArrField(f, "tools") == Ok(o.tools)
      && AnyField(f, "tool_choice") == o.toolChoice && BoolField(f, "stream") == Ok(o.stream)
  {
    hide OutJson, OutHead, DecodeAll;
    OutEntries(o);
  }

  lemma OutIsObject(o: Out)
    ensures AsStruct(OutJson(o)) == Ok(OutJson(o).fields)
  {
  }

  /** Bodies that differ only in their messages differ. */
  lemma OutMessages(a: Out, b: Out)
    requires a == b.(messages := a.messages)
    ensures OutJson(a) == OutJson(b) <==> a.messages == b.messages
  {
    hide OutJson;
    OutEntries(a);
    OutEntries(b);
  }

  lemma {:induction false} SentDecodes(codec: Codec, ms: seq<Message>)
    ensures DecodeAll(MessageDocs(codec, ms), DecodeMessage) == Ok(SentAll(codec, ms))
  {
    hide DecodeMessage, MessageJson, Sent;
    if |ms| == 0 {
    } else {
      var init, m := ms[..|ms| - 1], ms[|ms| - 1];
      SentDecodes(codec, init);
      var docs := MessageDocs(codec, ms);
      if m.role == "system" {
        assert docs == MessageDocs(codec, init) && SentAll(codec, ms) == SentAll(codec, init);
      } else {
        assert docs[..|docs| - 1] == MessageDocs(codec, init) && docs[|docs| - 1] == MessageJson(codec, m);
        MessageDecodes(codec, m);
      }
    }
  }

  lemma MessageDecodes(codec: Codec, m: Message)
    ensures DecodeMessage(MessageJson(codec, m)) == Ok(Sent(codec, m))
  {
    hide ContentJson;
    var o := MessageJson(codec, m).fields;
    assert StrField(o, "role") == Ok(m.role) && RawField(o, "content") == Some(ContentJson(codec, m));
  }

  /** A tool as it comes back: always of type `function`. */
  function ToolBackOf(t: Tool): Tool {
    t.(typ := "function")
  }

  lemma ToolDecodes(t: Tool)
    ensures DecodeTool(ToolJson(t)) == Ok(ToolBackOf(t))
  {
    var o := ToolJson(t).fields;
    assert Entry(o, "name") == Some(Str(t.name)) && Entry(o, "description") == OmitStr(t.description)
      && Entry(o, "input_schema") == t.parameters;
  }

  /** The request as unmarshalled after being sent. */
  lemma RequestDecodes(codec: Codec, req: ChatRequest)
    ensures var r := DecodeRequest(Serialized(codec, req));
      var o := OutOf(codec, req);
      && r.Ok? && SystemOf(r.value.system) == o.system
      && r.value == RawRequest(req.model, Some(o.maxTokens), req.temperature, r.value.system,
                               SentAll(codec, req.messages), Map(req.tools, ToolBackOf), o.toolChoice, req.stream)
  {
    hide OutJson, OutHead, SystemOf, StrField, ArrField, AnyField, BoolField, OptNumberField, OptIntField,
        RawField, DecodeAll,
      DecodeMessage, DecodeTool, ToolJson, MessageDocs, SentAll, SystemTexts, Join, Normalized;
    var o := OutOf(codec, req);
    OutFields(o);
    OutIsObject(o);
    SentDecodes(codec, req.messages);
    forall i | 0 <= i < |o.tools|
      ensures DecodeTool(o.tools[i]) == Ok(Map(req.tools, ToolBackOf)[i])
    {
      ToolDecodes(req.tools[i]);
    }
    DecodeAllOf(o.tools, DecodeTool, Map(req.tools, ToolBackOf));
  }

  /** The request that comes back, given the messages that come back. */
  function RequestBack(codec: Codec, req: ChatRequest, messages: seq<Message>): ChatRequest {
    var o := OutOf(codec, req);
    ChatRequest(req.model, SystemMessages(o.system) + messages, Map(req.tools, ToolBackOf), o.toolChoice, req.stream,
                req.temperature, Some(o.maxTokens), Null)
  }

  lemma ParsedBack(codec: Codec, req: ChatRequest)
    ensures Parsed(codec, Serialized(codec, req)) ==
      if req.model == "" then Err("missing model") else
      var messages := AllMessages(codec, SentAll(codec, req.messages));
      if messages.Err? then Err(messages.error) else Ok(RequestBack(codec, req, messages.value))
  {
    hide Serialized, OutOf, DecodeRequest, AllMessages, SentAll, SystemOf, SystemMessages;
    RequestDecodes(codec, req);
  }

  lemma SystemDocs(codec: Codec, text: string)
    ensures MessageDocs(codec, SystemMessages(text)) == []
    ensures Join(SystemTexts(SystemMessages(text)), "\n\n") == text
  {
    if text != "" {
      var m := Plain("system", [TextPart(text)], []);
      assert SystemMessages(text)[..0] == [];
      assert m.content[..0] == [];
      assert PartTexts(m.content) == [text];
      assert SystemTexts(SystemMessages(text)) == [text];
    }
  }

  /** Sent again, the request differs at most in its messages. */
  lemma OutAgain(codec: Codec, req: ChatRequest, messages: seq<Message>)
    requires NoSystem(messages)
    ensures OutOf(codec, RequestBack(codec, req, messages)) ==
      OutOf(codec, req).(messages := MessageDocs(codec, messages))
  {
    hide MessageJson;
    var o := OutOf(codec, req);
    var back := RequestBack(codec, req, messages);
    SystemDocs(codec, o.system);
    NoSystemDocs(codec, messages);
    DocsAppend(codec, SystemMessages(o.system), messages);
    NormalizedIsStable(req.toolChoice);
    assert Map(back.tools, ToolJson) == o.tools;
  }

  /** Parsing what was serialised succeeds and serialising that gives the same body. */
  ghost predicate SurvivesRoundTrip(codec: Codec, req: ChatRequest) {
    var r := Parsed(codec, Serialized(codec, req));
    r.Ok? && Serialized(codec, r.value) == Serialized(codec, req)
  }

  /**
   Serialise, parse, serialise gives the first body again exactly when the request names a model, only
   assistant messages make tool calls, and base64 images have a media type and data. System and tool messages
   are free.
   */
  lemma SerialiseParseSerialise(codec: Codec, req: ChatRequest)
    requires codec.Valid()
    ensures SurvivesRoundTrip(codec, req) <==> req.model != "" && AllCarried(req.messages)
  {
    hide Serialized, Parsed, OutOf, RequestBack, AllMessages, SentAll, AllCarried, MessageDocs;
    ParsedBack(codec, req);
    ListTwice(codec, req.messages);
    var r := AllMessages(codec, SentAll(codec, req.messages));
    if req.model != "" && r.Ok? {
      OutAgain(codec, req, r.value);
      SentTwice(codec, req, r.value);
    }
  }

  lemma SentTwice(codec: Codec, req: ChatRequest, messages: seq<Message>)
    requires OutOf(codec, RequestBack(codec, req, messages)) ==
      OutOf(codec, req).(messages := MessageDocs(codec, messages))
    ensures Serialized(codec, RequestBack(codec, req, messages)) == Serialized(codec, req) <==>
      MessageDocs(codec, messages) == MessageDocs(codec, req.messages)
  {
    hide OutJson, MessageDocs, RequestBack, SystemTexts, Join, Normalized, ToolJson;
    OutMessages(OutOf(codec, RequestBack(codec, req, messages)), OutOf(codec, req));
  }

  // ---------- Bodies that clients send ----------

  ghost predicate CallsByAssistant(ms: seq<Message>) {
    forall i :: 0 <= i < |ms| && ms[i].toolCalls != [] ==> ms[i].role == "assistant"
  }

  lemma {:induction false} GatheredCalls(codec: Codec, role: string, blocks: seq<RawBlock>)
    requires Gather(codec, role, blocks).Ok?
    ensures var g := Gather(codec, role, blocks).value;
      CallsByAssistant(g.results) && (g.calls != [] ==> role == "assistant")
  {
    hide ImageUrl, ResultTextOf, Arguments;
    if |blocks| == 0 {
    } else {
      GatheredCalls(codec, role, blocks[..|blocks| - 1]);
    }
  }

  lemma MessageCalls(codec: Codec, m: RawMessage)
    requires MessagesOf(codec, m).Ok?
    ensures CallsByAssistant(MessagesOf(codec, m).value)
  {
    hide Gather, DecodeAll, DecodeBlock;
    if m.content.Some? && m.content.value.Arr? {
      var blocks := DecodeAll(m.content.value.elems, DecodeBlock).value;
      GatheredCalls(codec, m.role, blocks);
    }
  }

  lemma {:induction false} AllMessagesCalls(codec: Codec, raws: seq<RawMessage>)
    requires AllMessages(codec, raws).Ok?
    ensures CallsByAssistant(AllMessages(codec, raws).value)
  {
    hide MessagesOf;
    if |raws| == 0 {
    } else {
      AllMessagesCalls(codec, raws[..|raws| - 1]);
      MessageCalls(codec, raws[|raws| - 1]);
    }
  }

  predicate CompleteImages(ms: seq<Message>) {
    forall i, j :: 0 <= i < |ms| && 0 <= j < |ms[i].content| && ms[i].role != "system" && ms[i].role != "tool" ==>
      PartKept(ms[i].content[j])
  }

  /** For a request parsed from a client body only incomplete images can stand in the way. */
  lemma ClientBodySurvives(codec: Codec, doc: Json)
    requires codec.Valid() && Parsed(codec, doc).Ok?
    ensures var req := Parsed(codec, doc).value;
      SurvivesRoundTrip(codec, req) <==> CompleteImages(req.messages)
  {
    var req := Parsed(codec, doc).value;
    SerialiseParseSerialise(codec, req);
    ParsedCalls(codec, doc);
    hide SurvivesRoundTrip, Parsed, PartKept;
  }

  lemma ParsedCalls(codec: Codec, doc: Json)
    requires Parsed(codec, doc).Ok?
    ensures Parsed(codec, doc).value.model != "" && CallsByAssistant(Parsed(codec, doc).value.messages)
  {
    hide DecodeRequest, AllMessages, SystemOf;
    var raw := DecodeRequest(doc).value;
    AllMessagesCalls(codec, raw.messages);
  }

  predicate Spoken(role: string) {
    role == "user" || role == "assistant"
  }

  predicate SpokenDoc(d: Json) {
    d.Obj? && StrField(d.fields, "role").Ok? && Spoken(StrField(d.fields, "role").value)
  }

  lemma InSnoc<T(!new)>(s: seq<T>, x: T)
    ensures forall y :: y in s + [x] <==> y in s || y == x
  {
  }

  lemma DocRole(codec: Codec, m: Message)
    ensures SpokenDoc(MessageJson(codec, m)) <==> Spoken(m.role)
  {
    hide ContentJson;
    assert StrField(MessageJson(codec, m).fields, "role") == Ok(m.role);
  }

  /**
   Anthropic knows the roles user and assistant only. What is sent keeps to them exactly when the conversation has
   no other role but system: a tool message, in particular, is sent with the role `tool`.
   */
  lemma {:induction false} RolesOnTheWire(codec: Codec, ms: seq<Message>)
    ensures (forall d :: d in MessageDocs(codec, ms) ==> SpokenDoc(d))
      <==> (forall m :: m in ms ==> m.role == "system" || Spoken(m.role))
  {
    hide MessageJson, SpokenDoc;
    if |ms| == 0 {
    } else {
      var init, m := ms[..|ms| - 1], ms[|ms| - 1];
      RolesOnTheWire(codec, init);
      assert ms == init + [m];
      DocRole(codec, m);
      InSnoc(init, m);
      if m.role != "system" {
        InSnoc(MessageDocs(codec, init), MessageJson(codec, m));
        assert MessageDocs(codec, ms) == MessageDocs(codec, init) + [MessageJson(codec, m)];
      } else {
        assert MessageDocs(codec, ms) == MessageDocs(codec, init);
      }
      hide MessageDocs, Spoken;
    }
  }
}
