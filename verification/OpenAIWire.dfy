/**
 What the chunks of an OpenAI stream say, read off their JSON members, and that the decoder and the parser read the
 same. Nothing here that defines a meaning uses the decoder.
 */
module OpenAIWire {
  import opened Wrappers
  import opened Json
  import opened JsonView
  import opened Ir
  import opened OpenAIStream
  import opened CrossProtocol
  import O = OpenAIWriter
  import W = AnthropicWriter
  import R = AnthropicRoundTrip

  // ---------- Which documents are chunks ----------

  predicate FragmentOk(tool: Json) {
    && IsStruct(tool) && IsInt(At(tool, "index")) && IsStr(At(tool, "id"))
    && IsStruct(At(tool, "function"))
    && IsStr(At(At(tool, "function"), "name")) && IsStr(At(At(tool, "function"), "arguments"))
  }

  predicate ChoiceOk(choice: Json) {
    && IsStruct(choice) && IsInt(At(choice, "index")) && IsStr(At(choice, "finish_reason"))
    && IsStruct(At(choice, "delta"))
    && IsStr(At(At(choice, "delta"), "content"))
    && IsList(At(At(choice, "delta"), "tool_calls"))
    && forall t :: t in ToolsIn(choice) ==> FragmentOk(t)
  }

  predicate UsageOk(usage: Json) {
    && IsStruct(usage) && IsInt(At(usage, "prompt_tokens")) && IsInt(At(usage, "completion_tokens"))
    && IsInt(At(usage, "total_tokens"))
  }

  predicate ChunkOk(chunk: Json) {
    && IsStruct(chunk) && IsList(At(chunk, "choices")) && (forall c :: c in ChoicesIn(chunk) ==> ChoiceOk(c))
    && UsageOk(At(chunk, "usage"))
  }

  // ---------- What they say ----------

  function ChoicesIn(chunk: Json): seq<Json> {
    ListIn(At(chunk, "choices"))
  }

  function ToolsIn(choice: Json): seq<Json> {
    ListIn(At(At(choice, "delta"), "tool_calls"))
  }

  function FragmentIn(tool: Json): Fragment {
    Fragment(IntIn(At(tool, "index")), TextIn(At(tool, "id")),
             TextIn(At(At(tool, "function"), "name")), TextIn(At(At(tool, "function"), "arguments")))
  }

  function UsageIn(chunk: Json): Option<Usage> {
    var u := At(chunk, "usage");
    if u.Obj?
    then Some(Usage(IntIn(At(u, "prompt_tokens")), IntIn(At(u, "completion_tokens")), IntIn(At(u, "total_tokens"))))
    else None
  }

  /** The choices of all chunks, in order. */
  function AllChoices(chunks: seq<Json>): seq<Json> {
    if |chunks| == 0 then [] else AllChoices(chunks[..|chunks| - 1]) + ChoicesIn(chunks[|chunks| - 1])
  }

  /** All the text. */
  function TextSaid(choices: seq<Json>): string {
    if |choices| == 0 then "" else
    TextSaid(choices[..|choices| - 1]) + TextIn(At(At(choices[|choices| - 1], "delta"), "content"))
  }

  /** All the entries of all `tool_calls` lists. */
  function ToolsSaid(choices: seq<Json>): seq<Fragment> {
    if |choices| == 0 then [] else
    ToolsSaid(choices[..|choices| - 1]) + Map(ToolsIn(choices[|choices| - 1]), FragmentIn)
  }

  /** The last finish reason that is not empty. */
  function FinishSaid(choices: seq<Json>): string {
    if |choices| == 0 then "" else
    var reason := TextIn(At(choices[|choices| - 1], "finish_reason"));
    if reason != "" then reason else FinishSaid(choices[..|choices| - 1])
  }

  /** The last usage object, whatever choices come with it. */
  function UsageSaid(chunks: seq<Json>): Option<Usage> {
    if |chunks| == 0 then None else
    var usage := UsageIn(chunks[|chunks| - 1]);
    if usage.Some? then usage else UsageSaid(chunks[..|chunks| - 1])
  }

  /**
   What a list of chunks says: all the text, one call for each tool index with the id and the name of its first entry
   and the arguments of all its entries, the finish reason and the usage.
   */
  function Said(chunks: seq<Json>): Transcript {
    var choices := AllChoices(chunks);
    Transcript(TextSaid(choices), CallsOf(ToolsSaid(choices)), Some(Done(FinishSaid(choices), UsageSaid(chunks))))
  }

  // ---------- The decoder ----------

  lemma FragmentDecodes(tool: Json)
    ensures DecodeFragment(tool).Ok? <==> FragmentOk(tool)
    ensures FragmentOk(tool) ==> DecodeFragment(tool) == Ok(FragmentIn(tool))
  {
    StructView(tool);
    if IsStruct(tool) {
      MemberView(tool, "index");
      MemberView(tool, "id");
      MemberView(tool, "function");
      var f := At(tool, "function");
      if IsStruct(f) {
        MemberView(f, "name");
        MemberView(f, "arguments");
      }
    }
    hide IntField, StrField, ObjField, AsStruct;
  }

  function ChoiceIn(choice: Json): ChoiceDelta {
    ChoiceDelta(TextIn(At(At(choice, "delta"), "content")), Map(ToolsIn(choice), FragmentIn),
                TextIn(At(choice, "finish_reason")))
  }

  lemma ChoiceDecodes(choice: Json)
    ensures DecodeChoice(choice).Ok? <==> ChoiceOk(choice)
    ensures ChoiceOk(choice) ==> DecodeChoice(choice) == Ok(ChoiceIn(choice))
  {
    StructView(choice);
    if IsStruct(choice) {
      MemberView(choice, "index");
      MemberView(choice, "delta");
      MemberView(choice, "finish_reason");
      var delta := At(choice, "delta");
      if IsStruct(delta) {
        MemberView(delta, "content");
        MemberView(delta, "tool_calls");
        forall t
          ensures DecodeFragment(t).Ok? <==> FragmentOk(t)
          ensures FragmentOk(t) ==> DecodeFragment(t) == Ok(FragmentIn(t))
        {
          FragmentDecodes(t);
        }
        ListView(ToolsIn(choice), DecodeFragment, FragmentOk, FragmentIn);
      }
    }
    hide IntField, StrField, ObjField, ArrField, AsStruct, DecodeFragment, DecodeAll, FragmentOk, FragmentIn;
  }

  lemma UsageDecodes(chunk: Json)
    requires At(chunk, "usage").Obj?
    ensures DecodeUsage(FieldsOf(At(chunk, "usage"))).Ok? <==> UsageOk(At(chunk, "usage"))
    ensures UsageOk(At(chunk, "usage")) ==> Ok(UsageIn(chunk).value) == DecodeUsage(FieldsOf(At(chunk, "usage")))
  {
    var usage := At(chunk, "usage");
    MemberView(usage, "prompt_tokens");
    MemberView(usage, "completion_tokens");
    MemberView(usage, "total_tokens");
    hide IntField;
  }

  /** A document is a chunk exactly when the decoder takes it, and is decoded to what it says. */
  lemma ChunkDecodes(chunk: Json)
    ensures DecodeChunk(chunk).Ok? <==> ChunkOk(chunk)
    ensures ChunkOk(chunk) ==> DecodeChunk(chunk) == Ok(Chunk(Map(ChoicesIn(chunk), ChoiceIn), UsageIn(chunk)))
  {
    StructView(chunk);
    if IsStruct(chunk) {
      MemberView(chunk, "choices");
      MemberView(chunk, "usage");
      forall c
        ensures DecodeChoice(c).Ok? <==> ChoiceOk(c)
        ensures ChoiceOk(c) ==> DecodeChoice(c) == Ok(ChoiceIn(c))
      {
        ChoiceDecodes(c);
      }
      ListView(ChoicesIn(chunk), DecodeChoice, ChoiceOk, ChoiceIn);
      if At(chunk, "usage").Obj? {
        UsageDecodes(chunk);
      }
    }
    hide IntField, StrField, OptObjField, ArrField, AsStruct, DecodeChoice, DecodeAll, ChoiceOk, ChoiceIn, DecodeUsage;
  }

  // ---------- One chunk, in order ----------

  /** One choice: the finish reason, then the text, then the tool entries one by one. */
  function ChoiceSays(choice: Json): seq<Item> {
    var reason, text := TextIn(At(choice, "finish_reason")), TextIn(At(At(choice, "delta"), "content"));
    (if reason == "" then [] else [FinishItem(reason)])
    + (if text == "" then [] else [TextItem(text)])
    + Map(Map(ToolsIn(choice), FragmentIn), ToToolItem)
  }

  function ToToolItem(f: Fragment): Item {
    ToolItem(f)
  }

  function ChoicesSay(choices: seq<Json>): seq<Item> {
    if |choices| == 0 then [] else ChoicesSay(choices[..|choices| - 1]) + ChoiceSays(choices[|choices| - 1])
  }

  function UsageSays(u: Option<Usage>): seq<Item> {
    match u case None => [] case Some(usage) => [UsageItem(usage)]
  }

  lemma ToolsSay(fs: seq<Fragment>)
    ensures ToolItems(fs) == Map(fs, ToToolItem)
  {
  }

  lemma ChoiceItem(choice: Json)
    ensures var c := ChoiceIn(choice); HeadItems(c) + ToolItems(c.tools) == ChoiceSays(choice)
  {
    ToolsSay(Map(ToolsIn(choice), FragmentIn));
  }

  lemma {:induction false} ChoiceItemsSay(choices: seq<Json>)
    ensures ChoiceItems(Map(choices, ChoiceIn)) == ChoicesSay(choices)
  {
    if |choices| == 0 {
    } else {
      var n := |choices| - 1;
      ChoiceItemsSay(choices[..n]);
      ChoiceItem(choices[n]);
      assert Map(choices, ChoiceIn)[..n] == Map(choices[..n], ChoiceIn);
      hide ChoiceIn, ChoiceSays, HeadItems, ToolItems;
    }
  }

  /**
   Any document in a data line: it is an error exactly when it is no chunk, and otherwise says its usage and then what
   its choices say.
   */
  lemma DocItems(chunk: Json)
    ensures DataItems(Doc(chunk)).Ok? <==> ChunkOk(chunk)
    ensures ChunkOk(chunk) ==>
      DataItems(Doc(chunk)) == Ok(UsageSays(UsageIn(chunk)) + ChoicesSay(ChoicesIn(chunk)))
  {
    ChunkDecodes(chunk);
    ChoiceItemsSay(ChoicesIn(chunk));
    hide DecodeChunk, ChunkOk, ChoicesSay, ChoiceItems;
  }

  // ---------- Many chunks ----------

  /** A list of items says what these choices and this usage say. */
  ghost predicate Says(items: seq<Item>, choices: seq<Json>, usage: Option<Usage>) {
    && TextOf(items) == TextSaid(choices) && FragmentsOf(items) == ToolsSaid(choices)
    && FinishOf(items) == FinishSaid(choices) && UsageOf(items) == usage
  }

  lemma SaidSnoc(choices: seq<Json>, c: Json)
    ensures TextSaid(choices + [c]) == TextSaid(choices) + TextIn(At(At(c, "delta"), "content"))
    ensures ToolsSaid(choices + [c]) == ToolsSaid(choices) + Map(ToolsIn(c), FragmentIn)
    ensures FinishSaid(choices + [c]) ==
      var reason := TextIn(At(c, "finish_reason")); if reason != "" then reason else FinishSaid(choices)
  {
    assert (choices + [c])[..|choices|] == choices;
  }

  lemma {:induction false} ToolsMore(items: seq<Item>, fs: seq<Fragment>)
    ensures var all := items + Map(fs, ToToolItem);
      && TextOf(all) == TextOf(items) && FragmentsOf(all) == FragmentsOf(items) + fs
      && FinishOf(all) == FinishOf(items) && UsageOf(all) == UsageOf(items)
  {
    hide TextOf, FragmentsOf, FinishOf, UsageOf;
    if |fs| == 0 {
      assert items + Map(fs, ToToolItem) == items;
    } else {
      var n := |fs| - 1;
      ToolsMore(items, fs[..n]);
      ItemsSnoc(items + Map(fs[..n], ToToolItem), ToolItem(fs[n]));
      assert items + Map(fs, ToToolItem) == (items + Map(fs[..n], ToToolItem)) + [ToolItem(fs[n])];
      assert fs == fs[..n] + [fs[n]];
    }
  }

  lemma ChoiceParts(items: seq<Item>, c: Json)
    ensures var reason, text := TextIn(At(c, "finish_reason")), TextIn(At(At(c, "delta"), "content"));
      var head := if reason == "" then items else items + [FinishItem(reason)];
      var body := if text == "" then head else head + [TextItem(text)];
      items + ChoiceSays(c) == body + Map(Map(ToolsIn(c), FragmentIn), ToToolItem)
  {
    hide At, ToToolItem, FragmentIn, ToolsIn;
  }

  lemma ChoiceMore(items: seq<Item>, choices: seq<Json>, usage: Option<Usage>, c: Json)
    requires Says(items, choices, usage)
    ensures Says(items + ChoiceSays(c), choices + [c], usage)
  {
    hide TextOf, FragmentsOf, FinishOf, UsageOf, TextSaid, ToolsSaid, FinishSaid, ToToolItem, FragmentIn, ChoiceSays,
      At, ToolsIn;
    var reason, text := TextIn(At(c, "finish_reason")), TextIn(At(At(c, "delta"), "content"));
    var head := if reason == "" then items else items + [FinishItem(reason)];
    var body := if text == "" then head else head + [TextItem(text)];
    SaidSnoc(choices, c);
    ItemsSnoc(items, FinishItem(reason));
    ItemsSnoc(head, TextItem(text));
    ToolsMore(body, Map(ToolsIn(c), FragmentIn));
    ChoiceParts(items, c);
    assert TextSaid(choices) + "" == TextSaid(choices);
  }

  lemma {:induction false} ChoicesMore(items: seq<Item>, choices: seq<Json>, usage: Option<Usage>, more: seq<Json>)
    requires Says(items, choices, usage)
    ensures Says(items + ChoicesSay(more), choices + more, usage)
  {
    hide Says, ChoiceSays;
    if |more| == 0 {
      assert items + ChoicesSay(more) == items && choices + more == choices;
    } else {
      var n := |more| - 1;
      ChoicesMore(items, choices, usage, more[..n]);
      ChoiceMore(items + ChoicesSay(more[..n]), choices + more[..n], usage, more[n]);
      assert items + ChoicesSay(more) == (items + ChoicesSay(more[..n])) + ChoiceSays(more[n]);
      assert choices + more == (choices + more[..n]) + [more[n]];
    }
  }

  lemma ChunkMore(items: seq<Item>, choices: seq<Json>, usage: Option<Usage>, chunk: Json)
    requires Says(items, choices, usage)
    ensures Says(items + (UsageSays(UsageIn(chunk)) + ChoicesSay(ChoicesIn(chunk))), choices + ChoicesIn(chunk),
                 if UsageIn(chunk).Some? then UsageIn(chunk) else usage)
  {
    hide TextOf, FragmentsOf, FinishOf, UsageOf, TextSaid, ToolsSaid, FinishSaid, ChoicesSay, UsageIn, ChoicesIn;
    var u := UsageIn(chunk);
    var head := items + UsageSays(u);
    if u.None? {
      assert head == items;
    } else {
      ItemsSnoc(items, UsageItem(u.value));
    }
    ChoicesMore(head, choices, if u.Some? then u else usage, ChoicesIn(chunk));
    assert items + (UsageSays(u) + ChoicesSay(ChoicesIn(chunk))) == head + ChoicesSay(ChoicesIn(chunk));
  }

  function ToData(chunk: Json): Data {
    Doc(chunk)
  }

  /** Chunks are readable, and the items read from them say what the chunks say. */
  lemma {:induction false} ChunksSay(chunks: seq<Json>)
    requires forall c :: c in chunks ==> ChunkOk(c)
    ensures Readable(Map(chunks, ToData)) && DoneMarker !in Map(chunks, ToData)
    ensures Says(ItemsOf(Map(chunks, ToData)), AllChoices(chunks), UsageSaid(chunks))
  {
    var datas := Map(chunks, ToData);
    forall d | d in datas
      ensures DataItems(d).Ok? && d != DoneMarker
    {
      var i :| 0 <= i < |datas| && datas[i] == d;
      assert chunks[i] in chunks;
      DocItems(chunks[i]);
    }
    if |chunks| == 0 {
    } else {
      var n := |chunks| - 1;
      ChunksSay(chunks[..n]);
      assert datas[..n] == Map(chunks[..n], ToData);
      assert chunks[n] in chunks;
      DocItems(chunks[n]);
      ChunkMore(ItemsOf(datas[..n]), AllChoices(chunks[..n]), UsageSaid(chunks[..n]), chunks[n]);
      hide DataItems, Says, UsageSays, ChoicesSay, UsageIn, ChoicesIn, ChunkOk;
    }
  }

  /**
   For every list of chunks closed by the end marker, the Anthropic client reads back what the chunks say, with the
   canonical finish reason and usage, and the writer's error for arguments before their start never occurs.
   */
  lemma OpenAIToAnthropic(id: string, model: string, chunks: seq<Json>)
    requires forall c :: c in chunks ==> ChunkOk(c)
    ensures var evs := O.ReadAll(Map(chunks, ToData) + [DoneMarker]).events;
      var w := W.AfterAll(W.Start(id, model), evs);
      var read := R.ReadFrames(w.out);
      && w.done && !read.failed
      && SameMeaning(Said(chunks), Assemble(read.events))
      && (forall k :: 0 <= k < |evs| ==> !W.Rejects(W.AfterAll(W.Start(id, model), evs[..k]), evs[k]))
  {
    ChunksSay(chunks);
    ItemsToAnthropic(id, model, Map(chunks, ToData));
    hide O.ReadAll, W.AfterAll, R.ReadFrames, Assemble, SameMeaning, AllChoices, W.Rejects, ItemsOf, TextOf,
      FragmentsOf, FinishOf, UsageOf, UsageSaid, TextSaid, ToolsSaid, FinishSaid, CallsOf;
  }

  // ---------- What the gateway's own chunks look like ----------

  /** One chunk of the answer for a client: the header, one choice, and everything in its place. */
  predicate Stamped(h: O.Header, doc: Json) {
    && At(doc, "id") == Str(h.id) && At(doc, "object") == Str("chat.completion.chunk")
    && At(doc, "created") == Int(h.created) && At(doc, "model") == Str(h.model)
  }

  predicate OneChoice(doc: Json) {
    && At(doc, "choices").Arr? && |ChoicesIn(doc)| == 1 && At(ChoicesIn(doc)[0], "index") == Int(0)
    && At(ChoicesIn(doc)[0], "delta").Obj?
    && forall t :: t in ToolsIn(ChoicesIn(doc)[0]) ==> At(t, "type") == Str("function")
  }

  lemma StampView(h: O.Header, payload: Fields)
    ensures var d := O.Stamp(h, payload);
      && d.Doc? && d.json.Obj? && Stamped(h, d.json)
      && forall key :: key !in {"id", "object", "created", "model"} ==> At(d.json, key) == At(Obj(payload), key)
  {
  }

  lemma ToolsView(tool: Json, finish: Json)
    requires At(tool, "type") == Str("function")
    ensures OneChoice(Obj(O.ChoicePayload(map["tool_calls" := Arr([tool])], finish)))
  {
    var choice := ChoicesIn(Obj(O.ChoicePayload(map["tool_calls" := Arr([tool])], finish)))[0];
    assert ToolsIn(choice) == [tool];
  }

  lemma PayloadChoice(ev: StreamEvent)
    requires !ev.ToolCallStop?
    ensures match ev
      case TextDelta(d) => OneChoice(Obj(O.ChoicePayload(map["content" := Str(d)], Null)))
      case ToolCallStart(i, id, name) => OneChoice(Obj(O.StartPayload(i, id, name)))
      case ToolCallDelta(i, args) => OneChoice(Obj(O.DeltaPayload(i, args)))
      case Done(reason, usage) => OneChoice(Obj(O.DonePayload(reason, usage)))
  {
    match ev
    case ToolCallStart(i, id, name) =>
      ToolsView(Obj(map["index" := Int(i), "id" := Str(id), "type" := Str("function"),
                        "function" := Obj(map["name" := Str(name), "arguments" := Str("")])]), Null);
    case ToolCallDelta(i, args) =>
      ToolsView(Obj(map["index" := Int(i), "type" := Str("function"),
                        "function" := Obj(map["arguments" := Str(args)])]), Null);
    case _ =>
  }

  lemma SameChoice(a: Json, b: Json)
    requires At(a, "choices") == At(b, "choices") && OneChoice(a)
    ensures OneChoice(b)
  {
  }

  lemma EventChunks(h: O.Header, ev: StreamEvent)
    ensures forall d :: d in O.EventData(h, ev) && d.Doc? ==> Stamped(h, d.json) && OneChoice(d.json)
  {
    hide OneChoice, O.ChoicePayload, O.StartPayload, O.DeltaPayload, O.DonePayload, O.Stamp, Stamped;
    if !ev.ToolCallStop? {
      PayloadChoice(ev);
      var payload := match ev
        case TextDelta(d) => O.ChoicePayload(map["content" := Str(d)], Null)
        case ToolCallStart(i, id, name) => O.StartPayload(i, id, name)
        case ToolCallDelta(i, args) => O.DeltaPayload(i, args)
        case Done(reason, usage) => O.DonePayload(reason, usage)
        case ToolCallStop(_) => map[];
      StampView(h, payload);
      SameChoice(Obj(payload), O.Stamp(h, payload).json);
    }
  }

  /** Every chunk written for a client carries the stream's id and model and has one choice, number 0. */
  lemma {:induction false} WrittenChunks(h: O.Header, evs: seq<StreamEvent>)
    ensures forall d :: d in O.AfterAll(O.Start(h), evs).out && d.Doc? ==> Stamped(h, d.json) && OneChoice(d.json)
    ensures O.AfterAll(O.Start(h), evs).header == h
  {
    hide O.EventData, Stamped, OneChoice;
    if |evs| == 0 {
    } else {
      WrittenChunks(h, evs[..|evs| - 1]);
      EventChunks(h, evs[|evs| - 1]);
    }
  }
}
