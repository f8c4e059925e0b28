/**
 The Anthropic upstream stream parser, and what it reads back from the Anthropic writer:
 the original events with every tool index renamed to its block number.
 */
module AnthropicParser {
  import opened Wrappers
  import opened Json
  import opened JsonView
  import opened Ir
  import W = AnthropicWriter

  // ---------- Frames as JSON ----------

  /** The `data:` payload of a frame. */
  function Payload(f: W.Frame): Json {
    match f
    case MessageStart(id, model) => Obj(map["type" := Str("message_start"), "message" := Obj(map[
      "id" := Str(id), "type" := Str("message"), "role" := Str("assistant"), "model" := Str(model),
      "content" := Arr([]), "stop_reason" := Null,
      "usage" := Obj(map["input_tokens" := Int(0), "output_tokens" := Int(0)])])])
    case BlockStart(i, TextBlock) => Obj(map["type" := Str("content_block_start"), "index" := Int(i),
      "content_block" := Obj(map["type" := Str("text"), "text" := Str("")])])
    case BlockStart(i, ToolBlock(id, name)) => Obj(map["type" := Str("content_block_start"), "index" := Int(i),
      "content_block" := Obj(map["type" := Str("tool_use"), "id" := Str(id), "name" := Str(name),
          "input" := Obj(map[])])])
    case TextPiece(i, text) => Obj(map["type" := Str("content_block_delta"), "index" := Int(i),
      "delta" := Obj(map["type" := Str("text_delta"), "text" := Str(text)])])
    case JsonPiece(i, partial) => Obj(map["type" := Str("content_block_delta"), "index" := Int(i),
      "delta" := Obj(map["type" := Str("input_json_delta"), "partial_json" := Str(partial)])])
    case BlockStop(i) => Obj(map["type" := Str("content_block_stop"), "index" := Int(i)])
    case MessageDelta(reason, input, output) => Obj(map["type" := Str("message_delta"),
      "delta" := Obj(map["stop_reason" := Str(reason)]),
      "usage" := Obj(map["input_tokens" := Int(input), "output_tokens" := Int(output)])])
    case MessageStop => Obj(map["type" := Str("message_stop")])
    case ErrorFrame(msg) => Obj(map["type" := Str("error"),
      "error" := Obj(map["type" := Str("api_error"), "message" := Str(msg)])])
  }

  // ---------- Decoding ----------

  datatype BlockHead = BlockHead(typ: string, id: string, name: string)

  datatype Delta = Delta(typ: string, text: string, partial: string, stopReason: string)

  /** One decoded SSE event. */
  datatype Event = Event(
    typ: string, index: int, block: Option<BlockHead>, delta: Delta,
    inputTokens: int, outputTokens: int, error: Option<string>)

  function DecodeBlock(o: Fields): Result<Option<BlockHead>> {
    var b :- OptObjField(o, "content_block");
    if b.None? then Ok(None) else
    var typ :- StrField(b.value, "type");
    var id :- StrField(b.value, "id");
    var name :- StrField(b.value, "name");
    Ok(Some(BlockHead(typ, id, name)))
  }

  function DecodeDelta(o: Fields): Result<Delta> {
    var d :- ObjField(o, "delta");
    var typ :- StrField(d, "type");
    var text :- StrField(d, "text");
    var partial :- StrField(d, "partial_json");
    var reason :- StrField(d, "stop_reason");
    Ok(Delta(typ, text, partial, reason))
  }

  function DecodeError(o: Fields): Result<Option<string>> {
    var e :- OptObjField(o, "error");
    if e.None? then Ok(None) else
    var _ :- StrField(e.value, "type");
    var msg :- StrField(e.value, "message");
    Ok(Some(msg))
  }

  function DecodeEvent(doc: Json): Result<Event> {
    var o :- AsStruct(doc);
    var typ :- StrField(o, "type");
    var index :- IntField(o, "index");
    var block :- DecodeBlock(o);
    var delta :- DecodeDelta(o);
    var usage :- ObjField(o, "usage");
    var input :- IntField(usage, "input_tokens");
    var output :- IntField(usage, "output_tokens");
    var error :- DecodeError(o);
    Ok(Event(typ, index, block, delta, input, output, error))
  }

  // ---------- The parser ----------

  /** Anthropic stop_reason to IR finish_reason. */
  function FinishReason(stop: string): string {
    if stop == "tool_use" then "tool_calls" else
    if stop == "max_tokens" then "length" else "stop"
  }

  datatype Parser = Parser(toolBlocks: set<int>, stopped: bool, finishReason: string, usage: Option<Usage>)

  const INIT := Parser({}, false, "", None)

  /** One call of Feed on a decoded event. */
  function FeedEvent(p: Parser, ev: Event): (Parser, Result<seq<StreamEvent>>) {
    if p.stopped then (p, Ok([])) else
    if ev.typ == "content_block_start" then
      if ev.block.Some? && ev.block.value.typ == "tool_use" then
        (p.(toolBlocks := p.toolBlocks + {ev.index}),
         Ok([ToolCallStart(ev.index, ev.block.value.id, ev.block.value.name)]))
      else (p, Ok([]))
    else if ev.typ == "content_block_delta" then
      if ev.delta.typ == "text_delta" then (p, Ok([TextDelta(ev.delta.text)])) else
      if ev.delta.typ == "input_json_delta" && ev.index in p.toolBlocks then
        (p, Ok([ToolCallDelta(ev.index, ev.delta.partial)]))
      else (p, Ok([]))
    else if ev.typ == "content_block_stop" then
      (p, Ok(if ev.index in p.toolBlocks then [ToolCallStop(ev.index)] else []))
    else if ev.typ == "message_delta" then
      (p.(finishReason := if ev.delta.stopReason != "" then ev.delta.stopReason else p.finishReason,
          usage := if ev.inputTokens > 0 || ev.outputTokens > 0 then Some(Usage(ev.inputTokens, ev.outputTokens, 0))
                   else p.usage), Ok([]))
    else if ev.typ == "message_stop" then
      (p.(stopped := true), Ok([Done(FinishReason(p.finishReason), p.usage)]))
    else if ev.typ == "error" then
      (p, Err(if ev.error.Some? && ev.error.value != "" then ev.error.value else "Anthropic stream error"))
    else (p, Ok([]))
  }

  /** One call of Feed: the text is decoded before the parser looks at its own state. */
  function FeedDoc(p: Parser, doc: Json): (Parser, Result<seq<StreamEvent>>) {
    match DecodeEvent(doc)
    case Err(e) => (p, Err(e))
    case Ok(ev) => FeedEvent(p, ev)
  }

  class AnthropicStreamParser {
    var toolBlocks: set<int>
    var stopped: bool
    var finishReason: string
    var usage: Option<Usage>

    ghost function State(): Parser
      reads this
    {
      Parser(toolBlocks, stopped, finishReason, usage)
    }

    constructor ()
      ensures State() == INIT
    {
      toolBlocks, stopped, finishReason, usage := {}, false, "", None;
    }

    method Feed(doc: Json) returns (r: Result<seq<StreamEvent>>)
      modifies this
      ensures (State(), r) == FeedDoc(old(State()), doc)
    {
      var decoded := DecodeEvent(doc);
      if decoded.Err? {
        return Err(decoded.error);
      }
      r := Take(decoded.value);
    }

    /** The switch in Feed. */
    method Take(ev: Event) returns (r: Result<seq<StreamEvent>>)
      modifies this
      ensures (State(), r) == FeedEvent(old(State()), ev)
    {
      var out := [];
      if stopped {
        return Ok([]);
      }
      if ev.typ == "content_block_start" {
        if ev.block.Some? && ev.block.value.typ == "tool_use" {
          toolBlocks := toolBlocks + {ev.index};
          out := [ToolCallStart(ev.index, ev.block.value.id, ev.block.value.name)];
        }
      } else if ev.typ == "content_block_delta" {
        if ev.delta.typ == "text_delta" {
          out := [TextDelta(ev.delta.text)];
        } else if ev.delta.typ == "input_json_delta" {
          if ev.index in toolBlocks {
            out := [ToolCallDelta(ev.index, ev.delta.partial)];
          }
        }
      } else if ev.typ == "content_block_stop" {
        if ev.index in toolBlocks {
          out := [ToolCallStop(ev.index)];
        }
      } else if ev.typ == "message_delta" {
        if ev.delta.stopReason != "" {
          finishReason := ev.delta.stopReason;
        }
        if ev.inputTokens > 0 || ev.outputTokens > 0 {
          usage := Some(Usage(ev.inputTokens, ev.outputTokens, 0));
        }
      } else if ev.typ == "message_stop" {
        stopped := true;
        out := [Done(FinishReason(finishReason), usage)];
      } else if ev.typ == "error" {
        var msg := "Anthropic stream error";
        if ev.error.Some? && ev.error.value != "" {
          msg := ev.error.value;
        }
        return Err(msg);
      }
      r := Ok(out);
    }
  }

  // ---------- What the parser reads in each frame ----------

  function FeedFrame(p: Parser, f: W.Frame): (Parser, Result<seq<StreamEvent>>) {
    if p.stopped then (p, Ok([])) else
    match f
    case MessageStart(_, _) => (p, Ok([]))
    case BlockStart(i, TextBlock) => (p, Ok([]))
    case BlockStart(i, ToolBlock(id, name)) => (p.(toolBlocks := p.toolBlocks + {i}), Ok([ToolCallStart(i, id, name)]))
    case TextPiece(_, text) => (p, Ok([TextDelta(text)]))
    case JsonPiece(i, partial) => (p, Ok(if i in p.toolBlocks then [ToolCallDelta(i, partial)] else []))
    case BlockStop(i) => (p, Ok(if i in p.toolBlocks then [ToolCallStop(i)] else []))
    case MessageDelta(reason, input, output) =>
      (p.(finishReason := if reason != "" then reason else p.finishReason,
          usage := if input > 0 || output > 0 then Some(Usage(input, output, 0)) else p.usage), Ok([]))
    case MessageStop => (p.(stopped := true), Ok([Done(FinishReason(p.finishReason), p.usage)]))
    case ErrorFrame(msg) => (p, Err(if msg != "" then msg else "Anthropic stream error"))
  }

  const NO_DELTA := Delta("", "", "", "")

  function FrameEvent(f: W.Frame): Event {
    match f
    case MessageStart(_, _) => Event("message_start", 0, None, NO_DELTA, 0, 0, None)
    case BlockStart(i, TextBlock) => Event("content_block_start", i, Some(BlockHead("text", "", "")), NO_DELTA,
      0, 0, None)
    case BlockStart(i, ToolBlock(id, name)) =>
      Event("content_block_start", i, Some(BlockHead("tool_use", id, name)), NO_DELTA, 0, 0, None)
    case TextPiece(i, text) => Event("content_block_delta", i, None, Delta("text_delta", text, "", ""), 0, 0, None)
    case JsonPiece(i, partial) => Event("content_block_delta", i, None,
      Delta("input_json_delta", "", partial, ""), 0, 0, None)
    case BlockStop(i) => Event("content_block_stop", i, None, NO_DELTA, 0, 0, None)
    case MessageDelta(reason, input, output) =>
      Event("message_delta", 0, None, Delta("", "", "", reason), input, output, None)
    case MessageStop => Event("message_stop", 0, None, NO_DELTA, 0, 0, None)
    case ErrorFrame(msg) => Event("error", 0, None, NO_DELTA, 0, 0, Some(msg))
  }

  lemma DecodesBlockStart(i: int, block: W.Block)
    ensures DecodeEvent(Payload(W.BlockStart(i, block))) == Ok(FrameEvent(W.BlockStart(i, block)))
  {
    var o := Payload(W.BlockStart(i, block)).fields;
    assert Absent(o, "delta") && Absent(o, "usage") && Absent(o, "error");
    assert DecodeDelta(o) == Ok(NO_DELTA);
    assert DecodeBlock(o) == Ok(FrameEvent(W.BlockStart(i, block)).block);
  }

  lemma DecodesPiece(f: W.Frame)
    requires f.TextPiece? || f.JsonPiece?
    ensures DecodeEvent(Payload(f)) == Ok(FrameEvent(f))
  {
    var o := Payload(f).fields;
    assert Absent(o, "content_block") && Absent(o, "usage") && Absent(o, "error");
    assert DecodeDelta(o) == Ok(FrameEvent(f).delta);
  }

  lemma DecodesBare(f: W.Frame)
    requires f.BlockStop? || f.MessageStop? || f.MessageStart?
    ensures DecodeEvent(Payload(f)) == Ok(FrameEvent(f))
  {
    var o := Payload(f).fields;
    assert Absent(o, "content_block") && Absent(o, "delta") && Absent(o, "usage") && Absent(o, "error");
    assert DecodeDelta(o) == Ok(NO_DELTA);
  }

  lemma DecodesMessageDelta(reason: string, input: int, output: int)
    ensures DecodeEvent(Payload(W.MessageDelta(reason, input, output))) ==
      Ok(FrameEvent(W.MessageDelta(reason, input, output)))
  {
    var o := Payload(W.MessageDelta(reason, input, output)).fields;
    assert Absent(o, "content_block") && Absent(o, "index") && Absent(o, "error");
    assert DecodeDelta(o) == Ok(Delta("", "", "", reason));
  }

  lemma DecodesError(msg: string)
    ensures DecodeEvent(Payload(W.ErrorFrame(msg))) == Ok(FrameEvent(W.ErrorFrame(msg)))
  {
    var o := Payload(W.ErrorFrame(msg)).fields;
    assert Absent(o, "content_block") && Absent(o, "delta") && Absent(o, "usage") && Absent(o, "index");
    assert DecodeDelta(o) == Ok(NO_DELTA);
    assert DecodeError(o) == Ok(Some(msg));
  }

  /** The JSON of every frame carries the members the parser looks for, under the names it uses. */
  lemma FrameDecodes(f: W.Frame)
    ensures DecodeEvent(Payload(f)) == Ok(FrameEvent(f))
  {
    match f
    case MessageStart(_, _) => DecodesBare(f);
    case BlockStart(i, block) => DecodesBlockStart(i, block);
    case TextPiece(_, _) => DecodesPiece(f);
    case JsonPiece(_, _) => DecodesPiece(f);
    case BlockStop(_) => DecodesBare(f);
    case MessageDelta(reason, input, output) => DecodesMessageDelta(reason, input, output);
    case MessageStop => DecodesBare(f);
    case ErrorFrame(msg) => DecodesError(msg);
  }

  /** The members that the parser does not read but clients do. */
  lemma StartMembers(id: string, model: string)
    ensures var doc := Payload(W.MessageStart(id, model));
      var m := At(doc, "message");
      && At(doc, "type") == Str("message_start") && At(m, "id") == Str(id) && At(m, "type") == Str("message")
      && At(m, "role") == Str("assistant") && At(m, "model") == Str(model) && At(m, "content") == Arr([])
      && At(At(m, "usage"), "input_tokens") == Int(0) && At(At(m, "usage"), "output_tokens") == Int(0)
  {
  }

  lemma FeedPayload(p: Parser, f: W.Frame)
    ensures FeedDoc(p, Payload(f)) == FeedFrame(p, f)
  {
    FrameDecodes(f);
    assert FeedEvent(p, FrameEvent(f)) == FeedFrame(p, f);
  }
}
