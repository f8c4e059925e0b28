/** The OpenAI chat stream of an upstream: chunks, what they say item by item, and the parser. */
module OpenAIStream {
  import opened Wrappers
  import opened Json
  import opened Ir

  // ---------- One upstream chunk ----------

  datatype Fragment = Fragment(index: int, id: string, name: string, arguments: string)

  datatype ChoiceDelta = ChoiceDelta(content: string, tools: seq<Fragment>, finishReason: string)

  datatype Chunk = Chunk(choices: seq<ChoiceDelta>, usage: Option<Usage>)

  /** The content of one `data:` line: the end marker, a JSON value, or text that is not JSON. */
  datatype Data = DoneMarker | Doc(json: Json) | Malformed

  function DecodeFragment(doc: Json): Result<Fragment> {
    var o :- AsStruct(doc);
    var index :- IntField(o, "index");
    var id :- StrField(o, "id");
    var f :- ObjField(o, "function");
    var name :- StrField(f, "name");
    var arguments :- StrField(f, "arguments");
    Ok(Fragment(index, id, name, arguments))
  }

  function DecodeChoice(doc: Json): Result<ChoiceDelta> {
    var o :- AsStruct(doc);
    var _ :- IntField(o, "index");
    var delta :- ObjField(o, "delta");
    var content :- StrField(delta, "content");
    var toolDocs :- ArrField(delta, "tool_calls");
    var tools :- DecodeAll(toolDocs, DecodeFragment);
    var finish :- StrField(o, "finish_reason");
    Ok(ChoiceDelta(content, tools, finish))
  }

  function DecodeUsage(o: Fields): Result<Usage> {
    var p :- IntField(o, "prompt_tokens");
    var c :- IntField(o, "completion_tokens");
    var t :- IntField(o, "total_tokens");
    Ok(Usage(p, c, t))
  }

  function DecodeChunk(doc: Json): Result<Chunk> {
    var o :- AsStruct(doc);
    var choiceDocs :- ArrField(o, "choices");
    var choices :- DecodeAll(choiceDocs, DecodeChoice);
    var usageDoc :- OptObjField(o, "usage");
    if usageDoc.None? then Ok(Chunk(choices, None)) else
    var usage :- DecodeUsage(usageDoc.value);
    Ok(Chunk(choices, Some(usage)))
  }

  // ---------- What a chunk says, as a flat list ----------

  datatype Item =
    | UsageItem(usage: Usage)
    | FinishItem(reason: string)
    | TextItem(text: string)
    | ToolItem(fragment: Fragment)
    | EndItem

  function ToolItems(tools: seq<Fragment>): (r: seq<Item>)
    ensures |r| == |tools|
  {
    seq(|tools|, i requires 0 <= i < |tools| => ToolItem(tools[i]))
  }

  function HeadItems(c: ChoiceDelta): seq<Item> {
    (if c.finishReason != "" then [FinishItem(c.finishReason)] else [])
    + (if c.content != "" then [TextItem(c.content)] else [])
  }

  function ChoiceItems(choices: seq<ChoiceDelta>): seq<Item> {
    if |choices| == 0 then [] else
    var c := choices[|choices| - 1];
    ChoiceItems(choices[..|choices| - 1]) + (HeadItems(c) + ToolItems(c.tools))
  }

  function UsageItems(u: Option<Usage>): seq<Item> {
    if u.Some? then [UsageItem(u.value)] else []
  }

  function ChunkItems(c: Chunk): seq<Item> {
    UsageItems(c.usage) + ChoiceItems(c.choices)
  }

  /** What one data line says, or why it cannot be read. */
  function DataItems(d: Data): Result<seq<Item>> {
    match d
    case DoneMarker => Ok([EndItem])
    case Malformed => Err("invalid JSON")
    case Doc(doc) =>
      var c :- DecodeChunk(doc);
      Ok(ChunkItems(c))
  }

  // ---------- The parser ----------

  datatype Parser = Parser(toolStarted: set<int>, finishReason: string, usage: Option<Usage>)

  const INIT := Parser({}, "", None)

  function ToolEvents(started: set<int>, f: Fragment): seq<StreamEvent> {
    (if f.index in started then [] else [ToolCallStart(f.index, f.id, f.name)])
    + (if f.arguments != "" then [ToolCallDelta(f.index, f.arguments)] else [])
  }

  function StepItem(p: Parser, it: Item): (Parser, seq<StreamEvent>) {
    match it
    case UsageItem(u) => (p.(usage := Some(u)), [])
    case FinishItem(r) => (p.(finishReason := r), [])
    case TextItem(t) => (p, if t != "" then [TextDelta(t)] else [])
    case ToolItem(f) => (p.(toolStarted := p.toolStarted + {f.index}), ToolEvents(p.toolStarted, f))
    case EndItem => (p, [Done(p.finishReason, p.usage)])
  }

  function Run(p: Parser, items: seq<Item>): (Parser, seq<StreamEvent>) {
    if |items| == 0 then (p, []) else
    var (q, evs) := Run(p, items[..|items| - 1]);
    var (r, more) := StepItem(q, items[|items| - 1]);
    (r, evs + more)
  }

  lemma RunSnoc(p: Parser, items: seq<Item>, it: Item)
    ensures Run(p, items + [it]) ==
      var (q, evs) := Run(p, items); var (r, more) := StepItem(q, it); (r, evs + more)
  {
    assert (items + [it])[..|items|] == items;
  }

  lemma RunOne(p: Parser, it: Item)
    ensures Run(p, [it]) == StepItem(p, it)
  {
    assert [it][..0] == [];
    assert [] + StepItem(p, it).1 == StepItem(p, it).1;
  }

  lemma {:induction false} RunConcat(p: Parser, a: seq<Item>, b: seq<Item>)
    ensures Run(p, a + b) == var (q, evs) := Run(p, a); var (r, more) := Run(q, b); (r, evs + more)
    decreases |b|
  {
    var (q, evs) := Run(p, a);
    if |b| == 0 {
      assert a + b == a;
      assert evs + [] == evs;
    } else {
      var n := |b| - 1;
      RunConcat(p, a, b[..n]);
      assert a + b == (a + b[..n]) + [b[n]];
      RunSnoc(p, a + b[..n], b[n]);
      var (r, more) := Run(q, b[..n]);
      var last := StepItem(r, b[n]).1;
      assert (evs + more) + last == evs + (more + last);
    }
  }

  /** One call of Feed: a line that cannot be decoded changes nothing. */
  function FeedData(p: Parser, d: Data): (Parser, Result<seq<StreamEvent>>) {
    match DataItems(d)
    case Err(e) => (p, Err(e))
    case Ok(items) => var (q, evs) := Run(p, items); (q, Ok(evs))
  }

  /** The upstream parser object: one map of started tool indices, the last finish reason and the last usage. */
  class OpenAIStreamParser {
    var toolStarted: set<int>
    var finishReason: string
    var usage: Option<Usage>

    ghost function State(): Parser
      reads this
    {
      Parser(toolStarted, finishReason, usage)
    }

    constructor ()
      ensures State() == INIT
    {
      toolStarted, finishReason, usage := {}, "", None;
    }

    /** The part of Feed that handles one tool_calls entry. */
    method FeedTool(tc: Fragment) returns (evs: seq<StreamEvent>)
      modifies this`toolStarted
      ensures (State(), evs) == StepItem(old(State()), ToolItem(tc))
    {
      evs := [];
      if tc.index !in toolStarted {
        toolStarted := toolStarted + {tc.index};
        evs := evs + [ToolCallStart(tc.index, tc.id, tc.name)];
      }
      if tc.arguments != "" {
        evs := evs + [ToolCallDelta(tc.index, tc.arguments)];
      }
      assert toolStarted == old(toolStarted) + {tc.index};
      assert evs == ToolEvents(old(toolStarted), tc);
    }

    /** The body of Feed's loop over choices. */
    method FeedChoice(c: ChoiceDelta) returns (evs: seq<StreamEvent>)
      modifies this`toolStarted, this`finishReason
      ensures (State(), evs) == Run(old(State()), HeadItems(c) + ToolItems(c.tools))
    {
      ghost var p := State();
      evs := [];
      if c.finishReason != "" {
        finishReason := c.finishReason;
        RunOne(p, FinishItem(c.finishReason));
      }
      if c.content != "" {
        evs := evs + [TextDelta(c.content)];
        RunSnoc(p, if c.finishReason != "" then [FinishItem(c.finishReason)] else [], TextItem(c.content));
      }
      assert (State(), evs) == Run(p, HeadItems(c));
      RunConcat(p, HeadItems(c), ToolItems(c.tools));
      var more := FeedTools(c.tools);
      evs := evs + more;
    }

    /** The inner loop over the tool_calls entries of one choice. */
    method FeedTools(tools: seq<Fragment>) returns (evs: seq<StreamEvent>)
      modifies this`toolStarted
      ensures (State(), evs) == Run(old(State()), ToolItems(tools))
    {
      ghost var p, items := State(), ToolItems(tools);
      evs := [];
      var j := 0;
      while j < |tools|
        invariant 0 <= j <= |tools|
        invariant (State(), evs) == Run(p, items[..j])
      {
        var more := FeedTool(tools[j]);
        evs := evs + more;
        assert items[..j + 1][..j] == items[..j];
        j := j + 1;
      }
      assert items[..j] == items;
    }

    /** What Feed does with a decoded chunk. */
    method FeedChunk(chunk: Chunk) returns (evs: seq<StreamEvent>)
      modifies this
      ensures (State(), evs) == Run(old(State()), ChunkItems(chunk))
    {
      ghost var p := State();
      if chunk.usage.Some? {
        usage := chunk.usage;
        RunOne(p, UsageItem(chunk.usage.value));
      }
      ghost var q := State();
      evs := [];
      assert Run(p, UsageItems(chunk.usage)) == (q, evs);
      var i := 0;
      while i < |chunk.choices|
        invariant 0 <= i <= |chunk.choices|
        invariant (State(), evs) == Run(q, ChoiceItems(chunk.choices[..i]))
      {
        var c := chunk.choices[i];
        RunConcat(q, ChoiceItems(chunk.choices[..i]), HeadItems(c) + ToolItems(c.tools));
        assert chunk.choices[..i + 1][..i] == chunk.choices[..i];
        var more := FeedChoice(c);
        evs := evs + more;
        i := i + 1;
      }
      assert chunk.choices[..i] == chunk.choices;
      RunConcat(p, UsageItems(chunk.usage), ChoiceItems(chunk.choices));
      assert [] + evs == evs;
    }

    method Feed(data: Data) returns (r: Result<seq<StreamEvent>>)
      modifies this
      ensures (State(), r) == FeedData(old(State()), data)
    {
      match data
      case DoneMarker =>
        RunOne(State(), EndItem);
        r := Ok([Done(finishReason, usage)]);
      case Malformed =>
        r := Err("invalid JSON");
      case Doc(doc) =>
        var decoded := DecodeChunk(doc);
        if decoded.Err? {
          return Err(decoded.error);
        }
        var evs := FeedChunk(decoded.value);
        r := Ok(evs);
    }
  }
}
