/**
 The client-facing OpenAI stream writer, and the retraction theorem: reading back what the writer
 produced for a parsed stream gives that stream, cut after its first done or closed by an empty one.
 */
module OpenAIWriter {
  import opened Wrappers
  import opened Json
  import opened Ir
  import opened OpenAIStream

  // ---------- Payloads ----------

  datatype Header = Header(id: string, model: string, created: int)

  function Stamp(h: Header, payload: Fields): Data {
    Doc(Obj(payload["id" := Str(h.id)]["object" := Str("chat.completion.chunk")]
            ["created" := Int(h.created)]["model" := Str(h.model)]))
  }

  function ChoicePayload(delta: Fields, finish: Json): Fields {
    map["choices" := Arr([Obj(map["index" := Int(0), "delta" := Obj(delta), "finish_reason" := finish])])]
  }

  function UsagePayload(u: Usage): Json {
    Obj(map["prompt_tokens" := Int(u.prompt), "completion_tokens" := Int(u.completion), "total_tokens" := Int(u.total)])
  }

  function StartPayload(index: int, id: string, name: string): Fields {
    ChoicePayload(map["tool_calls" := Arr([Obj(map[
      "index" := Int(index), "id" := Str(id), "type" := Str("function"),
      "function" := Obj(map["name" := Str(name), "arguments" := Str("")])])])], Null)
  }

  function DeltaPayload(index: int, arguments: string): Fields {
    ChoicePayload(map["tool_calls" := Arr([Obj(map[
      "index" := Int(index), "type" := Str("function"),
      "function" := Obj(map["arguments" := Str(arguments)])])])], Null)
  }

  function DonePayload(reason: string, usage: Option<Usage>): Fields {
    var base := ChoicePayload(map[], if reason == "" then Null else Str(reason));
    if usage.Some? then base["usage" := UsagePayload(usage.value)] else base
  }

  function ErrorPayload(msg: string): Fields {
    map["error" := Obj(map["message" := Str(msg), "type" := Str("upstream_error")])]
  }

  /** The data lines written for one event. */
  function EventData(h: Header, ev: StreamEvent): seq<Data> {
    match ev
    case TextDelta(d) => [Stamp(h, ChoicePayload(map["content" := Str(d)], Null))]
    case ToolCallStart(i, id, name) => [Stamp(h, StartPayload(i, id, name))]
    case ToolCallDelta(i, args) => [Stamp(h, DeltaPayload(i, args))]
    case ToolCallStop(_) => []
    case Done(reason, usage) => [Stamp(h, DonePayload(reason, usage)), DoneMarker]
  }

  // ---------- The writer ----------

  datatype Writer = Writer(header: Header, out: seq<Data>, done: bool)

  function Start(h: Header): Writer {
    Writer(h, [], false)
  }

  function AfterEvent(w: Writer, ev: StreamEvent): Writer {
    if w.done then w else w.(out := w.out + EventData(w.header, ev), done := ev.Done?)
  }

  function AfterError(w: Writer, msg: string): Writer {
    if w.done then w else w.(out := w.out + [Stamp(w.header, ErrorPayload(msg)), DoneMarker], done := true)
  }

  function AfterFinish(w: Writer): Writer {
    if w.done then w else w.(out := w.out + [DoneMarker], done := true)
  }

  function AfterAll(w: Writer, evs: seq<StreamEvent>): Writer {
    if |evs| == 0 then w else AfterEvent(AfterAll(w, evs[..|evs| - 1]), evs[|evs| - 1])
  }

  class OpenAIChatStreamWriter {
    const header: Header
    var out: seq<Data>
    var done: bool

    ghost function State(): Writer
      reads this
    {
      Writer(header, out, done)
    }

    constructor (id: string, model: string, created: int)
      ensures State() == Start(Header(id, model, created))
    {
      header, out, done := Header(id, model, created), [], false;
    }

    method WriteEvent(ev: StreamEvent)
      modifies this
      ensures State() == AfterEvent(old(State()), ev)
    {
      if done {
        return;
      }
      match ev
      case TextDelta(d) =>
        WriteChunk(ChoicePayload(map["content" := Str(d)], Null));
      case ToolCallStart(i, id, name) =>
        WriteChunk(StartPayload(i, id, name));
      case ToolCallDelta(i, args) =>
        WriteChunk(DeltaPayload(i, args));
      case ToolCallStop(_) =>
        assert out + [] == out;
      case Done(reason, usage) =>
        WriteChunk(DonePayload(reason, usage));
        out := out + [DoneMarker];
        done := true;
    }

    method WriteError(msg: string)
      modifies this
      ensures State() == AfterError(old(State()), msg)
    {
      if done {
        return;
      }
      WriteChunk(ErrorPayload(msg));
      out := out + [DoneMarker];
      done := true;
    }

    method Finish()
      modifies this
      ensures State() == AfterFinish(old(State()))
    {
      if done {
        return;
      }
      out := out + [DoneMarker];
      done := true;
    }

    method WriteChunk(payload: Fields)
      modifies this`out
      ensures out == old(out) + [Stamp(header, payload)]
    {
      out := out + [Stamp(header, payload)];
    }
  }

  // ---------- What the parser reads in each payload ----------

  /** The items that one event becomes on the wire. */
  function EventItems(ev: StreamEvent): seq<Item> {
    match ev
    case TextDelta(d) => if d != "" then [TextItem(d)] else []
    case ToolCallStart(i, id, name) => [ToolItem(Fragment(i, id, name, ""))]
    case ToolCallDelta(i, args) => [ToolItem(Fragment(i, "", "", args))]
    case ToolCallStop(_) => []
    case Done(reason, usage) =>
      UsageItems(usage) + (if reason != "" then [FinishItem(reason)] else []) + [EndItem]
  }

  /** Stamping a payload leaves the members that the parser looks at as they were. */
  lemma StampKeeps(h: Header, payload: Fields)
    ensures var o := Stamp(h, payload).json.fields;
      && ArrField(o, "choices") == ArrField(payload, "choices")
      && OptObjField(o, "usage") == OptObjField(payload, "usage")
  {
  }

  lemma OneChoice(h: Header, payload: Fields, choice: Json, c: ChoiceDelta, usage: Option<Usage>)
    requires ArrField(payload, "choices") == Ok([choice])
    requires DecodeChoice(choice) == Ok(c)
    requires match usage
      case None => OptObjField(payload, "usage") == Ok(None)
      case Some(u) => OptObjField(payload, "usage") == Ok(Some(UsagePayload(u).fields))
    ensures DataItems(Stamp(h, payload)) == Ok(UsageItems(usage) + (HeadItems(c) + ToolItems(c.tools)))
  {
    StampKeeps(h, payload);
    DecodeAllOf([choice], DecodeChoice, [c]);
    if usage.Some? {
      assert DecodeUsage(UsagePayload(usage.value).fields) == Ok(usage.value);
    }
    assert DecodeChunk(Stamp(h, payload).json) == Ok(Chunk([c], usage));
    OneChoiceItems(c);
  }

  lemma OneChoiceItems(c: ChoiceDelta)
    ensures ChoiceItems([c]) == HeadItems(c) + ToolItems(c.tools)
    ensures forall u :: ChunkItems(Chunk([c], u)) == UsageItems(u) + (HeadItems(c) + ToolItems(c.tools))
  {
    assert [c][..0] == [];
  }

  lemma DeltaChoice(delta: Fields, finish: Json, c: ChoiceDelta)
    requires StrField(delta, "content") == Ok(c.content)
    requires ArrField(delta, "tool_calls").Ok?
      && DecodeAll(ArrField(delta, "tool_calls").value, DecodeFragment) == Ok(c.tools)
    requires finish == if c.finishReason == "" then Null else Str(c.finishReason)
    ensures DecodeChoice(Obj(map["index" := Int(0), "delta" := Obj(delta), "finish_reason" := finish])) == Ok(c)
  {
  }

  lemma TextPayloadItems(h: Header, d: string)
    ensures DataItems(Stamp(h, ChoicePayload(map["content" := Str(d)], Null))) == Ok(EventItems(TextDelta(d)))
  {
    var delta := map["content" := Str(d)];
    var choice := Obj(map["index" := Int(0), "delta" := Obj(delta), "finish_reason" := Null]);
    var c := ChoiceDelta(d, [], "");
    DecodeAllOf([], DecodeFragment, []);
    DeltaChoice(delta, Null, c);
    OneChoice(h, ChoicePayload(delta, Null), choice, c, None);
    assert UsageItems(None) + (HeadItems(c) + ToolItems([])) == EventItems(TextDelta(d));
  }

  lemma ToolPayloadItems(h: Header, tool: Json, f: Fragment)
    requires DecodeFragment(tool) == Ok(f)
    ensures DataItems(Stamp(h, ChoicePayload(map["tool_calls" := Arr([tool])], Null))) == Ok([ToolItem(f)])
  {
    var delta := map["tool_calls" := Arr([tool])];
    var choice := Obj(map["index" := Int(0), "delta" := Obj(delta), "finish_reason" := Null]);
    var c := ChoiceDelta("", [f], "");
    DecodeAllOf([tool], DecodeFragment, [f]);
    DeltaChoice(delta, Null, c);
    OneChoice(h, ChoicePayload(delta, Null), choice, c, None);
    assert UsageItems(None) + (HeadItems(c) + ToolItems([f])) == [ToolItem(f)];
  }

  lemma DonePayloadItems(h: Header, reason: string, usage: Option<Usage>)
    ensures DataItems(Stamp(h, DonePayload(reason, usage)))
         == Ok(UsageItems(usage) + (if reason != "" then [FinishItem(reason)] else []))
  {
    var finish := if reason == "" then Null else Str(reason);
    var choice := Obj(map["index" := Int(0), "delta" := Obj(map[]), "finish_reason" := finish]);
    var c := ChoiceDelta("", [], reason);
    DecodeAllOf([], DecodeFragment, []);
    DeltaChoice(map[], finish, c);
    OneChoice(h, DonePayload(reason, usage), choice, c, usage);
    assert HeadItems(c) + ToolItems([]) == if reason != "" then [FinishItem(reason)] else [];
  }

  lemma ErrorPayloadItems(h: Header, msg: string)
    ensures DataItems(Stamp(h, ErrorPayload(msg))) == Ok([])
  {
    var o := Stamp(h, ErrorPayload(msg)).json.fields;
    assert Absent(o, "choices") && Absent(o, "usage");
    DecodeAllOf([], DecodeChoice, []);
    assert DecodeChunk(Obj(o)) == Ok(Chunk([], None));
    assert ChunkItems(Chunk([], None)) == [];
  }

  // ---------- Reading a whole list of data lines ----------

  datatype Reading = Reading(parser: Parser, events: seq<StreamEvent>, failed: bool)

  /** The upstream reader's loop: it feeds line after line and gives up at the first line that cannot be decoded. */
  function ReadAll(datas: seq<Data>): Reading {
    if |datas| == 0 then Reading(INIT, [], false) else
    var r := ReadAll(datas[..|datas| - 1]);
    if r.failed then r else
    match FeedData(r.parser, datas[|datas| - 1])
    case (_, Err(_)) => r.(failed := true)
    case (p, Ok(evs)) => Reading(p, r.events + evs, false)
  }

  /** The items of the lines before the first undecodable one. */
  function GoodItems(datas: seq<Data>): seq<Item> {
    if |datas| == 0 then [] else
    var init := datas[..|datas| - 1];
    if ReadAll(init).failed || DataItems(datas[|datas| - 1]).Err? then GoodItems(init)
    else GoodItems(init) + DataItems(datas[|datas| - 1]).value
  }

  lemma {:induction false} ReadAllIsRun(datas: seq<Data>)
    ensures (ReadAll(datas).parser, ReadAll(datas).events) == Run(INIT, GoodItems(datas))
  {
    if |datas| == 0 {
    } else {
      var init, d := datas[..|datas| - 1], datas[|datas| - 1];
      ReadAllIsRun(init);
      if !ReadAll(init).failed && DataItems(d).Ok? {
        RunConcat(INIT, GoodItems(init), DataItems(d).value);
      }
    }
  }

  lemma ReadSnoc(datas: seq<Data>, d: Data)
    requires !ReadAll(datas).failed && DataItems(d).Ok?
    ensures !ReadAll(datas + [d]).failed
    ensures GoodItems(datas + [d]) == GoodItems(datas) + DataItems(d).value
  {
    assert (datas + [d])[..|datas|] == datas;
  }

  // ---------- Retraction ----------

  function WireItems(evs: seq<StreamEvent>): seq<Item> {
    if |evs| == 0 then [] else WireItems(evs[..|evs| - 1]) + EventItems(evs[|evs| - 1])
  }

  /** What the parser finds in the writer's output, event by event. */
  lemma {:induction false} WrittenItems(h: Header, evs: seq<StreamEvent>)
    ensures var w := AfterAll(Start(h), evs);
      w.header == h && w.done == HasDone(evs) && !ReadAll(w.out).failed && GoodItems(w.out) == WireItems(Cut(evs))
  {
    if |evs| == 0 {
    } else {
      var init, ev := evs[..|evs| - 1], evs[|evs| - 1];
      WrittenItems(h, init);
      assert evs == init + [ev];
      CutSnoc(init, ev);
      var w := AfterAll(Start(h), init);
      if !w.done {
        WrittenEvent(w, ev);
        WireSnoc(init, ev);
      }
    }
  }

  lemma CutSnoc(evs: seq<StreamEvent>, ev: StreamEvent)
    ensures HasDone(evs + [ev]) == (HasDone(evs) || ev.Done?)
    ensures Cut(evs + [ev]) == if HasDone(evs) then Cut(evs) else evs + [ev]
    ensures !HasDone(evs) ==> Cut(evs) == evs
  {
    assert (evs + [ev])[..|evs|] == evs;
    assert (evs + [ev])[|evs|] == ev;
    if HasDone(evs) {
      var i :| 0 <= i < |evs| && evs[i].Done?;
      assert (evs + [ev])[i].Done?;
    }
  }

  lemma StartLine(h: Header, i: int, id: string, name: string)
    ensures DataItems(Stamp(h, StartPayload(i, id, name))) == Ok(EventItems(ToolCallStart(i, id, name)))
  {
    var tool := Obj(map["index" := Int(i), "id" := Str(id), "type" := Str("function"),
                        "function" := Obj(map["name" := Str(name), "arguments" := Str("")])]);
    assert DecodeFragment(tool) == Ok(Fragment(i, id, name, ""));
    ToolPayloadItems(h, tool, Fragment(i, id, name, ""));
  }

  lemma DeltaLine(h: Header, i: int, args: string)
    ensures DataItems(Stamp(h, DeltaPayload(i, args))) == Ok(EventItems(ToolCallDelta(i, args)))
  {
    var tool := Obj(map["index" := Int(i), "type" := Str("function"),
                        "function" := Obj(map["arguments" := Str(args)])]);
    assert DecodeFragment(tool) == Ok(Fragment(i, "", "", args));
    ToolPayloadItems(h, tool, Fragment(i, "", "", args));
  }

  /** One written line, whatever its payload. */
  lemma WrittenLine(w: Writer, ev: StreamEvent, line: Data)
    requires !w.done && !ReadAll(w.out).failed
    requires EventData(w.header, ev) == [line] && DataItems(line) == Ok(EventItems(ev))
    ensures !ReadAll(AfterEvent(w, ev).out).failed
    ensures GoodItems(AfterEvent(w, ev).out) == GoodItems(w.out) + EventItems(ev)
  {
    ReadSnoc(w.out, line);
  }

  /** A written line followed by the end marker. */
  lemma WrittenLast(w: Writer, ev: StreamEvent, line: Data, items: seq<Item>)
    requires !w.done && !ReadAll(w.out).failed
    requires EventData(w.header, ev) == [line] + [DoneMarker]
    requires DataItems(line) == Ok(items) && EventItems(ev) == items + [EndItem]
    ensures !ReadAll(AfterEvent(w, ev).out).failed
    ensures GoodItems(AfterEvent(w, ev).out) == GoodItems(w.out) + EventItems(ev)
  {
    ReadSnoc(w.out, line);
    ReadSnoc(w.out + [line], DoneMarker);
    assert w.out + ([line] + [DoneMarker]) == (w.out + [line]) + [DoneMarker];
    assert GoodItems(w.out) + (items + [EndItem]) == (GoodItems(w.out) + items) + [EndItem];
  }

  lemma WrittenEvent(w: Writer, ev: StreamEvent)
    requires !w.done && !ReadAll(w.out).failed
    ensures !ReadAll(AfterEvent(w, ev).out).failed
    ensures GoodItems(AfterEvent(w, ev).out) == GoodItems(w.out) + EventItems(ev)
  {
    var h := w.header;
    match ev
    case TextDelta(d) =>
      TextPayloadItems(h, d);
      WrittenLine(w, ev, Stamp(h, ChoicePayload(map["content" := Str(d)], Null)));
    case ToolCallStart(i, id, name) =>
      StartLine(h, i, id, name);
      WrittenLine(w, ev, Stamp(h, StartPayload(i, id, name)));
    case ToolCallDelta(i, args) =>
      DeltaLine(h, i, args);
      WrittenLine(w, ev, Stamp(h, DeltaPayload(i, args)));
    case ToolCallStop(_) =>
      assert w.out + [] == w.out;
    case Done(reason, usage) =>
      DonePayloadItems(h, reason, usage);
      WrittenLast(w, ev, Stamp(h, DonePayload(reason, usage)),
        UsageItems(usage) + (if reason != "" then [FinishItem(reason)] else []));
  }

  /** Parsing inverts writing on the events that the parser itself produces. */
  lemma {:induction false} RetractItems(items: seq<Item>)
    ensures var (p, evs) := Run(INIT, items);
      if HasDone(evs) then Run(INIT, WireItems(Cut(evs))).1 == Cut(evs)
      else Run(INIT, WireItems(evs)) == (Parser(p.toolStarted, "", None), evs)
  {
    if |items| == 0 {
    } else {
      var init, it := items[..|items| - 1], items[|items| - 1];
      RetractItems(init);
      var (p, evs) := Run(INIT, init);
      var (q, more) := StepItem(p, it);
      assert Run(INIT, items) == (q, evs + more);
      if HasDone(evs) {
        CutConcat(evs, more);
      } else {
        RetractStep(evs, p, it);
      }
    }
  }

  lemma CutConcat(a: seq<StreamEvent>, b: seq<StreamEvent>)
    requires HasDone(a)
    ensures HasDone(a + b) && Cut(a + b) == Cut(a)
    decreases |b|
  {
    var i :| 0 <= i < |a| && a[i].Done?;
    assert (a + b)[i].Done?;
    if |b| > 0 {
      var n := |b| - 1;
      CutConcat(a, b[..n]);
      assert (a + b)[..|a + b| - 1] == a + b[..n];
    } else {
      assert a + b == a;
    }
  }

  lemma WireSnoc(evs: seq<StreamEvent>, ev: StreamEvent)
    ensures WireItems(evs + [ev]) == WireItems(evs) + EventItems(ev)
  {
    assert (evs + [ev])[..|evs|] == evs;
  }

  lemma RetractStep(evs: seq<StreamEvent>, p: Parser, it: Item)
    requires !HasDone(evs)
    requires Run(INIT, WireItems(evs)) == (Parser(p.toolStarted, "", None), evs)
    ensures var (q, more) := StepItem(p, it);
      if HasDone(evs + more) then Cut(evs + more) == evs + more && Run(INIT, WireItems(evs + more)).1 == evs + more
      else Run(INIT, WireItems(evs + more)) == (Parser(q.toolStarted, "", None), evs + more)
  {
    var r := Parser(p.toolStarted, "", None);
    var (q, more) := StepItem(p, it);
    match it
    case UsageItem(_) =>
      assert evs + more == evs;
    case FinishItem(_) =>
      assert evs + more == evs;
    case TextItem(t) =>
      if t == "" {
        assert evs + more == evs;
      } else {
        CutSnoc(evs, TextDelta(t));
        WireSnoc(evs, TextDelta(t));
        RunSnoc(INIT, WireItems(evs), TextItem(t));
      }
    case ToolItem(f) =>
      RetractTool(evs, p.toolStarted, f);
    case EndItem =>
      var done := Done(p.finishReason, p.usage);
      CutSnoc(evs, done);
      WireSnoc(evs, done);
      RunConcat(INIT, WireItems(evs), EventItems(done));
      ReadDone(r, p.finishReason, p.usage);
  }

  lemma ReadDone(r: Parser, reason: string, usage: Option<Usage>)
    requires r.finishReason == "" && r.usage == None
    ensures Run(r, EventItems(Done(reason, usage))).1 == [Done(reason, usage)]
  {
    var finish := if reason != "" then [FinishItem(reason)] else [];
    RunConcat(r, UsageItems(usage) + finish, [EndItem]);
    RunConcat(r, UsageItems(usage), finish);
    if usage.Some? {
      RunOne(r, UsageItem(usage.value));
    }
    if reason != "" {
      RunOne(r.(usage := usage), FinishItem(reason));
    }
    var q := r.(usage := usage, finishReason := reason);
    assert Run(r, UsageItems(usage) + finish) == (q, []);
    RunOne(q, EndItem);
  }

  /** The parser, reading the wire form of these events, gets the same events and has started the same tools. */
  ghost predicate Copied(evs: seq<StreamEvent>, started: set<int>) {
    !HasDone(evs) && Run(INIT, WireItems(evs)) == (Parser(started, "", None), evs)
  }

  lemma RetractOne(evs: seq<StreamEvent>, started: set<int>, ev: StreamEvent, f: Fragment)
    requires Copied(evs, started) && !ev.Done?
    requires EventItems(ev) == [ToolItem(f)] && ToolEvents(started, f) == [ev]
    ensures Copied(evs + [ev], started + {f.index})
  {
    CutSnoc(evs, ev);
    WireSnoc(evs, ev);
    RunSnoc(INIT, WireItems(evs), ToolItem(f));
  }

  lemma RetractStart(evs: seq<StreamEvent>, started: set<int>, f: Fragment)
    requires Copied(evs, started) && f.index !in started
    ensures Copied(evs + [ToolCallStart(f.index, f.id, f.name)], started + {f.index})
  {
    RetractOne(evs, started, ToolCallStart(f.index, f.id, f.name), Fragment(f.index, f.id, f.name, ""));
  }

  lemma RetractDelta(evs: seq<StreamEvent>, started: set<int>, f: Fragment)
    requires Copied(evs, started) && f.index in started && f.arguments != ""
    ensures Copied(evs + [ToolCallDelta(f.index, f.arguments)], started)
  {
    assert started + {f.index} == started;
    RetractOne(evs, started, ToolCallDelta(f.index, f.arguments), Fragment(f.index, "", "", f.arguments));
  }

  /** The events after one more tool fragment, one at a time. */
  function WithTool(evs: seq<StreamEvent>, started: set<int>, f: Fragment): (r: seq<StreamEvent>)
    ensures r == evs + ToolEvents(started, f)
  {
    var mid := if f.index in started then evs else evs + [ToolCallStart(f.index, f.id, f.name)];
    if f.arguments == "" then mid else mid + [ToolCallDelta(f.index, f.arguments)]
  }

  lemma RetractTool(evs: seq<StreamEvent>, started: set<int>, f: Fragment)
    requires Copied(evs, started)
    ensures Copied(WithTool(evs, started, f), started + {f.index})
  {
    if f.index in started {
      assert started + {f.index} == started;
      if f.arguments != "" {
        RetractDelta(evs, started, f);
      }
    } else {
      RetractStart(evs, started, f);
      if f.arguments != "" {
        RetractDelta(evs + [ToolCallStart(f.index, f.id, f.name)], started + {f.index}, f);
      }
    }
  }

  /** The stream handler's last call on the writer: an error event after a failure, the closing call otherwise. */
  function Close(w: Writer, aborted: bool, msg: string): Writer {
    if aborted then AfterError(w, msg) else AfterFinish(w)
  }

  /**
   Reading back what was written for a parsed stream: whatever the upstream sent, well formed or not, and
   whether or not the stream was aborted after it, the client's copy parses to the same events, cut after
   the first done or closed by an empty done.
   */
  lemma Retraction(h: Header, upstream: seq<Data>, aborted: bool, msg: string)
    ensures var evs := ReadAll(upstream).events;
      var back := ReadAll(Close(AfterAll(Start(h), evs), aborted, msg).out);
      !back.failed && back.events == Complete(evs)
  {
    hide Run, ReadAll, GoodItems, WireItems, AfterAll, Cut, HasDone, EventItems;
    var evs := ReadAll(upstream).events;
    ReadAllIsRun(upstream);
    RetractItems(GoodItems(upstream));
    WrittenItems(h, evs);
    var w := AfterAll(Start(h), evs);
    ReadAllIsRun(Close(w, aborted, msg).out);
    if !w.done {
      CutSnoc(evs, Done("", None));
      ClosedItems(w, msg);
      RunSnoc(INIT, GoodItems(w.out), EndItem);
    }
  }

  /** Both ways of closing an unfinished stream read as a bare end marker. */
  lemma ClosedItems(w: Writer, msg: string)
    requires !w.done && !ReadAll(w.out).failed
    ensures forall aborted :: !ReadAll(Close(w, aborted, msg).out).failed
    ensures forall aborted :: GoodItems(Close(w, aborted, msg).out) == GoodItems(w.out) + [EndItem]
  {
    ErrorPayloadItems(w.header, msg);
    var error := Stamp(w.header, ErrorPayload(msg));
    ReadSnoc(w.out, error);
    ReadSnoc(w.out + [error], DoneMarker);
    ReadSnoc(w.out, DoneMarker);
    assert w.out + [error, DoneMarker] == (w.out + [error]) + [DoneMarker];
    assert GoodItems(w.out) + [] == GoodItems(w.out);
  }
}
