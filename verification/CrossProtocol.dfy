/**
 An OpenAI upstream stream shown to an Anthropic client: what the client reads is what the upstream said.
 The upstream's meaning is defined on its chunks alone, without the parser or any event.
 */
module CrossProtocol {
  import opened Wrappers
  import opened Ir
  import opened OpenAIStream
  import O = OpenAIWriter
  import W = AnthropicWriter
  import R = AnthropicRoundTrip
  import T = Text

  // ---------- What a chunk list means ----------

  function TextOf(items: seq<Item>): string {
    if |items| == 0 then "" else
    TextOf(items[..|items| - 1]) + (match items[|items| - 1] case TextItem(t) => t case _ => "")
  }

  function FragmentsOf(items: seq<Item>): seq<Fragment> {
    if |items| == 0 then [] else
    FragmentsOf(items[..|items| - 1]) + (match items[|items| - 1] case ToolItem(f) => [f] case _ => [])
  }

  function FinishOf(items: seq<Item>): string {
    if |items| == 0 then "" else
    match items[|items| - 1] case FinishItem(r) => r case _ => FinishOf(items[..|items| - 1])
  }

  function UsageOf(items: seq<Item>): Option<Usage> {
    if |items| == 0 then None else
    match items[|items| - 1] case UsageItem(u) => Some(u) case _ => UsageOf(items[..|items| - 1])
  }

  /** The first fragment of each tool index, in order of appearance. */
  function Heads(fs: seq<Fragment>): seq<Fragment> {
    if |fs| == 0 then [] else
    var init, f := fs[..|fs| - 1], fs[|fs| - 1];
    if exists g :: g in init && g.index == f.index then Heads(init) else Heads(init) + [f]
  }

  /** The arguments of one tool index, from all its fragments. */
  function ArgumentsOf(fs: seq<Fragment>, index: int): string {
    if |fs| == 0 then "" else
    ArgumentsOf(fs[..|fs| - 1], index) + (if fs[|fs| - 1].index == index then fs[|fs| - 1].arguments else "")
  }

  function CallsOf(fs: seq<Fragment>): (r: seq<Call>)
    ensures |r| == |Heads(fs)|
  {
    seq(|Heads(fs)|, k requires 0 <= k < |Heads(fs)| =>
      var h := Heads(fs)[k]; Call(h.index, h.id, h.name, ArgumentsOf(fs, h.index)))
  }

  /** The meaning of the items before the end marker. */
  function Meaning(items: seq<Item>): Transcript {
    Transcript(TextOf(items), CallsOf(FragmentsOf(items)), Some(Done(FinishOf(items), UsageOf(items))))
  }

  // ---------- The parser keeps the meaning ----------

  ghost predicate NoEnd(items: seq<Item>) {
    EndItem !in items
  }

  function Indices(fs: seq<Fragment>): set<int> {
    set f | f in fs :: f.index
  }

  lemma IndicesSnoc(fs: seq<Fragment>, f: Fragment)
    ensures Indices(fs + [f]) == Indices(fs) + {f.index}
  {
    assert forall g :: g in fs + [f] <==> g in fs || g == f;
  }

  lemma {:induction false} HeadsMeaning(fs: seq<Fragment>)
    ensures forall i, j :: 0 <= i < j < |Heads(fs)| ==> Heads(fs)[i].index != Heads(fs)[j].index
    ensures Indices(Heads(fs)) == Indices(fs)
  {
    if |fs| == 0 {
    } else {
      var init, f := fs[..|fs| - 1], fs[|fs| - 1];
      assert fs == init + [f];
      HeadsMeaning(init);
      IndicesSnoc(init, f);
      IndicesSnoc(Heads(init), f);
      assert f.index in Indices(init) <==> exists g :: g in init && g.index == f.index;
      assert forall k :: 0 <= k < |Heads(init)| ==> Heads(init)[k].index in Indices(Heads(init));
    }
  }

  lemma {:induction false} NoArguments(fs: seq<Fragment>, index: int)
    requires index !in Indices(fs)
    ensures ArgumentsOf(fs, index) == ""
  {
    if |fs| == 0 {
    } else {
      var init, f := fs[..|fs| - 1], fs[|fs| - 1];
      assert fs == init + [f];
      IndicesSnoc(init, f);
      NoArguments(init, index);
    }
  }

  lemma HeadsSnoc(fs: seq<Fragment>, f: Fragment)
    ensures Heads(fs + [f]) == if f.index in Indices(fs) then Heads(fs) else Heads(fs) + [f]
    ensures forall i :: ArgumentsOf(fs + [f], i) == ArgumentsOf(fs, i) + (if f.index == i then f.arguments else "")
  {
    assert (fs + [f])[..|fs|] == fs;
  }

  /** The calls after one more fragment of a tool that has not been seen. */
  lemma NewCall(fs: seq<Fragment>, f: Fragment)
    requires f.index !in Indices(fs)
    ensures CallsOf(fs + [f]) == CallsOf(fs) + [Call(f.index, f.id, f.name, f.arguments)]
    ensures Latest(CallsOf(fs), f.index) == -1
  {
    HeadsSnoc(fs, f);
    HeadsMeaning(fs);
    NoArguments(fs, f.index);
    forall k | 0 <= k < |Heads(fs)|
      ensures CallsOf(fs + [f])[k] == CallsOf(fs)[k] && CallsOf(fs)[k].index != f.index
    {
      assert Heads(fs)[k].index in Indices(Heads(fs));
      assert ArgumentsOf(fs, Heads(fs)[k].index) + "" == ArgumentsOf(fs, Heads(fs)[k].index);
    }
    assert "" + f.arguments == f.arguments;
  }

  /** A known tool has exactly one call. */
  lemma CallPosition(fs: seq<Fragment>, index: int) returns (k: nat)
    requires index in Indices(fs)
    ensures k < |CallsOf(fs)| && Latest(CallsOf(fs), index) == k
    ensures forall i :: 0 <= i < |CallsOf(fs)| ==> CallsOf(fs)[i].index == Heads(fs)[i].index
    ensures forall i :: 0 <= i < |CallsOf(fs)| ==> (Heads(fs)[i].index == index <==> i == k)
  {
    HeadsMeaning(fs);
    var h :| h in Heads(fs) && h.index == index;
    k :| 0 <= k < |Heads(fs)| && Heads(fs)[k] == h;
    assert CallsOf(fs)[k].index == index;
    var latest := Latest(CallsOf(fs), index);
    assert Heads(fs)[latest].index == CallsOf(fs)[latest].index;
  }

  /** The calls after one more fragment of a known tool. */
  lemma OldCall(fs: seq<Fragment>, f: Fragment)
    requires f.index in Indices(fs)
    ensures var k := Latest(CallsOf(fs), f.index);
      k >= 0 && CallsOf(fs + [f]) ==
        CallsOf(fs)[k := CallsOf(fs)[k].(arguments := CallsOf(fs)[k].arguments + f.arguments)]
  {
    var calls := CallsOf(fs);
    var k := CallPosition(fs, f.index);
    HeadsSnoc(fs, f);
    var longer := calls[k := calls[k].(arguments := calls[k].arguments + f.arguments)];
    forall i | 0 <= i < |calls|
      ensures CallsOf(fs + [f])[i] == longer[i]
    {
      assert ArgumentsOf(fs, Heads(fs)[i].index) + "" == ArgumentsOf(fs, Heads(fs)[i].index);
    }
  }

  /** The transcript, and the parser's own state, after the items of any chunks before the end marker. */
  ghost predicate Understands(p: Parser, t: Transcript, items: seq<Item>) {
    && t == Transcript(TextOf(items), CallsOf(FragmentsOf(items)), None)
    && p.toolStarted == Indices(FragmentsOf(items))
    && p.finishReason == FinishOf(items) && p.usage == UsageOf(items)
  }

  lemma ItemsSnoc(items: seq<Item>, it: Item)
    ensures TextOf(items + [it]) == if it.TextItem? then TextOf(items) + it.text else TextOf(items)
    ensures FragmentsOf(items + [it]) == if it.ToolItem? then FragmentsOf(items) + [it.fragment] else FragmentsOf(items)
    ensures FinishOf(items + [it]) == if it.FinishItem? then it.reason else FinishOf(items)
    ensures UsageOf(items + [it]) == if it.UsageItem? then Some(it.usage) else UsageOf(items)
  {
    assert (items + [it])[..|items|] == items;
    assert TextOf(items) + "" == TextOf(items);
    assert FragmentsOf(items) + [] == FragmentsOf(items);
  }

  lemma KnownToolTranscript(evs: seq<StreamEvent>, fs: seq<Fragment>, f: Fragment)
    requires Assemble(evs).calls == CallsOf(fs) && Assemble(evs).end.None?
    requires f.index in Indices(fs)
    ensures var all := if f.arguments == "" then evs else evs + [ToolCallDelta(f.index, f.arguments)];
      Assemble(all) == Assemble(evs).(calls := CallsOf(fs + [f]))
  {
    OldCall(fs, f);
    var calls, k := CallsOf(fs), Latest(CallsOf(fs), f.index);
    if f.arguments == "" {
      assert calls[k].arguments + "" == calls[k].arguments;
      assert calls[k := calls[k]] == calls;
    } else {
      AssembleSnoc(evs, ToolCallDelta(f.index, f.arguments));
    }
  }

  lemma NewToolTranscript(evs: seq<StreamEvent>, fs: seq<Fragment>, f: Fragment)
    requires Assemble(evs).calls == CallsOf(fs) && Assemble(evs).end.None?
    requires f.index !in Indices(fs)
    ensures var mid := evs + [ToolCallStart(f.index, f.id, f.name)];
      var all := if f.arguments == "" then mid else mid + [ToolCallDelta(f.index, f.arguments)];
      Assemble(all) == Assemble(evs).(calls := CallsOf(fs + [f]))
  {
    var start := ToolCallStart(f.index, f.id, f.name);
    var mid := evs + [start];
    NewCall(fs, f);
    AssembleSnoc(evs, start);
    LatestSnoc(CallsOf(fs), Call(f.index, f.id, f.name, ""), f.index);
    if f.arguments != "" {
      AssembleSnoc(mid, ToolCallDelta(f.index, f.arguments));
      assert "" + f.arguments == f.arguments;
    }
  }

  /** The transcript after the events of one fragment. */
  lemma ToolTranscript(evs: seq<StreamEvent>, started: set<int>, fs: seq<Fragment>, f: Fragment)
    requires Assemble(evs).calls == CallsOf(fs) && Assemble(evs).end.None?
    requires f.index in started <==> f.index in Indices(fs)
    ensures Assemble(O.WithTool(evs, started, f)) == Assemble(evs).(calls := CallsOf(fs + [f]))
  {
    if f.index in started {
      KnownToolTranscript(evs, fs, f);
    } else {
      NewToolTranscript(evs, fs, f);
    }
  }

  lemma ToolUnderstood(p: Parser, evs: seq<StreamEvent>, items: seq<Item>, f: Fragment)
    requires Understands(p, Assemble(evs), items)
    ensures var (q, more) := StepItem(p, ToolItem(f));
      Understands(q, Assemble(evs + more), items + [ToolItem(f)])
  {
    ItemsSnoc(items, ToolItem(f));
    var fs := FragmentsOf(items);
    ToolTranscript(evs, p.toolStarted, fs, f);
    IndicesSnoc(fs, f);
  }

  lemma {:induction false} ParserUnderstands(items: seq<Item>)
    requires NoEnd(items)
    ensures var (p, evs) := Run(INIT, items); Understands(p, Assemble(evs), items)
  {
    if |items| == 0 {
    } else {
      var init, it := items[..|items| - 1], items[|items| - 1];
      assert items == init + [it];
      ParserUnderstands(init);
      var (p, evs) := Run(INIT, init);
      ItemsSnoc(init, it);
      if it.ToolItem? {
        ToolUnderstood(p, evs, init, it.fragment);
      } else {
        assert it in items;
        QuietUnderstood(p, evs, init, it);
      }
    }
  }

  lemma QuietUnderstood(p: Parser, evs: seq<StreamEvent>, items: seq<Item>, it: Item)
    requires Understands(p, Assemble(evs), items) && !it.ToolItem? && !it.EndItem?
    ensures var (q, more) := StepItem(p, it); Understands(q, Assemble(evs + more), items + [it])
  {
    ItemsSnoc(items, it);
    if it.TextItem? && it.text != "" {
      AssembleSnoc(evs, TextDelta(it.text));
    } else {
      assert evs + [] == evs;
      assert TextOf(items) + "" == TextOf(items);
    }
  }

  // ---------- The Anthropic writer and parser keep the meaning ----------

  /** A call as the Anthropic client sees it: its number is its block, an empty id is made from the block. */
  predicate SameCall(c: Call, d: Call) {
    && d.index >= 0 && d.name == c.name && d.arguments == c.arguments
    && d.id == if c.id == "" then "toolu_" + T.Decimal(d.index) else c.id
  }

  /** The same text and the same calls in the same order; block numbers rise, so no two calls share one. */
  ghost predicate SameBody(t: Transcript, u: Transcript) {
    && u.text == t.text && |u.calls| == |t.calls|
    && (forall k :: 0 <= k < |t.calls| ==> SameCall(t.calls[k], u.calls[k]))
    && (forall j, k :: 0 <= j < k < |u.calls| ==> u.calls[j].index < u.calls[k].index)
  }

  /** The whole transcript: also the canonical finish reason and the usage, which is absent when both counts are 0. */
  ghost predicate SameMeaning(t: Transcript, u: Transcript) {
    && SameBody(t, u)
    && match t.end
       case Some(Done(reason, usage)) => u.end == Some(Done(R.CanonicalReason(reason), R.CanonicalUsage(usage)))
       case _ => u.end == None
  }

  /** Two unfinished transcripts and the renaming between them. */
  ghost predicate Alike(t: Transcript, u: Transcript, n: R.Renaming) {
    && SameBody(t, u) && t.end.None? && u.end.None?
    && (forall k :: 0 <= k < |u.calls| ==> u.calls[k].index < n.next)
    && (forall i :: i in n.block <==> Latest(t.calls, i) >= 0)
    && (forall i :: i in n.block ==> u.calls[Latest(t.calls, i)].index == n.block[i])
  }

  lemma StartAlike(t: Transcript, u: Transcript, n: R.Renaming, i: int, id: string, name: string)
    requires Alike(t, u, n)
    ensures var m := R.Rename(n, ToolCallStart(i, id, name)).0;
      Alike(Extend(t, ToolCallStart(i, id, name)), Extend(u, ToolCallStart(n.next, W.ToolId(id, n.next), name)), m)
  {
    forall x: int {
      LatestSnoc(t.calls, Call(i, id, name, ""), x);
    }
  }

  lemma DeltaAlike(t: Transcript, u: Transcript, n: R.Renaming, i: int, args: string)
    requires Alike(t, u, n) && i in n.block
    ensures Alike(Extend(t, ToolCallDelta(i, args)), Extend(u, ToolCallDelta(n.block[i], args)), n)
  {
    var k := Latest(t.calls, i);
    assert Latest(u.calls, n.block[i]) == k;
    LatestUpdates(t.calls, k, t.calls[k].(arguments := t.calls[k].arguments + args));
  }

  lemma EventAlike(evs: seq<StreamEvent>, out: seq<StreamEvent>, n: R.Renaming, ev: StreamEvent)
    requires Alike(Assemble(evs), Assemble(out), n) && !ev.Done?
    ensures var (m, more) := R.Rename(n, ev); Alike(Assemble(evs + [ev]), Assemble(out + more), m)
  {
    hide Assemble;
    AssembleSnoc(evs, ev);
    var (m, more) := R.Rename(n, ev);
    var t, u := Assemble(evs), Assemble(out);
    if more == [] {
      assert out + more == out;
    } else {
      AssembleSnoc(out, more[0]);
      assert more == [more[0]];
    }
    match ev
    case TextDelta(_) =>
    case ToolCallStart(i, id, name) => StartAlike(t, u, n, i, id, name);
    case ToolCallDelta(i, args) =>
      if i in n.block {
        DeltaAlike(t, u, n, i, args);
      } else {
        assert Latest(t.calls, i) < 0;
      }
    case ToolCallStop(_) =>
  }

  lemma {:induction false} StopsAreSilent(out: seq<StreamEvent>, blocks: seq<nat>)
    ensures Assemble(out + R.Stops(blocks)) == Assemble(out)
  {
    if |blocks| == 0 {
      assert out + R.Stops(blocks) == out;
    } else {
      var n := |blocks| - 1;
      StopsAreSilent(out, blocks[..n]);
      assert out + R.Stops(blocks) == (out + R.Stops(blocks[..n])) + [ToolCallStop(blocks[n])];
      AssembleSnoc(out + R.Stops(blocks[..n]), ToolCallStop(blocks[n]));
    }
  }

  /** Where a list stands against its translation: unfinished and alike, or finished with the same meaning. */
  ghost predicate Matched(evs: seq<StreamEvent>) {
    var (n, out) := R.Translate(evs);
    if HasDone(evs) then SameMeaning(Assemble(evs), Assemble(out)) && Assemble(evs).end.Some?
    else Alike(Assemble(evs), Assemble(out), n)
  }

  lemma DoneMatched(evs: seq<StreamEvent>, reason: string, usage: Option<Usage>)
    requires !HasDone(evs) && Matched(evs)
    ensures Matched(evs + [Done(reason, usage)])
  {
    var (n, out) := R.Translate(evs);
    R.TranslateSnoc(evs, Done(reason, usage));
    R.RenamedDone(n, out, reason, usage);
    AssembleSnoc(evs, Done(reason, usage));
    StopsAreSilent(out, n.open);
    AssembleSnoc(out + R.Stops(n.open), Done(R.CanonicalReason(reason), R.CanonicalUsage(usage)));
  }

  lemma {:induction false} TranslationMatches(evs: seq<StreamEvent>)
    ensures Matched(evs)
  {
    if |evs| == 0 {
    } else {
      var init, ev := evs[..|evs| - 1], evs[|evs| - 1];
      assert evs == init + [ev];
      TranslationMatches(init);
      R.TranslateSnoc(init, ev);
      AssembleSnoc(init, ev);
      if !HasDone(init) {
        var (n, out) := R.Translate(init);
        match ev
        case Done(reason, usage) => DoneMatched(init, reason, usage);
        case _ => EventAlike(init, out, n, ev);
      }
    }
  }

  /** Any event list at all, written for an Anthropic client and closed, reads back with the same meaning. */
  lemma AnthropicClientMeaning(id: string, model: string, evs: seq<StreamEvent>)
    ensures var read := R.ReadFrames(W.AfterFinish(W.AfterAll(W.Start(id, model), evs)).out);
      !read.failed && SameMeaning(Assemble(Complete(evs)), Assemble(read.events))
  {
    R.RoundTrip(id, model, evs, "");
    TranslationMatches(Complete(evs));
    CompleteHasDone(evs);
  }

  lemma {:induction false} CompleteHasDone(evs: seq<StreamEvent>)
    ensures HasDone(Complete(evs))
  {
    if !HasDone(evs) {
      O.CutSnoc(evs, Done("", None));
    } else {
      var init := evs[..|evs| - 1];
      assert evs == init + [evs[|evs| - 1]];
      if HasDone(init) {
        CompleteHasDone(init);
      }
    }
  }

  // ---------- From OpenAI chunks to the Anthropic client ----------

  predicate Readable(datas: seq<Data>) {
    forall d :: d in datas ==> DataItems(d).Ok?
  }

  /** What a list of decodable lines says. */
  function ItemsOf(datas: seq<Data>): seq<Item>
    requires Readable(datas)
  {
    if |datas| == 0 then [] else
    assert datas[|datas| - 1] in datas;
    ItemsOf(datas[..|datas| - 1]) + DataItems(datas[|datas| - 1]).value
  }

  lemma {:induction false} ReadableReads(datas: seq<Data>)
    requires Readable(datas)
    ensures !O.ReadAll(datas).failed && O.GoodItems(datas) == ItemsOf(datas)
  {
    if |datas| == 0 {
    } else {
      assert datas[|datas| - 1] in datas;
      ReadableReads(datas[..|datas| - 1]);
    }
  }

  lemma {:induction false} ChoicesNoEnd(choices: seq<ChoiceDelta>)
    ensures NoEnd(ChoiceItems(choices))
  {
    if |choices| == 0 {
    } else {
      ChoicesNoEnd(choices[..|choices| - 1]);
    }
  }

  lemma {:induction false} ChunksNoEnd(datas: seq<Data>)
    requires Readable(datas) && DoneMarker !in datas
    ensures NoEnd(ItemsOf(datas))
  {
    if |datas| == 0 {
    } else {
      var d := datas[|datas| - 1];
      assert d in datas;
      ChunksNoEnd(datas[..|datas| - 1]);
      ChoicesNoEnd(DecodeChunk(d.json).value.choices);
    }
  }

  /** Every tool argument comes after a start of its tool. */
  ghost predicate StartsFirst(evs: seq<StreamEvent>) {
    forall k :: 0 <= k < |evs| && evs[k].ToolCallDelta? ==> evs[k].index in R.StartedIn(evs[..k])
  }

  lemma StartsFirstSnoc(evs: seq<StreamEvent>, ev: StreamEvent)
    requires StartsFirst(evs) && !HasDone(evs) && !ev.Done?
    requires ev.ToolCallDelta? ==> ev.index in R.StartedIn(evs)
    ensures StartsFirst(evs + [ev]) && !HasDone(evs + [ev])
    ensures R.StartedIn(evs + [ev]) == R.StartedIn(evs) + (if ev.ToolCallStart? then {ev.index} else {})
  {
    R.StartedSnoc(evs, ev);
    assert forall k :: 0 <= k < |evs| ==> (evs + [ev])[..k] == evs[..k];
    assert (evs + [ev])[..|evs|] == evs;
  }

  /** The parser announces a tool before its first arguments. */
  lemma {:induction false} ParserStartsFirst(items: seq<Item>)
    requires NoEnd(items)
    ensures var (p, evs) := Run(INIT, items);
      !HasDone(evs) && p.toolStarted == R.StartedIn(evs) && StartsFirst(evs)
  {
    if |items| == 0 {
    } else {
      var init, it := items[..|items| - 1], items[|items| - 1];
      ParserStartsFirst(init);
      var (p, evs) := Run(INIT, init);
      assert it in items;
      if it.ToolItem? {
        var f := it.fragment;
        var start, delta := ToolCallStart(f.index, f.id, f.name), ToolCallDelta(f.index, f.arguments);
        var mid := if f.index in p.toolStarted then evs else evs + [start];
        StartsFirstSnoc(evs, start);
        assert O.WithTool(evs, p.toolStarted, f) == evs + ToolEvents(p.toolStarted, f);
        if f.arguments != "" {
          StartsFirstSnoc(mid, delta);
        }
      } else if it.TextItem? && it.text != "" {
        StartsFirstSnoc(evs, TextDelta(it.text));
      } else {
        assert evs + [] == evs;
      }
    }
  }

  lemma ChunkRun(chunks: seq<Data>)
    requires Readable(chunks) && DoneMarker !in chunks
    ensures NoEnd(ItemsOf(chunks)) && !O.ReadAll(chunks + [DoneMarker]).failed
    ensures O.ReadAll(chunks + [DoneMarker]).events == Run(INIT, ItemsOf(chunks) + [EndItem]).1
  {
    ReadableReads(chunks);
    ChunksNoEnd(chunks);
    O.ReadSnoc(chunks, DoneMarker);
    O.ReadAllIsRun(chunks + [DoneMarker]);
  }

  /** The events of the items before the end marker, closed by the marker. */
  lemma EndedRun(items: seq<Item>)
    requires NoEnd(items)
    ensures var evs := Run(INIT, items + [EndItem]).1;
      && evs == Run(INIT, items).1 + [Done(FinishOf(items), UsageOf(items))]
      && !HasDone(Run(INIT, items).1) && Assemble(evs) == Meaning(items)
  {
    hide Run, TextOf, CallsOf, FragmentsOf, FinishOf, UsageOf, Assemble, StartsFirst;
    ParserUnderstands(items);
    ParserStartsFirst(items);
    RunSnoc(INIT, items, EndItem);
    AssembleSnoc(Run(INIT, items).1, Done(FinishOf(items), UsageOf(items)));
  }

  lemma NeverRejected(id: string, model: string, items: seq<Item>, last: StreamEvent)
    requires NoEnd(items) && last.Done?
    ensures var evs := Run(INIT, items).1 + [last];
      forall k :: 0 <= k < |evs| ==> !W.Rejects(W.AfterAll(W.Start(id, model), evs[..k]), evs[k])
  {
    var body := Run(INIT, items).1;
    var evs := body + [last];
    ParserStartsFirst(items);
    forall k | 0 <= k < |evs|
      ensures !W.Rejects(W.AfterAll(W.Start(id, model), evs[..k]), evs[k])
    {
      R.NothingRejected(id, model, evs, k);
      assert evs[..k] == body[..k];
      if evs[k].ToolCallDelta? {
        var start :| start in body[..k] && start.ToolCallStart? && start.index == evs[k].index;
        var j :| 0 <= j < k && body[..k][j] == start;
        assert evs[j] == start;
      }
    }
  }

  /**
   For every list of decodable OpenAI chunks closed by the end marker, the Anthropic client reads back the
   text, the tool calls, the canonical finish reason and the usage that the chunks carry, and the writer's
   error for arguments before their start never occurs.
   */
  lemma ItemsToAnthropic(id: string, model: string, chunks: seq<Data>)
    requires Readable(chunks) && DoneMarker !in chunks
    ensures var evs := O.ReadAll(chunks + [DoneMarker]).events;
      var w := W.AfterAll(W.Start(id, model), evs);
      var read := R.ReadFrames(w.out);
      && w.done && !read.failed
      && SameMeaning(Meaning(ItemsOf(chunks)), Assemble(read.events))
      && (forall k :: 0 <= k < |evs| ==> !W.Rejects(W.AfterAll(W.Start(id, model), evs[..k]), evs[k]))
  {
    var items := ItemsOf(chunks);
    var last := Done(FinishOf(items), UsageOf(items));
    ChunkRun(chunks);
    EndedRun(items);
    var evs := Run(INIT, items).1 + [last];
    R.WrittenReads(id, model, evs);
    TranslationMatches(evs);
    O.CutSnoc(Run(INIT, items).1, last);
    NeverRejected(id, model, items, last);
  }
}
