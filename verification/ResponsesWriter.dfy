/**
 The client-facing OpenAI Responses stream writer: its items, its text buffer and its closing snapshot.
 The snapshot agrees with the stream that precedes it, and the client reads the same transcript.
 */
module ResponsesWriter {
  import opened Wrappers
  import opened Text
  import opened Ir

  // ---------- Frames ----------

  datatype Item =
    | MessageItem(id: string, text: string)
    | CallItem(id: string, callId: string, name: string, arguments: string)

  datatype Frame =
    | ItemAdded(outputIndex: int, item: Item)
    | TextPiece(itemId: string, outputIndex: int, delta: string)
    | ArgumentsPiece(itemId: string, outputIndex: int, delta: string)
    | Completed(output: seq<Item>, usage: Usage)
    | ErrorFrame(message: string)

  // ---------- The writer ----------

  /** `msgItemId` is empty until the first text delta; `out` is everything written so far. */
  datatype Writer = Writer(
    out: seq<Frame>, itemSeq: nat, msgItemId: string, callItemIds: map<int, string>,
    textBuf: string, output: seq<Item>, done: bool)

  const START := Writer([], 0, "", map[], "", [], false)

  function MessageId(n: nat): string {
    "msg_" + Decimal(n)
  }

  function CallItemId(n: nat): string {
    "fc_" + Decimal(n)
  }

  function CallId(id: string, n: nat): string {
    if id == "" then "call_" + Decimal(n) else id
  }

  function Emit(w: Writer, f: Frame): Writer {
    w.(out := w.out + [f])
  }

  function OpenMessage(w: Writer): Writer {
    if w.msgItemId != "" then w else
    var n := w.itemSeq + 1;
    Emit(w.(itemSeq := n, msgItemId := MessageId(n)), ItemAdded(n - 1, MessageItem(MessageId(n), "")))
  }

  function WriteText(w: Writer, d: string): Writer {
    var m := OpenMessage(w);
    Emit(m.(textBuf := m.textBuf + d), TextPiece(m.msgItemId, m.itemSeq - 1, d))
  }

  function StartCall(w: Writer, index: int, id: string, name: string): Writer {
    var n := w.itemSeq + 1;
    var item := CallItem(CallItemId(n), CallId(id, n), name, "");
    Emit(w.(itemSeq := n, callItemIds := w.callItemIds[index := CallItemId(n)], output := w.output + [item]),
         ItemAdded(n - 1, item))
  }

  function WriteArguments(w: Writer, index: int, args: string): Writer {
    if index in w.callItemIds then Emit(w, ArgumentsPiece(w.callItemIds[index], 0, args)) else w
  }

  function Snapshot(w: Writer): seq<Item> {
    (if w.msgItemId != "" then [MessageItem(w.msgItemId, w.textBuf)] else []) + w.output
  }

  function Conclude(w: Writer, usage: Option<Usage>): Writer {
    var u := if usage.Some? then usage.value else Usage(0, 0, 0);
    Emit(w.(output := Snapshot(w)), Completed(Snapshot(w), u)).(done := true)
  }

  function AfterEvent(w: Writer, ev: StreamEvent): Writer {
    if w.done then w else
    match ev
    case TextDelta(d) => WriteText(w, d)
    case ToolCallStart(i, id, name) => StartCall(w, i, id, name)
    case ToolCallDelta(i, args) => WriteArguments(w, i, args)
    case ToolCallStop(_) => w
    case Done(_, usage) => Conclude(w, usage)
  }

  /** The one error WriteEvent returns: arguments for a tool call that was never started. */
  predicate Rejects(w: Writer, ev: StreamEvent) {
    !w.done && ev.ToolCallDelta? && ev.index !in w.callItemIds
  }

  function AfterError(w: Writer, msg: string): Writer {
    if w.done then w else Emit(w, ErrorFrame(msg)).(done := true)
  }

  function AfterFinish(w: Writer): Writer {
    if w.done then w else Conclude(w, None)
  }

  function AfterAll(w: Writer, evs: seq<StreamEvent>): Writer {
    if |evs| == 0 then w else AfterEvent(AfterAll(w, evs[..|evs| - 1]), evs[|evs| - 1])
  }

  // ---------- What the frames say ----------

  /**
   A client's reading of a stream: the ids announced by output_item.added in order, those of messages, the call
   items as announced, the concatenated text of the deltas that name an announced message, and the calls with their
   arguments, which go to the call whose item id they name. `numbers` holds the item number of each call.
   */
  datatype Story = Story(
    announced: seq<string>, messageIds: seq<string>, callItems: seq<Item>, text: string,
    calls: seq<Item>, numbers: seq<int>)

  function Tell(s: Story, f: Frame): Story {
    match f
    case ItemAdded(_, MessageItem(id, _)) => s.(announced := s.announced + [id], messageIds := s.messageIds + [id])
    case ItemAdded(k, CallItem(id, c, n, a)) =>
      s.(announced := s.announced + [id], callItems := s.callItems + [CallItem(id, c, n, a)],
         calls := s.calls + [CallItem(id, c, n, a)], numbers := s.numbers + [k + 1])
    case TextPiece(id, _, d) => if id in s.messageIds then s.(text := s.text + d) else s
    case ArgumentsPiece(id, _, d) => s.(calls := AppendTo(s.calls, id, d))
    case Completed(_, _) => s
    case ErrorFrame(_) => s
  }

  function Told(fs: seq<Frame>): Story {
    if |fs| == 0 then Story([], [], [], "", [], []) else Tell(Told(fs[..|fs| - 1]), fs[|fs| - 1])
  }

  function AppendTo(calls: seq<Item>, id: string, d: string): (r: seq<Item>)
    ensures |r| == |calls|
    ensures forall k :: 0 <= k < |calls| ==>
      r[k] == if calls[k].CallItem? && calls[k].id == id then calls[k].(arguments := calls[k].arguments + d)
          else calls[k]
  {
    if |calls| == 0 then [] else
    [if calls[0].CallItem? && calls[0].id == id then calls[0].(arguments := calls[0].arguments + d) else calls[0]]
      + AppendTo(calls[1..], id, d)
  }

  function Ids(items: seq<Item>): (r: seq<string>)
    ensures |r| == |items|
  {
    seq(|items|, k requires 0 <= k < |items| => items[k].id)
  }

  predicate Terminal(f: Frame) {
    f.Completed? || f.ErrorFrame?
  }

  ghost predicate Running(fs: seq<Frame>) {
    forall k :: 0 <= k < |fs| ==> !Terminal(fs[k])
  }

  lemma ToldSnoc(fs: seq<Frame>, f: Frame)
    ensures Told(fs + [f]) == Tell(Told(fs), f)
    ensures Running(fs + [f]) <==> Running(fs) && !Terminal(f)
  {
    assert (fs + [f])[..|fs|] == fs;
    assert (fs + [f])[|fs|] == f;
    assert forall k :: 0 <= k < |fs| ==> (fs + [f])[k] == fs[k];
  }

  // ---------- The writer's fields agree with its frames ----------

  /** Item k + 1 is announced as message or call number k + 1. */
  predicate Numbered(ids: seq<string>) {
    forall k :: 0 <= k < |ids| ==> ids[k] == "msg_" + Decimal(k + 1) || ids[k] == "fc_" + Decimal(k + 1)
  }

  /** The announced ids are those of the messages and those of the calls. */
  ghost predicate Partition(s: Story) {
    multiset(s.announced) == multiset(s.messageIds) + multiset(Ids(s.callItems))
  }

  ghost predicate Inv(w: Writer) {
    var s := Told(w.out);
    && Running(w.out) && !w.done
    && |s.announced| == w.itemSeq && Numbered(s.announced) && Partition(s)
    && s.messageIds == (if w.msgItemId == "" then [] else [w.msgItemId])
    && s.callItems == w.output
    && s.text == w.textBuf
    && (w.msgItemId == "" ==> w.textBuf == "")
  }

  lemma IdsDiffer(j: nat, k: nat)
    requires j != k
    ensures MessageId(j) != MessageId(k) && CallItemId(j) != CallItemId(k)
    ensures MessageId(j) != CallItemId(k)
  {
    assert MessageId(j)[4..] == Decimal(j) && MessageId(k)[4..] == Decimal(k);
    assert CallItemId(j)[3..] == Decimal(j) && CallItemId(k)[3..] == Decimal(k);
    if Decimal(j) == Decimal(k) {
      DecimalInjective(j, k);
    }
    assert MessageId(j)[0] == 'm' && CallItemId(k)[0] == 'f';
  }

  lemma NumberedDistinct(ids: seq<string>)
    requires Numbered(ids)
    ensures forall j, k :: 0 <= j < k < |ids| ==> ids[j] != ids[k]
  {
    forall j, k | 0 <= j < k < |ids|
      ensures ids[j] != ids[k]
    {
      IdsDiffer(j + 1, k + 1);
      IdsDiffer(k + 1, j + 1);
    }
  }

  lemma IdsSnoc(items: seq<Item>, item: Item)
    ensures Ids(items + [item]) == Ids(items) + [item.id]
    ensures Ids([item] + items) == [item.id] + Ids(items)
  {
  }

  lemma NumberedSnoc(ids: seq<string>, id: string)
    requires Numbered(ids) && (id == MessageId(|ids| + 1) || id == CallItemId(|ids| + 1))
    ensures Numbered(ids + [id])
  {
  }

  lemma PartitionTell(s: Story, item: Item, k: int)
    requires Partition(s)
    ensures Partition(Tell(s, ItemAdded(k, item)))
  {
    IdsSnoc(s.callItems, item);
    assert multiset(s.announced + [item.id]) == multiset(s.announced) + multiset{item.id};
  }

  /** One more item, announced under the next number. */
  lemma AnnounceStory(s: Story, item: Item, k: int)
    requires Numbered(s.announced) && Partition(s)
    requires item.id == if item.MessageItem? then MessageId(|s.announced| + 1) else CallItemId(|s.announced| + 1)
    ensures var t := Tell(s, ItemAdded(k, item));
      Numbered(t.announced) && Partition(t) && |t.announced| == |s.announced| + 1
  {
    NumberedSnoc(s.announced, item.id);
    PartitionTell(s, item, k);
  }

  lemma OpenMessageInv(w: Writer)
    requires Inv(w)
    ensures Inv(OpenMessage(w)) && OpenMessage(w).msgItemId != ""
  {
    if w.msgItemId == "" {
      var item := MessageItem(MessageId(w.itemSeq + 1), "");
      ToldSnoc(w.out, ItemAdded(w.itemSeq, item));
      AnnounceStory(Told(w.out), item, w.itemSeq);
    }
  }

  lemma WriteTextInv(w: Writer, d: string)
    requires Inv(w)
    ensures Inv(WriteText(w, d))
  {
    OpenMessageInv(w);
    var m := OpenMessage(w);
    ToldSnoc(m.out, TextPiece(m.msgItemId, m.itemSeq - 1, d));
  }

  lemma StartCallInv(w: Writer, index: int, id: string, name: string)
    requires Inv(w)
    ensures Inv(StartCall(w, index, id, name))
  {
    var n := w.itemSeq + 1;
    var item := CallItem(CallItemId(n), CallId(id, n), name, "");
    ToldSnoc(w.out, ItemAdded(w.itemSeq, item));
    AnnounceStory(Told(w.out), item, w.itemSeq);
  }

  lemma WriteArgumentsInv(w: Writer, index: int, args: string)
    requires Inv(w)
    ensures Inv(WriteArguments(w, index, args))
  {
    if index in w.callItemIds {
      ToldSnoc(w.out, ArgumentsPiece(w.callItemIds[index], 0, args));
    }
  }

  lemma EventInv(w: Writer, ev: StreamEvent)
    requires Inv(w) && !ev.Done?
    ensures Inv(AfterEvent(w, ev))
  {
    match ev
    case TextDelta(d) => WriteTextInv(w, d);
    case ToolCallStart(i, id, name) => StartCallInv(w, i, id, name);
    case ToolCallDelta(i, args) => WriteArgumentsInv(w, i, args);
    case ToolCallStop(_) =>
  }

  lemma HasDoneSnoc(evs: seq<StreamEvent>, ev: StreamEvent)
    ensures HasDone(evs + [ev]) <==> HasDone(evs) || ev.Done?
  {
    assert (evs + [ev])[|evs|] == ev;
    assert forall k :: 0 <= k < |evs| ==> (evs + [ev])[k] == evs[k];
  }

  lemma {:induction false} RunInv(evs: seq<StreamEvent>)
    requires !HasDone(evs)
    ensures Inv(AfterAll(START, evs))
  {
    if |evs| == 0 {
    } else {
      var init, ev := evs[..|evs| - 1], evs[|evs| - 1];
      assert evs == init + [ev];
      HasDoneSnoc(init, ev);
      RunInv(init);
      EventInv(AfterAll(START, init), ev);
    }
  }

  /** A closing snapshot repeats exactly what the stream before it announced and said. */
  ghost predicate Agrees(fs: seq<Frame>, output: seq<Item>) {
    var s := Told(fs);
    && (forall j, k :: 0 <= j < k < |s.announced| ==> s.announced[j] != s.announced[k])
    && multiset(Ids(output)) == multiset(s.announced)
    && (if s.messageIds == [] then s.text == "" && output == s.callItems
        else output == [MessageItem(s.messageIds[0], s.text)] + s.callItems)
  }

  lemma SnapshotAgrees(w: Writer)
    requires Inv(w)
    ensures Agrees(w.out, Snapshot(w))
  {
    NumberedDistinct(Told(w.out).announced);
    if w.msgItemId != "" {
      IdsSnoc(w.output, MessageItem(w.msgItemId, w.textBuf));
      assert multiset([w.msgItemId] + Ids(w.output)) == multiset([w.msgItemId]) + multiset(Ids(w.output));
    } else {
      assert Snapshot(w) == w.output;
    }
  }

  /** A stream with exactly one terminal frame, a snapshot in last place that agrees with everything before it. */
  ghost predicate EndsInSnapshot(fs: seq<Frame>) {
    && fs != [] && fs[|fs| - 1].Completed? && Running(fs[..|fs| - 1])
    && Agrees(fs[..|fs| - 1], fs[|fs| - 1].output)
  }

  lemma ConclusionAgrees(w: Writer, usage: Option<Usage>)
    requires Inv(w)
    ensures var c := Conclude(w, usage); c.done && EndsInSnapshot(c.out)
  {
    SnapshotAgrees(w);
    var c := Conclude(w, usage);
    assert c.out[..|c.out| - 1] == w.out;
  }

  lemma DoneStep(w: Writer, ev: StreamEvent)
    requires Inv(w) && ev.Done?
    ensures AfterEvent(w, ev).done && EndsInSnapshot(AfterEvent(w, ev).out)
  {
    ConclusionAgrees(w, ev.usage);
    assert !w.done;
    hide Inv, EndsInSnapshot, Conclude;
  }

  lemma {:induction false} DoneEndsInSnapshot(evs: seq<StreamEvent>)
    requires HasDone(evs)
    ensures AfterAll(START, evs).done && EndsInSnapshot(AfterAll(START, evs).out)
  {
    hide EndsInSnapshot, Inv, Conclude;
    var init, ev := evs[..|evs| - 1], evs[|evs| - 1];
    assert evs == init + [ev];
    HasDoneSnoc(init, ev);
    if HasDone(init) {
      DoneEndsInSnapshot(init);
      assert AfterAll(START, evs) == AfterAll(START, init);
    } else {
      RunInv(init);
      DoneStep(AfterAll(START, init), ev);
    }
  }

  /** Every event list followed by Finish ends in its snapshot. */
  lemma StreamEndsInSnapshot(evs: seq<StreamEvent>)
    ensures EndsInSnapshot(AfterFinish(AfterAll(START, evs)).out)
  {
    if HasDone(evs) {
      DoneEndsInSnapshot(evs);
    } else {
      RunInv(evs);
      ConclusionAgrees(AfterAll(START, evs), None);
    }
  }

  // ---------- The client's transcript ----------

  /** A call of the IR and the item a Responses client holds for it. */
  predicate SameCall(c: Call, item: Item, n: int) {
    n >= 0 && item == CallItem("fc_" + Decimal(n), if c.id == "" then "call_" + Decimal(n) else c.id, c.name,
        c.arguments)
  }

  /** Calls match one to one, and each known index names the item of its latest start. */
  ghost predicate Mirrors(t: Transcript, s: Story, itemIds: map<int, string>, itemSeq: nat) {
    && s.text == t.text && t.end.None?
    && Paired(t.calls, s.calls, s.numbers, itemSeq)
    && (forall j, k :: 0 <= j < k < |s.numbers| ==> s.numbers[j] < s.numbers[k])
    && Names(t.calls, s.calls, itemIds)
  }

  ghost predicate WriterMirrors(t: Transcript, w: Writer) {
    Mirrors(t, Told(w.out), w.callItemIds, w.itemSeq)
  }

  lemma TextMirrors(t: Transcript, w: Writer, d: string)
    requires WriterMirrors(t, w) && Inv(w)
    ensures WriterMirrors(Extend(t, TextDelta(d)), WriteText(w, d))
  {
    var m := OpenMessage(w);
    if w.msgItemId == "" {
      ToldSnoc(w.out, ItemAdded(w.itemSeq, MessageItem(MessageId(w.itemSeq + 1), "")));
    }
    ToldSnoc(m.out, TextPiece(m.msgItemId, m.itemSeq - 1, d));
  }

  lemma LatestSnocs(calls: seq<Call>, c: Call)
    ensures forall i :: Latest(calls + [c], i) == if c.index == i then |calls| else Latest(calls, i)
  {
    forall i: int
      ensures Latest(calls + [c], i) == if c.index == i then |calls| else Latest(calls, i)
    {
      LatestSnoc(calls, c, i);
    }
  }

  lemma AddCallMirrors(t: Transcript, s: Story, itemIds: map<int, string>, itemSeq: nat, c: Call, item: Item)
    requires Mirrors(t, s, itemIds, itemSeq) && SameCall(c, item, itemSeq + 1)
    ensures Mirrors(t.(calls := t.calls + [c]), Tell(s, ItemAdded(itemSeq, item)), itemIds[c.index := item.id],
      itemSeq + 1)
  {
    hide SameCall, Paired, Names;
    var n := itemSeq + 1;
    PairedMore(t.calls, s.calls, s.numbers, itemSeq, c, item);
    NamesMore(t.calls, s.calls, itemIds, c, item);
    NumbersRise(t.calls, s.calls, s.numbers, itemSeq);
    assert item.CallItem? by {
      CallIsItem(c, item, n);
    }
  }

  lemma CallIsItem(c: Call, item: Item, n: int)
    requires SameCall(c, item, n)
    ensures item.CallItem?
  {
  }

  lemma PairedMore(calls: seq<Call>, items: seq<Item>, numbers: seq<int>, itemSeq: nat, c: Call, item: Item)
    requires Paired(calls, items, numbers, itemSeq) && SameCall(c, item, itemSeq + 1)
    ensures Paired(calls + [c], items + [item], numbers + [itemSeq + 1], itemSeq + 1)
  {
    hide SameCall;
  }

  lemma NumbersRise(calls: seq<Call>, items: seq<Item>, numbers: seq<int>, itemSeq: nat)
    requires Paired(calls, items, numbers, itemSeq)
    ensures |numbers| == |calls| == |items| && forall k :: 0 <= k < |numbers| ==> numbers[k] < itemSeq + 1
  {
    hide SameCall;
  }

  lemma NamesMore(calls: seq<Call>, items: seq<Item>, itemIds: map<int, string>, c: Call, item: Item)
    requires Names(calls, items, itemIds)
    ensures Names(calls + [c], items + [item], itemIds[c.index := item.id])
  {
    hide Latest;
    LatestSnocs(calls, c);
    LatestBounds(calls);
  }

  lemma LatestBounds(calls: seq<Call>)
    ensures forall i :: -1 <= Latest(calls, i) < |calls|
  {
  }

  lemma StartMirrors(t: Transcript, w: Writer, i: int, id: string, name: string)
    requires WriterMirrors(t, w)
    ensures WriterMirrors(Extend(t, ToolCallStart(i, id, name)), StartCall(w, i, id, name))
  {
    var n := w.itemSeq + 1;
    var item := CallItem(CallItemId(n), CallId(id, n), name, "");
    ToldSnoc(w.out, ItemAdded(w.itemSeq, item));
    AddCallMirrors(t, Told(w.out), w.callItemIds, w.itemSeq, Call(i, id, name, ""), item);
  }

  ghost predicate Paired(calls: seq<Call>, items: seq<Item>, numbers: seq<int>, itemSeq: nat) {
    && |items| == |calls| == |numbers|
    && forall k :: 0 <= k < |calls| ==> SameCall(calls[k], items[k], numbers[k]) && numbers[k] <= itemSeq
  }

  lemma PairedUpdate(calls: seq<Call>, items: seq<Item>, numbers: seq<int>, itemSeq: nat, k: nat, args: string)
    requires Paired(calls, items, numbers, itemSeq) && k < |calls|
    ensures Paired(calls[k := calls[k].(arguments := calls[k].arguments + args)],
                   items[k := items[k].(arguments := items[k].arguments + args)], numbers, itemSeq)
  {
  }

  /** Each known index names the item of its latest start. */
  ghost predicate Names(calls: seq<Call>, items: seq<Item>, itemIds: map<int, string>) {
    && |items| == |calls|
    && (forall i :: i in itemIds <==> Latest(calls, i) >= 0)
    && (forall i :: i in itemIds ==> itemIds[i] == items[Latest(calls, i)].id)
  }

  lemma NamesUpdate(calls: seq<Call>, items: seq<Item>, itemIds: map<int, string>, k: nat, c: Call, item: Item)
    requires Names(calls, items, itemIds) && k < |calls| && c.index == calls[k].index && item.id == items[k].id
    ensures Names(calls[k := c], items[k := item], itemIds)
  {
    LatestUpdates(calls, k, c);
  }

  /** Item ids are distinct, so arguments reach exactly the call they name. */
  lemma ArgumentsReachOne(s: Story, calls: seq<Call>, itemSeq: nat, k: nat, args: string)
    requires Paired(calls, s.calls, s.numbers, itemSeq) && k < |calls|
    requires forall i, j :: 0 <= i < j < |s.numbers| ==> s.numbers[i] < s.numbers[j]
    ensures Tell(s, ArgumentsPiece(s.calls[k].id, 0, args)) ==
      s.(calls := s.calls[k := s.calls[k].(arguments := s.calls[k].arguments + args)])
  {
    forall j | 0 <= j < |s.calls| && j != k
      ensures s.calls[j].id != s.calls[k].id
    {
      IdsDiffer(s.numbers[j], s.numbers[k]);
    }
  }

  lemma KnownCall(calls: seq<Call>, items: seq<Item>, itemIds: map<int, string>, i: int)
    requires Names(calls, items, itemIds) && i in itemIds
    ensures 0 <= Latest(calls, i) < |items| == |calls| && itemIds[i] == items[Latest(calls, i)].id
  {
  }

  lemma PairedIsCall(calls: seq<Call>, items: seq<Item>, numbers: seq<int>, itemSeq: nat, k: nat)
    requires Paired(calls, items, numbers, itemSeq) && k < |calls|
    ensures k < |items| && items[k].CallItem?
  {
  }

  lemma MoreArgumentsMirror(t: Transcript, s: Story, itemIds: map<int, string>, itemSeq: nat, i: int, args: string)
    requires Mirrors(t, s, itemIds, itemSeq) && i in itemIds
    ensures Mirrors(Extend(t, ToolCallDelta(i, args)), Tell(s, ArgumentsPiece(itemIds[i], 0, args)), itemIds, itemSeq)
  {
    hide Paired, Names, SameCall, Tell;
    KnownCall(t.calls, s.calls, itemIds, i);
    var k := Latest(t.calls, i);
    PairedIsCall(t.calls, s.calls, s.numbers, itemSeq, k);
    var c := t.calls[k].(arguments := t.calls[k].arguments + args);
    var item := s.calls[k].(arguments := s.calls[k].arguments + args);
    ArgumentsReachOne(s, t.calls, itemSeq, k, args);
    PairedUpdate(t.calls, s.calls, s.numbers, itemSeq, k, args);
    NamesUpdate(t.calls, s.calls, itemIds, k, c, item);
  }

  lemma ArgumentsMirror(t: Transcript, w: Writer, i: int, args: string)
    requires WriterMirrors(t, w)
    ensures WriterMirrors(Extend(t, ToolCallDelta(i, args)), WriteArguments(w, i, args))
  {
    if i in w.callItemIds {
      ToldSnoc(w.out, ArgumentsPiece(w.callItemIds[i], 0, args));
      MoreArgumentsMirror(t, Told(w.out), w.callItemIds, w.itemSeq, i, args);
    }
  }

  /** A client that reads the stream up to its end has the transcript of the events, item by item. */
  lemma {:induction false} ClientTranscript(evs: seq<StreamEvent>)
    requires !HasDone(evs)
    ensures WriterMirrors(Assemble(evs), AfterAll(START, evs))
  {
    if |evs| == 0 {
    } else {
      var init, ev := evs[..|evs| - 1], evs[|evs| - 1];
      assert evs == init + [ev];
      HasDoneSnoc(init, ev);
      RunInv(init);
      ClientTranscript(init);
      AssembleSnoc(init, ev);
      EventMirrors(Assemble(init), AfterAll(START, init), ev);
    }
  }

  lemma EventMirrors(t: Transcript, w: Writer, ev: StreamEvent)
    requires WriterMirrors(t, w) && Inv(w) && !ev.Done?
    ensures WriterMirrors(Extend(t, ev), AfterEvent(w, ev))
  {
    match ev
    case TextDelta(d) => TextMirrors(t, w, d);
    case ToolCallStart(i, id, name) => StartMirrors(t, w, i, id, name);
    case ToolCallDelta(i, args) => ArgumentsMirror(t, w, i, args);
    case ToolCallStop(_) =>
  }

  // ---------- The closed stream ----------

  ghost predicate SaidIn(t: Transcript, s: Story) {
    exists itemIds, itemSeq :: Mirrors(t, s, itemIds, itemSeq)
  }

  /** What a client has read of a closed stream: text, calls item by item, and the usage of the done. */
  ghost predicate ReadsAs(fs: seq<Frame>, t: Transcript) {
    && EndsInSnapshot(fs) && t.end.Some? && t.end.value.Done?
    && fs[|fs| - 1].usage == (if t.end.value.usage.Some? then t.end.value.usage.value else Usage(0, 0, 0))
    && SaidIn(t.(end := None), Told(fs[..|fs| - 1]))
  }

  lemma ConclusionReads(w: Writer, t: Transcript, reason: string, usage: Option<Usage>)
    requires Inv(w) && WriterMirrors(t, w)
    ensures ReadsAs(Conclude(w, usage).out, t.(end := Some(Done(reason, usage))))
  {
    ConclusionAgrees(w, usage);
    var fs := Conclude(w, usage).out;
    assert fs[..|fs| - 1] == w.out;
    hide Inv, EndsInSnapshot, Told;
    assert t.(end := None) == t;
    assert Mirrors(t, Told(w.out), w.callItemIds, w.itemSeq);
  }

  lemma {:induction false} DoneReads(evs: seq<StreamEvent>)
    requires HasDone(evs)
    ensures AfterAll(START, evs).done && ReadsAs(AfterAll(START, evs).out, Assemble(evs)) && Assemble(evs).end.Some?
  {
    hide ReadsAs, Conclude, WriterMirrors, Inv;
    var init, ev := evs[..|evs| - 1], evs[|evs| - 1];
    assert evs == init + [ev];
    HasDoneSnoc(init, ev);
    AssembleSnoc(init, ev);
    if HasDone(init) {
      DoneReads(init);
      assert AfterAll(START, evs) == AfterAll(START, init);
    } else {
      RunInv(init);
      ClientTranscript(init);
      NotEnded(init);
      DoneStep(AfterAll(START, init), ev);
      NotDone(AfterAll(START, init));
      ConclusionReads(AfterAll(START, init), Assemble(init), ev.finishReason, ev.usage);
    }
  }

  lemma NotDone(w: Writer)
    requires Inv(w)
    ensures !w.done
  {
  }

  lemma StepKeys(w: Writer, ev: StreamEvent)
    requires !w.done
    ensures AfterEvent(w, ev).callItemIds.Keys ==
      if ev.ToolCallStart? then w.callItemIds.Keys + {ev.index} else w.callItemIds.Keys
  {
  }

  lemma {:induction false} KnownCalls(evs: seq<StreamEvent>, i: int)
    requires !HasDone(evs)
    ensures i in AfterAll(START, evs).callItemIds <==>
      exists j :: 0 <= j < |evs| && evs[j].ToolCallStart? && evs[j].index == i
  {
    hide AfterEvent;
    if |evs| == 0 {
    } else {
      var init, ev := evs[..|evs| - 1], evs[|evs| - 1];
      assert evs == init + [ev];
      HasDoneSnoc(init, ev);
      KnownCalls(init, i);
      RunInv(init);
      NotDone(AfterAll(START, init));
      StepKeys(AfterAll(START, init), ev);
      if ev.ToolCallStart? && ev.index == i {
        assert evs[|init|] == ev;
      }
      if exists j :: 0 <= j < |init| && init[j].ToolCallStart? && init[j].index == i {
        var j :| 0 <= j < |init| && init[j].ToolCallStart? && init[j].index == i;
        assert evs[j] == init[j];
      }
    }
  }

  /** The writer returns an error exactly for arguments of a tool call that was not started, on a stream not done. */
  lemma RejectedExactly(evs: seq<StreamEvent>, k: nat)
    requires k < |evs|
    ensures Rejects(AfterAll(START, evs[..k]), evs[k]) <==>
      && evs[k].ToolCallDelta? && (forall j :: 0 <= j < k ==> !evs[j].Done?)
      && forall j :: 0 <= j < k ==> !(evs[j].ToolCallStart? && evs[j].index == evs[k].index)
  {
    hide AfterAll, ReadsAs, Inv;
    var before := evs[..k];
    assert forall j :: 0 <= j < k ==> before[j] == evs[j];
    if HasDone(before) {
      DoneReads(before);
    } else if evs[k].ToolCallDelta? {
      RunInv(before);
      NotDone(AfterAll(START, before));
      KnownCalls(before, evs[k].index);
    }
  }

  /** A client reads from every finished stream what its events say, closed by an empty done if they have none. */
  lemma FinishedReads(evs: seq<StreamEvent>)
    ensures ReadsAs(AfterFinish(AfterAll(START, evs)).out, Assemble(Complete(evs)))
  {
    hide ReadsAs, Conclude, WriterMirrors, Inv;
    if HasDone(evs) {
      DoneReads(evs);
      CutReads(evs);
    } else {
      RunInv(evs);
      ClientTranscript(evs);
      NotEnded(evs);
      NotDone(AfterAll(START, evs));
      ConclusionReads(AfterAll(START, evs), Assemble(evs), "", None);
      AssembleSnoc(evs, Done("", None));
    }
  }

  /** Events after the first done say nothing. */
  lemma {:induction false} CutReads(evs: seq<StreamEvent>)
    requires HasDone(evs)
    ensures Assemble(Cut(evs)) == Assemble(evs) && Assemble(evs).end.Some?
  {
    var init, ev := evs[..|evs| - 1], evs[|evs| - 1];
    assert evs == init + [ev];
    HasDoneSnoc(init, ev);
    AssembleSnoc(init, ev);
    if HasDone(init) {
      CutReads(init);
    } else {
      NotEnded(init);
    }
  }

  // ---------- Arguments in the snapshot ----------

  /** The call items as announced: those of the client with their arguments taken off. */
  ghost predicate Bare(s: Story) {
    && |s.callItems| == |s.calls|
    && forall k :: 0 <= k < |s.calls| ==>
         s.calls[k].CallItem? && s.callItems[k] == s.calls[k].(arguments := "")
  }

  lemma BareTell(s: Story, f: Frame)
    requires Bare(s) && (f.ItemAdded? && f.item.CallItem? ==> f.item.arguments == "")
    ensures Bare(Tell(s, f))
  {
  }

  lemma BareStep(w: Writer, ev: StreamEvent)
    requires Bare(Told(w.out)) && !w.done
    ensures Bare(Told(AfterEvent(w, ev).out))
  {
    hide Told, Bare, Tell;
    match ev
    case TextDelta(d) =>
      var m := OpenMessage(w);
      var added := ItemAdded(w.itemSeq, MessageItem(MessageId(w.itemSeq + 1), ""));
      var piece := TextPiece(m.msgItemId, m.itemSeq - 1, d);
      ToldSnoc(w.out, added);
      BareTell(Told(w.out), added);
      ToldSnoc(m.out, piece);
      BareTell(Told(m.out), piece);
    case ToolCallStart(i, id, name) =>
      var n := w.itemSeq + 1;
      var added := ItemAdded(w.itemSeq, CallItem(CallItemId(n), CallId(id, n), name, ""));
      ToldSnoc(w.out, added);
      BareTell(Told(w.out), added);
    case ToolCallDelta(i, args) =>
      if i in w.callItemIds {
        var piece := ArgumentsPiece(w.callItemIds[i], 0, args);
        ToldSnoc(w.out, piece);
        BareTell(Told(w.out), piece);
      }
    case ToolCallStop(_) =>
    case Done(_, usage) =>
      var f := Completed(Snapshot(w), if usage.Some? then usage.value else Usage(0, 0, 0));
      ToldSnoc(w.out, f);
      BareTell(Told(w.out), f);
  }

  lemma {:induction false} RunBare(evs: seq<StreamEvent>)
    ensures Bare(Told(AfterAll(START, evs).out))
  {
    if |evs| == 0 {
    } else {
      RunBare(evs[..|evs| - 1]);
      if !AfterAll(START, evs[..|evs| - 1]).done {
        BareStep(AfterAll(START, evs[..|evs| - 1]), evs[|evs| - 1]);
      }
    }
  }

  /** The call items of a snapshot: all of its items but the message in front. */
  function SnapshotCalls(output: seq<Item>): seq<Item> {
    if output != [] && output[0].MessageItem? then output[1..] else output
  }

  ghost predicate NoArguments(calls: seq<Call>) {
    forall k :: 0 <= k < |calls| ==> calls[k].arguments == ""
  }

  /** What a snapshot says of the calls that were streamed before it. */
  ghost predicate SnapshotArguments(fs: seq<Frame>, calls: seq<Call>) {
    && EndsInSnapshot(fs)
    && var snapshot := SnapshotCalls(fs[|fs| - 1].output);
    && (forall k :: 0 <= k < |snapshot| ==> snapshot[k].CallItem? && snapshot[k].arguments == "")
    && (snapshot == Told(fs[..|fs| - 1]).calls <==> NoArguments(calls))
  }

  lemma ConclusionArguments(w: Writer, usage: Option<Usage>, t: Transcript)
    requires Inv(w) && Bare(Told(w.out)) && WriterMirrors(t, w)
    ensures SnapshotArguments(Conclude(w, usage).out, t.calls)
  {
    hide Inv, EndsInSnapshot, Told, Conclude, Snapshot, SnapshotCalls, Bare, Mirrors, NoArguments;
    ConclusionAgrees(w, usage);
    ConclusionFrames(w, usage);
    CallsInSnapshot(w);
    NothingInBare(Told(w.out));
    SameArguments(t, Told(w.out), w.callItemIds, w.itemSeq);
  }

  lemma ConclusionFrames(w: Writer, usage: Option<Usage>)
    ensures var fs := Conclude(w, usage).out;
      fs != [] && fs[..|fs| - 1] == w.out && fs[|fs| - 1].Completed? && fs[|fs| - 1].output == Snapshot(w)
  {
  }

  lemma NothingInBare(s: Story)
    requires Bare(s)
    ensures forall k :: 0 <= k < |s.callItems| ==> s.callItems[k].CallItem? && s.callItems[k].arguments == ""
  {
  }

  lemma CallsInSnapshot(w: Writer)
    requires Inv(w) && Bare(Told(w.out))
    ensures SnapshotCalls(Snapshot(w)) == Told(w.out).callItems
  {
    hide Told;
    if w.msgItemId != "" {
      assert ([MessageItem(w.msgItemId, w.textBuf)] + w.output)[1..] == w.output;
    } else {
      assert [] + w.output == w.output;
    }
  }

  lemma SameArguments(t: Transcript, s: Story, itemIds: map<int, string>, itemSeq: nat)
    requires Bare(s) && Mirrors(t, s, itemIds, itemSeq)
    ensures s.callItems == s.calls <==> NoArguments(t.calls)
  {
    hide Names, MessageId, CallItemId;
    assert forall k :: 0 <= k < |t.calls| ==> SameCall(t.calls[k], s.calls[k], s.numbers[k]);
    if NoArguments(t.calls) {
      assert forall k :: 0 <= k < |s.calls| ==> s.callItems[k] == s.calls[k];
    }
    if s.callItems == s.calls {
      forall k | 0 <= k < |t.calls|
        ensures t.calls[k].arguments == ""
      {
        assert s.callItems[k] == s.calls[k];
      }
    }
  }

  lemma ConclusionOf(evs: seq<StreamEvent>, usage: Option<Usage>)
    requires !HasDone(evs)
    ensures var w := AfterAll(START, evs);
      !w.done && Conclude(w, usage).done && SnapshotArguments(Conclude(w, usage).out, Assemble(evs).calls)
  {
    RunInv(evs);
    RunBare(evs);
    ClientTranscript(evs);
    ConclusionArguments(AfterAll(START, evs), usage, Assemble(evs));
  }

  lemma {:induction false} DoneArguments(evs: seq<StreamEvent>)
    requires HasDone(evs)
    ensures AfterAll(START, evs).done && SnapshotArguments(AfterAll(START, evs).out, Assemble(evs).calls)
    ensures Assemble(evs).end.Some?
  {
    hide SnapshotArguments, Conclude;
    var init, ev := evs[..|evs| - 1], evs[|evs| - 1];
    assert evs == init + [ev];
    HasDoneSnoc(init, ev);
    AssembleSnoc(init, ev);
    if HasDone(init) {
      DoneArguments(init);
      assert AfterAll(START, evs) == AfterAll(START, init);
    } else {
      ConclusionOf(init, ev.usage);
      NotEnded(init);
    }
  }

  lemma {:induction false} NotEnded(evs: seq<StreamEvent>)
    requires !HasDone(evs)
    ensures Assemble(evs).end.None?
  {
    if |evs| == 0 {
    } else {
      var init, ev := evs[..|evs| - 1], evs[|evs| - 1];
      assert evs == init + [ev];
      HasDoneSnoc(init, ev);
      NotEnded(init);
    }
  }

  /**
   The call items of the closing snapshot never have arguments, so they are the calls that were streamed exactly when
   none of those has arguments either.
   */
  lemma SnapshotLosesArguments(evs: seq<StreamEvent>)
    ensures SnapshotArguments(AfterFinish(AfterAll(START, evs)).out, Assemble(evs).calls)
  {
    hide SnapshotArguments, Conclude;
    if HasDone(evs) {
      DoneArguments(evs);
    } else {
      ConclusionOf(evs, None);
    }
  }

  // ---------- Where output_index points ----------

  predicate OpensItem(ev: StreamEvent) {
    ev.TextDelta? || ev.ToolCallStart?
  }

  predicate Opened(evs: seq<StreamEvent>) {
    exists k :: 0 <= k < |evs| && OpensItem(evs[k])
  }

  predicate TextSeen(evs: seq<StreamEvent>) {
    exists k :: 0 <= k < |evs| && evs[k].TextDelta?
  }

  /** A call was started after some text. */
  predicate CallAfterText(evs: seq<StreamEvent>) {
    |evs| > 0 &&
    var init, ev := evs[..|evs| - 1], evs[|evs| - 1];
    CallAfterText(init) || (ev.ToolCallStart? && TextSeen(init))
  }

  /** The tool index whose latest start was the very first item of the stream, if there is one. */
  function LeadCall(evs: seq<StreamEvent>): Option<int> {
    if |evs| == 0 then None else
    var init, ev := evs[..|evs| - 1], evs[|evs| - 1];
    if !ev.ToolCallStart? then LeadCall(init) else
    if !Opened(init) then Some(ev.index) else
    if LeadCall(init) == Some(ev.index) then None else LeadCall(init)
  }

  lemma SeenSnoc(evs: seq<StreamEvent>, ev: StreamEvent)
    ensures Opened(evs + [ev]) <==> Opened(evs) || OpensItem(ev)
    ensures TextSeen(evs + [ev]) <==> TextSeen(evs) || ev.TextDelta?
    ensures CallAfterText(evs + [ev]) <==> CallAfterText(evs) || (ev.ToolCallStart? && TextSeen(evs))
    ensures LeadCall(evs + [ev]) ==
      if !ev.ToolCallStart? then LeadCall(evs) else
      if !Opened(evs) then Some(ev.index) else
      if LeadCall(evs) == Some(ev.index) then None else LeadCall(evs)
  {
    var all := evs + [ev];
    assert all[..|evs|] == evs && all[|evs|] == ev;
    assert forall k :: 0 <= k < |evs| ==> all[k] == evs[k];
  }

  lemma FirstIds()
    ensures forall n: nat :: CallItemId(n) == CallItemId(1) <==> n == 1
    ensures forall m: nat, n: nat :: MessageId(m) != CallItemId(n)
  {
    forall m: nat, n: nat
      ensures MessageId(m) != CallItemId(n)
    {
      assert MessageId(m)[0] == 'm' && CallItemId(n)[0] == 'f';
    }
    forall n: nat
      ensures CallItemId(n) == CallItemId(1) <==> n == 1
    {
      if n != 1 {
        IdsDiffer(n, 1);
      }
    }
  }

  ghost predicate IsMessageId(id: string) {
    exists n: nat :: id == MessageId(n)
  }

  /** The id of a call item with one of the numbers announced so far. */
  ghost predicate IsCallAt(ids: seq<string>, id: string) {
    exists n: nat :: 1 <= n <= |ids| && id == CallItemId(n)
  }

  /** The message is the last announced item as long as no call has followed it. */
  ghost predicate TextPlaced(evs: seq<StreamEvent>, ids: seq<string>, msg: string) {
    && (msg != "" <==> TextSeen(evs))
    && (msg != "" ==> IsMessageId(msg) && ids != [] && (ids[|ids| - 1] == msg <==> !CallAfterText(evs)))
  }

  /** The first announced item is the call of the lead index. */
  ghost predicate CallsPlaced(evs: seq<StreamEvent>, ids: seq<string>, itemIds: map<int, string>) {
    && (ids != [] <==> Opened(evs))
    && (forall i :: i in itemIds ==> IsCallAt(ids, itemIds[i]) && (itemIds[i] == CallItemId(1) <==>
      LeadCall(evs) == Some(i)))
    && (LeadCall(evs).Some? ==> LeadCall(evs).value in itemIds && ids != [] && ids[0] == CallItemId(1))
  }

  ghost predicate Placed(evs: seq<StreamEvent>, w: Writer) {
    var ids := Told(w.out).announced;
    TextPlaced(evs, ids, w.msgItemId) && CallsPlaced(evs, ids, w.callItemIds)
  }

  lemma {:induction false} NoCallAfter(evs: seq<StreamEvent>)
    ensures CallAfterText(evs) ==> TextSeen(evs)
  {
    if |evs| == 0 {
    } else {
      var init, ev := evs[..|evs| - 1], evs[|evs| - 1];
      assert evs == init + [ev];
      NoCallAfter(init);
      SeenSnoc(init, ev);
    }
  }

  lemma TextStep(evs: seq<StreamEvent>, d: string, ids: seq<string>, msg: string, itemIds: map<int, string>)
    requires TextPlaced(evs, ids, msg) && CallsPlaced(evs, ids, itemIds)
    ensures var id := MessageId(|ids| + 1);
      var more, now := if msg == "" then ids + [id] else ids, if msg == "" then id else msg;
      TextPlaced(evs + [TextDelta(d)], more, now) && CallsPlaced(evs + [TextDelta(d)], more, itemIds)
  {
    SeenSnoc(evs, TextDelta(d));
    NoCallAfter(evs);
    var id := MessageId(|ids| + 1);
    assert IsMessageId(id) && id != "";
    hide LeadCall, CallAfterText, Opened, TextSeen, MessageId, CallItemId, IsMessageId, IsCallAt;
    CallsStayAt(ids, id, itemIds);
  }

  lemma CallsStayAt(ids: seq<string>, id: string, itemIds: map<int, string>)
    ensures forall i :: i in itemIds && IsCallAt(ids, itemIds[i]) ==> IsCallAt(ids + [id], itemIds[i])
  {
    forall i | i in itemIds && IsCallAt(ids, itemIds[i])
      ensures IsCallAt(ids + [id], itemIds[i])
    {
      var n: nat :| 1 <= n <= |ids| && itemIds[i] == CallItemId(n);
    }
  }

  lemma CallStep(
    evs: seq<StreamEvent>, ev: StreamEvent, ids: seq<string>, msg: string, itemIds: map<int, string>)
    requires TextPlaced(evs, ids, msg) && CallsPlaced(evs, ids, itemIds) && ev.ToolCallStart?
    ensures var id := CallItemId(|ids| + 1);
      TextPlaced(evs + [ev], ids + [id], msg) && CallsPlaced(evs + [ev], ids + [id], itemIds[ev.index := id])
  {
    SeenSnoc(evs, ev);
    FirstIds();
    var id := CallItemId(|ids| + 1);
    hide LeadCall, CallAfterText, Opened, TextSeen, MessageId, CallItemId;
    assert IsCallAt(ids + [id], id);
    forall i | i in itemIds
      ensures IsCallAt(ids + [id], itemIds[i])
    {
      var n: nat :| 1 <= n <= |ids| && itemIds[i] == CallItemId(n);
    }
    if msg != "" {
      var m: nat :| msg == MessageId(m);
    }
  }

  lemma {:induction false} RunPlaced(evs: seq<StreamEvent>)
    requires !HasDone(evs)
    ensures Inv(AfterAll(START, evs)) && Placed(evs, AfterAll(START, evs))
  {
    RunInv(evs);
    if |evs| == 0 {
    } else {
      hide Inv, Placed, AfterEvent;
      var init, ev := evs[..|evs| - 1], evs[|evs| - 1];
      assert evs == init + [ev];
      HasDoneSnoc(init, ev);
      RunPlaced(init);
      RunInv(init);
      PlacedStep(init, AfterAll(START, init), ev);
    }
  }

  lemma PlacedStep(evs: seq<StreamEvent>, w: Writer, ev: StreamEvent)
    requires Inv(w) && Placed(evs, w) && !ev.Done?
    ensures Placed(evs + [ev], AfterEvent(w, ev))
  {
    hide TextPlaced, CallsPlaced, MessageId, CallItemId;
    var ids := Told(w.out).announced;
    match ev
    case TextDelta(d) =>
      TextStep(evs, d, ids, w.msgItemId, w.callItemIds);
      AnnouncedText(w, d);
    case ToolCallStart(i, id, name) =>
      CallStep(evs, ev, ids, w.msgItemId, w.callItemIds);
      var n := w.itemSeq + 1;
      ToldSnoc(w.out, ItemAdded(w.itemSeq, CallItem(CallItemId(n), CallId(id, n), name, "")));
    case ToolCallDelta(i, args) =>
      StillPlaced(evs, ev, ids, w.msgItemId, w.callItemIds);
      if i in w.callItemIds {
        ToldSnoc(w.out, ArgumentsPiece(w.callItemIds[i], 0, args));
      }
    case ToolCallStop(_) => StillPlaced(evs, ev, ids, w.msgItemId, w.callItemIds);
  }

  lemma StillPlaced(evs: seq<StreamEvent>, ev: StreamEvent, ids: seq<string>, msg: string, itemIds: map<int, string>)
    requires TextPlaced(evs, ids, msg) && CallsPlaced(evs, ids, itemIds) && !OpensItem(ev)
    ensures TextPlaced(evs + [ev], ids, msg) && CallsPlaced(evs + [ev], ids, itemIds)
  {
    SeenSnoc(evs, ev);
    hide LeadCall, CallAfterText, Opened, TextSeen, MessageId, CallItemId, IsMessageId, IsCallAt;
  }

  lemma AnnouncedMessage(w: Writer)
    requires Inv(w)
    ensures var m := OpenMessage(w);
      var ids := Told(w.out).announced;
      && m.msgItemId == (if w.msgItemId == "" then MessageId(|ids| + 1) else w.msgItemId)
      && Told(m.out).announced == (if w.msgItemId == "" then ids + [MessageId(|ids| + 1)] else ids)
      && m.itemSeq == |Told(m.out).announced| && m.callItemIds == w.callItemIds
  {
    assert |Told(w.out).announced| == w.itemSeq;
    hide MessageId, Told, Inv;
    if w.msgItemId == "" {
      ToldSnoc(w.out, ItemAdded(w.itemSeq, MessageItem(MessageId(w.itemSeq + 1), "")));
    }
  }

  lemma AnnouncedText(w: Writer, d: string)
    requires Inv(w)
    ensures var t := WriteText(w, d);
      var ids := Told(w.out).announced;
      && t.msgItemId == (if w.msgItemId == "" then MessageId(|ids| + 1) else w.msgItemId)
      && Told(t.out).announced == (if w.msgItemId == "" then ids + [MessageId(|ids| + 1)] else ids)
      && t.out != [] && t.out[|t.out| - 1] == TextPiece(t.msgItemId, |Told(t.out).announced| - 1, d)
      && t.callItemIds == w.callItemIds
  {
    AnnouncedMessage(w);
    hide MessageId, Told, Inv, Tell, OpenMessage;
    var m := OpenMessage(w);
    ToldSnoc(m.out, TextPiece(m.msgItemId, m.itemSeq - 1, d));
    AnnouncedKept(Told(m.out), TextPiece(m.msgItemId, m.itemSeq - 1, d));
  }

  lemma AnnouncedKept(s: Story, f: Frame)
    ensures !f.ItemAdded? ==> Tell(s, f).announced == s.announced
  {
  }

  /**
   The output_index of a delta is the place of the item it names exactly in these cases: for text, when no call was
   started after the first text; for arguments, when the latest start of their index was the first item of all.
   */
  lemma OutputIndexMeaning(evs: seq<StreamEvent>, ev: StreamEvent)
    requires !HasDone(evs) && (ev.TextDelta? || ev.ToolCallDelta?) && !Rejects(AfterAll(START, evs), ev)
    ensures var fs := AfterEvent(AfterAll(START, evs), ev).out;
      var ids := Told(fs).announced;
      && fs != []
      && match fs[|fs| - 1]
         case TextPiece(id, k, _) => ev.TextDelta? && 0 <= k < |ids| && (ids[k] == id <==> !CallAfterText(evs))
         case ArgumentsPiece(id, k, _) =>
           ev.ToolCallDelta? && 0 <= k < |ids| && (ids[k] == id <==> LeadCall(evs) == Some(ev.index))
         case _ => false
  {
    var w := AfterAll(START, evs);
    RunPlaced(evs);
    assert !w.done;
    hide Told, Inv, TextPlaced, CallsPlaced, WriteText, WriteArguments, LeadCall, CallAfterText;
    PlacedStep(evs, w, ev);
    match ev
    case TextDelta(d) => TextIndex(evs, w, d);
    case ToolCallDelta(i, args) => ArgumentsIndex(evs, w, i, args);
  }

  lemma TextIndex(evs: seq<StreamEvent>, w: Writer, d: string)
    requires Inv(w) && Placed(evs, w)
    requires var t := WriteText(w, d); TextPlaced(evs + [TextDelta(d)], Told(t.out).announced, t.msgItemId)
    ensures var t := WriteText(w, d);
      var ids := Told(t.out).announced;
      && t.out != [] && t.out[|t.out| - 1] == TextPiece(t.msgItemId, |ids| - 1, d)
      && ids != [] && (ids[|ids| - 1] == t.msgItemId <==> !CallAfterText(evs))
  {
    AnnouncedText(w, d);
    SeenSnoc(evs, TextDelta(d));
    hide Told, CallAfterText, TextSeen, IsMessageId, MessageId;
    assert TextSeen(evs + [TextDelta(d)]);
  }

  lemma ArgumentsIndex(evs: seq<StreamEvent>, w: Writer, i: int, args: string)
    requires Inv(w) && Placed(evs, w) && i in w.callItemIds
    ensures var t := WriteArguments(w, i, args);
      var ids := Told(t.out).announced;
      && t.out != [] && t.out[|t.out| - 1] == ArgumentsPiece(w.callItemIds[i], 0, args)
      && ids != [] && (ids[0] == w.callItemIds[i] <==> LeadCall(evs) == Some(i))
  {
    ToldSnoc(w.out, ArgumentsPiece(w.callItemIds[i], 0, args));
    FirstIds();
    var ids := Told(w.out).announced;
    assert IsCallAt(ids, w.callItemIds[i]);
    assert ids[0] == MessageId(0 + 1) || ids[0] == CallItemId(0 + 1);
    hide Told, LeadCall, MessageId, CallItemId;
  }

  // ---------- The writer object ----------

  class ResponsesStreamWriter {
    var out: seq<Frame>
    var itemSeq: nat
    var msgItemId: string
    var callItemIds: map<int, string>
    var textBuf: string
    var output: seq<Item>
    var done: bool

    ghost function State(): Writer
      reads this
    {
      Writer(out, itemSeq, msgItemId, callItemIds, textBuf, output, done)
    }

    constructor ()
      ensures State() == START
    {
      out, itemSeq, msgItemId, callItemIds, textBuf, output, done := [], 0, "", map[], "", [], false;
    }

    /** `rejected` is the error return of the original. */
    method WriteEvent(ev: StreamEvent) returns (rejected: bool)
      modifies this
      ensures State() == AfterEvent(old(State()), ev)
      ensures rejected == Rejects(old(State()), ev)
    {
      rejected := false;
      if done {
        return;
      }
      match ev
      case TextDelta(d) =>
        if msgItemId == "" {
          itemSeq := itemSeq + 1;
          msgItemId := MessageId(itemSeq);
          Write(ItemAdded(itemSeq - 1, MessageItem(msgItemId, "")));
        }
        textBuf := textBuf + d;
        Write(TextPiece(msgItemId, itemSeq - 1, d));
      case ToolCallStart(index, id, name) =>
        itemSeq := itemSeq + 1;
        var item := CallItem(CallItemId(itemSeq), CallId(id, itemSeq), name, "");
        callItemIds := callItemIds[index := item.id];
        output := output + [item];
        Write(ItemAdded(itemSeq - 1, item));
      case ToolCallDelta(index, args) =>
        if index !in callItemIds {
          return true;
        }
        Write(ArgumentsPiece(callItemIds[index], 0, args));
      case ToolCallStop(_) =>
      case Done(_, usage) =>
        Close(usage);
    }

    method WriteError(msg: string)
      modifies this
      ensures State() == AfterError(old(State()), msg)
    {
      if done {
        return;
      }
      Write(ErrorFrame(msg));
      done := true;
    }

    method Finish()
      modifies this
      ensures State() == AfterFinish(old(State()))
    {
      if done {
        return;
      }
      Close(None);
    }

    method Close(usage: Option<Usage>)
      modifies this
      ensures State() == Conclude(old(State()), usage)
    {
      if msgItemId != "" {
        output := [MessageItem(msgItemId, textBuf)] + output;
      } else {
        assert [] + output == output;
      }
      Write(Completed(output, if usage.Some? then usage.value else Usage(0, 0, 0)));
      done := true;
    }

    method Write(f: Frame)
      modifies this`out
      ensures out == old(out) + [f]
    {
      out := out + [f];
    }
  }
}
