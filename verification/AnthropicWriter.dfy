/**
 The client-facing Anthropic stream writer, and the grammar that every one of its streams obeys,
 whatever events it is given and in whatever order.
 */
module AnthropicWriter {
  import opened Wrappers
  import opened Text
  import opened Ir

  // ---------- Frames ----------

  datatype Block = TextBlock | ToolBlock(id: string, name: string)

  /** One SSE event of an Anthropic stream. */
  datatype Frame =
    | MessageStart(id: string, model: string)
    | BlockStart(index: int, block: Block)
    | TextPiece(index: int, text: string)
    | JsonPiece(index: int, partial: string)
    | BlockStop(index: int)
    | MessageDelta(stopReason: string, inputTokens: int, outputTokens: int)
    | MessageStop
    | ErrorFrame(message: string)

  /** OpenAI finish_reason to Anthropic stop_reason. */
  function StopReason(finish: string): string {
    if finish == "tool_calls" then "tool_use" else
    if finish == "length" then "max_tokens" else "end_turn"
  }

  function ToolId(id: string, block: nat): string {
    if id == "" then "toolu_" + Decimal(block) else id
  }

  // ---------- The writer ----------

  /** `textBlock` is -1 while no text block is open; `out` is everything written so far. */
  datatype Writer = Writer(
    id: string, model: string, out: seq<Frame>,
    started: bool, blockSeq: nat, textBlock: int, toolBlocks: map<int, nat>, openBlocks: seq<nat>, done: bool)

  function Start(id: string, model: string): Writer {
    Writer(id, model, [], false, 0, -1, map[], [], false)
  }

  function Emit(w: Writer, f: Frame): Writer {
    w.(out := w.out + [f])
  }

  function StartMessage(w: Writer): Writer {
    if w.started then w else Emit(w.(started := true), MessageStart(w.id, w.model))
  }

  function OpenText(w: Writer): Writer {
    if w.textBlock >= 0 then w else
    Emit(w.(blockSeq := w.blockSeq + 1, textBlock := w.blockSeq, openBlocks := w.openBlocks + [w.blockSeq]),
         BlockStart(w.blockSeq, TextBlock))
  }

  function Without<T(==)>(s: seq<T>, x: T): seq<T> {
    if |s| == 0 then [] else if s[0] == x then s[1..] else [s[0]] + Without(s[1..], x)
  }

  function CloseBlock(w: Writer, idx: nat): Writer {
    if idx !in w.openBlocks then w else
    Emit(w.(openBlocks := Without(w.openBlocks, idx), textBlock := if w.textBlock == idx then -1 else w.textBlock),
         BlockStop(idx))
  }

  function CloseBlocks(w: Writer, ids: seq<nat>): Writer {
    if |ids| == 0 then w else CloseBlock(CloseBlocks(w, ids[..|ids| - 1]), ids[|ids| - 1])
  }

  function FinishMessage(w: Writer, finish: string, usage: Option<Usage>): Writer {
    var s := StartMessage(w);
    EndMessage(CloseBlocks(s, s.openBlocks), finish, usage)
  }

  function EndMessage(w: Writer, finish: string, usage: Option<Usage>): Writer {
    var u := if usage.Some? then usage.value else Usage(0, 0, 0);
    Emit(Emit(w, MessageDelta(StopReason(finish), u.prompt, u.completion)), MessageStop).(done := true)
  }

  /** A tool block opens: an open text block is closed first. */
  function OpenTool(w: Writer, index: int, id: string, name: string): Writer {
    PushTool(if w.textBlock >= 0 then CloseBlock(w, w.textBlock) else w, index, id, name)
  }

  function PushTool(w: Writer, index: int, id: string, name: string): Writer {
    var b := w.blockSeq;
    Emit(w.(blockSeq := b + 1, toolBlocks := w.toolBlocks[index := b], openBlocks := w.openBlocks + [b]),
         BlockStart(b, ToolBlock(ToolId(id, b), name)))
  }

  function AfterEvent(w: Writer, ev: StreamEvent): Writer {
    if w.done then w else
    var s := StartMessage(w);
    match ev
    case TextDelta(d) => WriteText(s, d)
    case ToolCallStart(i, id, name) => OpenTool(s, i, id, name)
    case ToolCallDelta(i, args) => WriteArguments(s, i, args)
    case ToolCallStop(i) => if i in s.toolBlocks then CloseBlock(s, s.toolBlocks[i]) else s
    case Done(reason, usage) => FinishMessage(s, reason, usage)
  }

  function WriteText(w: Writer, d: string): Writer {
    var t := OpenText(w);
    Emit(t, TextPiece(t.textBlock, d))
  }

  function WriteArguments(w: Writer, index: int, args: string): Writer {
    if index in w.toolBlocks then Emit(w, JsonPiece(w.toolBlocks[index], args)) else w
  }

  /** The one error WriteEvent returns: arguments for a tool call that was never started. */
  predicate Rejects(w: Writer, ev: StreamEvent) {
    !w.done && ev.ToolCallDelta? && ev.index !in w.toolBlocks
  }

  function AfterError(w: Writer, msg: string): Writer {
    if w.done then w else Emit(w, ErrorFrame(msg)).(done := true)
  }

  function AfterFinish(w: Writer): Writer {
    if w.done then w else FinishMessage(w, "", None)
  }

  function AfterAll(w: Writer, evs: seq<StreamEvent>): Writer {
    if |evs| == 0 then w else AfterEvent(AfterAll(w, evs[..|evs| - 1]), evs[|evs| - 1])
  }

  // ---------- The grammar ----------

  datatype Phase = Before | Body | Closing | Ended

  /** What a list of frames has established so far. */
  datatype Summary = Summary(phase: Phase, starts: nat, openText: set<int>, openTools: set<int>, tools: set<int>)

  function Next(s: Summary, f: Frame): Summary {
    match f
    case MessageStart(_, _) => s.(phase := Body)
    case BlockStart(i, TextBlock) => s.(starts := s.starts + 1, openText := s.openText + {i})
    case BlockStart(i, ToolBlock(_, _)) =>
      s.(starts := s.starts + 1, openTools := s.openTools + {i}, tools := s.tools + {i})
    case TextPiece(_, _) => s
    case JsonPiece(_, _) => s
    case BlockStop(i) => s.(openText := s.openText - {i}, openTools := s.openTools - {i})
    case MessageDelta(_, _, _) => s.(phase := Closing)
    case MessageStop => s.(phase := Ended)
    case ErrorFrame(_) => s.(phase := Ended)
  }

  function Summarise(fs: seq<Frame>): Summary {
    if |fs| == 0 then Summary(Before, 0, {}, {}, {}) else Next(Summarise(fs[..|fs| - 1]), fs[|fs| - 1])
  }

  /** Which frame may follow. */
  predicate Allowed(s: Summary, f: Frame) {
    match f
    case MessageStart(_, _) => s.phase == Before
    case BlockStart(i, _) => s.phase == Body && i == s.starts && s.openText == {}
    case TextPiece(i, _) => s.phase == Body && i in s.openText
    case JsonPiece(i, _) => s.phase == Body && i in s.tools
    case BlockStop(i) => s.phase == Body && i in s.openText + s.openTools
    case MessageDelta(_, _, _) => s.phase == Body && s.openText == {} && s.openTools == {}
    case MessageStop => s.phase == Closing
    case ErrorFrame(_) => s.phase == Before || s.phase == Body
  }

  predicate Legal(fs: seq<Frame>) {
    |fs| == 0 || (Legal(fs[..|fs| - 1]) && Allowed(Summarise(fs[..|fs| - 1]), fs[|fs| - 1]))
  }

  lemma Snoc(fs: seq<Frame>, f: Frame)
    ensures Summarise(fs + [f]) == Next(Summarise(fs), f)
    ensures Legal(fs + [f]) == (Legal(fs) && Allowed(Summarise(fs), f))
  {
    assert (fs + [f])[..|fs|] == fs;
  }

  // ---------- The writer keeps the grammar ----------

  ghost predicate Distinct(s: seq<nat>) {
    forall i, j :: 0 <= i < j < |s| ==> s[i] != s[j]
  }

  ghost function Elements(s: seq<nat>): (r: set<int>)
    ensures forall x: int :: x in r <==> x >= 0 && x in s
  {
    set x: nat | x in s :: x as int
  }

  /** The writer's fields agree with what its output has established. */
  ghost predicate Inv(w: Writer) {
    var s := Summarise(w.out);
    && Legal(w.out)
    && (if w.done then s.phase == Ended else s.phase == if w.started then Body else Before)
    && s.starts == w.blockSeq
    && Distinct(w.openBlocks)
    && s.openText == (if w.textBlock >= 0 then {w.textBlock} else {})
    && (w.textBlock >= 0 ==> |w.openBlocks| > 0 && w.openBlocks[|w.openBlocks| - 1] == w.textBlock)
    && s.openText !! s.openTools
    && (!w.done ==> Elements(w.openBlocks) == s.openText + s.openTools)
    && s.openTools <= s.tools
    && (forall i :: i in s.tools ==> 0 <= i < s.starts)
    && s.openText !! s.tools
    && (w.textBlock < w.blockSeq)
    && (forall i :: i in w.toolBlocks ==> w.toolBlocks[i] in s.tools)
    && (!w.started ==> w.blockSeq == 0)
  }

  lemma StartInv(id: string, model: string)
    ensures Inv(Start(id, model))
  {
  }

  lemma StartMessageInv(w: Writer)
    requires Inv(w) && !w.done
    ensures Inv(StartMessage(w)) && StartMessage(w).started && !StartMessage(w).done
  {
    Snoc(w.out, MessageStart(w.id, w.model));
  }

  lemma OpenTextInv(w: Writer)
    requires Inv(w) && !w.done && w.started
    ensures var t := OpenText(w); Inv(t) && !t.done && t.started && t.textBlock >= 0
  {
    if w.textBlock < 0 {
      Snoc(w.out, BlockStart(w.blockSeq, TextBlock));
    }
  }

  lemma {:induction false} WithoutElements(s: seq<nat>, x: nat)
    requires Distinct(s) && x in s
    ensures Distinct(Without(s, x)) && Elements(Without(s, x)) == Elements(s) - {x}
    ensures s[|s| - 1] != x ==> Without(s, x) != [] && Without(s, x)[|Without(s, x)| - 1] == s[|s| - 1]
  {
    if s[0] == x {
      assert forall y :: y in s[1..] <==> y in s && y != x;
    } else {
      assert x in s[1..];
      WithoutElements(s[1..], x);
      assert Elements(s) == Elements(s[1..]) + {s[0]};
      var t := Without(s[1..], x);
      assert forall y: nat :: y in t <==> y in Elements(t);
      assert s[0] !in Elements(t);
      assert Elements([s[0]] + t) == Elements(t) + {s[0]};
    }
  }

  lemma CloseBlockInv(w: Writer, idx: nat)
    requires Inv(w) && !w.done && w.started
    ensures var c := CloseBlock(w, idx);
      Inv(c) && !c.done && c.started && c.blockSeq == w.blockSeq && c.toolBlocks == w.toolBlocks
      && (w.textBlock == idx ==> c.textBlock == -1) && (w.textBlock != idx ==> c.textBlock == w.textBlock)
      && Elements(c.openBlocks) == Elements(w.openBlocks) - {idx}
  {
    if idx in w.openBlocks {
      Snoc(w.out, BlockStop(idx));
      WithoutElements(w.openBlocks, idx);
    }
  }

  lemma {:induction false} CloseBlocksInv(w: Writer, ids: seq<nat>)
    requires Inv(w) && !w.done && w.started
    ensures var c := CloseBlocks(w, ids);
      Inv(c) && !c.done && c.started && Elements(c.openBlocks) == Elements(w.openBlocks) - Elements(ids)
  {
    if |ids| == 0 {
    } else {
      var init := ids[..|ids| - 1];
      CloseBlocksInv(w, init);
      CloseBlockInv(CloseBlocks(w, init), ids[|ids| - 1]);
      assert ids == init + [ids[|ids| - 1]];
    }
  }

  lemma EndMessageInv(w: Writer, finish: string, usage: Option<Usage>)
    requires Inv(w) && !w.done && w.started && Elements(w.openBlocks) == {}
    ensures Inv(EndMessage(w, finish, usage))
  {
    var u := if usage.Some? then usage.value else Usage(0, 0, 0);
    var f := MessageDelta(StopReason(finish), u.prompt, u.completion);
    Snoc(w.out, f);
    Snoc(w.out + [f], MessageStop);
  }

  lemma FinishInv(w: Writer, finish: string, usage: Option<Usage>)
    requires Inv(w) && !w.done
    ensures Inv(FinishMessage(w, finish, usage))
  {
    StartMessageInv(w);
    var s := StartMessage(w);
    CloseBlocksInv(s, s.openBlocks);
    EndMessageInv(CloseBlocks(s, s.openBlocks), finish, usage);
  }

  lemma PushToolInv(w: Writer, index: int, id: string, name: string)
    requires Inv(w) && !w.done && w.started && w.textBlock < 0
    ensures var t := PushTool(w, index, id, name); Inv(t) && !t.done && t.started
  {
    var f := BlockStart(w.blockSeq, ToolBlock(ToolId(id, w.blockSeq), name));
    Snoc(w.out, f);
    var t := PushTool(w, index, id, name);
    assert w.blockSeq !in w.openBlocks by {
      assert forall x :: x in w.openBlocks ==> x in Elements(w.openBlocks);
    }
    assert Elements(t.openBlocks) == Elements(w.openBlocks) + {w.blockSeq};
  }

  lemma OpenToolInv(w: Writer, index: int, id: string, name: string)
    requires Inv(w) && !w.done && w.started
    ensures var t := OpenTool(w, index, id, name); Inv(t) && !t.done && t.started
  {
    if w.textBlock >= 0 {
      CloseBlockInv(w, w.textBlock);
    }
    PushToolInv(if w.textBlock >= 0 then CloseBlock(w, w.textBlock) else w, index, id, name);
  }

  lemma WriteTextInv(w: Writer, d: string)
    requires Inv(w) && !w.done && w.started
    ensures Inv(WriteText(w, d))
  {
    OpenTextInv(w);
    var t := OpenText(w);
    Snoc(t.out, TextPiece(t.textBlock, d));
  }

  lemma WriteArgumentsInv(w: Writer, index: int, args: string)
    requires Inv(w) && !w.done && w.started
    ensures Inv(WriteArguments(w, index, args))
  {
    if index in w.toolBlocks {
      Snoc(w.out, JsonPiece(w.toolBlocks[index], args));
    }
  }

  lemma EventInv(w: Writer, ev: StreamEvent)
    requires Inv(w)
    ensures Inv(AfterEvent(w, ev))
  {
    if !w.done {
      StartMessageInv(w);
      var s := StartMessage(w);
      match ev
      case TextDelta(d) => WriteTextInv(s, d);
      case ToolCallStart(i, id, name) => OpenToolInv(s, i, id, name);
      case ToolCallDelta(i, args) => WriteArgumentsInv(s, i, args);
      case ToolCallStop(i) =>
        if i in s.toolBlocks {
          CloseBlockInv(s, s.toolBlocks[i]);
        }
      case Done(reason, usage) => FinishInv(s, reason, usage);
    }
  }

  // ---------- Whole runs ----------

  /** One call on the writer. */
  datatype Op = Event(ev: StreamEvent) | Error(msg: string) | Finish

  function Apply(w: Writer, op: Op): Writer {
    match op
    case Event(ev) => AfterEvent(w, ev)
    case Error(msg) => AfterError(w, msg)
    case Finish => AfterFinish(w)
  }

  function ApplyAll(w: Writer, ops: seq<Op>): Writer {
    if |ops| == 0 then w else Apply(ApplyAll(w, ops[..|ops| - 1]), ops[|ops| - 1])
  }

  lemma ErrorInv(w: Writer, msg: string)
    requires Inv(w)
    ensures Inv(AfterError(w, msg))
  {
    if !w.done {
      Snoc(w.out, ErrorFrame(msg));
    }
  }

  lemma ApplyInv(w: Writer, op: Op)
    requires Inv(w)
    ensures Inv(Apply(w, op))
  {
    match op
    case Event(ev) => EventInv(w, ev);
    case Error(msg) => ErrorInv(w, msg);
    case Finish =>
      if !w.done {
        FinishInv(w, "", None);
      }
  }

  lemma {:induction false} RunInv(id: string, model: string, ops: seq<Op>)
    ensures Inv(ApplyAll(Start(id, model), ops))
  {
    if |ops| == 0 {
      StartInv(id, model);
    } else {
      RunInv(id, model, ops[..|ops| - 1]);
      ApplyInv(ApplyAll(Start(id, model), ops[..|ops| - 1]), ops[|ops| - 1]);
    }
  }

  /** After the stream has ended, no call writes anything. */
  lemma {:induction false} EndedIsFinal(w: Writer, ops: seq<Op>)
    requires w.done
    ensures ApplyAll(w, ops) == w
  {
    if |ops| == 0 {
    } else {
      EndedIsFinal(w, ops[..|ops| - 1]);
    }
  }

  // ---------- What the grammar says, position by position ----------

  predicate StartsBlock(f: Frame, index: int, text: bool) {
    f.BlockStart? && f.index == index && f.block.TextBlock? == text
  }

  /** A block that was started and has not been stopped since. */
  ghost predicate Live(fs: seq<Frame>, index: int, text: bool) {
    exists j :: 0 <= j < |fs| && StartsBlock(fs[j], index, text) && BlockStop(index) !in fs[j + 1..]
  }

  function CountStarts(fs: seq<Frame>): nat {
    if |fs| == 0 then 0 else
    CountStarts(fs[..|fs| - 1]) + (if fs[|fs| - 1].BlockStart? then 1 else 0)
  }

  lemma LiveSnoc(fs: seq<Frame>, f: Frame, index: int, text: bool)
    ensures Live(fs + [f], index, text) <==>
      StartsBlock(f, index, text) || (Live(fs, index, text) && f != BlockStop(index))
  {
    var all := fs + [f];
    if Live(fs, index, text) && f != BlockStop(index) {
      var j :| 0 <= j < |fs| && StartsBlock(fs[j], index, text) && BlockStop(index) !in fs[j + 1..];
      assert all[j + 1..] == fs[j + 1..] + [f];
      assert StartsBlock(all[j], index, text);
    }
    if StartsBlock(f, index, text) {
      assert StartsBlock(all[|fs|], index, text) && all[|fs| + 1..] == [];
    }
    if Live(all, index, text) && !StartsBlock(f, index, text) {
      var j :| 0 <= j < |all| && StartsBlock(all[j], index, text) && BlockStop(index) !in all[j + 1..];
      assert all[j + 1..] == fs[j + 1..] + [f];
    }
  }

  lemma {:induction false} SummaryMeaning(fs: seq<Frame>)
    ensures Summarise(fs).starts == CountStarts(fs)
    ensures forall i :: i in Summarise(fs).openText <==> Live(fs, i, true)
    ensures forall i :: i in Summarise(fs).openTools <==> Live(fs, i, false)
  {
    if |fs| == 0 {
    } else {
      var init, f := fs[..|fs| - 1], fs[|fs| - 1];
      assert fs == init + [f];
      SummaryMeaning(init);
      forall i
        ensures i in Summarise(fs).openText <==> Live(fs, i, true)
        ensures i in Summarise(fs).openTools <==> Live(fs, i, false)
      {
        LiveSnoc(init, f, i, true);
        LiveSnoc(init, f, i, false);
      }
    }
  }

  ghost predicate ToolStarted(fs: seq<Frame>, index: int) {
    exists j :: 0 <= j < |fs| && StartsBlock(fs[j], index, false)
  }

  lemma {:induction false} ToolsMeaning(fs: seq<Frame>)
    ensures forall i :: i in Summarise(fs).tools <==> ToolStarted(fs, i)
  {
    if |fs| == 0 {
    } else {
      var init, f := fs[..|fs| - 1], fs[|fs| - 1];
      ToolsMeaning(init);
      forall i
        ensures ToolStarted(fs, i) <==> ToolStarted(init, i) || StartsBlock(f, i, false)
      {
        if ToolStarted(init, i) {
          var j :| 0 <= j < |init| && StartsBlock(init[j], i, false);
          assert StartsBlock(fs[j], i, false);
        }
        if StartsBlock(f, i, false) {
          assert StartsBlock(fs[|init|], i, false);
        }
      }
    }
  }

  lemma {:induction false} LegalAt(fs: seq<Frame>, k: nat)
    requires Legal(fs) && k < |fs|
    ensures Legal(fs[..k]) && Allowed(Summarise(fs[..k]), fs[k])
  {
    if k < |fs| - 1 {
      LegalAt(fs[..|fs| - 1], k);
      assert fs[..|fs| - 1][..k] == fs[..k];
    }
  }

  lemma {:induction false} PhaseMeaning(fs: seq<Frame>)
    requires Legal(fs)
    ensures var s := Summarise(fs);
      && (s.phase == Before <==> fs == [])
      && (s.phase == Body ==> fs[0].MessageStart? && forall f :: f in fs ==> !f.MessageDelta?)
      && (s.phase == Closing ==> fs[|fs| - 1].MessageDelta?)
  {
    if |fs| == 0 {
    } else {
      var init, f := fs[..|fs| - 1], fs[|fs| - 1];
      assert fs == init + [f];
      PhaseMeaning(init);
    }
  }

  /** The promises of the frame grammar for the frame at position k. */
  ghost predicate WellPlaced(fs: seq<Frame>, k: nat)
    requires k < |fs|
  {
    var before := fs[..k];
    match fs[k]
    case MessageStart(_, _) => k == 0
    case BlockStart(i, _) =>
      k > 0 && i == CountStarts(before) && forall b :: !Live(before, b, true)
    case TextPiece(i, _) => Live(before, i, true)
    case JsonPiece(i, _) => ToolStarted(before, i)
    case BlockStop(i) => Live(before, i, true) || Live(before, i, false)
    case MessageDelta(_, _, _) =>
      (forall b, t :: !Live(before, b, t)) && (forall j :: 0 <= j < k ==> !fs[j].MessageDelta?)
    case MessageStop => k == |fs| - 1 && k > 0 && fs[k - 1].MessageDelta?
    case ErrorFrame(_) => k == |fs| - 1 && (forall j :: 0 <= j < k ==> !fs[j].MessageDelta?)
  }

  lemma LegalMeansWellPlaced(fs: seq<Frame>, k: nat)
    requires Legal(fs) && k < |fs|
    ensures WellPlaced(fs, k)
  {
    LegalAt(fs, k);
    SummaryMeaning(fs[..k]);
    ToolsMeaning(fs[..k]);
    PhaseMeaning(fs[..k]);
    if fs[k].MessageStop? || fs[k].ErrorFrame? {
      NothingAfterEnd(fs, k);
    }
  }

  lemma NothingAfterEnd(fs: seq<Frame>, k: nat)
    requires Legal(fs) && k < |fs| && (fs[k].MessageStop? || fs[k].ErrorFrame?)
    ensures k == |fs| - 1
  {
    if k + 1 < |fs| {
      LegalAt(fs, k + 1);
      assert false;
    }
  }

  lemma FirstFrame(fs: seq<Frame>)
    requires Legal(fs) && fs != []
    ensures fs[0].MessageStart? || (fs[0].ErrorFrame? && |fs| == 1)
  {
    LegalAt(fs, 0);
    if fs[0].ErrorFrame? {
      NothingAfterEnd(fs, 0);
    }
  }

  lemma EndMeaning(fs: seq<Frame>)
    ensures Summarise(fs).phase == Ended ==> fs != []
    ensures Legal(fs) && fs != [] ==>
      (Summarise(fs).phase == Ended <==> fs[|fs| - 1].MessageStop? || fs[|fs| - 1].ErrorFrame?)
  {
    if fs != [] {
      assert fs == fs[..|fs| - 1] + [fs[|fs| - 1]];
    }
  }

  /** The grammar holds of every stream the writer can be made to write, errors and late calls included. */
  lemma WriterGrammar(id: string, model: string, ops: seq<Op>)
    ensures var w := ApplyAll(Start(id, model), ops);
      && (forall k :: 0 <= k < |w.out| ==> WellPlaced(w.out, k))
      && (w.out != [] ==> w.out[0] == MessageStart(id, model) || (w.out[0].ErrorFrame? && |w.out| == 1))
      && (w.done <==> w.out != [] && (w.out[|w.out| - 1].MessageStop? || w.out[|w.out| - 1].ErrorFrame?))
  {
    RunInv(id, model, ops);
    FirstNames(id, model, ops);
    GrammarOf(ApplyAll(Start(id, model), ops));
  }

  /** The first frame, once there is one. */
  ghost predicate Opens(w: Writer, id: string, model: string) {
    && w.id == id && w.model == model
    && (w.out == [] ==> !w.started)
    && (w.out != [] && w.out[0].MessageStart? ==> w.out[0] == MessageStart(id, model))
    && (w.out != [] && !w.out[0].MessageStart? ==> w.done)
  }

  lemma EmitOpens(w: Writer, f: Frame, id: string, model: string)
    requires Opens(w, id, model) && w.out != []
    ensures Opens(Emit(w, f), id, model)
  {
  }

  lemma {:induction false} CloseOpens(w: Writer, ids: seq<nat>, id: string, model: string)
    requires Opens(w, id, model) && w.out != []
    ensures Opens(CloseBlocks(w, ids), id, model) && CloseBlocks(w, ids).out != []
  {
    if |ids| == 0 {
    } else {
      CloseOpens(w, ids[..|ids| - 1], id, model);
    }
  }

  lemma StartOpens(w: Writer, id: string, model: string)
    requires Opens(w, id, model) && !w.done
    ensures Opens(StartMessage(w), id, model) && StartMessage(w).out != []
  {
  }

  lemma BlockOpens(w: Writer, ev: StreamEvent, id: string, model: string)
    requires Opens(w, id, model) && w.out != [] && !ev.Done?
    ensures match ev
      case TextDelta(d) => Opens(WriteText(w, d), id, model)
      case ToolCallStart(i, tool, name) => Opens(OpenTool(w, i, tool, name), id, model)
      case ToolCallDelta(i, args) => Opens(WriteArguments(w, i, args), id, model)
      case ToolCallStop(i) => i in w.toolBlocks ==> Opens(CloseBlock(w, w.toolBlocks[i]), id, model)
      case Done(_, _) => true
  {
    hide Without, ToolId;
  }

  lemma FinishOpens(w: Writer, finish: string, usage: Option<Usage>, id: string, model: string)
    requires Opens(w, id, model) && !w.done
    ensures Opens(FinishMessage(w, finish, usage), id, model)
  {
    hide CloseBlocks, StartMessage, StopReason;
    StartOpens(w, id, model);
    var s := StartMessage(w);
    CloseOpens(s, s.openBlocks, id, model);
  }

  lemma ApplyOpens(w: Writer, op: Op, id: string, model: string)
    requires Opens(w, id, model)
    ensures Opens(Apply(w, op), id, model)
  {
    if !w.done {
      match op
      case Error(_) =>
      case Finish => FinishOpens(w, "", None, id, model);
      case Event(ev) => EventOpens(w, ev, id, model);
    }
  }

  lemma EventOpens(w: Writer, ev: StreamEvent, id: string, model: string)
    requires Opens(w, id, model) && !w.done
    ensures Opens(AfterEvent(w, ev), id, model)
  {
    StartOpens(w, id, model);
    var s := StartMessage(w);
    assert !s.done;
    hide StartMessage, FinishMessage, WriteText, OpenTool, WriteArguments, CloseBlock, Opens;
    match ev
    case Done(reason, usage) => FinishOpens(s, reason, usage, id, model);
    case _ => BlockOpens(s, ev, id, model);
  }

  lemma {:induction false} FirstNames(id: string, model: string, ops: seq<Op>)
    ensures Opens(ApplyAll(Start(id, model), ops), id, model)
  {
    hide Apply;
    if |ops| == 0 {
    } else {
      FirstNames(id, model, ops[..|ops| - 1]);
      ApplyOpens(ApplyAll(Start(id, model), ops[..|ops| - 1]), ops[|ops| - 1], id, model);
    }
  }

  /** A done event ends the message with its reason in Anthropic's words and the counts of its usage, or zeros. */
  lemma EndingFrames(w: Writer, finish: string, usage: Option<Usage>)
    requires !w.done
    ensures var out := AfterEvent(w, Done(finish, usage)).out;
      var reason := match finish case "tool_calls" => "tool_use" case "length" => "max_tokens" case _ => "end_turn";
      && |out| >= 2 && out[|out| - 1] == MessageStop
      && match usage
         case Some(Usage(prompt, completion, _)) => out[|out| - 2] == MessageDelta(reason, prompt, completion)
         case None => out[|out| - 2] == MessageDelta(reason, 0, 0)
  {
    hide CloseBlocks;
  }

  lemma GrammarOf(w: Writer)
    requires Inv(w)
    ensures forall k :: 0 <= k < |w.out| ==> WellPlaced(w.out, k)
    ensures w.out != [] ==> w.out[0].MessageStart? || (w.out[0].ErrorFrame? && |w.out| == 1)
    ensures w.done <==> w.out != [] && (w.out[|w.out| - 1].MessageStop? || w.out[|w.out| - 1].ErrorFrame?)
  {
    forall k | 0 <= k < |w.out|
      ensures WellPlaced(w.out, k)
    {
      LegalMeansWellPlaced(w.out, k);
    }
    if w.out != [] {
      FirstFrame(w.out);
    }
    EndMeaning(w.out);
  }

  // ---------- The writer object ----------

  class AnthropicStreamWriter {
    const id: string
    const model: string
    var out: seq<Frame>
    var started: bool
    var blockSeq: nat
    var textBlock: int
    var toolBlocks: map<int, nat>
    var openBlocks: seq<nat>
    var done: bool

    ghost function State(): Writer
      reads this
    {
      Writer(id, model, out, started, blockSeq, textBlock, toolBlocks, openBlocks, done)
    }

    constructor (id: string, model: string)
      ensures State() == Start(id, model)
    {
      this.id, this.model := id, model;
      out, started, blockSeq, textBlock, toolBlocks, openBlocks, done := [], false, 0, -1, map[], [], false;
    }

    /** `rejected` is the error return of the original. */
    method WriteEvent(ev: StreamEvent) returns (rejected: bool)
      modifies this
      ensures State() == AfterEvent(old(State()), ev)
      ensures rejected == Rejects(old(State()), ev)
    {
      rejected := false;
      if done {
        return;
      }
      WriteMessageStartIfNeeded();
      match ev
      case TextDelta(d) =>
        EnsureTextBlock();
        WriteFrame(TextPiece(textBlock, d));
      case ToolCallStart(index, toolId, name) =>
        if textBlock >= 0 {
          Close(textBlock);
        }
        var idx := blockSeq;
        blockSeq := blockSeq + 1;
        toolBlocks := toolBlocks[index := idx];
        openBlocks := openBlocks + [idx];
        WriteFrame(BlockStart(idx, ToolBlock(ToolId(toolId, idx), name)));
      case ToolCallDelta(index, args) =>
        if index !in toolBlocks {
          return true;
        }
        WriteFrame(JsonPiece(toolBlocks[index], args));
      case ToolCallStop(index) =>
        if index in toolBlocks {
          Close(toolBlocks[index]);
        }
      case Done(reason, usage) =>
        Complete(reason, usage);
    }

    method WriteError(msg: string)
      modifies this
      ensures State() == AfterError(old(State()), msg)
    {
      if done {
        return;
      }
      WriteFrame(ErrorFrame(msg));
      done := true;
    }

    method Finish()
      modifies this
      ensures State() == AfterFinish(old(State()))
    {
      if done {
        return;
      }
      Complete("", None);
    }

    method WriteMessageStartIfNeeded()
      modifies this
      ensures State() == StartMessage(old(State()))
    {
      if started {
        return;
      }
      started := true;
      WriteFrame(MessageStart(id, model));
    }

    method EnsureTextBlock()
      modifies this
      ensures State() == OpenText(old(State()))
    {
      if textBlock >= 0 {
        return;
      }
      var idx := blockSeq;
      blockSeq := blockSeq + 1;
      textBlock := idx;
      openBlocks := openBlocks + [idx];
      WriteFrame(BlockStart(idx, TextBlock));
    }

    /** The search for the block in the list of open blocks, in opening order. */
    method Close(idx: nat)
      modifies this
      ensures State() == CloseBlock(old(State()), idx)
    {
      var i := 0;
      while i < |openBlocks|
        invariant 0 <= i <= |openBlocks|
        invariant idx !in openBlocks[..i]
        invariant State() == old(State())
      {
        if openBlocks[i] == idx {
          WithoutAt(openBlocks, i);
          openBlocks := openBlocks[..i] + openBlocks[i + 1..];
          if textBlock == idx {
            textBlock := -1;
          }
          WriteFrame(BlockStop(idx));
          return;
        }
        i := i + 1;
      }
    }

    /** The loop of finishMessage: it walks a copy of the list, since closing changes the list itself. */
    method CloseAll()
      modifies this
      ensures State() == CloseBlocks(old(State()), old(openBlocks))
    {
      var pending := openBlocks;
      var i := 0;
      while i < |pending|
        invariant 0 <= i <= |pending|
        invariant State() == CloseBlocks(old(State()), pending[..i])
      {
        assert pending[..i + 1][..i] == pending[..i];
        Close(pending[i]);
        i := i + 1;
      }
      assert pending[..i] == pending;
    }

    method Complete(reason: string, usage: Option<Usage>)
      modifies this
      ensures State() == FinishMessage(old(State()), reason, usage)
    {
      WriteMessageStartIfNeeded();
      CloseAll();
      var input, output := 0, 0;
      if usage.Some? {
        input, output := usage.value.prompt, usage.value.completion;
      }
      WriteFrame(MessageDelta(StopReason(reason), input, output));
      WriteFrame(MessageStop);
      done := true;
    }

    method WriteFrame(f: Frame)
      modifies this`out
      ensures out == old(out) + [f]
    {
      out := out + [f];
    }
  }

  lemma {:induction false} WithoutAt(s: seq<nat>, i: nat)
    requires i < |s| && s[i] !in s[..i]
    ensures Without(s, s[i]) == s[..i] + s[i + 1..]
  {
    if i == 0 {
    } else {
      assert s[0] == s[..i][0];
      assert s[1..][..i - 1] == s[..i][1..];
      WithoutAt(s[1..], i - 1);
    }
  }
}
